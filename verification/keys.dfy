/** The hexadecimal keypad: CHIP-8 key `i` is the physical keyboard key
    `KeyMap[i]`, given by its windowing-library key code (the ASCII code of
    the key's upper-case letter or digit). */
module Keys {

  /** The key event actions of the windowing library. */
  datatype KeyAction = Release | Press | Repeat

  const KeyCount := 16

  /** Physical key codes for CHIP-8 keys 0..F: X 1 2 3 / Q W E / A S D /
      Z C / 4 R F V. */
  const KeyMap: seq<int> := [
    88, // 0: key X
    49, // 1: key 1
    50, // 2: key 2
    51, // 3: key 3
    81, // 4: key Q
    87, // 5: key W
    69, // 6: key E
    65, // 7: key A
    83, // 8: key S
    68, // 9: key D
    90, // A: key Z
    67, // B: key C
    52, // C: key 4
    82, // D: key R
    70, // E: key F
    86  // F: key V
  ]

  /** The CHIP-8 key a physical key stands for, if any: the first entry of
      the table that matches, as a scan of the table finds it. */
  function KeyOf(code: int): (k: int)
    ensures -1 <= k < KeyCount
    ensures k >= 0 ==> KeyMap[k] == code && forall i | 0 <= i < k :: KeyMap[i] != code
    ensures k == -1 ==> forall i | 0 <= i < KeyCount :: KeyMap[i] != code
  {
    FirstMatch(code, 0)
  }

  function FirstMatch(code: int, i: nat): (k: int)
    requires i <= KeyCount
    ensures k == -1 || i <= k < KeyCount
    ensures k >= 0 ==> KeyMap[k] == code && forall j | i <= j < k :: KeyMap[j] != code
    ensures k == -1 ==> forall j | i <= j < KeyCount :: KeyMap[j] != code
    decreases KeyCount - i
  {
    if i == KeyCount then -1
    else if KeyMap[i] == code then i
    else FirstMatch(code, i + 1)
  }

  /** No two CHIP-8 keys share a physical key, so the scan finds the only match. */
  lemma KeyMapInjective(i: int, j: int)
    requires 0 <= i < KeyCount && 0 <= j < KeyCount && i != j
    ensures KeyMap[i] != KeyMap[j]
  {
  }

  /** Looking up the physical key of CHIP-8 key `i` gives back `i`. */
  lemma KeyOfKeyMap(i: int)
    requires 0 <= i < KeyCount
    ensures KeyOf(KeyMap[i]) == i
  {
    var k := KeyOf(KeyMap[i]);
    if k != i {
      KeyMapInjective(i, k);
    }
  }
}
