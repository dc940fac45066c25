/** The resolution of a key wait. `Fx0A` only sets the wait gate; the key
    event handler of the windowing library completes the instruction: on a
    press of a mapped key while the gate is set, it re-reads the `Fx0A`
    word just behind the program counter, stores the key's number in the
    register that word names and clears the gate. */
module Keypad {
  import opened Machine
  import opened Instructions
  import opened Keys

  /** The event is one the handler acts on: the gate is set, the action is
      a press, and the physical key is one of the sixteen mapped keys. */
  predicate Accepts(s: State, code: int, action: KeyAction) {
    s.waiting && action == Press && KeyOf(code) >= 0
  }

  /** The register an accepted key is stored in: the `x` field of the
      instruction word at `pc - 2`, where the step that executed `Fx0A` left it. */
  function WaitRegister(s: State): Reg
    requires Valid(s) && 2 <= s.pc as int <= MemorySize
  {
    RegX(WordAt(s.memory, s.pc as int - 2))
  }

  /** The key event handler. Reading the word behind the program counter
      is only defined when it lies inside memory. */
  function DeliverKey(s: State, code: int, action: KeyAction): (r: State)
    requires Valid(s)
    requires Accepts(s, code, action) ==> 2 <= s.pc as int <= MemorySize
    ensures Valid(r)
    ensures !Accepts(s, code, action) ==> r == s
    ensures Accepts(s, code, action) ==>
      && !r.waiting
      && V(r.regs, WaitRegister(s)) as int == KeyOf(code)
      && KeyMap[V(r.regs, WaitRegister(s))] == code
      && (forall z: Reg | z != WaitRegister(s) :: V(r.regs, z) == V(s.regs, z))
    ensures r.index == s.index && r.pc == s.pc && r.sp == s.sp && r.stack == s.stack
    ensures r.delay == s.delay && r.sound == s.sound
    ensures r.lastDelayUpdate == s.lastDelayUpdate && r.lastSoundUpdate == s.lastSoundUpdate
    ensures r.fb == s.fb && r.memory == s.memory
  {
    if !s.waiting || action != Press then s
    else
      var k := KeyOf(code);
      if k < 0 then s
      else s.(regs := SetV(s.regs, WaitRegister(s), k as bv8), waiting := false)
  }

  /** The value stored is always a key number, 0 to 15. */
  lemma DeliveredKeyNumber(s: State, code: int, action: KeyAction)
    requires Valid(s) && Accepts(s, code, action) && 2 <= s.pc as int <= MemorySize
    ensures V(DeliverKey(s, code, action).regs, WaitRegister(s)) < KeyCount as bv8
  {
  }

  /** Pressing the physical key of CHIP-8 key `k` while waiting stores `k`. */
  lemma DeliverMappedKey(s: State, k: int)
    requires Valid(s) && s.waiting && 0 <= k < KeyCount && 2 <= s.pc as int <= MemorySize
    ensures var r := DeliverKey(s, KeyMap[k], Press);
      !r.waiting && V(r.regs, WaitRegister(s)) as int == k
  {
    KeyOfKeyMap(k);
  }

  /** Releases, repeats and unmapped keys leave the machine waiting. */
  lemma IgnoredEventKeepsWaiting(s: State, code: int, action: KeyAction)
    requires Valid(s) && s.waiting
    requires action != Press || forall i | 0 <= i < KeyCount :: KeyMap[i] != code
    ensures DeliverKey(s, code, action) == s
  {
  }
}
