/** The sprite blit of `Dxyn`: each sprite byte is XORed into an 8-pixel
    window of the packed framebuffer that need not be byte-aligned, so it
    straddles two stored bytes; a collision is reported when a lit pixel is
    switched off. There is no wrap-around and no clipping: the second byte of
    a row at x = 56..63 is byte 0 of the next framebuffer row. */
module Sprite {
  import opened Machine

  /** `Masks[off]` keeps the bits of a 16-bit word outside the window at bit offset `off`. */
  const Masks: seq<bv16> := [
    0x00FF, // 0000000011111111
    0x807F, // 1000000001111111
    0xC03F, // 1100000000111111
    0xE01F, // 1110000000011111
    0xF00F, // 1111000000001111
    0xF807, // 1111100000000111
    0xFC03, // 1111110000000011
    0xFE01  // 1111111000000001
  ]

  /** The result of a blit: the new framebuffer and whether a collision was seen. */
  datatype Blit = Blit(fb: seq<bv8>, collision: bool)

  /** The pixel offset within a byte is a bit-vector so that shifts by it stay bit-level. */
  type Offset = off: bv16 | off < 8

  /** The sprite byte moved to its place in the 16-bit word at offset `off`. */
  function Placed(sprite: bv8, off: Offset): bv16 {
    sprite as bv16 << (8 - off)
  }

  /** The 8 pixels at bit offset `off` of a 16-bit word. */
  function WordWindow(w: bv16, off: Offset): bv8 {
    ((w >> (8 - off)) & 0xFF) as bv8
  }

  /** The 8 pixels at bit offset `off` of the word at byte `idx`. */
  function Window(fb: seq<bv8>, idx: int, off: Offset): bv8
    requires 0 <= idx && idx + 1 < |fb|
  {
    WordWindow(WordAt(fb, idx), off)
  }

  /** The interpreter's bit loop: scans bits 0..7 and stops at the first bit
      lit in the old window that is also set in the sprite byte, the pixel
      the XOR would switch off. */
  method IsPixelDeactivated(oldByte: bv8, newByte: bv8) returns (r: bool)
    ensures r <==> oldByte & newByte != 0
  {
    var i: bv8 := 0;
    while i < 8
      invariant i <= 8
      invariant (oldByte & newByte) << (8 - i) == 0
    {
      var oldBit := (oldByte >> i) & 1;
      var newBit := (newByte >> i) & 1;
      if oldBit == 1 && newBit == 1 {
        return true;
      }
      i := i + 1;
    }
    return false;
  }

  /** The mask table keeps exactly the bits outside the window. */
  lemma MaskTable(off: Offset)
    ensures Masks[off] == !(0xFF << (8 - off))
  {
    if off == 0 {} else if off == 1 {} else if off == 2 {} else if off == 3 {}
    else if off == 4 {} else if off == 5 {} else if off == 6 {} else {}
  }

  lemma WindowSplice(w: bv16, t: bv16, off: Offset)
    requires t < 256
    ensures ((((w >> (8 - off)) & 0xFF) ^ t) << (8 - off)) | (w & !(0xFF << (8 - off))) == w ^ (t << (8 - off))
  {
    if off == 0 {} else if off == 1 {} else if off == 2 {} else if off == 3 {}
    else if off == 4 {} else if off == 5 {} else if off == 6 {} else {}
  }

  lemma WidenXor(a: bv16, s: bv8)
    requires a < 256
    ensures (a as bv8 ^ s) as bv16 == a ^ s as bv16
  {
  }

  /** XORing the sprite byte into the window and restoring the masked bits
      is one XOR of the whole word with the placed sprite byte. */
  lemma RowWordXor(w: bv16, s: bv8, off: Offset)
    ensures ((WordWindow(w, off) ^ s) as bv16 << (8 - off)) | (w & Masks[off]) == w ^ Placed(s, off)
  {
    WidenXor((w >> (8 - off)) & 0xFF, s);
    WindowSplice(w, s as bv16, off);
    MaskTable(off);
  }

  /** The window meets the sprite byte exactly where the word meets the placed byte. */
  lemma WindowMeets(w: bv16, s: bv8, off: Offset)
    ensures (WordWindow(w, off) & s != 0) <==> (w & Placed(s, off) != 0)
  {
  }

  lemma NarrowXor(a: bv16, s: bv8)
    requires a < 256
    ensures (a ^ s as bv16) as bv8 == a as bv8 ^ s
  {
  }

  /** A word XORed with a placed byte has its window XORed with that byte. */
  lemma XorPlacedWindow(w: bv16, s: bv8, off: Offset)
    ensures WordWindow(w ^ Placed(s, off), off) == WordWindow(w, off) ^ s
  {
    assert ((w ^ Placed(s, off)) >> (8 - off)) & 0xFF == ((w >> (8 - off)) & 0xFF) ^ s as bv16;
    NarrowXor((w >> (8 - off)) & 0xFF, s);
  }

  /** A word XORed with a placed byte keeps the bits outside the window. */
  lemma XorPlacedMasked(w: bv16, s: bv8, off: Offset)
    ensures (w ^ Placed(s, off)) & Masks[off] == w & Masks[off]
  {
    MaskTable(off);
    assert (w ^ Placed(s, off)) & !(0xFF << (8 - off)) == w & !(0xFF << (8 - off));
  }

  /** The part of the placed sprite byte that lands in the left stored byte. */
  function LeftInk(sprite: bv8, off: Offset): bv8 {
    (Placed(sprite, off) >> 8) as bv8
  }

  /** The part of the placed sprite byte that lands in the right stored byte. */
  function RightInk(sprite: bv8, off: Offset): bv8 {
    (Placed(sprite, off) & 0xFF) as bv8
  }

  lemma SplitXor(w: bv16, p: bv16)
    ensures ((w ^ p) >> 8) as bv8 == (w >> 8) as bv8 ^ (p >> 8) as bv8
    ensures ((w ^ p) & 0xFF) as bv8 == (w & 0xFF) as bv8 ^ (p & 0xFF) as bv8
  {
  }

  lemma JoinXor(a: bv8, b: bv8, p: bv16)
    ensures Join(a ^ (p >> 8) as bv8, b ^ (p & 0xFF) as bv8) == Join(a, b) ^ p
  {
  }

  /** Inking the two bytes of a row XORs their joined word with the placed byte. */
  lemma InkWord(a: bv8, b: bv8, s: bv8, off: Offset)
    ensures Join(a ^ LeftInk(s, off), b ^ RightInk(s, off)) == Join(a, b) ^ Placed(s, off)
  {
    JoinXor(a, b, Placed(s, off));
  }

  /** The new 16-bit word of one row: the XORed window shifted back into
      place, ORed with the old bits the mask keeps. */
  function SpliceRow(oldWord: bv16, sprite: bv8, off: Offset): (w: bv16)
    ensures w == oldWord ^ Placed(sprite, off)
  {
    RowWordXor(oldWord, sprite, off);
    ((WordWindow(oldWord, off) ^ sprite) as bv16 << (8 - off)) | (oldWord & Masks[off])
  }

  /** One iteration of the interpreter's row loop: read the two bytes at `idx`,
      look for a collision, XOR the window and write both bytes back. The
      effect is to XOR the two stored bytes with the two halves of the
      placed sprite byte. */
  function BlitRow(fb: seq<bv8>, idx: int, off: Offset, sprite: bv8): (r: Blit)
    requires 0 <= idx && idx + 1 < |fb|
    ensures |r.fb| == |fb|
    ensures forall j | 0 <= j < |fb| && j != idx && j != idx + 1 :: r.fb[j] == fb[j]
    ensures r.fb[idx] == fb[idx] ^ LeftInk(sprite, off)
    ensures r.fb[idx + 1] == fb[idx + 1] ^ RightInk(sprite, off)
    ensures r.collision <==> Window(fb, idx, off) & sprite != 0
  {
    var oldWord := WordAt(fb, idx);
    var collision := Window(fb, idx, off) & sprite != 0;
    var newWord := SpliceRow(oldWord, sprite, off);
    SplitXor(oldWord, Placed(sprite, off));
    Blit(fb[idx := (newWord >> 8) as bv8][idx + 1 := (newWord & 0xFF) as bv8], collision)
  }

  function RowStart(base: int, k: int): int {
    base + RowBytes * k
  }

  /** Row `k` of a sprite whose first row starts at byte `base` reads and
      writes bytes `RowStart(base, k)` and the one after it. */
  predicate RowsFit(size: int, base: int, rows: int) {
    0 <= base && (rows == 0 || RowStart(base, rows - 1) + 1 < size)
  }

  function RowWord(fb: seq<bv8>, base: int, k: int): bv16
    requires 0 <= RowStart(base, k) && RowStart(base, k) + 1 < |fb|
  {
    WordAt(fb, RowStart(base, k))
  }

  function RowWindow(fb: seq<bv8>, base: int, off: Offset, k: int): bv8
    requires 0 <= RowStart(base, k) && RowStart(base, k) + 1 < |fb|
  {
    Window(fb, RowStart(base, k), off)
  }

  /** Row `k` of the sprite was XORed into `fb'`: both of its stored bytes
      carry the halves of the placed sprite byte. */
  predicate RowInked(fb: seq<bv8>, fb': seq<bv8>, base: int, off: Offset, k: int, sprite: bv8)
    requires 0 <= RowStart(base, k) && RowStart(base, k) + 1 < |fb| && |fb'| == |fb|
  {
    && fb'[RowStart(base, k)] == fb[RowStart(base, k)] ^ LeftInk(sprite, off)
    && fb'[RowStart(base, k) + 1] == fb[RowStart(base, k) + 1] ^ RightInk(sprite, off)
  }

  /** Byte `j` is one of the two bytes written by rows `lo..hi-1`. */
  predicate Touched(base: int, lo: int, hi: int, j: int) {
    base <= j && lo <= (j - base) / RowBytes < hi && (j - base) % RowBytes <= 1
  }

  /** Rows `i..` of the sprite, drawn in order as the interpreter's row loop does;
      `hit` records that an earlier row collided. */
  function DrawRows(fb: seq<bv8>, sprite: seq<bv8>, base: int, off: Offset, i: nat, hit: bool): (r: Blit)
    requires RowsFit(|fb|, base, |sprite|) && i <= |sprite|
    ensures |r.fb| == |fb|
    decreases |sprite| - i
  {
    if i == |sprite| then Blit(fb, hit)
    else
      var row := BlitRow(fb, RowStart(base, i), off, sprite[i]);
      DrawRows(row.fb, sprite, base, off, i + 1, hit || row.collision)
  }

  /** Row `i` writes only bytes that no later row reads or writes. */
  lemma RowIsolated(fb: seq<bv8>, row: Blit, sprite: seq<bv8>, base: int, off: Offset, i: nat)
    requires RowsFit(|fb|, base, |sprite|) && i < |sprite|
    requires row == BlitRow(fb, RowStart(base, i), off, sprite[i])
    ensures !Touched(base, i + 1, |sprite|, RowStart(base, i))
    ensures !Touched(base, i + 1, |sprite|, RowStart(base, i) + 1)
    ensures forall k | i < k < |sprite| :: row.fb[RowStart(base, k)] == fb[RowStart(base, k)]
    ensures forall k | i < k < |sprite| :: row.fb[RowStart(base, k) + 1] == fb[RowStart(base, k) + 1]
    ensures forall k | i < k < |sprite| :: RowWindow(row.fb, base, off, k) == RowWindow(fb, base, off, k)
  {
  }

  /** Rows `i..` write only their own byte pairs: every other byte is kept. */
  lemma {:induction false} DrawRowsFrame(fb: seq<bv8>, sprite: seq<bv8>, base: int, off: Offset, i: nat, hit: bool)
    requires RowsFit(|fb|, base, |sprite|) && i <= |sprite|
    ensures var r := DrawRows(fb, sprite, base, off, i, hit);
      forall j | 0 <= j < |fb| && !Touched(base, i, |sprite|, j) :: r.fb[j] == fb[j]
    decreases |sprite| - i
  {
    if i < |sprite| {
      var row := BlitRow(fb, RowStart(base, i), off, sprite[i]);
      DrawRowsFrame(row.fb, sprite, base, off, i + 1, hit || row.collision);
      var r := DrawRows(row.fb, sprite, base, off, i + 1, hit || row.collision);
      forall j | 0 <= j < |fb| && !Touched(base, i, |sprite|, j)
        ensures r.fb[j] == fb[j]
      {
        assert !Touched(base, i + 1, |sprite|, j);
      }
    }
  }

  /** The inductive step of `DrawRowsInk`: row `i` inked `fb` into `mid`
      without touching later rows, and the later rows inked `mid` into `r`
      without touching row `i`. */
  lemma InkStep(fb: seq<bv8>, mid: seq<bv8>, r: seq<bv8>, sprite: seq<bv8>, base: int, off: Offset, i: nat)
    requires RowsFit(|fb|, base, |sprite|) && i < |sprite| && |mid| == |fb| && |r| == |fb|
    requires RowInked(fb, mid, base, off, i, sprite[i])
    requires forall k | i < k < |sprite| :: mid[RowStart(base, k)] == fb[RowStart(base, k)]
    requires forall k | i < k < |sprite| :: mid[RowStart(base, k) + 1] == fb[RowStart(base, k) + 1]
    requires r[RowStart(base, i)] == mid[RowStart(base, i)]
    requires r[RowStart(base, i) + 1] == mid[RowStart(base, i) + 1]
    requires forall k | i < k < |sprite| :: RowInked(mid, r, base, off, k, sprite[k])
    ensures forall k | i <= k < |sprite| :: RowInked(fb, r, base, off, k, sprite[k])
  {
  }

  /** The rows drawn in sequence touch disjoint byte pairs, so each row's
      two bytes end up XORed with its placed sprite byte exactly once. */
  lemma {:induction false} DrawRowsInk(fb: seq<bv8>, sprite: seq<bv8>, base: int, off: Offset, i: nat, hit: bool)
    requires RowsFit(|fb|, base, |sprite|) && i <= |sprite|
    ensures var r := DrawRows(fb, sprite, base, off, i, hit);
      forall k | i <= k < |sprite| :: RowInked(fb, r.fb, base, off, k, sprite[k])
    decreases |sprite| - i
  {
    if i < |sprite| {
      var row := BlitRow(fb, RowStart(base, i), off, sprite[i]);
      DrawRowsInk(row.fb, sprite, base, off, i + 1, hit || row.collision);
      DrawRowsFrame(row.fb, sprite, base, off, i + 1, hit || row.collision);
      RowIsolated(fb, row, sprite, base, off, i);
      var r := DrawRows(row.fb, sprite, base, off, i + 1, hit || row.collision);
      InkStep(fb, row.fb, r.fb, sprite, base, off, i);
    }
  }

  /** The collision flag of rows `i..` sees the windows as they were before
      the draw: a later row never reads a byte an earlier row wrote. */
  lemma {:induction false} DrawRowsCollision(fb: seq<bv8>, sprite: seq<bv8>, base: int, off: Offset, i: nat, hit: bool)
    requires RowsFit(|fb|, base, |sprite|) && i <= |sprite|
    ensures DrawRows(fb, sprite, base, off, i, hit).collision
        <==> hit || exists k | i <= k < |sprite| :: RowWindow(fb, base, off, k) & sprite[k] != 0
    decreases |sprite| - i
  {
    if i < |sprite| {
      var row := BlitRow(fb, RowStart(base, i), off, sprite[i]);
      DrawRowsCollision(row.fb, sprite, base, off, i + 1, hit || row.collision);
      RowIsolated(fb, row, sprite, base, off, i);
    }
  }

  /** Byte index of the left byte of a sprite's first row drawn at (vx, vy). */
  function SpriteBase(vx: bv8, vy: bv8): int {
    vy as int * RowBytes + vx as int / 8
  }

  /** Bit offset of the sprite within its left byte. */
  function SpriteOffset(vx: bv8): Offset {
    (vx % 8) as bv16
  }

  /** Every row of an `n`-row sprite at (vx, vy) reads and writes inside the
      framebuffer. The interpreter does not check this; outside it the access is
      out of bounds. */
  predicate DrawFits(vx: bv8, vy: bv8, n: int) {
    RowsFit(FramebufferSize, SpriteBase(vx, vy), n)
  }

  /** `Dxyn` on the framebuffer: XORs the sprite rows in at (vx, vy) and
      reports whether any lit pixel was switched off, judged on the pixels
      as they were before the draw. */
  function Draw(fb: seq<bv8>, sprite: seq<bv8>, vx: bv8, vy: bv8): (r: Blit)
    requires |fb| == FramebufferSize && DrawFits(vx, vy, |sprite|)
    ensures |r.fb| == |fb|
    ensures r.collision <==> exists i | 0 <= i < |sprite| ::
      RowWindow(fb, SpriteBase(vx, vy), SpriteOffset(vx), i) & sprite[i] != 0
  {
    DrawRowsCollision(fb, sprite, SpriteBase(vx, vy), SpriteOffset(vx), 0, false);
    DrawRows(fb, sprite, SpriteBase(vx, vy), SpriteOffset(vx), 0, false)
  }

  /** A draw XORs each row's two stored bytes with the halves of its placed
      sprite byte, and leaves every other byte alone. */
  lemma DrawInk(fb: seq<bv8>, sprite: seq<bv8>, vx: bv8, vy: bv8)
    requires |fb| == FramebufferSize && DrawFits(vx, vy, |sprite|)
    ensures var r := Draw(fb, sprite, vx, vy);
      && (forall i | 0 <= i < |sprite| ::
            RowInked(fb, r.fb, SpriteBase(vx, vy), SpriteOffset(vx), i, sprite[i]))
      && (forall j | 0 <= j < |fb| && !Touched(SpriteBase(vx, vy), 0, |sprite|, j) :: r.fb[j] == fb[j])
  {
    DrawRowsInk(fb, sprite, SpriteBase(vx, vy), SpriteOffset(vx), 0, false);
    DrawRowsFrame(fb, sprite, SpriteBase(vx, vy), SpriteOffset(vx), 0, false);
  }

  /** Two inked bytes hold the old word XORed with the placed sprite byte. */
  lemma InkedWord(fb: seq<bv8>, fb': seq<bv8>, idx: int, sprite: bv8, off: Offset)
    requires 0 <= idx && idx + 1 < |fb| && |fb'| == |fb|
    requires fb'[idx] == fb[idx] ^ LeftInk(sprite, off)
    requires fb'[idx + 1] == fb[idx + 1] ^ RightInk(sprite, off)
    ensures WordAt(fb', idx) == WordAt(fb, idx) ^ Placed(sprite, off)
  {
    InkWord(fb[idx], fb[idx + 1], sprite, off);
  }

  /** XORing the placed sprite byte into a stored word XORs its window with the sprite byte. */
  lemma WordXorWindow(fb: seq<bv8>, fb': seq<bv8>, idx: int, sprite: bv8, off: Offset)
    requires 0 <= idx && idx + 1 < |fb| && |fb'| == |fb|
    requires WordAt(fb', idx) == WordAt(fb, idx) ^ Placed(sprite, off)
    ensures Window(fb', idx, off) == Window(fb, idx, off) ^ sprite
  {
    XorPlacedWindow(WordAt(fb, idx), sprite, off);
  }

  /** XORing the placed sprite byte into a stored word keeps the bits the mask keeps. */
  lemma WordXorMasked(fb: seq<bv8>, fb': seq<bv8>, idx: int, sprite: bv8, off: Offset)
    requires 0 <= idx && idx + 1 < |fb| && |fb'| == |fb|
    requires WordAt(fb', idx) == WordAt(fb, idx) ^ Placed(sprite, off)
    ensures WordAt(fb', idx) & Masks[off] == WordAt(fb, idx) & Masks[off]
  {
    XorPlacedMasked(WordAt(fb, idx), sprite, off);
  }

  /** Two inked bytes: the window is the old window XOR the sprite byte and
      the bits outside the window are kept. */
  lemma InkedRow(fb: seq<bv8>, fb': seq<bv8>, idx: int, sprite: bv8, off: Offset)
    requires 0 <= idx && idx + 1 < |fb| && |fb'| == |fb|
    requires fb'[idx] == fb[idx] ^ LeftInk(sprite, off)
    requires fb'[idx + 1] == fb[idx + 1] ^ RightInk(sprite, off)
    ensures Window(fb', idx, off) == Window(fb, idx, off) ^ sprite
    ensures WordAt(fb', idx) & Masks[off] == WordAt(fb, idx) & Masks[off]
  {
    InkedWord(fb, fb', idx, sprite, off);
    WordXorWindow(fb, fb', idx, sprite, off);
    WordXorMasked(fb, fb', idx, sprite, off);
  }

  /** Row `k` of a sprite, inked into `fb'`, has its window XORed with
      the sprite byte `s` and keeps the bits outside the window. */
  lemma InkedRowAt(fb: seq<bv8>, fb': seq<bv8>, base: int, off: Offset, s: bv8, k: int)
    requires 0 <= RowStart(base, k) && RowStart(base, k) + 1 < |fb| && |fb'| == |fb|
    requires RowInked(fb, fb', base, off, k, s)
    ensures RowWindow(fb', base, off, k) == RowWindow(fb, base, off, k) ^ s
    ensures RowWord(fb', base, k) & Masks[off] == RowWord(fb, base, k) & Masks[off]
  {
    InkedRow(fb, fb', RowStart(base, k), s, off);
  }

  /** Row `i` of a draw is inked into the framebuffer. */
  lemma DrawRowInked(fb: seq<bv8>, sprite: seq<bv8>, vx: bv8, vy: bv8, i: int)
    requires |fb| == FramebufferSize && DrawFits(vx, vy, |sprite|) && 0 <= i < |sprite|
    ensures var r := Draw(fb, sprite, vx, vy);
      RowInked(fb, r.fb, SpriteBase(vx, vy), SpriteOffset(vx), i, sprite[i])
  {
    DrawInk(fb, sprite, vx, vy);
  }

  /** Row by row, a draw XORs the sprite byte into the 8-pixel window and
      keeps the other bits of the row's two bytes. */
  lemma DrawRowEffect(fb: seq<bv8>, sprite: seq<bv8>, vx: bv8, vy: bv8, i: int)
    requires |fb| == FramebufferSize && DrawFits(vx, vy, |sprite|) && 0 <= i < |sprite|
    ensures var r := Draw(fb, sprite, vx, vy);
      && RowWindow(r.fb, SpriteBase(vx, vy), SpriteOffset(vx), i)
         == RowWindow(fb, SpriteBase(vx, vy), SpriteOffset(vx), i) ^ sprite[i]
      && RowWord(r.fb, SpriteBase(vx, vy), i) & Masks[SpriteOffset(vx)]
         == RowWord(fb, SpriteBase(vx, vy), i) & Masks[SpriteOffset(vx)]
  {
    DrawRowInked(fb, sprite, vx, vy, i);
    InkedRowAt(fb, Draw(fb, sprite, vx, vy).fb, SpriteBase(vx, vy), SpriteOffset(vx), sprite[i], i);
  }

  /** Every byte a draw writes is the left or right byte of one of its rows. */
  lemma TouchedRow(base: int, n: int, j: int)
    requires Touched(base, 0, n, j)
    ensures var k := (j - base) / RowBytes;
      0 <= k < n && (j == RowStart(base, k) || j == RowStart(base, k) + 1)
  {
  }

  /** Drawing the same sprite twice at the same place restores the framebuffer. */
  lemma DrawTwice(fb: seq<bv8>, sprite: seq<bv8>, vx: bv8, vy: bv8)
    requires |fb| == FramebufferSize && DrawFits(vx, vy, |sprite|)
    ensures Draw(Draw(fb, sprite, vx, vy).fb, sprite, vx, vy).fb == fb
  {
    var base := SpriteBase(vx, vy);
    var off := SpriteOffset(vx);
    var once := Draw(fb, sprite, vx, vy).fb;
    var twice := Draw(once, sprite, vx, vy).fb;
    DrawInk(fb, sprite, vx, vy);
    DrawInk(once, sprite, vx, vy);
    forall j | 0 <= j < |fb|
      ensures twice[j] == fb[j]
    {
      if Touched(base, 0, |sprite|, j) {
        TouchedRow(base, |sprite|, j);
        var k := (j - base) / RowBytes;
        assert RowInked(fb, once, base, off, k, sprite[k]);
        assert RowInked(once, twice, base, off, k, sprite[k]);
      }
    }
  }

  /** When the sprite's windows are blank a draw never collides, and drawing
      the same sprite again collides exactly when the sprite has a lit
      pixel; the rest of the framebuffer may hold anything. */
  lemma DrawOnBlank(fb: seq<bv8>, sprite: seq<bv8>, vx: bv8, vy: bv8)
    requires |fb| == FramebufferSize && DrawFits(vx, vy, |sprite|)
    requires forall i | 0 <= i < |sprite| :: RowWindow(fb, SpriteBase(vx, vy), SpriteOffset(vx), i) == 0
    ensures !Draw(fb, sprite, vx, vy).collision
    ensures Draw(Draw(fb, sprite, vx, vy).fb, sprite, vx, vy).collision
        <==> exists i | 0 <= i < |sprite| :: sprite[i] != 0
  {
    forall i | 0 <= i < |sprite|
      ensures RowWindow(Draw(fb, sprite, vx, vy).fb, SpriteBase(vx, vy), SpriteOffset(vx), i) == sprite[i]
    {
      DrawRowEffect(fb, sprite, vx, vy, i);
    }
  }
}
