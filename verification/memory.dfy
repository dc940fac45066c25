/** The index register and the memory instructions: `Annn`, `Fx1E`, `Fx29`,
    the decimal store `Fx33` and the register block copies `Fx55` and
    `Fx65`. */
module Memory {
  import opened Machine
  import opened Instructions
  import opened Cpu

  /** `Annn` loads I; nothing else changes. */
  lemma StepLoadIndex(s: State, held: set<int>, rnd: bv8, a: Addr)
    requires Valid(s)
    ensures StepOp(s, LoadIndex(a), held, rnd) == s.(index := a as bv16, pc := Advance(s.pc))
  {
  }

  /** `Fx1E` adds Vx to I; VF and every other register stay as they were. */
  lemma StepAddIndex(s: State, held: set<int>, rnd: bv8, x: Reg)
    requires Valid(s)
    ensures StepOp(s, AddIndex(x), held, rnd)
         == s.(index := AddToIndex(s.index, V(s.regs, x)), pc := Advance(s.pc))
  {
  }

  /** I advances modulo 2^16: taking the old I away leaves Vx. */
  lemma AddToIndexWraps(i: bv16, vx: bv8)
    ensures AddToIndex(i, vx) - i == vx as bv16
  {
  }

  /** `Fx29` points I at a glyph; nothing else changes. */
  lemma StepFontGlyph(s: State, held: set<int>, rnd: bv8, x: Reg)
    requires Valid(s)
    ensures StepOp(s, FontGlyph(x), held, rnd)
         == s.(index := GlyphAddress(V(s.regs, x)), pc := Advance(s.pc))
  {
  }

  /** The glyph of digit `d` starts at `5 d`, counted without wrap-around. */
  lemma GlyphAt(d: bv8)
    ensures GlyphAddress(d) as int == d as int * GlyphSize
  {
  }

  /** With the font in place at address 0, `Fx29` for a digit 0..F leaves
      I on the five rows of that digit's glyph. */
  lemma GlyphRows(s: State, held: set<int>, rnd: bv8, x: Reg)
    requires Valid(s) && s.memory[..|Font|] == Font && V(s.regs, x) < 16
    ensures var r := StepOp(s, FontGlyph(x), held, rnd);
      var d := V(s.regs, x) as int;
      r.index as int == GlyphSize * d
      && r.memory[r.index .. r.index as int + GlyphSize] == Font[GlyphSize * d .. GlyphSize * d + GlyphSize]
  {
    StepFontGlyph(s, held, rnd, x);
    GlyphAt(V(s.regs, x));
    var d := V(s.regs, x) as int;
    assert s.memory[GlyphSize * d .. GlyphSize * d + GlyphSize]
        == s.memory[..|Font|][GlyphSize * d .. GlyphSize * d + GlyphSize];
  }

  /** `Fx33` writes the digits of Vx at I, I + 1 and I + 2; nothing else
      changes. */
  lemma StepStoreBcd(s: State, held: set<int>, rnd: bv8, x: Reg)
    requires Valid(s) && s.index as int + 2 < MemorySize
    ensures StepOp(s, StoreBcd(x), held, rnd)
         == s.(memory := StoreDigits(s.memory, s.index as int, V(s.regs, x)), pc := Advance(s.pc))
  {
  }

  /** Three decimal digits determine their number: any three digits worth
      `v` are the digits `Fx33` writes. */
  lemma DigitsUnique(v: bv8, d: seq<bv8>)
    requires |d| == 3 && d[0] < 10 && d[1] < 10 && d[2] < 10
    requires 100 * d[0] as int + 10 * d[1] as int + d[2] as int == v as int
    ensures d == Digits(v)
  {
    var e := Digits(v);
    DecimalUnique(d[0] as int, d[1] as int, d[2] as int, e[0] as int, e[1] as int, e[2] as int);
    SameByte(d[0], e[0]);
    SameByte(d[1], e[1]);
    SameByte(d[2], e[2]);
  }

  /** Two three-digit decimal numerals of the same value have the same digits. */
  lemma DecimalUnique(a: int, b: int, c: int, a': int, b': int, c': int)
    requires 0 <= b < 10 && 0 <= c < 10 && 0 <= b' < 10 && 0 <= c' < 10
    requires 100 * a + 10 * b + c == 100 * a' + 10 * b' + c'
    ensures a == a' && b == b' && c == c'
  {
  }

  /** Bytes with the same numeric value are equal. */
  lemma SameByte(p: bv8, q: bv8)
    requires p as int == q as int
    ensures p == q
  {
  }

  /** `Fx55` copies V0..Vx to memory at I; I and the registers stay. */
  lemma StepStoreRegs(s: State, held: set<int>, rnd: bv8, x: Reg)
    requires Valid(s) && s.index as int + x as int < MemorySize
    ensures StepOp(s, StoreRegs(x), held, rnd)
         == s.(memory := StoreRegisters(s.memory, s.index as int, s.regs, x), pc := Advance(s.pc))
  {
  }

  /** `Fx65` loads V0..Vx from memory at I; I and memory stay. */
  lemma StepLoadRegs(s: State, held: set<int>, rnd: bv8, x: Reg)
    requires Valid(s) && s.index as int + x as int < MemorySize
    ensures StepOp(s, LoadRegs(x), held, rnd)
         == s.(regs := LoadRegisters(s.memory, s.index as int, s.regs, x), pc := Advance(s.pc))
  {
  }

  /** Loading back what was just stored leaves the registers as they were. */
  lemma StoreThenLoad(memory: seq<bv8>, i: int, regs: seq<bv8>, x: Reg)
    requires |regs| == RegCount && 0 <= i && i + x as int < |memory|
    ensures LoadRegisters(StoreRegisters(memory, i, regs, x), i, regs, x) == regs
  {
    var m := StoreRegisters(memory, i, regs, x);
    var r := LoadRegisters(m, i, regs, x);
    forall k | 0 <= k < RegCount
      ensures r[k] == regs[k]
    {
      if k <= x as int {
        assert r[k] == m[i + k];
      }
    }
  }

  /** Storing what was just loaded leaves memory as it was. */
  lemma LoadThenStore(memory: seq<bv8>, i: int, regs: seq<bv8>, x: Reg)
    requires |regs| == RegCount && 0 <= i && i + x as int < |memory|
    ensures StoreRegisters(memory, i, LoadRegisters(memory, i, regs, x), x) == memory
  {
    var l := LoadRegisters(memory, i, regs, x);
    var m := StoreRegisters(memory, i, l, x);
    forall a | 0 <= a < |memory|
      ensures m[a] == memory[a]
    {
      if i <= a <= i + x as int {
        assert m[i + (a - i)] == l[a - i];
      }
    }
  }

  /** `Fx55` followed by `Fx65` with the same x and I leaves every register
      as it was. */
  lemma StoreRegsThenLoadRegs(s: State, held: set<int>, rnd: bv8, x: Reg)
    requires Valid(s) && s.index as int + x as int < MemorySize
    ensures var t := StepOp(s, StoreRegs(x), held, rnd);
      StepOp(t, LoadRegs(x), held, rnd).regs == s.regs
  {
    StepStoreRegs(s, held, rnd, x);
    var t := StepOp(s, StoreRegs(x), held, rnd);
    StepLoadRegs(t, held, rnd, x);
    StoreThenLoad(s.memory, s.index as int, s.regs, x);
  }
}
