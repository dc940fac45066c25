/** The register instructions `6xkk`, `7xkk`, `8xyN` and `Cxkk`: what each
    leaves in Vx and in the flags register VF, and that no other register
    changes. */
module Alu {
  import opened Machine
  import opened Instructions
  import opened Cpu

  /** A load instruction rewrites the register file and advances the program
      counter; nothing else changes. */
  lemma StepLoad(s: State, op: Instr, held: set<int>, rnd: bv8)
    requires Valid(s) && IsLoad(op)
    ensures StepOp(s, op, held, rnd) == s.(regs := ExecLoad(s.regs, op, rnd), pc := Advance(s.pc))
  {
  }

  /** An arithmetic instruction rewrites the register file and advances the
      program counter; nothing else changes. */
  lemma StepArith(s: State, op: Instr, held: set<int>, rnd: bv8)
    requires Valid(s) && IsArith(op)
    ensures StepOp(s, op, held, rnd) == s.(regs := ExecArith(s.regs, op), pc := Advance(s.pc))
  {
  }

  /** `6xkk` and `8xy0` copy their source into Vx. */
  lemma LoadCopies(v: seq<bv8>, x: Reg, y: Reg, kk: bv8, rnd: bv8)
    requires |v| == RegCount
    ensures V(ExecLoad(v, LoadImm(x, kk), rnd), x) == kk
    ensures V(ExecLoad(v, Move(x, y), rnd), x) == V(v, y)
  {
  }

  /** `7xkk` adds modulo 256: subtracting kk from the new Vx gives the old. */
  lemma AddImmWraps(v: seq<bv8>, x: Reg, kk: bv8, rnd: bv8)
    requires |v| == RegCount
    ensures V(ExecLoad(v, AddImm(x, kk), rnd), x) - kk == V(v, x)
  {
    assert V(ExecLoad(v, AddImm(x, kk), rnd), x) == V(v, x) + kk;
    AddNegated(V(v, x), kk);
  }

  /** The byte that, added modulo 256, undoes adding `k`. */
  function Negated(k: bv8): (n: bv8)
    ensures AddByte(k, n) == 0
  {
    0 - k
  }

  /** `7xkk` leaves VF alone (unless x is F), so adding the negated kk
      afterwards restores the whole register file. */
  lemma AddImmUndone(v: seq<bv8>, x: Reg, kk: bv8, rnd: bv8)
    requires |v| == RegCount
    ensures ExecLoad(ExecLoad(v, AddImm(x, kk), rnd), AddImm(x, Negated(kk)), rnd) == v
  {
    var m := ExecLoad(v, AddImm(x, kk), rnd);
    var r := ExecLoad(m, AddImm(x, Negated(kk)), rnd);
    assert V(m, x) == AddByte(V(v, x), kk);
    assert V(r, x) == AddByte(V(m, x), Negated(kk));
    AddNegated(V(v, x), kk);
    forall z: Reg
      ensures r[z] == v[z]
    {
      if z != x {
        assert V(r, z) == V(m, z);
        assert V(m, z) == V(v, z);
      }
    }
  }

  /** Adding the negated `k` modulo 256 undoes adding `k`. */
  lemma AddNegated(a: bv8, k: bv8)
    ensures AddByte(AddByte(a, k), Negated(k)) == a
    ensures AddByte(a, k) - k == a
  {
  }

  /** `8xy3`: the new Vx XOR-ed with the old Vy gives back the old Vx (with
      x = y the register is cleared), and with x different from y a second
      `8xy3` restores the register file. */
  lemma XorTwice(v: seq<bv8>, x: Reg, y: Reg, rnd: bv8)
    requires |v| == RegCount
    ensures V(ExecLoad(v, Xor(x, y), rnd), x) ^ V(v, y) == V(v, x)
    ensures V(ExecLoad(v, Xor(x, x), rnd), x) == 0
    ensures x != y ==> ExecLoad(ExecLoad(v, Xor(x, y), rnd), Xor(x, y), rnd) == v
  {
    XorValue(v, x, y, rnd);
    XorValue(v, x, x, rnd);
    if x != y {
      var r := ExecLoad(ExecLoad(v, Xor(x, y), rnd), Xor(x, y), rnd);
      forall z: Reg
        ensures r[z] == v[z]
      {
      }
    }
  }

  /** `8xy3`: XOR-ing the old Vy out of the new Vx gives back the old Vx. */
  lemma XorValue(v: seq<bv8>, x: Reg, y: Reg, rnd: bv8)
    requires |v| == RegCount
    ensures V(ExecLoad(v, Xor(x, y), rnd), x) ^ V(v, y) == V(v, x)
  {
  }

  /** `8xy1`: the OR holds every bit of both operands and no other bit. */
  lemma OrCovers(v: seq<bv8>, x: Reg, y: Reg, rnd: bv8)
    requires |v| == RegCount
    ensures V(ExecLoad(v, Or(x, y), rnd), x) & V(v, x) == V(v, x)
    ensures V(ExecLoad(v, Or(x, y), rnd), x) & V(v, y) == V(v, y)
    ensures V(ExecLoad(v, Or(x, y), rnd), x) & !(V(v, x) | V(v, y)) == 0
  {
    assert V(ExecLoad(v, Or(x, y), rnd), x) == V(v, x) | V(v, y);
    Absorption(V(v, x), V(v, y));
  }

  /** `8xy2`: the AND holds only bits both operands hold, and every such bit. */
  lemma AndInside(v: seq<bv8>, x: Reg, y: Reg, rnd: bv8)
    requires |v| == RegCount
    ensures V(ExecLoad(v, And(x, y), rnd), x) & V(v, x) == V(ExecLoad(v, And(x, y), rnd), x)
    ensures V(ExecLoad(v, And(x, y), rnd), x) & V(v, y) == V(ExecLoad(v, And(x, y), rnd), x)
    ensures (V(v, x) & V(v, y)) & !V(ExecLoad(v, And(x, y), rnd), x) == 0
  {
    assert V(ExecLoad(v, And(x, y), rnd), x) == V(v, x) & V(v, y);
    Absorption(V(v, x), V(v, y));
  }

  /** The OR of two bytes covers both, and their AND lies inside both. */
  lemma Absorption(a: bv8, b: bv8)
    ensures (a | b) & a == a && (a | b) & b == b
    ensures (a & b) & a == a & b && (a & b) & b == a & b
  {
  }

  /** `Cxkk` keeps only the bits of the random byte that the mask kk holds;
      with every bit of the random byte set, it loads kk. */
  lemma RandomMasked(v: seq<bv8>, x: Reg, kk: bv8, rnd: bv8)
    requires |v| == RegCount
    ensures V(ExecLoad(v, Random(x, kk), rnd), x) & !kk == 0
    ensures V(ExecLoad(v, Random(x, kk), rnd), x) == rnd & kk
    ensures V(ExecLoad(v, Random(x, kk), 0xFF), x) == kk
  {
  }

  /** `8xy4` with x other than F: Vx and the carry in VF together hold the
      full nine-bit sum, and the carry is 0 or 1. */
  lemma AddCarry(v: seq<bv8>, x: Reg, y: Reg)
    requires |v| == RegCount && x != VF
    ensures var r := ExecArith(v, Add(x, y));
      && (V(r, VF) == 0 || V(r, VF) == 1)
      && V(r, x) as bv16 + (V(r, VF) as bv16 << 8) == V(v, x) as bv16 + V(v, y) as bv16
  {
  }

  /** `8xy5` with x and y other than F: VF is 1 exactly when Vx exceeds Vy,
      and Vx becomes the difference modulo 256. */
  lemma SubBorrow(v: seq<bv8>, x: Reg, y: Reg)
    requires |v| == RegCount && x != VF && y != VF
    ensures var r := ExecArith(v, Sub(x, y));
      && (V(r, VF) == 1 <==> V(v, x) > V(v, y))
      && (V(r, VF) == 0 <==> V(v, x) <= V(v, y))
      && V(r, x) + V(v, y) == V(v, x)
  {
  }

  /** `8xy7` with x and y other than F: VF is 1 exactly when Vy exceeds Vx,
      and Vx becomes Vy minus Vx modulo 256. */
  lemma SubReverseBorrow(v: seq<bv8>, x: Reg, y: Reg)
    requires |v| == RegCount && x != VF && y != VF
    ensures var r := ExecArith(v, SubReverse(x, y));
      && (V(r, VF) == 1 <==> V(v, y) > V(v, x))
      && (V(r, VF) == 0 <==> V(v, y) <= V(v, x))
      && V(r, x) + V(v, x) == V(v, y)
  {
  }

  /** `8xy5` with y = F subtracts the flag just written, not the old VF. */
  lemma SubReadsNewFlag(v: seq<bv8>, x: Reg)
    requires |v| == RegCount && x != VF
    ensures var r := ExecArith(v, Sub(x, VF));
      V(r, x) == V(v, x) - V(r, VF) && V(r, VF) == NoBorrow(V(v, x), V(v, VF))
  {
  }

  /** `8Fy5` with y other than F: the flag is written first, so the
      difference is taken from the new VF, not the old one. */
  lemma SubIntoFlag(v: seq<bv8>, y: Reg)
    requires |v| == RegCount && y != VF
    ensures V(ExecArith(v, Sub(VF, y)), VF) == NoBorrow(V(v, VF), V(v, y)) - V(v, y)
  {
  }

  /** `8Fy7` with y other than F, and `8xF7` with x other than F: the flag is
      written first, and the subtraction reads it back. */
  lemma SubReverseIntoFlag(v: seq<bv8>, x: Reg, y: Reg)
    requires |v| == RegCount && x != VF && y != VF
    ensures V(ExecArith(v, SubReverse(VF, y)), VF) == V(v, y) - NoBorrow(V(v, y), V(v, VF))
    ensures var r := ExecArith(v, SubReverse(x, VF));
      V(r, x) == V(r, VF) - V(v, x) && V(r, VF) == NoBorrow(V(v, VF), V(v, x))
  {
  }

  /** `8xy6` with x other than F: the bit shifted out lands in VF, and
      shifting back in restores Vx. */
  lemma ShiftRightBit(v: seq<bv8>, x: Reg, y: Reg)
    requires |v| == RegCount && x != VF
    ensures var r := ExecArith(v, ShiftRight(x, y));
      && V(r, VF) == V(v, x) & 1
      && (V(r, x) << 1) | V(r, VF) == V(v, x)
      && V(r, x) < 0x80
  {
  }

  /** `8xyE` with x other than F: the bit shifted out lands in VF, and
      shifting back in restores Vx. */
  lemma ShiftLeftBit(v: seq<bv8>, x: Reg, y: Reg)
    requires |v| == RegCount && x != VF
    ensures var r := ExecArith(v, ShiftLeft(x, y));
      && V(r, VF) == V(v, x) >> 7
      && (V(r, x) >> 1) | (V(r, VF) << 7) == V(v, x)
      && V(r, x) & 1 == 0
  {
  }

  /** With x = F the result overwrites the flag: VF ends up holding the
      low byte of the sum, and a shift leaves the shifted flag (0 after a
      right shift, 0 or 2 after a left shift). */
  lemma FlagOverwritten(v: seq<bv8>, y: Reg)
    requires |v| == RegCount
    ensures V(ExecArith(v, Add(VF, y)), VF) == V(v, VF) + V(v, y)
    ensures V(ExecArith(v, ShiftRight(VF, y)), VF) == 0
    ensures V(ExecArith(v, ShiftLeft(VF, y)), VF) == (V(v, VF) >> 7) << 1
    ensures V(ExecArith(v, Sub(VF, VF)), VF) == 0
    ensures V(ExecArith(v, SubReverse(VF, VF)), VF) == 0
  {
  }
}
