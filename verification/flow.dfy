/** Control flow, net of the common advance: where the program counter and
    the stack end up after one cycle of each jump, call, return and skip,
    and that nothing else changes. */
module Flow {
  import opened Machine
  import opened Instructions
  import opened Keys
  import opened Cpu

  /** `1nnn` lands on `nnn`; nothing else changes. */
  lemma StepJump(s: State, held: set<int>, rnd: bv8, a: Addr)
    requires Valid(s)
    ensures StepOp(s, Jump(a), held, rnd) == s.(pc := a as bv16)
  {
  }

  /** The `Bnnn` target, two short, is made up again by the advance. */
  lemma OffsetAdvance(a: Addr, v0: bv8)
    ensures Advance(OffsetTarget(a, v0)) == a as bv16 + v0 as bv16
  {
  }

  /** `nnn + V0` never exceeds 16 bits. */
  lemma OffsetNoWrap(a: Addr, v0: bv8)
    ensures (a as bv16 + v0 as bv16) as int == a as int + v0 as int
  {
  }

  /** `Bnnn` changes nothing but the program counter. */
  lemma StepJumpOffset(s: State, held: set<int>, rnd: bv8, a: Addr)
    requires Valid(s)
    ensures StepOp(s, JumpOffset(a), held, rnd) == s.(pc := Advance(OffsetTarget(a, V(s.regs, 0))))
  {
  }

  /** `Bnnn` lands on `nnn + V0`, counted without wrap-around. */
  lemma OffsetLands(a: Addr, v0: bv8)
    ensures Advance(OffsetTarget(a, v0)) as int == a as int + v0 as int
  {
    OffsetAdvance(a, v0);
    OffsetNoWrap(a, v0);
  }

  /** `3xkk` skips the next instruction exactly when Vx equals kk. */
  lemma StepSkipEqImm(s: State, held: set<int>, rnd: bv8, x: Reg, kk: bv8)
    requires Valid(s)
    ensures StepOp(s, SkipEqImm(x, kk), held, rnd)
         == s.(pc := if V(s.regs, x) == kk then s.pc + 4 else s.pc + 2)
  {
  }

  /** `4xkk` skips the next instruction exactly when Vx differs from kk. */
  lemma StepSkipNeImm(s: State, held: set<int>, rnd: bv8, x: Reg, kk: bv8)
    requires Valid(s)
    ensures StepOp(s, SkipNeImm(x, kk), held, rnd)
         == s.(pc := if V(s.regs, x) != kk then s.pc + 4 else s.pc + 2)
  {
  }

  /** `5xy_` skips the next instruction exactly when Vx equals Vy. */
  lemma StepSkipEqReg(s: State, held: set<int>, rnd: bv8, x: Reg, y: Reg)
    requires Valid(s)
    ensures StepOp(s, SkipEqReg(x, y), held, rnd)
         == s.(pc := if V(s.regs, x) == V(s.regs, y) then s.pc + 4 else s.pc + 2)
  {
  }

  /** Every word of family 5 decodes to the `5xy_` skip, whatever its low
      nibble holds. */
  lemma DecodeSkipEqReg(w: bv16)
    requires w & 0xF000 == 0x5000
    ensures Decode(w) == SkipEqReg(RegX(w), RegY(w))
  {
  }

  /** Every word of family 9 decodes to the `9xy_` skip, whatever its low
      nibble holds. */
  lemma DecodeSkipNeReg(w: bv16)
    requires w & 0xF000 == 0x9000
    ensures Decode(w) == SkipNeReg(RegX(w), RegY(w))
  {
  }

  /** `9xy_` skips the next instruction exactly when Vx differs from Vy. */
  lemma StepSkipNeReg(s: State, held: set<int>, rnd: bv8, x: Reg, y: Reg)
    requires Valid(s)
    ensures StepOp(s, SkipNeReg(x, y), held, rnd)
         == s.(pc := if V(s.regs, x) != V(s.regs, y) then s.pc + 4 else s.pc + 2)
  {
  }

  /** `Ex9E` skips exactly when key Vx is held. */
  lemma StepSkipKeyDown(s: State, held: set<int>, rnd: bv8, x: Reg)
    requires Valid(s) && V(s.regs, x) as int < KeyCount
    ensures StepOp(s, SkipKeyDown(x), held, rnd)
         == s.(pc := if V(s.regs, x) as int in held then s.pc + 4 else s.pc + 2)
  {
  }

  /** `ExA1` skips exactly when key Vx is not held. */
  lemma StepSkipKeyUp(s: State, held: set<int>, rnd: bv8, x: Reg)
    requires Valid(s) && V(s.regs, x) as int < KeyCount
    ensures StepOp(s, SkipKeyUp(x), held, rnd)
         == s.(pc := if V(s.regs, x) as int in held then s.pc + 2 else s.pc + 4)
  {
  }

  /** `2nnn` pushes the address of the call and lands on `nnn`. */
  lemma StepCall(s: State, held: set<int>, rnd: bv8, a: Addr)
    requires Valid(s) && s.sp + 1 < StackDepth
    ensures StepOp(s, Call(a), held, rnd)
         == s.(pc := a as bv16, sp := s.sp + 1, stack := s.stack[s.sp + 1 := s.pc])
  {
  }

  /** `00EE` pops the saved address and lands just after it. */
  lemma StepReturn(s: State, held: set<int>, rnd: bv8)
    requires Valid(s) && s.sp >= 0
    ensures StepOp(s, Return, held, rnd) == s.(pc := s.stack[s.sp] + 2, sp := s.sp - 1)
  {
  }

  /** A call followed, once the subroutine has left the stack as it found
      it, by a return lands just after the call with the stack pointer
      restored. */
  lemma CallThenReturn(s: State, a: Addr, u: State, held: set<int>, rnd: bv8)
    requires Valid(s) && s.sp + 1 < StackDepth
    requires Valid(u)
    requires u.sp == StepOp(s, Call(a), held, rnd).sp
    requires u.stack == StepOp(s, Call(a), held, rnd).stack
    ensures StepOp(u, Return, held, rnd).pc == s.pc + 2
    ensures StepOp(u, Return, held, rnd).sp == s.sp
    ensures StepOp(u, Return, held, rnd).stack[..s.sp + 1] == s.stack[..s.sp + 1]
  {
    StepCall(s, held, rnd, a);
    StepReturn(u, held, rnd);
  }

  /** An ignored word only advances the program counter. */
  lemma StepNop(s: State, held: set<int>, rnd: bv8)
    requires Valid(s)
    ensures StepOp(s, Nop, held, rnd) == s.(pc := s.pc + 2)
  {
  }

  /** The words the dispatch does not recognise: `0nnn` other than `00E0`
      and `00EE`, `8xyN` for N = 8..D and F, and the `E` and `F` words with
      a low byte no handler names. */
  predicate Unrecognised(w: bv16) {
    var family := w & 0xF000;
    var low := w & 0xFF;
    || (family == 0x0000 && w != 0x00E0 && w != 0x00EE)
    || (family == 0x8000 && 0x8 <= w & 0xF <= 0xD)
    || (family == 0x8000 && w & 0xF == 0xF)
    || (family == 0xE000 && low != 0x9E && low != 0xA1)
    || (family == 0xF000 && low !in {0x07, 0x0A, 0x15, 0x18, 0x1E, 0x29, 0x33, 0x55, 0x65})
  }

  /** A word decodes to the ignored operation exactly when the dispatch does
      not recognise it. */
  lemma DecodeNop(w: bv16)
    ensures Decode(w) == Nop <==> Unrecognised(w)
  {
  }

  /** The wait gate is set only by `Fx0A`, and no cycle clears it. */
  lemma StepGate(s: State, op: Instr, held: set<int>, rnd: bv8)
    requires Valid(s) && Safe(s, op)
    ensures StepOp(s, op, held, rnd).waiting == (s.waiting || op.WaitKey?)
  {
    if op.WaitKey? {
    } else if IsLoad(op) {
    } else if IsArith(op) {
    } else if op.Draw? {
    } else if op.ClearScreen? || op.Return? || op.Jump? || op.Call? || op.JumpOffset? {
    } else if op.SkipEqImm? || op.SkipNeImm? || op.SkipEqReg? || op.SkipNeReg? {
    } else if op.SkipKeyDown? || op.SkipKeyUp? {
    } else if op.LoadIndex? || op.AddIndex? || op.FontGlyph? {
    } else if op.StoreBcd? || op.StoreRegs? || op.LoadRegs? {
    } else {
    }
  }
}
