/** One interpreter cycle: fetch the instruction word at the program
    counter, decode it, run its handler and advance the program counter by
    two. Instructions that transfer control set the counter two short of
    their target, so that the common advance lands on it. The random byte
    of `Cxkk` and the set of keypad keys held down are inputs of the cycle. */
module Cpu {
  import opened Machine
  import opened Instructions
  import opened Keys
  import Sprite

  /** The instruction word at the program counter, high byte first. */
  function Fetch(s: State): bv16
    requires Valid(s) && s.pc as int + 1 < MemorySize
  {
    WordAt(s.memory, s.pc as int)
  }

  /** The memory bytes a `Dxyn` sprite is read from. */
  function SpriteBytes(s: State, n: bv4): seq<bv8>
    requires Valid(s) && (n == 0 || s.index as int + n as int <= MemorySize)
  {
    if n == 0 then [] else s.memory[s.index .. s.index as int + n as int]
  }

  /** The conditions under which the interpreter's handler stays inside its
      arrays: RET needs a non-empty stack, CALL a free slot, a sprite must
      lie inside memory and its rows inside the framebuffer, a key skip
      indexes the 16-entry key table with Vx, and the register copies and
      the BCD store stay below the end of memory. */
  predicate Safe(s: State, op: Instr)
    requires Valid(s)
  {
    && (op.Return? ==> s.sp >= 0)
    && (op.Call? ==> s.sp + 1 < StackDepth)
    && (op.Draw? ==>
          && (op.n == 0 || s.index as int + op.n as int <= MemorySize)
          && Sprite.DrawFits(V(s.regs, op.x), V(s.regs, op.y), op.n as int))
    && (op.SkipKeyDown? || op.SkipKeyUp? ==> V(s.regs, op.x) as int < KeyCount)
    && (op.StoreBcd? ==> s.index as int + 2 < MemorySize)
    && (op.StoreRegs? || op.LoadRegs? ==> s.index as int + op.x as int < MemorySize)
  }

  /** The next cycle is defined: the instruction word lies inside memory
      and its handler is safe. */
  predicate CanStep(s: State) {
    Valid(s) && s.pc as int + 1 < MemorySize && Safe(s, Decode(Fetch(s)))
  }

  /** `pc` as a handler leaves it for an instruction that skips the next one
      when `cond` holds. */
  function SkipIf(pc: bv16, cond: bool): bv16 {
    if cond then pc + 2 else pc
  }

  /** The value a jump leaves in the program counter: two short of the
      target, wrapping below zero as the 16-bit counter does. */
  function JumpTarget(target: bv16): (r: bv16)
    ensures r + 2 == target
  {
    target - 2
  }

  /** The program counter after the common advance past a two-byte instruction. */
  function Advance(pc: bv16): bv16 {
    pc + 2
  }

  /** The value `Bnnn` leaves in the program counter for `nnn` and V0. */
  function OffsetTarget(a: Addr, v0: bv8): bv16 {
    JumpTarget(a as bv16 + v0 as bv16)
  }

  /** I after `Fx1E` adds `vx` to it. */
  function AddToIndex(i: bv16, vx: bv8): bv16 {
    i + vx as bv16
  }

  /** The address `Fx29` leaves in I for the digit `vx`. */
  function GlyphAddress(vx: bv8): bv16 {
    vx as bv16 * GlyphSize as bv16
  }

  /** The flag a subtraction leaves in VF: 1 when there is no borrow. */
  function NoBorrow(a: bv8, b: bv8): bv8 {
    if a > b then 1 else 0
  }

  /** The handlers that write Vx alone, from a register, an immediate or
      the random byte. */
  predicate IsLoad(op: Instr) {
    op.LoadImm? || op.AddImm? || op.Move? || op.Or? || op.And? || op.Xor? || op.Random?
  }

  /** The handlers that write the flag VF and then Vx. */
  predicate IsArith(op: Instr) {
    op.Add? || op.Sub? || op.ShiftRight? || op.SubReverse? || op.ShiftLeft?
  }

  /** Byte addition modulo 256, as `7xkk` does it. */
  function AddByte(a: bv8, b: bv8): bv8 {
    a + b
  }

  /** The random byte masked with kk, as `Cxkk` does it. */
  function MaskByte(rnd: bv8, kk: bv8): bv8 {
    rnd & kk
  }

  /** The value a handler of `IsLoad` writes to Vx. */
  function LoadValue(v: seq<bv8>, op: Instr, rnd: bv8): bv8
    requires |v| == RegCount && IsLoad(op)
  {
    if op.LoadImm? then op.kk
    else if op.AddImm? then AddByte(V(v, op.x), op.kk)
    else if op.Move? then V(v, op.y)
    else if op.Or? then V(v, op.x) | V(v, op.y)
    else if op.And? then V(v, op.x) & V(v, op.y)
    else if op.Xor? then V(v, op.x) ^ V(v, op.y)
    else MaskByte(rnd, op.kk)
  }

  /** A handler of `IsLoad` on the register file: only Vx changes. */
  function ExecLoad(v: seq<bv8>, op: Instr, rnd: bv8): (r: seq<bv8>)
    requires |v| == RegCount && IsLoad(op)
    ensures |r| == RegCount
    ensures forall z: Reg | z != op.x :: V(r, z) == V(v, z)
  {
    SetV(v, op.x, LoadValue(v, op, rnd))
  }

  /** The flag a handler of `IsArith` writes to VF, from the registers
      before the instruction. */
  function ArithFlag(v: seq<bv8>, op: Instr): bv8
    requires |v| == RegCount && IsArith(op)
  {
    if op.Add? then (if V(v, op.x) as bv16 + V(v, op.y) as bv16 > 0xFF then 1 else 0)
    else if op.Sub? then NoBorrow(V(v, op.x), V(v, op.y))
    else if op.ShiftRight? then (if V(v, op.x) & 0x01 == 0x01 then 1 else 0)
    else if op.SubReverse? then NoBorrow(V(v, op.y), V(v, op.x))
    else (if V(v, op.x) & 0x80 == 0x80 then 1 else 0)
  }

  /** The value a handler of `IsArith` writes to Vx. The sum is taken from
      the registers before the flag write; the others read the registers
      `f` as they are after it. */
  function ArithValue(v: seq<bv8>, f: seq<bv8>, op: Instr): bv8
    requires |v| == RegCount && |f| == RegCount && IsArith(op)
  {
    if op.Add? then ((V(v, op.x) as bv16 + V(v, op.y) as bv16) & 0xFF) as bv8
    else if op.Sub? then V(f, op.x) - V(f, op.y)
    else if op.ShiftRight? then V(f, op.x) >> 1
    else if op.SubReverse? then V(f, op.y) - V(f, op.x)
    else V(f, op.x) << 1
  }

  /** A handler of `IsArith` on the register file: VF is written first,
      then Vx, so only Vx and VF change. */
  function ExecArith(v: seq<bv8>, op: Instr): (r: seq<bv8>)
    requires |v| == RegCount && IsArith(op)
    ensures |r| == RegCount
    ensures forall z: Reg | z != op.x && z != VF :: V(r, z) == V(v, z)
  {
    var f := SetV(v, VF, ArithFlag(v, op));
    SetV(f, op.x, ArithValue(v, f, op))
  }

  /** The three decimal digits of `v`, hundreds first. */
  function Digits(v: bv8): (d: seq<bv8>)
    ensures |d| == 3 && d[0] < 10 && d[1] < 10 && d[2] < 10
    ensures 100 * d[0] as int + 10 * d[1] as int + d[2] as int == v as int
  {
    [v / 100, (v / 10) % 10, v % 10]
  }

  /** `Fx33`: the digits written to memory at `i`, `i + 1` and `i + 2`. */
  function StoreDigits(memory: seq<bv8>, i: int, v: bv8): (r: seq<bv8>)
    requires 0 <= i && i + 2 < |memory|
    ensures |r| == |memory|
    ensures r[i..i + 3] == Digits(v)
    ensures forall a | 0 <= a < |memory| && !(i <= a < i + 3) :: r[a] == memory[a]
  {
    var d := Digits(v);
    memory[i := d[0]][i + 1 := d[1]][i + 2 := d[2]]
  }

  /** `Fx55`: registers V0..Vx, inclusive, copied to memory from `i` on. */
  function StoreRegisters(memory: seq<bv8>, i: int, regs: seq<bv8>, x: Reg): (r: seq<bv8>)
    requires |regs| == RegCount && 0 <= i && i + x as int < |memory|
    ensures |r| == |memory|
    ensures forall k | 0 <= k <= x as int :: r[i + k] == regs[k]
    ensures forall a | 0 <= a < |memory| && !(i <= a <= i + x as int) :: r[a] == memory[a]
  {
    var n := x as int + 1;
    memory[..i] + regs[..n] + memory[i + n..]
  }

  /** `Fx65`: registers V0..Vx, inclusive, loaded from memory at `i` on. */
  function LoadRegisters(memory: seq<bv8>, i: int, regs: seq<bv8>, x: Reg): (r: seq<bv8>)
    requires |regs| == RegCount && 0 <= i && i + x as int < |memory|
    ensures |r| == RegCount
    ensures forall k | 0 <= k <= x as int :: r[k] == memory[i + k]
    ensures forall k | x as int < k < RegCount :: r[k] == regs[k]
  {
    var n := x as int + 1;
    memory[i .. i + n] + regs[n..]
  }

  /** `00E0`: every pixel off. */
  function ClearScreenOp(s: State): (r: State)
    requires Valid(s)
    ensures Valid(r)
  {
    s.(fb := seq(FramebufferSize, _ => 0))
  }

  /** `00EE`: the saved address comes back and the stack pointer drops. */
  function ReturnOp(s: State): (r: State)
    requires Valid(s) && s.sp >= 0
    ensures Valid(r)
  {
    s.(pc := s.stack[s.sp], sp := s.sp - 1)
  }

  /** `1nnn`. */
  function JumpOp(s: State, a: Addr): (r: State)
    requires Valid(s)
    ensures Valid(r)
  {
    s.(pc := JumpTarget(a as bv16))
  }

  /** `2nnn`: the address of the call is pushed. */
  function CallOp(s: State, a: Addr): (r: State)
    requires Valid(s) && s.sp + 1 < StackDepth
    ensures Valid(r)
  {
    s.(sp := s.sp + 1, stack := s.stack[s.sp + 1 := s.pc], pc := JumpTarget(a as bv16))
  }

  /** `Bnnn`: the target is `nnn + V0` in 16-bit arithmetic. */
  function JumpOffsetOp(s: State, a: Addr): (r: State)
    requires Valid(s)
    ensures Valid(r)
  {
    s.(pc := OffsetTarget(a, V(s.regs, 0)))
  }

  /** `3xkk`. */
  function SkipEqImmOp(s: State, x: Reg, kk: bv8): (r: State)
    requires Valid(s)
    ensures Valid(r)
  {
    s.(pc := SkipIf(s.pc, V(s.regs, x) == kk))
  }

  /** `4xkk`. */
  function SkipNeImmOp(s: State, x: Reg, kk: bv8): (r: State)
    requires Valid(s)
    ensures Valid(r)
  {
    s.(pc := SkipIf(s.pc, V(s.regs, x) != kk))
  }

  /** `5xy0`. */
  function SkipEqRegOp(s: State, x: Reg, y: Reg): (r: State)
    requires Valid(s)
    ensures Valid(r)
  {
    s.(pc := SkipIf(s.pc, V(s.regs, x) == V(s.regs, y)))
  }

  /** `9xy0`. */
  function SkipNeRegOp(s: State, x: Reg, y: Reg): (r: State)
    requires Valid(s)
    ensures Valid(r)
  {
    s.(pc := SkipIf(s.pc, V(s.regs, x) != V(s.regs, y)))
  }

  /** `Ex9E`: skips when key Vx is held down. */
  function SkipKeyDownOp(s: State, x: Reg, held: set<int>): (r: State)
    requires Valid(s)
    ensures Valid(r)
  {
    s.(pc := SkipIf(s.pc, V(s.regs, x) as int in held))
  }

  /** `ExA1`: skips when key Vx is not held down. */
  function SkipKeyUpOp(s: State, x: Reg, held: set<int>): (r: State)
    requires Valid(s)
    ensures Valid(r)
  {
    s.(pc := SkipIf(s.pc, V(s.regs, x) as int !in held))
  }

  /** The `IsLoad` handlers on the state. */
  function LoadOp(s: State, op: Instr, rnd: bv8): (r: State)
    requires Valid(s) && IsLoad(op)
    ensures Valid(r)
  {
    s.(regs := ExecLoad(s.regs, op, rnd))
  }

  /** The `IsArith` handlers on the state. */
  function ArithOp(s: State, op: Instr): (r: State)
    requires Valid(s) && IsArith(op)
    ensures Valid(r)
  {
    s.(regs := ExecArith(s.regs, op))
  }

  /** `Annn`. */
  function LoadIndexOp(s: State, a: Addr): (r: State)
    requires Valid(s)
    ensures Valid(r)
  {
    s.(index := a as bv16)
  }

  /** `Fx1E`: I advances by Vx in 16-bit arithmetic; VF is not touched. */
  function AddIndexOp(s: State, x: Reg): (r: State)
    requires Valid(s)
    ensures Valid(r)
  {
    s.(index := AddToIndex(s.index, V(s.regs, x)))
  }

  /** `Fx29`: I points at the glyph of digit Vx. */
  function FontGlyphOp(s: State, x: Reg): (r: State)
    requires Valid(s)
    ensures Valid(r)
  {
    s.(index := GlyphAddress(V(s.regs, x)))
  }

  /** `Fx33` on the state. */
  function StoreBcdOp(s: State, x: Reg): (r: State)
    requires Valid(s) && s.index as int + 2 < MemorySize
    ensures Valid(r)
  {
    s.(memory := StoreDigits(s.memory, s.index as int, V(s.regs, x)))
  }

  /** `Fx55` on the state. */
  function StoreRegsOp(s: State, x: Reg): (r: State)
    requires Valid(s) && s.index as int + x as int < MemorySize
    ensures Valid(r)
  {
    s.(memory := StoreRegisters(s.memory, s.index as int, s.regs, x))
  }

  /** `Fx65` on the state. */
  function LoadRegsOp(s: State, x: Reg): (r: State)
    requires Valid(s) && s.index as int + x as int < MemorySize
    ensures Valid(r)
  {
    s.(regs := LoadRegisters(s.memory, s.index as int, s.regs, x))
  }

  /** `Dxyn`: the sprite of `n` bytes at I drawn at (Vx, Vy); VF becomes the
      collision flag. */
  function DrawOp(s: State, x: Reg, y: Reg, n: bv4): (r: State)
    requires Valid(s) && (n == 0 || s.index as int + n as int <= MemorySize)
    requires Sprite.DrawFits(V(s.regs, x), V(s.regs, y), n as int)
    ensures Valid(r)
  {
    var b := Sprite.Draw(s.fb, SpriteBytes(s, n), V(s.regs, x), V(s.regs, y));
    s.(fb := b.fb, regs := SetV(s.regs, VF, if b.collision then 1 else 0))
  }

  /** `Fx07`. */
  function ReadDelayOp(s: State, x: Reg): (r: State)
    requires Valid(s)
    ensures Valid(r)
  {
    s.(regs := SetV(s.regs, x, s.delay))
  }

  /** `Fx0A`: only the gate is set; the key event handler completes it. */
  function WaitKeyOp(s: State): (r: State)
    requires Valid(s)
    ensures Valid(r)
  {
    s.(waiting := true)
  }

  /** `Fx15`. */
  function SetDelayOp(s: State, x: Reg): (r: State)
    requires Valid(s)
    ensures Valid(r)
  {
    s.(delay := V(s.regs, x))
  }

  /** `Fx18`. */
  function SetSoundOp(s: State, x: Reg): (r: State)
    requires Valid(s)
    ensures Valid(r)
  {
    s.(sound := V(s.regs, x))
  }

  /** The handler of `op`, before the common advance of the program
      counter. `held` is the set of keypad keys whose keyboard key is down.
      Unrecognised words leave the state alone. */
  function Execute(s: State, op: Instr, held: set<int>, rnd: bv8): (r: State)
    requires Valid(s) && Safe(s, op)
    ensures Valid(r)
  {
    if IsLoad(op) then LoadOp(s, op, rnd)
    else if IsArith(op) then ArithOp(s, op)
    else if op.ClearScreen? then ClearScreenOp(s)
    else if op.Return? then ReturnOp(s)
    else if op.Jump? then JumpOp(s, op.addr)
    else if op.Call? then CallOp(s, op.addr)
    else if op.JumpOffset? then JumpOffsetOp(s, op.addr)
    else if op.SkipEqImm? then SkipEqImmOp(s, op.x, op.kk)
    else if op.SkipNeImm? then SkipNeImmOp(s, op.x, op.kk)
    else if op.SkipEqReg? then SkipEqRegOp(s, op.x, op.y)
    else if op.SkipNeReg? then SkipNeRegOp(s, op.x, op.y)
    else if op.SkipKeyDown? then SkipKeyDownOp(s, op.x, held)
    else if op.SkipKeyUp? then SkipKeyUpOp(s, op.x, held)
    else if op.LoadIndex? then LoadIndexOp(s, op.addr)
    else if op.AddIndex? then AddIndexOp(s, op.x)
    else if op.FontGlyph? then FontGlyphOp(s, op.x)
    else if op.StoreBcd? then StoreBcdOp(s, op.x)
    else if op.StoreRegs? then StoreRegsOp(s, op.x)
    else if op.LoadRegs? then LoadRegsOp(s, op.x)
    else if op.Draw? then DrawOp(s, op.x, op.y, op.n)
    else if op.ReadDelay? then ReadDelayOp(s, op.x)
    else if op.WaitKey? then WaitKeyOp(s)
    else if op.SetDelay? then SetDelayOp(s, op.x)
    else if op.SetSound? then SetSoundOp(s, op.x)
    else s
  }

  /** The handler of `op` followed by the common advance of the program counter. */
  function StepOp(s: State, op: Instr, held: set<int>, rnd: bv8): (r: State)
    requires Valid(s) && Safe(s, op)
    ensures Valid(r)
  {
    var t := Execute(s, op, held, rnd);
    t.(pc := Advance(t.pc))
  }

  /** One call of the interpreter's cycle: the instruction at the program
      counter, decoded and run. */
  function Step(s: State, held: set<int>, rnd: bv8): (r: State)
    requires CanStep(s)
    ensures Valid(r)
  {
    StepOp(s, Decode(Fetch(s)), held, rnd)
  }

  /** The driver loop's gate: no cycle runs while the machine waits for a
      key, and one full cycle runs otherwise. */
  function Run(s: State, held: set<int>, rnd: bv8): (r: State)
    requires Valid(s) && (!s.waiting ==> CanStep(s))
    ensures Valid(r)
    ensures s.waiting ==> r == s
    ensures !s.waiting ==> r == Step(s, held, rnd)
  {
    if s.waiting then s else Step(s, held, rnd)
  }
}
