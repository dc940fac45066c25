/** The CHIP-8 machine state: the fields of the interpreter core, the font
    table it preloads, the fresh state its constructor builds and the copy of
    a program image into memory. */
module Machine {

  /** A register number: the 4-bit `x` or `y` field of an instruction. */
  type Reg = bv4

  /** A 12-bit address: the `nnn` field of an instruction. */
  type Addr = bv12

  const RegCount := 16
  const StackDepth := 16
  /** 64 x 32 pixels, one bit per pixel, 8 bytes per row. */
  const FramebufferSize := 256
  const RowBytes := 8
  const MemorySize := 4096
  /** Programs are loaded, and start executing, at this address. */
  const ProgramStart := 0x200
  const MaxProgramSize := MemorySize - ProgramStart
  /** The flags register VF. */
  const VF: Reg := 0xF

  /** The 16 hexadecimal digit glyphs, 5 bytes (rows) each, loaded at address 0. */
  const Font: seq<bv8> := [
    0xF0, 0x90, 0x90, 0x90, 0xF0, // 0
    0x20, 0x60, 0x20, 0x20, 0x70, // 1
    0xF0, 0x10, 0xF0, 0x80, 0xF0, // 2
    0xF0, 0x10, 0xF0, 0x10, 0xF0, // 3
    0x90, 0x90, 0xF0, 0x10, 0x10, // 4
    0xF0, 0x80, 0xF0, 0x10, 0xF0, // 5
    0xF0, 0x80, 0xF0, 0x90, 0xF0, // 6
    0xF0, 0x10, 0x20, 0x40, 0x40, // 7
    0xF0, 0x90, 0xF0, 0x90, 0xF0, // 8
    0xF0, 0x90, 0xF0, 0x10, 0xF0, // 9
    0xF0, 0x90, 0xF0, 0x90, 0x90, // A
    0xE0, 0x90, 0xE0, 0x90, 0xE0, // B
    0xF0, 0x80, 0x80, 0x80, 0xF0, // C
    0xE0, 0x90, 0x90, 0x90, 0xE0, // D
    0xF0, 0x80, 0xF0, 0x80, 0xF0, // E
    0xF0, 0x80, 0xF0, 0x80, 0x80  // F
  ]
  const GlyphSize := 5

  /** The interpreter state. `sp` is the signed stack pointer, -1 when the
      stack is empty. The two `last...Update` fields are the times of each
      timer's last decrement. `waiting` is the gate set by `Fx0A`. */
  datatype State = State(
    regs: seq<bv8>,
    index: bv16,
    pc: bv16,
    sp: int,
    delay: bv8,
    sound: bv8,
    lastDelayUpdate: int,
    lastSoundUpdate: int,
    stack: seq<bv16>,
    fb: seq<bv8>,
    memory: seq<bv8>,
    waiting: bool)

  /** The fixed shape of the state: the array sizes and the stack pointer range. */
  predicate Valid(s: State) {
    && |s.regs| == RegCount
    && |s.stack| == StackDepth
    && |s.fb| == FramebufferSize
    && |s.memory| == MemorySize
    && -1 <= s.sp < StackDepth
  }

  /** Register Vx of a register file. */
  function V(regs: seq<bv8>, x: Reg): bv8
    requires |regs| == RegCount
  {
    regs[x]
  }

  /** The register file with Vx set to `b`. */
  function SetV(regs: seq<bv8>, x: Reg, b: bv8): (r: seq<bv8>)
    requires |regs| == RegCount
    ensures |r| == RegCount
    ensures V(r, x) == b
    ensures forall z: Reg | z != x :: V(r, z) == V(regs, z)
  {
    regs[x := b]
  }

  /** The 16-bit word with high byte `hi` and low byte `lo`. */
  function Join(hi: bv8, lo: bv8): (w: bv16)
    ensures (w >> 8) as bv8 == hi && (w & 0xFF) as bv8 == lo
  {
    (hi as bv16 << 8) | lo as bv16
  }

  /** The big-endian 16-bit word made of the bytes at `a` and `a + 1`. */
  function WordAt(bytes: seq<bv8>, a: int): bv16
    requires 0 <= a && a + 1 < |bytes|
  {
    Join(bytes[a], bytes[a + 1])
  }

  /** Two words read at the same place are equal only if both bytes are. */
  lemma WordAtInjective(a: seq<bv8>, b: seq<bv8>, i: int)
    requires 0 <= i && i + 1 < |a| && i + 1 < |b|
    requires WordAt(a, i) == WordAt(b, i)
    ensures a[i] == b[i] && a[i + 1] == b[i + 1]
  {
  }

  /** The state the constructor builds. The timers' last-update times are
      never initialised there, so they are parameters. */
  function Init(lastDelay: int, lastSound: int): (s: State)
    ensures Valid(s)
    ensures s.pc == ProgramStart as bv16 && s.index == 0 && s.sp == -1
    ensures s.delay == 0 && s.sound == 0 && !s.waiting
    ensures forall r: Reg :: s.regs[r] == 0
    ensures forall d | 0 <= d < StackDepth :: s.stack[d] == 0
    ensures forall j | 0 <= j < FramebufferSize :: s.fb[j] == 0
    ensures s.memory[..|Font|] == Font
    ensures forall a | |Font| <= a < MemorySize :: s.memory[a] == 0
  {
    State(
      seq(RegCount, _ => 0), 0, ProgramStart as bv16, -1, 0, 0, lastDelay, lastSound,
      seq(StackDepth, _ => 0), seq(FramebufferSize, _ => 0),
      Font + seq(MemorySize - |Font|, _ => 0),
      false)
  }

  /** Copies a program image into memory from `ProgramStart` on. The image
      buffer is zero-filled, so memory past the image becomes zero. */
  function LoadProgram(s: State, rom: seq<bv8>): (r: State)
    requires Valid(s)
    requires |rom| <= MaxProgramSize
    ensures Valid(r)
    ensures r.memory[..ProgramStart] == s.memory[..ProgramStart]
    ensures forall i | 0 <= i < |rom| :: r.memory[ProgramStart + i] == rom[i]
    ensures forall a | ProgramStart + |rom| <= a < MemorySize :: r.memory[a] == 0
    ensures r.(memory := s.memory) == s
  {
    var image := rom + seq(MaxProgramSize - |rom|, _ => 0);
    s.(memory := s.memory[..ProgramStart] + image)
  }
}
