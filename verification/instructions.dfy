/** Instruction decoding: the 16-bit instruction word, split into the fields
    the interpreter's dispatch reads, becomes one of the CHIP-8 operations. */
module Instructions {
  import opened Machine

  datatype Instr =
    | ClearScreen                       // 00E0
    | Return                            // 00EE
    | Jump(addr: Addr)                  // 1nnn
    | Call(addr: Addr)                  // 2nnn
    | SkipEqImm(x: Reg, kk: bv8)        // 3xkk
    | SkipNeImm(x: Reg, kk: bv8)        // 4xkk
    | SkipEqReg(x: Reg, y: Reg)         // 5xy0 (low nibble not checked)
    | LoadImm(x: Reg, kk: bv8)          // 6xkk
    | AddImm(x: Reg, kk: bv8)           // 7xkk
    | Move(x: Reg, y: Reg)              // 8xy0
    | Or(x: Reg, y: Reg)                // 8xy1
    | And(x: Reg, y: Reg)               // 8xy2
    | Xor(x: Reg, y: Reg)               // 8xy3
    | Add(x: Reg, y: Reg)               // 8xy4
    | Sub(x: Reg, y: Reg)               // 8xy5
    | ShiftRight(x: Reg, y: Reg)        // 8xy6 (y is not used)
    | SubReverse(x: Reg, y: Reg)        // 8xy7
    | ShiftLeft(x: Reg, y: Reg)         // 8xyE (y is not used)
    | SkipNeReg(x: Reg, y: Reg)         // 9xy0 (low nibble not checked)
    | LoadIndex(addr: Addr)             // Annn
    | JumpOffset(addr: Addr)            // Bnnn
    | Random(x: Reg, kk: bv8)           // Cxkk
    | Draw(x: Reg, y: Reg, n: bv4)      // Dxyn
    | SkipKeyDown(x: Reg)               // Ex9E
    | SkipKeyUp(x: Reg)                 // ExA1
    | ReadDelay(x: Reg)                 // Fx07
    | WaitKey(x: Reg)                   // Fx0A
    | SetDelay(x: Reg)                  // Fx15
    | SetSound(x: Reg)                  // Fx18
    | AddIndex(x: Reg)                  // Fx1E
    | FontGlyph(x: Reg)                 // Fx29
    | StoreBcd(x: Reg)                  // Fx33
    | StoreRegs(x: Reg)                 // Fx55
    | LoadRegs(x: Reg)                  // Fx65
    | Nop                               // 0nnn and unrecognised sub-opcodes

  /** Bits 8-11 of an instruction word. */
  function RegX(w: bv16): Reg {
    ((w >> 8) & 0xF) as Reg
  }

  /** Bits 4-7 of an instruction word. */
  function RegY(w: bv16): Reg {
    ((w >> 4) & 0xF) as Reg
  }

  function Nibble(w: bv16): bv4 {
    (w & 0xF) as bv4
  }

  function Byte(w: bv16): bv8 {
    (w & 0xFF) as bv8
  }

  function Address(w: bv16): Addr {
    (w & 0xFFF) as Addr
  }

  /** The dispatch on the high nibble, with the secondary dispatch of the
      0, 8, E and F families on the word, the low nibble or the low byte. */
  function Decode(w: bv16): Instr {
    var x, y, kk, nnn := RegX(w), RegY(w), Byte(w), Address(w);
    var family := w & 0xF000;
    if family == 0x0000 then
      if w == 0x00E0 then ClearScreen
      else if w == 0x00EE then Return
      else Nop
    else if family == 0x1000 then Jump(nnn)
    else if family == 0x2000 then Call(nnn)
    else if family == 0x3000 then SkipEqImm(x, kk)
    else if family == 0x4000 then SkipNeImm(x, kk)
    else if family == 0x5000 then SkipEqReg(x, y)
    else if family == 0x6000 then LoadImm(x, kk)
    else if family == 0x7000 then AddImm(x, kk)
    else if family == 0x8000 then
      var sub := Nibble(w);
      if sub == 0x0 then Move(x, y)
      else if sub == 0x1 then Or(x, y)
      else if sub == 0x2 then And(x, y)
      else if sub == 0x3 then Xor(x, y)
      else if sub == 0x4 then Add(x, y)
      else if sub == 0x5 then Sub(x, y)
      else if sub == 0x6 then ShiftRight(x, y)
      else if sub == 0x7 then SubReverse(x, y)
      else if sub == 0xE then ShiftLeft(x, y)
      else Nop
    else if family == 0x9000 then SkipNeReg(x, y)
    else if family == 0xA000 then LoadIndex(nnn)
    else if family == 0xB000 then JumpOffset(nnn)
    else if family == 0xC000 then Random(x, kk)
    else if family == 0xD000 then Draw(x, y, Nibble(w))
    else if family == 0xE000 then
      if kk == 0x9E then SkipKeyDown(x)
      else if kk == 0xA1 then SkipKeyUp(x)
      else Nop
    else
      if kk == 0x07 then ReadDelay(x)
      else if kk == 0x0A then WaitKey(x)
      else if kk == 0x15 then SetDelay(x)
      else if kk == 0x18 then SetSound(x)
      else if kk == 0x1E then AddIndex(x)
      else if kk == 0x29 then FontGlyph(x)
      else if kk == 0x33 then StoreBcd(x)
      else if kk == 0x55 then StoreRegs(x)
      else if kk == 0x65 then LoadRegs(x)
      else Nop
  }

  function XY(family: bv16, x: Reg, y: Reg, low: bv4): bv16 {
    family | (x as bv16 << 8) | (y as bv16 << 4) | low as bv16
  }

  function XKK(family: bv16, x: Reg, kk: bv8): bv16 {
    family | (x as bv16 << 8) | kk as bv16
  }

  /** The canonical instruction word of each operation; `Nop` is encoded as
      the ignored `0nnn` word `0000`. */
  function Encode(op: Instr): bv16 {
    match op
    case ClearScreen => 0x00E0
    case Return => 0x00EE
    case Jump(a) => 0x1000 | a as bv16
    case Call(a) => 0x2000 | a as bv16
    case SkipEqImm(x, kk) => XKK(0x3000, x, kk)
    case SkipNeImm(x, kk) => XKK(0x4000, x, kk)
    case SkipEqReg(x, y) => XY(0x5000, x, y, 0)
    case LoadImm(x, kk) => XKK(0x6000, x, kk)
    case AddImm(x, kk) => XKK(0x7000, x, kk)
    case Move(x, y) => XY(0x8000, x, y, 0x0)
    case Or(x, y) => XY(0x8000, x, y, 0x1)
    case And(x, y) => XY(0x8000, x, y, 0x2)
    case Xor(x, y) => XY(0x8000, x, y, 0x3)
    case Add(x, y) => XY(0x8000, x, y, 0x4)
    case Sub(x, y) => XY(0x8000, x, y, 0x5)
    case ShiftRight(x, y) => XY(0x8000, x, y, 0x6)
    case SubReverse(x, y) => XY(0x8000, x, y, 0x7)
    case ShiftLeft(x, y) => XY(0x8000, x, y, 0xE)
    case SkipNeReg(x, y) => XY(0x9000, x, y, 0)
    case LoadIndex(a) => 0xA000 | a as bv16
    case JumpOffset(a) => 0xB000 | a as bv16
    case Random(x, kk) => XKK(0xC000, x, kk)
    case Draw(x, y, n) => XY(0xD000, x, y, n)
    case SkipKeyDown(x) => XKK(0xE000, x, 0x9E)
    case SkipKeyUp(x) => XKK(0xE000, x, 0xA1)
    case ReadDelay(x) => XKK(0xF000, x, 0x07)
    case WaitKey(x) => XKK(0xF000, x, 0x0A)
    case SetDelay(x) => XKK(0xF000, x, 0x15)
    case SetSound(x) => XKK(0xF000, x, 0x18)
    case AddIndex(x) => XKK(0xF000, x, 0x1E)
    case FontGlyph(x) => XKK(0xF000, x, 0x29)
    case StoreBcd(x) => XKK(0xF000, x, 0x33)
    case StoreRegs(x) => XKK(0xF000, x, 0x55)
    case LoadRegs(x) => XKK(0xF000, x, 0x65)
    case Nop => 0x0000
  }

  lemma XKKFields(family: bv16, x: Reg, kk: bv8)
    requires family & 0x0FFF == 0
    ensures XKK(family, x, kk) & 0xF000 == family
    ensures RegX(XKK(family, x, kk)) == x
    ensures Byte(XKK(family, x, kk)) == kk
  {
  }

  lemma XYFields(family: bv16, x: Reg, y: Reg, low: bv4)
    requires family & 0x0FFF == 0
    ensures XY(family, x, y, low) & 0xF000 == family
    ensures RegX(XY(family, x, y, low)) == x
    ensures RegY(XY(family, x, y, low)) == y
    ensures Nibble(XY(family, x, y, low)) == low
  {
  }

  lemma AddrFields(family: bv16, a: Addr)
    requires family & 0x0FFF == 0
    ensures (family | a as bv16) & 0xF000 == family
    ensures Address(family | a as bv16) == a
  {
  }

  lemma DecodeEncodeAddr(op: Instr)
    requires op.Jump? || op.Call? || op.LoadIndex? || op.JumpOffset?
    ensures Decode(Encode(op)) == op
  {
    match op
    case Jump(a) => AddrFields(0x1000, a);
    case Call(a) => AddrFields(0x2000, a);
    case LoadIndex(a) => AddrFields(0xA000, a);
    case JumpOffset(a) => AddrFields(0xB000, a);
  }

  lemma DecodeEncodeImm(op: Instr)
    requires op.SkipEqImm? || op.SkipNeImm? || op.LoadImm? || op.AddImm? || op.Random?
    ensures Decode(Encode(op)) == op
  {
    match op
    case SkipEqImm(x, kk) => XKKFields(0x3000, x, kk);
    case SkipNeImm(x, kk) => XKKFields(0x4000, x, kk);
    case LoadImm(x, kk) => XKKFields(0x6000, x, kk);
    case AddImm(x, kk) => XKKFields(0x7000, x, kk);
    case Random(x, kk) => XKKFields(0xC000, x, kk);
  }

  lemma DecodeEncodeAlu(op: Instr)
    requires op.Move? || op.Or? || op.And? || op.Xor? || op.Add? || op.Sub?
          || op.ShiftRight? || op.SubReverse? || op.ShiftLeft?
    ensures Decode(Encode(op)) == op
  {
    XYFields(0x8000, op.x, op.y, Nibble(Encode(op)));
  }

  lemma DecodeEncodeXY(op: Instr)
    requires op.SkipEqReg? || op.SkipNeReg? || op.Draw?
    ensures Decode(Encode(op)) == op
  {
    match op
    case SkipEqReg(x, y) => XYFields(0x5000, x, y, 0);
    case SkipNeReg(x, y) => XYFields(0x9000, x, y, 0);
    case Draw(x, y, n) => XYFields(0xD000, x, y, n);
  }

  lemma DecodeEncodeKey(op: Instr)
    requires op.SkipKeyDown? || op.SkipKeyUp?
    ensures Decode(Encode(op)) == op
  {
    match op
    case SkipKeyDown(x) => XKKFields(0xE000, x, 0x9E);
    case SkipKeyUp(x) => XKKFields(0xE000, x, 0xA1);
  }

  lemma DecodeEncodeTimer(op: Instr)
    requires op.ReadDelay? || op.WaitKey? || op.SetDelay? || op.SetSound?
    ensures Decode(Encode(op)) == op
  {
    match op
    case ReadDelay(x) => XKKFields(0xF000, x, 0x07);
    case WaitKey(x) => XKKFields(0xF000, x, 0x0A);
    case SetDelay(x) => XKKFields(0xF000, x, 0x15);
    case SetSound(x) => XKKFields(0xF000, x, 0x18);
  }

  lemma DecodeEncodeIndex(op: Instr)
    requires op.AddIndex? || op.FontGlyph? || op.StoreBcd? || op.StoreRegs? || op.LoadRegs?
    ensures Decode(Encode(op)) == op
  {
    match op
    case AddIndex(x) => XKKFields(0xF000, x, 0x1E);
    case FontGlyph(x) => XKKFields(0xF000, x, 0x29);
    case StoreBcd(x) => XKKFields(0xF000, x, 0x33);
    case StoreRegs(x) => XKKFields(0xF000, x, 0x55);
    case LoadRegs(x) => XKKFields(0xF000, x, 0x65);
  }

  /** Every operation survives encoding and decoding. */
  lemma DecodeEncode(op: Instr)
    ensures Decode(Encode(op)) == op
  {
    if op.Jump? || op.Call? || op.LoadIndex? || op.JumpOffset? {
      DecodeEncodeAddr(op);
    } else if op.SkipEqImm? || op.SkipNeImm? || op.LoadImm? || op.AddImm? || op.Random? {
      DecodeEncodeImm(op);
    } else if op.SkipEqReg? || op.SkipNeReg? || op.Draw? {
      DecodeEncodeXY(op);
    } else if op.Move? || op.Or? || op.And? || op.Xor? || op.Add? || op.Sub?
           || op.ShiftRight? || op.SubReverse? || op.ShiftLeft? {
      DecodeEncodeAlu(op);
    } else if op.SkipKeyDown? || op.SkipKeyUp? {
      DecodeEncodeKey(op);
    } else if op.ReadDelay? || op.WaitKey? || op.SetDelay? || op.SetSound? {
      DecodeEncodeTimer(op);
    } else if op.AddIndex? || op.FontGlyph? || op.StoreBcd? || op.StoreRegs? || op.LoadRegs? {
      DecodeEncodeIndex(op);
    }
  }
}
