/** The instructions that talk to the devices: the screen (`00E0`, `Dxyn`),
    the timers (`Fx07`, `Fx15`, `Fx18`) and the keypad wait (`Fx0A`), which
    the key event handler completes. */
module Devices {
  import opened Machine
  import opened Instructions
  import opened Keys
  import opened Cpu
  import Sprite
  import Keypad

  /** `00E0` switches every pixel off; nothing else changes. */
  lemma StepClearScreen(s: State, held: set<int>, rnd: bv8)
    requires Valid(s)
    ensures var r := StepOp(s, ClearScreen, held, rnd);
      && (forall j | 0 <= j < FramebufferSize :: r.fb[j] == 0)
      && r == s.(fb := r.fb, pc := Advance(s.pc))
  {
  }

  /** The flag `Dxyn` leaves in VF. */
  function CollisionFlag(b: Sprite.Blit): bv8 {
    if b.collision then 1 else 0
  }

  /** `Dxyn` draws the `n` bytes at I at (Vx, Vy) and puts the collision
      flag in VF; memory, I and the other registers stay. */
  lemma StepDraw(s: State, held: set<int>, rnd: bv8, x: Reg, y: Reg, n: bv4)
    requires Valid(s) && Safe(s, Draw(x, y, n))
    ensures var b := Sprite.Draw(s.fb, SpriteBytes(s, n), V(s.regs, x), V(s.regs, y));
      StepOp(s, Draw(x, y, n), held, rnd)
      == s.(fb := b.fb, regs := SetV(s.regs, VF, CollisionFlag(b)), pc := Advance(s.pc))
  {
  }

  /** VF after `Dxyn` is 1 exactly when some sprite row meets a lit pixel
      of the window it is drawn over, and 0 otherwise. */
  lemma DrawFlag(s: State, held: set<int>, rnd: bv8, x: Reg, y: Reg, n: bv4)
    requires Valid(s) && Safe(s, Draw(x, y, n))
    ensures var r := StepOp(s, Draw(x, y, n), held, rnd);
      var base, off := Sprite.SpriteBase(V(s.regs, x), V(s.regs, y)), Sprite.SpriteOffset(V(s.regs, x));
      && (V(r.regs, VF) == 0 || V(r.regs, VF) == 1)
      && (V(r.regs, VF) == 1 <==> exists i | 0 <= i < n as int ::
            Sprite.RowWindow(s.fb, base, off, i) & SpriteBytes(s, n)[i] != 0)
  {
    StepDraw(s, held, rnd, x, y, n);
    var b := Sprite.Draw(s.fb, SpriteBytes(s, n), V(s.regs, x), V(s.regs, y));
    assert V(StepOp(s, Draw(x, y, n), held, rnd).regs, VF) == CollisionFlag(b);
  }

  /** The sprite rows are the `n` bytes of memory from I on. */
  lemma SpriteRows(s: State, n: bv4)
    requires Valid(s) && (n == 0 || s.index as int + n as int <= MemorySize)
    ensures |SpriteBytes(s, n)| == n as int
    ensures forall i | 0 <= i < n as int :: SpriteBytes(s, n)[i] == s.memory[s.index as int + i]
  {
  }

  /** With VF not among its coordinates, a draw leaves the next draw of
      the same instruction the same sprite, at the same place. */
  lemma DrawKeepsSprite(s: State, held: set<int>, rnd: bv8, x: Reg, y: Reg, n: bv4)
    requires Valid(s) && Safe(s, Draw(x, y, n)) && x != VF && y != VF
    ensures var t := StepOp(s, Draw(x, y, n), held, rnd);
      && V(t.regs, x) == V(s.regs, x) && V(t.regs, y) == V(s.regs, y)
      && Safe(t, Draw(x, y, n)) && SpriteBytes(t, n) == SpriteBytes(s, n)
  {
    StepDraw(s, held, rnd, x, y, n);
  }

  /** A sprite drawn twice at the same place with VF not among its
      coordinates leaves the framebuffer as it was. */
  lemma DrawTwiceRestores(s: State, held: set<int>, rnd: bv8, x: Reg, y: Reg, n: bv4)
    requires Valid(s) && Safe(s, Draw(x, y, n)) && x != VF && y != VF
    ensures var t := StepOp(s, Draw(x, y, n), held, rnd);
      Safe(t, Draw(x, y, n)) && StepOp(t, Draw(x, y, n), held, rnd).fb == s.fb
  {
    DrawKeepsSprite(s, held, rnd, x, y, n);
    var t := StepOp(s, Draw(x, y, n), held, rnd);
    StepDraw(s, held, rnd, x, y, n);
    StepDraw(t, held, rnd, x, y, n);
    Sprite.DrawTwice(s.fb, SpriteBytes(s, n), V(s.regs, x), V(s.regs, y));
  }

  /** On a blank screen `Dxyn` never reports a collision. */
  lemma DrawOnBlankScreen(s: State, held: set<int>, rnd: bv8, x: Reg, y: Reg, n: bv4)
    requires Valid(s) && Safe(s, Draw(x, y, n))
    requires forall j | 0 <= j < FramebufferSize :: s.fb[j] == 0
    ensures V(StepOp(s, Draw(x, y, n), held, rnd).regs, VF) == 0
  {
    StepDraw(s, held, rnd, x, y, n);
    var sprite, vx, vy := SpriteBytes(s, n), V(s.regs, x), V(s.regs, y);
    forall i | 0 <= i < |sprite|
      ensures Sprite.RowWindow(s.fb, Sprite.SpriteBase(vx, vy), Sprite.SpriteOffset(vx), i) == 0
    {
      var start := Sprite.RowStart(Sprite.SpriteBase(vx, vy), i);
      assert s.fb[start] == 0 && s.fb[start + 1] == 0;
    }
    Sprite.DrawOnBlank(s.fb, sprite, vx, vy);
  }

  /** `Fx15` loads the delay timer from Vx; nothing else changes. */
  lemma StepSetDelay(s: State, held: set<int>, rnd: bv8, x: Reg)
    requires Valid(s)
    ensures StepOp(s, SetDelay(x), held, rnd) == s.(delay := V(s.regs, x), pc := Advance(s.pc))
  {
  }

  /** `Fx18` loads the sound timer from Vx; nothing else changes. */
  lemma StepSetSound(s: State, held: set<int>, rnd: bv8, x: Reg)
    requires Valid(s)
    ensures StepOp(s, SetSound(x), held, rnd) == s.(sound := V(s.regs, x), pc := Advance(s.pc))
  {
  }

  /** `Fx07` copies the delay timer into Vx; nothing else changes. */
  lemma StepReadDelay(s: State, held: set<int>, rnd: bv8, x: Reg)
    requires Valid(s)
    ensures StepOp(s, ReadDelay(x), held, rnd)
         == s.(regs := SetV(s.regs, x, s.delay), pc := Advance(s.pc))
  {
  }

  /** `Fx15` then `Fy07`, with no timer poll between them, reads back the
      value that was set. */
  lemma SetThenReadDelay(s: State, held: set<int>, rnd: bv8, x: Reg, y: Reg)
    requires Valid(s)
    ensures var t := StepOp(s, SetDelay(x), held, rnd);
      V(StepOp(t, ReadDelay(y), held, rnd).regs, y) == V(s.regs, x)
  {
    StepSetDelay(s, held, rnd, x);
    StepReadDelay(StepOp(s, SetDelay(x), held, rnd), held, rnd, y);
  }

  /** `Fx0A` sets the wait gate and advances; nothing else changes. */
  lemma StepWaitKey(s: State, held: set<int>, rnd: bv8, x: Reg)
    requires Valid(s)
    ensures StepOp(s, WaitKey(x), held, rnd) == s.(waiting := true, pc := Advance(s.pc))
  {
  }

  /** Inside memory the advance does not wrap. */
  lemma AdvanceInMemory(pc: bv16)
    requires pc as int + 1 < MemorySize
    ensures Advance(pc) as int == pc as int + 2
  {
  }

  /** A word that decodes to `Fx0A` names its register in bits 8-11. */
  lemma WaitKeyRegister(w: bv16)
    requires Decode(w).WaitKey?
    ensures RegX(w) == Decode(w).x
  {
  }

  /** After the cycle that runs an `Fx0A` at the program counter, the gate
      is set, the program counter is two past the instruction, and the
      handler reads back the same instruction's register. */
  lemma WaitLeavesRegister(s: State, held: set<int>, rnd: bv8)
    requires CanStep(s) && Decode(Fetch(s)).WaitKey?
    ensures var t := StepOp(s, Decode(Fetch(s)), held, rnd);
      && t.waiting && t.pc as int == s.pc as int + 2 && 2 <= t.pc as int <= MemorySize
      && Keypad.WaitRegister(t) == Decode(Fetch(s)).x
  {
    var x := Decode(Fetch(s)).x;
    StepWaitKey(s, held, rnd, x);
    AdvanceInMemory(s.pc);
    WaitKeyRegister(Fetch(s));
  }

  /** After the cycle that runs an `Fx0A` at the program counter, a press of
      the key of keypad key `k` stores `k` in exactly the register that
      instruction names and clears the gate. */
  lemma WaitThenDeliver(s: State, held: set<int>, rnd: bv8, k: int)
    requires CanStep(s) && Decode(Fetch(s)).WaitKey? && 0 <= k < KeyCount
    ensures var t := StepOp(s, Decode(Fetch(s)), held, rnd);
      && t.waiting && 2 <= t.pc as int <= MemorySize
      && var r := Keypad.DeliverKey(t, KeyMap[k], Press);
      && !r.waiting && V(r.regs, Decode(Fetch(s)).x) as int == k
  {
    WaitLeavesRegister(s, held, rnd);
    var t := StepOp(s, Decode(Fetch(s)), held, rnd);
    Keypad.DeliverMappedKey(t, k);
  }
}
