# CHIP-8 interpreter core

This project models the engine of the `Core` class of a CHIP-8 interpreter
and proves properties about it. It covers:

- the machine state and how the constructor initialises it;
- the copy of a program image into memory;
- the instruction cycle `Core::opcode`: fetch, decode, each handler, and
  the common `pc += 2`;
- the unaligned XOR sprite blit with its collision flag
  (`updateFramebuffer`, `isPixelDeactivated`);
- the two timer countdowns;
- the key event handler `Fx0AKeyCallback`, which completes `Fx0A`;
- the driver's gate: no cycle runs while the machine waits for a key.

The model is functional. `Machine.State` is an immutable datatype: the
registers, memory and framebuffer are `seq<bv8>` and the stack is
`seq<bv16>`. Each operation is a pure function of the state.

Each cycle takes two inputs that come from outside the core:

- the random byte of `Cxkk`;
- the set of keypad keys (0..F) held down, which `Ex9E`/`ExA1` consult.

Every index the C++ leaves unchecked becomes a precondition. No clamping
or wrap-around is invented.

## Modules

| file | module | content |
|---|---|---|
| machine.dfy | `Machine` | state, font, constructor state (`Init`), program load |
| instructions.dfy | `Instructions` | decoder, canonical encoder, decode/encode round trip |
| cpu.dfy | `Cpu` | handlers, `Execute`, `StepOp` (handler plus advance), `Step`, `Run` (the gate) |
| flow.dfy | `Flow` | jumps, calls, returns, skips, ignored words, the wait gate |
| alu.dfy | `Alu` | `6xkk`, `7xkk`, `8xyN`, `Cxkk`: values and flags |
| memory.dfy | `Memory` | `Annn`, `Fx1E`, `Fx29`, `Fx33`, `Fx55`, `Fx65` |
| devices.dfy | `Devices` | `00E0`, `Dxyn`, timer loads and reads, `Fx0A` and its completion |
| sprite.dfy | `Sprite` | the blit on the packed 64x32 framebuffer |
| timers.dfy | `Timers` | `updateDelayTimer`, `updateSoundTimer`, polls over time |
| keys.dfy | `Keys` | the 16-entry physical key table and its lookup |
| keypad.dfy | `Keypad` | the key event handler |

### How the cycle is modelled

The interpreter gets its net control flow from a trick. Jumps and calls store
`target - 2`, and skips add 2. The unconditional `pc += 2` at the end of
the cycle then completes the move. The model keeps the trick:

- `Cpu.Execute` is the handler alone;
- `Cpu.StepOp` adds `Cpu.Advance`.

The per-instruction lemmas state the net effect of one cycle with a given
operation, including the fact that no other field changes.
`Instructions.DecodeEncode` connects these operations to instruction words.
`Cpu.Step` decodes the word at `pc` and calls `StepOp`.

## Model

| member | source | states |
|---|---|---|
| Machine.Init | Chip8Emulator/Core.cpp:105-141 | the constructor's state has pc 0x200, I 0, sp -1, both timers 0 and the gate clear. Registers, stack and framebuffer are all zero. Memory holds the 80-byte font at 0..79 and zeros above it. |
| Machine.LoadProgram | Chip8Emulator/Core.cpp:169-172 | memory below 0x200 is kept and the image is copied from 0x200 on. Every byte after the image is zero, because the load buffer is zero-filled. No other field changes. |
| Machine.Join | Chip8Emulator/Core.cpp:177 | the fetched word has the byte at pc as its high byte and the next byte as its low byte, and both can be read back |
| Machine.WordAtInjective | Chip8Emulator/Core.cpp:177 | two memories give the same word at an address only if both bytes agree |
| Boot.LoadKeepsFont | Chip8Emulator/Core.cpp:138-172 | loading a program into the constructor's state keeps the font at 0..79 |
| Boot.FirstFetch | Chip8Emulator/Core.cpp:177 | after a load at pc 0x200, the first word fetched is the first two program bytes, high byte first |
| Boot.LoadTwice | Chip8Emulator/Core.cpp:169-172 | a second load replaces the first one entirely |
| Instructions.DecodeEncode | Chip8Emulator/Core.cpp:182-412 | every operation survives encoding to its canonical word and decoding through the dispatch. So the dispatch tells every operation apart and reads back each of its fields. |
| Flow.DecodeNop | Chip8Emulator/Core.cpp:182-412 | a word decodes to the ignored operation exactly when no handler matches it. That is: `0nnn` other than `00E0`/`00EE`, `8xyN` with N in 8..D or F, and `E`/`F` words whose low byte no handler names. |
| Flow.StepNop | Chip8Emulator/Core.cpp:414 | an ignored word changes nothing but pc, which goes up by 2 |
| Cpu.JumpTarget | Chip8Emulator/Core.cpp:203-206 | the value stored for a jump is two short of the target in 16-bit arithmetic, so adding 2 gives the target back |
| Flow.StepJump | Chip8Emulator/Core.cpp:201-207 | after `1nnn`, pc is nnn and nothing else changes |
| Flow.StepJumpOffset | Chip8Emulator/Core.cpp:329-333 | `Bnnn` changes only pc |
| Flow.OffsetLands | Chip8Emulator/Core.cpp:329-333 | `Bnnn` lands on nnn + V0 as an integer: the 16-bit arithmetic never wraps here |
| Flow.StepSkipEqImm | Chip8Emulator/Core.cpp:216-222 | `3xkk` lands on pc + 4 exactly when Vx = kk, and on pc + 2 otherwise; nothing else changes |
| Flow.StepSkipNeImm | Chip8Emulator/Core.cpp:223-229 | `4xkk` lands on pc + 4 exactly when Vx differs from kk, and on pc + 2 otherwise |
| Flow.StepSkipEqReg | Chip8Emulator/Core.cpp:230-237 | `5xy_` lands on pc + 4 exactly when Vx = Vy, otherwise on pc + 2, and nothing else changes |
| Flow.DecodeSkipEqReg | Chip8Emulator/Core.cpp:230-237 | every word of family 5 decodes to the `5xy_` skip on RegX and RegY, whatever its low nibble |
| Flow.StepSkipNeReg | Chip8Emulator/Core.cpp:319-325 | `9xy_` lands on pc + 4 exactly when Vx differs from Vy |
| Flow.DecodeSkipNeReg | Chip8Emulator/Core.cpp:319-325 | every word of family 9 decodes to the `9xy_` skip on RegX and RegY, whatever its low nibble |
| Flow.StepSkipKeyDown | Chip8Emulator/Core.cpp:346-353 | `Ex9E` lands on pc + 4 exactly when key Vx is held, and needs Vx < 16 |
| Flow.StepSkipKeyUp | Chip8Emulator/Core.cpp:354-361 | `ExA1` lands on pc + 4 exactly when key Vx is not held |
| Flow.StepCall | Chip8Emulator/Core.cpp:208-215 | `2nnn` pushes the call's own address into the next slot, raises sp by one and lands on nnn. It needs a free slot. |
| Flow.StepReturn | Chip8Emulator/Core.cpp:194-199 | `00EE` lands just after the saved address and lowers sp by one. It needs a non-empty stack. |
| Flow.CallThenReturn | Chip8Emulator/Core.cpp:194-215 | a call at A, then a return from any state with the call's stack, lands on A + 2. sp is back to its value before the call, and the slots below the call's are unchanged. |
| Flow.StepGate | Chip8Emulator/Core.cpp:369-374 | after one cycle the gate is set exactly when it was set before or the operation was `Fx0A`: no instruction clears it |
| Cpu.Run | Chip8Emulator/main.cpp:52-58 | the driver's cycle keeps the state shape; it is the identity while the gate is set and one full `Step` (fetch, decode, execute, advance) when it is clear |
| Cpu.ExecLoad | Chip8Emulator/Core.cpp:238-259 | `6xkk`, `7xkk`, `8xy0`-`8xy3` and `Cxkk` leave every register but Vx unchanged, VF included |
| Cpu.ExecArith | Chip8Emulator/Core.cpp:260-316 | `8xy4`-`8xy7` and `8xyE` leave every register but Vx and VF unchanged |
| Alu.StepLoad | Chip8Emulator/Core.cpp:238-259 | a register-load instruction changes only the register file and pc |
| Alu.StepArith | Chip8Emulator/Core.cpp:260-316 | a flag-setting instruction changes only the register file and pc |
| Alu.LoadCopies | Chip8Emulator/Core.cpp:238-250 | `6xkk` puts kk in Vx and `8xy0` puts Vy in Vx |
| Alu.AddImmWraps | Chip8Emulator/Core.cpp:242-244 | `7xkk` adds modulo 256: the new Vx minus kk is the old Vx |
| Alu.Negated | Chip8Emulator/Core.cpp:242-244 | gives the byte that, added modulo 256, cancels adding k |
| Alu.AddImmUndone | Chip8Emulator/Core.cpp:242-244 | `7xkk` followed by `7x(-kk)` restores the whole register file: VF is not a carry here |
| Alu.XorTwice | Chip8Emulator/Core.cpp:257-259 | the new Vx after `8xy3` XOR the old Vy is the old Vx, for every x and y; `8xx3` clears Vx; with x different from y, `8xy3` applied twice restores the register file |
| Alu.OrCovers | Chip8Emulator/Core.cpp:251-253 | the new Vx after `8xy1` contains every bit of the old Vx and of Vy, and no bit outside both |
| Alu.AndInside | Chip8Emulator/Core.cpp:254-256 | the new Vx after `8xy2` has exactly the bits set in both the old Vx and Vy |
| Alu.RandomMasked | Chip8Emulator/Core.cpp:334-338 | `Cxkk` leaves the random byte AND kk in Vx, with no bit outside kk. An all-ones random byte yields kk. |
| Alu.AddCarry | Chip8Emulator/Core.cpp:260-271 | with x not F, VF is 0 or 1, and the new Vx plus 256 times VF is the full sum Vx + Vy. So VF = 1 exactly when the sum exceeds 255, and Vx is the sum modulo 256. |
| Alu.SubBorrow | Chip8Emulator/Core.cpp:272-282 | with x and y not F, VF = 1 exactly when Vx > Vy (strictly) and 0 otherwise; the new Vx plus Vy is the old Vx modulo 256 |
| Alu.SubReverseBorrow | Chip8Emulator/Core.cpp:294-305 | with x and y not F, VF = 1 exactly when Vy > Vx and 0 otherwise; the new Vx plus the old Vx is Vy modulo 256 |
| Alu.SubReadsNewFlag | Chip8Emulator/Core.cpp:272-282 | `8xF5` subtracts the flag just written, not the old VF, because VF is written before Vx is computed |
| Alu.SubIntoFlag | Chip8Emulator/Core.cpp:272-282 | `8Fy5` with y other than F leaves in VF the new flag minus Vy, because the flag is written before the subtraction reads VF |
| Alu.SubReverseIntoFlag | Chip8Emulator/Core.cpp:294-305 | `8Fy7` leaves Vy minus the new flag in VF, and `8xF7` leaves the new flag minus the old Vx in Vx |
| Alu.ShiftRightBit | Chip8Emulator/Core.cpp:283-293 | with x not F, VF is bit 0 of the old Vx. The new Vx is below 0x80, and shifting it back with VF restores the old Vx. Vy is ignored. |
| Alu.ShiftLeftBit | Chip8Emulator/Core.cpp:306-316 | with x not F, VF is bit 7 of the old Vx. The new Vx is even, and shifting it back with VF restores the old Vx. Vy is ignored. |
| Alu.FlagOverwritten | Chip8Emulator/Core.cpp:260-316 | with x = F, the value write lands on the flag. `8Fy4` leaves the low byte of the sum, `8Fy6` leaves 0, `8FyE` leaves the shifted flag, and `8FF5` and `8FF7` leave 0. |
| Memory.StepLoadIndex | Chip8Emulator/Core.cpp:326-328 | `Annn` sets I to nnn; nothing else changes but pc |
| Memory.StepAddIndex | Chip8Emulator/Core.cpp:381-383 | `Fx1E` changes only I and pc; VF is not touched |
| Memory.AddToIndexWraps | Chip8Emulator/Core.cpp:381-383 | I advances modulo 2^16: the new I minus the old I is Vx |
| Memory.StepFontGlyph | Chip8Emulator/Core.cpp:384-388 | `Fx29` changes only I and pc |
| Memory.GlyphAt | Chip8Emulator/Core.cpp:387 | the glyph address of digit d is 5d, with no wrap-around |
| Memory.GlyphRows | Chip8Emulator/Core.cpp:384-388 | with the font in place and Vx a hex digit, I ends on the five font rows of that digit |
| Cpu.Digits | Chip8Emulator/Core.cpp:390-392 | the three bytes are decimal digits whose value, hundreds first, is Vx |
| Memory.DigitsUnique | Chip8Emulator/Core.cpp:390-392 | any three decimal digits worth Vx are exactly the digits `Fx33` writes |
| Cpu.StoreDigits | Chip8Emulator/Core.cpp:389-393 | memory[I..I+3) holds the digits of Vx and every other byte is kept |
| Memory.StepStoreBcd | Chip8Emulator/Core.cpp:389-393 | `Fx33` changes only memory and pc, and needs I + 2 inside memory |
| Cpu.StoreRegisters | Chip8Emulator/Core.cpp:397-400 | memory[I + k] = Vk for k = 0..x inclusive, and every other byte is kept |
| Cpu.LoadRegisters | Chip8Emulator/Core.cpp:405-408 | Vk = memory[I + k] for k = 0..x inclusive, and registers above x are kept |
| Memory.StepStoreRegs | Chip8Emulator/Core.cpp:394-401 | `Fx55` changes only memory and pc; I is not advanced |
| Memory.StepLoadRegs | Chip8Emulator/Core.cpp:402-409 | `Fx65` changes only the registers and pc; I is not advanced |
| Memory.StoreThenLoad | Chip8Emulator/Core.cpp:394-409 | loading back the block just stored gives the registers as they were |
| Memory.LoadThenStore | Chip8Emulator/Core.cpp:394-409 | storing the block just loaded gives the memory as it was |
| Memory.StoreRegsThenLoadRegs | Chip8Emulator/Core.cpp:394-409 | `Fx55`, then `Fx65` with the same x and I, leaves every register as it was |
| Sprite.IsPixelDeactivated | Chip8Emulator/Core.cpp:84-95 | the bit loop answers true exactly when the two bytes share a set bit |
| Sprite.MaskTable | Chip8Emulator/Core.cpp:49-58 | mask `off` keeps exactly the bits of the word outside the 8-bit window at offset off |
| Sprite.RowWordXor | Chip8Emulator/Core.cpp:73-78 | XOR-ing the window, shifting it back and OR-ing the masked bits equals XOR-ing the placed sprite byte into the word |
| Sprite.WindowMeets | Chip8Emulator/Core.cpp:63-67 | the window meets the sprite byte exactly where the stored word meets the placed sprite byte |
| Sprite.BlitRow | Chip8Emulator/Core.cpp:62-80 | one row XORs the two halves of the placed sprite byte into its two bytes and keeps every other byte. It collides exactly when the old window and the sprite byte share a lit pixel. |
| Sprite.Draw | Chip8Emulator/Core.cpp:32-82 | a collision is reported exactly when some row's window, as it was before the draw, shares a lit pixel with that row's sprite byte |
| Sprite.DrawInk | Chip8Emulator/Core.cpp:60-81 | every row's two bytes carry the halves of its placed sprite byte, and every byte no row touches is kept |
| Sprite.DrawRowEffect | Chip8Emulator/Core.cpp:73-80 | each row's window becomes the old window XOR the sprite byte, and the bits outside the window in its two bytes are kept |
| Sprite.DrawTwice | Chip8Emulator/Core.cpp:60-81 | drawing the same sprite twice at the same place restores the framebuffer exactly |
| Sprite.DrawOnBlank | Chip8Emulator/Core.cpp:60-81 | when the sprite's windows are blank (whatever the rest of the framebuffer holds) a draw never collides, and a second draw of the same sprite collides exactly when some sprite byte is non-zero |
| Devices.StepClearScreen | Chip8Emulator/Core.cpp:186-193 | `00E0` switches every pixel off; nothing else changes but pc |
| Devices.StepDraw | Chip8Emulator/Core.cpp:339-344 | `Dxyn` changes only the framebuffer, VF and pc. It draws the n bytes at I at (Vx, Vy), read before VF is written. |
| Devices.DrawFlag | Chip8Emulator/Core.cpp:32-95 | after `Dxyn`, VF is 0 or 1, and it is 1 exactly when some row i < n has a lit pixel of its old window under a set bit of memory[I + i] |
| Devices.SpriteRows | Chip8Emulator/Core.cpp:65 | sprite row i is memory[I + i] |
| Devices.DrawKeepsSprite | Chip8Emulator/Core.cpp:339-342 | with neither coordinate register VF, a draw leaves the same coordinates and sprite for the next draw |
| Devices.DrawTwiceRestores | Chip8Emulator/Core.cpp:339-344 | with neither coordinate register VF, the same `Dxyn` run twice restores the framebuffer |
| Devices.DrawOnBlankScreen | Chip8Emulator/Core.cpp:339-342 | `Dxyn` on a blank screen leaves VF = 0 |
| Devices.StepReadDelay | Chip8Emulator/Core.cpp:366-368 | `Fx07` copies the delay timer into Vx; nothing else changes but pc |
| Devices.StepSetDelay | Chip8Emulator/Core.cpp:375-377 | `Fx15` copies Vx into the delay timer; nothing else changes but pc |
| Devices.StepSetSound | Chip8Emulator/Core.cpp:378-380 | `Fx18` copies Vx into the sound timer; nothing else changes but pc |
| Devices.SetThenReadDelay | Chip8Emulator/Core.cpp:366-377 | `Fx15` then `Fy07` with no poll between them reads back the value set |
| Devices.StepWaitKey | Chip8Emulator/Core.cpp:369-374 | `Fx0A` only sets the gate; nothing else changes but pc |
| Devices.AdvanceInMemory | Chip8Emulator/Core.cpp:414 | inside memory, the advance adds 2 without wrap-around |
| Devices.WaitKeyRegister | Chip8Emulator/Core.h:69-70 | bits 8-11 of an `Fx0A` word are the decoded register x |
| Devices.WaitLeavesRegister | Chip8Emulator/Core.h:69-70 | after `Fx0A` at A runs, the gate is set, pc is A + 2, and the register the handler recovers from the word at pc - 2 is that instruction's x |
| Devices.WaitThenDeliver | Chip8Emulator/Core.h:67-72 | after `Fx0A` at A runs, a press of keypad key k clears the gate and writes k into exactly that instruction's register x |
| Keys.KeyOf | Chip8Emulator/Core.h:65-67 | the scan returns the first table entry equal to the physical key, or -1 exactly when no entry matches |
| Keys.KeyMapInjective | Chip8Emulator/Keys.h:23-40 | no two keypad keys share a physical key |
| Keys.KeyOfKeyMap | Chip8Emulator/Keys.h:23-40 | looking up the physical key of keypad key i gives back i |
| Keypad.DeliverKey | Chip8Emulator/Core.h:59-76 | an event the handler does not act on changes nothing. A press of a mapped key while waiting clears the gate. It stores the key number in the register named by the word at pc - 2, and the table maps that number back to the pressed key. Every other register, pc, I, memory, stack, timers and framebuffer are unchanged. |
| Keypad.DeliveredKeyNumber | Chip8Emulator/Core.h:65-71 | the delivered value is a key number, 0 to 15 |
| Keypad.DeliverMappedKey | Chip8Emulator/Core.h:67-72 | pressing the physical key of keypad key k while waiting stores k and clears the gate |
| Keypad.IgnoredEventKeepsWaiting | Chip8Emulator/Core.h:63-75 | while waiting, a release, a repeat or an unmapped key changes nothing and the gate stays set |
| Timers.Countdown | Chip8Emulator/Core.cpp:425-436 | a poll lowers the timer by at most one and never below zero. It lowers it exactly when the timer is non-zero and a full period has passed since the last decrement. The last-update time changes only on a decrement, and then to the poll time. |
| Timers.UpdateDelayTimer | Chip8Emulator/Core.cpp:425-436 | the delay timer and its time follow the countdown rule, and every other field is unchanged |
| Timers.UpdateSoundTimer | Chip8Emulator/Core.cpp:438-450 | the sound timer and its time follow the countdown rule, and every other field is unchanged |
| Timers.TimersCommute | Chip8Emulator/Core.cpp:425-450 | the two timers are independent: polling them in either order gives the same state |
| Timers.PollsBounded | Chip8Emulator/Core.cpp:427-434 | a run of polls never raises a timer and lowers it by at most the number of polls |
| Timers.PollsAtZero | Chip8Emulator/Core.cpp:427 | a timer at zero stays at zero |
| Timers.PollsSpaced | Chip8Emulator/Core.cpp:425-436 | polled once per period, a timer goes down by one per poll until it reaches zero |

## Left out

- Rendering: `Core::draw` and the renderer are graphics-library output. `00E0` and `Dxyn` are modelled up to the framebuffer they leave.
- Audio: the noise generator and the sound callback produce floating-point output through a library. Only the sound timer's value is modelled.
- Random engine: the random byte of `Cxkk` is a parameter of the cycle.
- File reading in `loadProgram`: only the copy of the image into memory is modelled, for images of at most 3584 bytes. The read loop's overrun on larger files is not modelled.
- `glfwGetKey` and the physical keyboard: the cycle receives the set of keypad keys held down. `Ex9E`/`ExA1` need Vx < 16, because the key table is indexed with it unchecked.
- Key codes: `Keys.KeyMap` holds the library's key codes for the table in `Keys.h`, as ASCII values.
- Wall-clock doubles and frame pacing: time is an integer and the 1/60 s period is a parameter.
- Uninitialised timer times: the constructor never sets the last-update times, so `Machine.Init` takes them as parameters.
- The driver loop in `main.cpp` is not part of this model beyond its gate (main.cpp:52-58): `Cpu.Run` runs a cycle only when the gate reported by `getIsWaitingForInput` is clear.
- Undefined behaviour becomes preconditions, with no clamping or wrap invented:
  - stack overflow on `2nnn` and underflow on `00EE`;
  - a fetch at pc + 1 beyond 4095;
  - sprite bytes at I + i beyond 4095;
  - `Fx33` at I + 2 beyond 4095;
  - `Fx55`/`Fx65` at I + x beyond 4095;
  - framebuffer bytes beyond 255;
  - the key event handler reading the word at pc - 2 with pc < 2 or pc > 4096.

  `2nnn` and `00EE` have no overflow or underflow check, so those cases are preconditions. Words no handler matches are silent no-ops.
- The blit's row spill is kept as written: for x in 56..63, the second byte of a row is byte 0 of the next framebuffer row. There is no horizontal wrap-around.
- Flag order: `8xy5`, `8xy6`, `8xy7` and `8xyE` write VF before computing Vx from the registers as they are after that write. `8xy4` computes the sum first. This matters only when x or y is F, and it is modelled as written.
- Alu.AddImmWraps: the 8-bit wrap-around is stated as a bit-vector inverse, new Vx minus kk equals old Vx, and not as an integer `mod 256` equation.
- Memory.AddToIndexWraps: the 16-bit wrap-around of I is stated as a bit-vector inverse, new I minus old I equals Vx, and not as an integer `mod 65536` equation.
- Cpu.Step: its own contract states only that the state shape is kept. The effect of each instruction is stated by the per-instruction lemmas on `Cpu.StepOp`, and `Instructions.DecodeEncode` ties those operations to instruction words.
