# Intel 8080 interpreter and Space Invaders machine, in Dafny

This project models the core of a small Intel 8080 emulator written in C, together with the Space Invaders cabinet it runs. The model has three parts.

- **The single-step interpreter** (`Emulate8080Op` in `8080emulator.c`). It covers:
  - one fetch, decode and execute step over the processor state: seven byte registers, SP, PC, the condition-code bit-field, the interrupt-enable byte and 64 KiB of memory;
  - the flag helpers `SetFlags`, `SetFlagsNoCarry` and `Parity`;
  - the opcode subset the interpreter implements: NOP, LXI B, INX, DCX, INR, DCR, DAD, ADD/ADC/SUB/SBB on a register or M, and the immediates at 0xc3, 0xc6 and 0xd6;
  - the error outcome for the opcodes it refuses (0x02, 0xfe, 0xff).
- **The machine glue** (`EmulateSpaceInvaders.c`). It covers:
  - the I/O latches;
  - the 16-bit shift register behind OUT 2, OUT 4 and IN 3;
  - `InitPorts`, `MachineIN`, `MachineOUT` and `GenerateInterrupt`;
  - the 16 ms interrupt check in `HandleInterrupt`;
  - the main loop's body: key events, the interrupt check, then one instruction. IN (0xdb) and OUT (0xd3) are intercepted there before the interpreter sees them.
- **The key mapping** (`KeyDown` / `KeyUp` in `input.c`). Nine keys each set or clear one bit of input latch 1 or 2.

The interpreter is modelled as the code is written, quirks included:
- `Parity` always answers 0, so P is never set.
- DCX SP (0x3b) has no `break` and falls through into INR A.
- 0xc3 is handled as ACI, although it is JMP on the 8080.
- ACI, ADI and SUI read the byte after the opcode but advance PC by one only.
- An opcode without a `case` is stepped over like a one-byte NOP.

Modules:
- `Words`: u8/u16/u32, the C truncations and the integer-division facts they rest on.
- `Cpu`: processor state.
- `Emulator`: the flags, the opcode table and the step.
- `EmulatorProofs`: the 8080 encoding as an independent reference, and the per-instruction and two-step properties.
- `PortLatches`: the `Ports` record.
- `Input`: the key mapping.
- `Invaders`: ports, interrupts and the main loop.
- `InvadersProofs`: the shift register, keys seen through IN, interrupt and return, and runs from power-on.

Where the code and the Intel 8080 differ, the model follows the code:
- **Parity.** The 8080 sets P when the result has an even number of one bits. Here the parity helper is a stub, so P is always cleared.
- **0xc3.** On the 8080 this opcode is JMP. Here it is handled as ACI, add immediate with carry.
- **Refused opcodes.** The 8080 has no refused opcodes: 0x02 is STAX B, 0xfe is CPI and 0xff is RST 7. Here these three stop with an error, and every other opcode without a case only advances PC.
- **Instruction set.** The 8080 has a full instruction set. The code implements only the subset listed above.

Subtraction agrees with the 8080: the difference is computed in `uint16_t`, so a borrow wraps the answer above 0xff, and carry is set exactly when a borrow occurs (A < v + carry-in), as the 8080 sets CY on a borrow.

## Model

| member | source | states |
|---|---|---|
| `Emulator.SetFlags` | 8080emulator.c:461-468 | zero ⇔ the low byte of the answer is 0; sign ⇔ bit 7 of the answer is set; parity is always clear (the helper is a stub); carry ⇔ the answer exceeds 0xff; the auxiliary-carry and padding bits are untouched |
| `Emulator.SetFlagsNoCarry` | 8080emulator.c:470-476 | the same zero, sign and parity rules, with carry, auxiliary carry and padding keeping their values |
| `Emulator.IncBytes` | 8080emulator.c:55-58 | `lo++` then `hi++` when `lo` wrapped to 0 is the pair, read as a 16-bit word, plus one modulo 2^16 |
| `Emulator.DecBytes` | 8080emulator.c:79-82 | `hi--` when `lo` is 0, then `lo--`, is the pair read as a word minus one modulo 2^16 |
| `Emulator.IncrementPair` | 8080emulator.c:55-169 | INX on BC, DE, HL or SP (the cases at lines 55-58, 92-95, 129-132 and 167-169): the pair goes up by one modulo 2^16; registers outside the pair, SP (unless it is the pair), flags, memory, interrupt-enable and PC are kept |
| `Emulator.DecrementPair` | 8080emulator.c:79-182 | DCX on BC, DE, HL or SP (the cases at lines 79-82, 116-119, 152-157 and 181-182): the pair goes down by one modulo 2^16, with the same frame as INX |
| `Emulator.Accumulate` | 8080emulator.c:192-423 | ADD/ADC: A = (A + v + carry-in) mod 256 with carry ⇔ the sum exceeds 255; SUB/SBB: A = (A − v − carry-in) mod 256 with carry ⇔ A < v + carry-in (a borrow); zero and sign from the new A, parity clear; only A and the flags change |
| `Emulator.Increment` | 8080emulator.c:59-62 | INR r: r goes up by one modulo 256, zero and sign follow the new r, parity clear, carry kept, no other register, SP, memory or PC changes |
| `Emulator.Decrement` | 8080emulator.c:63-66 | DCR r: r goes down by one modulo 256 under the same flag and frame rules |
| `Emulator.Emulate8080Op` | 8080emulator.c:40-454 | the step is refused exactly for 0x02, 0xfe and 0xff, reporting that opcode; otherwise PC advances by 3 after LXI B and by 1 after every other opcode, immediates included; memory, interrupt-enable, auxiliary carry and padding never change and parity never becomes set |
| `EmulatorProofs.DecodeIncrementDecrement` | 8080emulator.c:59-190 | the interpreter's table gives INR r at 8·r+4 and DCR r at 8·r+5 for every register, matching the 8080 register field |
| `EmulatorProofs.DecodePairOperations` | 8080emulator.c:55-182 | INX, DAD and DCX of every pair sit at 16·p+3, 16·p+9 and 16·p+0x0b, matching the 8080 pair field |
| `EmulatorProofs.DecodeAccumulator` | 8080emulator.c:192-423 | every opcode 0x80 + 8·op + src of the 0x80-0x9f block is the matching ADD, ADC, SUB or SBB on a register or M |
| `EmulatorProofs.ExecuteAddPair` | 8080emulator.c:68-78 | the DAD case body: HL = (HL + rp) mod 2^16, carry ⇔ the sum needs 17 bits, every other flag and register kept |
| `EmulatorProofs.StepIncrement` | 8080emulator.c:183-186 | one INR step on any register: wrap-around increment, zero and sign from the result, parity clear, carry unchanged, PC + 1 |
| `EmulatorProofs.StepDecrement` | 8080emulator.c:187-190 | one DCR step on any register: wrap-around decrement under the same flag rules, PC + 1 |
| `EmulatorProofs.StepIncrementPair` | 8080emulator.c:129-132 | one INX step: the pair + 1 modulo 2^16, no flag changes, other registers kept, PC + 1 |
| `EmulatorProofs.StepDecrementPair` | 8080emulator.c:116-119 | one DCX step on BC, DE or HL: the pair − 1 modulo 2^16, no flag changes, PC + 1 |
| `EmulatorProofs.StepDecrementSp` | 8080emulator.c:181-186 | DCX SP decrements SP and, falling through, also increments A and recomputes zero, sign and parity; carry and the other registers are kept |
| `EmulatorProofs.StepAddPair` | 8080emulator.c:171-179 | one DAD step: HL = (HL + rp) mod 2^16, carry ⇔ overflow past 0xffff, zero, sign and parity untouched, PC + 1 |
| `EmulatorProofs.StepDoubleHl` | 8080emulator.c:142-150 | DAD H doubles HL modulo 2^16 |
| `EmulatorProofs.StepAccumulate` | 8080emulator.c:308-315 | one ADD/ADC/SUB/SBB step with a register or M (the byte at HL): sum or difference modulo 256, carry on overflow or on borrow, zero and sign from A, parity clear, only A and the flags change |
| `EmulatorProofs.StepSubtractSelf` | 8080emulator.c:360-366 | SUB A leaves A = 0 with zero set and carry and sign clear, whatever A held |
| `EmulatorProofs.StepImmediate` | 8080emulator.c:425-448 | ACI (at 0xc3), ADI and SUI combine A with the byte after the opcode under the same arithmetic and carry rules, yet PC moves on by one only |
| `EmulatorProofs.StepLoadBc` | 8080emulator.c:47-51 | LXI B loads C from pc+1 and B from pc+2, keeps the flags and the other registers, and PC moves past all three bytes |
| `EmulatorProofs.StepWithoutCase` | 8080emulator.c:44-46 | NOP and every opcode without a case leave the state as it was except PC + 1 |
| `EmulatorProofs.UnhandledOpcodes` | 8080emulator.c:44-452 | no case exists for any opcode of the MOV/HLT block 0x40-0x7f, the logical block 0xa0-0xbf (ANA, XRA, ORA, CMP), the conditional returns, jumps and calls at 0xc0, 0xc2 and 0xc4 plus 8k, MVI at 0x06 plus 8k (k < 8), INR M, DCR M, CALL, RET, IN and OUT |
| `EmulatorProofs.DecrementUndoesIncrement` | 8080emulator.c:55-82 | DCX undoes INX on BC, DE and HL: the whole state comes back |
| `EmulatorProofs.IncrementThenDecrementPair` | 8080emulator.c:129-157 | executing INX then DCX on the same pair BC, DE or HL restores every register and flag, with PC two further on |
| `EmulatorProofs.DecrementSpUndoesIncrement` | 8080emulator.c:167-182 | DCX SP's decrement undoes INX SP's increment of the stack pointer |
| `EmulatorProofs.IncrementThenDecrementSp` | 8080emulator.c:167-186 | INX SP then DCX SP restores SP but, through the missing `break`, has the effect of one INR A, with PC two further on |
| `EmulatorProofs.DecrementUndoesIncrementRegister` | 8080emulator.c:59-66 | DCR undoes INR on every register: all registers, SP, memory, PC and carry come back, zero and sign then describe the restored value and parity is clear |
| `EmulatorProofs.IncrementThenDecrementRegister` | 8080emulator.c:183-190 | executing INR r then DCR r restores every register, SP, memory and carry, with PC two further on and zero and sign describing the restored register |
| `Input.KeyDown` | input.c:3-37 | a press ORs the key's mask into the key's latch, leaves the other latch alone and every other field untouched; an unmapped key changes nothing |
| `Input.KeyUp` | input.c:39-73 | a release clears, in the same latch, the same mask a press of that key sets; an unmapped key changes nothing |
| `Input.PressAndReleaseBits` | input.c:3-73 | after a press the key's bit is set and after a release it is clear; every other bit of that latch keeps its value |
| `Input.MasksAreSingleFreeBits` | input.c:6-33 | every key's mask is a single bit and none is bit 3 or bit 7 |
| `Input.ControlsAreDisjoint` | input.c:6-33 | two different keys on the same latch have disjoint masks |
| `Input.LatchOfEachPlayer` | input.c:25-33 | the player-2 keys (Up, Left, Right) drive latch 2 and every other mapped key drives latch 1 |
| `Input.KeyDownIdempotent` | input.c:3-37 | pressing a key twice leaves the same latches as pressing it once |
| `Input.KeyDownThenUp` | input.c:39-73 | a press followed by a release of the same key leaves the latches as the release alone would |
| `Input.LatchAfterRelease` | input.c:39-73 | a release changes a latch only when the key drives that latch, and then only by clearing the key's mask |
| `Input.ReleaseKeepsOtherPresses` | input.c:39-73 | releasing one key never clears the bit of a different key that is held |
| `Input.FixedBitsPreserved` | input.c:3-73 | no press or release changes bits 3 and 7 of either key latch |
| `Invaders.InitPorts` | EmulateSpaceInvaders.c:34-46 | power-on latches: input 0 = 0x0E, input 1 = 0x08, input 2, shift register, shift amount and the outputs zero; the result is well formed |
| `Invaders.ShiftedWindow` | EmulateSpaceInvaders.c:60-63 | the low byte of the register shifted right by 8 − n is its high byte shifted left by n, filled from the top n bits of its low byte |
| `Invaders.MachineIN` | EmulateSpaceInvaders.c:48-65 | ports 0, 1 and 2 copy latches 0, 1 and 2 into A; port 3 puts the shift-register window into A; any other port leaves the processor as it was; nothing other than A changes |
| `Invaders.MachineOUT` | EmulateSpaceInvaders.c:66-86 | port 2 stores the low three bits of A as the shift amount; port 4 makes A the high byte of the shift register and its old high byte the low byte; ports 3, 5 and 6 latch A; nothing else changes, any other port changes nothing |
| `Invaders.GenerateInterrupt` | EmulateSpaceInvaders.c:201-212 | the old PC is pushed high byte at SP−1 and low byte at SP−2; SP drops by two; PC becomes 8·n (mod 2^16); interrupts are disabled; every other memory byte, register and flag is kept |
| `Invaders.Elapsed` | EmulateSpaceInvaders.c:218 | the `Uint32` difference counts forward across a wrap of the clock |
| `Invaders.Toggle` | EmulateSpaceInvaders.c:223 | `^= 1` flips bit 0 and keeps the other bits |
| `Invaders.HandleInterrupt` | EmulateSpaceInvaders.c:214-227 | with interrupts disabled, or within 16 ms of the last interrupt, nothing changes; otherwise interrupt `interrupt_num + 1` is raised, the clock restarts at the current reading and the interrupt number toggles |
| `Invaders.MachineStep` | EmulateSpaceInvaders.c:292-311 | IN and OUT go to the port handlers with the byte after the opcode as port and advance PC by exactly 2; every other opcode goes to the interpreter, with the latches kept; only the interpreter's refused opcodes fail |
| `Invaders.HandleEventPreservesWellFormed` | EmulateSpaceInvaders.c:279-286 | handling a key event keeps the latches well formed |
| `Invaders.PollEvents` | EmulateSpaceInvaders.c:275-287 | the loop keeps running exactly when it was running and no quit event is among the drained events |
| `Invaders.PollEventsFrame` | EmulateSpaceInvaders.c:275-287 | draining events changes only input latches 1 and 2, and keeps the latches well formed |
| `Invaders.PollEventsWithoutKeys` | EmulateSpaceInvaders.c:275-287 | draining events with no key events leaves the latches unchanged |
| `Invaders.PowerOn` | EmulateSpaceInvaders.c:252-259 | the processor is all zero (A-L, SP, PC, every flag, interrupt-enable) over the loaded memory, as `calloc` leaves it; the latches are exactly `InitPorts()` and well formed; the clock holds the first reading and the interrupt number is 0 |
| `Invaders.LoopIteration` | EmulateSpaceInvaders.c:273-311 | one pass keeps running exactly when no quit event came, keeps the latches well formed, and with interrupts disabled leaves them disabled and the clock unchanged |
| `Invaders.StepPreservesWellFormed` | EmulateSpaceInvaders.c:292-311 | one instruction keeps the latches well formed |
| `Invaders.Run` | EmulateSpaceInvaders.c:273-328 | along a run of the loop the latches stay well formed, and if interrupts start disabled they stay disabled with the clock untouched |
| `InvadersProofs.ShiftRegisterLoad` | EmulateSpaceInvaders.c:75-78 | OUT 4 `x` then OUT 4 `y` leaves the shift register equal to `(y << 8) \| x` |
| `InvadersProofs.ShiftRegisterRead` | EmulateSpaceInvaders.c:48-86 | after OUT 4 `x`, OUT 4 `y`, OUT 2 `n`, IN 3 reads `y` shifted left by `n & 7`, filled from the top bits of `x`; only A changes in the processor |
| `InvadersProofs.ShiftRegisterReadUnshifted` | EmulateSpaceInvaders.c:60-63 | with shift amount 0, IN 3 reads the register's high byte, the last byte written to port 4 |
| `InvadersProofs.InReadsLatch` | EmulateSpaceInvaders.c:54-59 | IN 1 and IN 2 put latch 1 and latch 2 into A |
| `InvadersProofs.KeyVisibleThroughIn` | EmulateSpaceInvaders.c:48-59 | after a key press IN on the key's port reads the latch with the key's bit ORed in; after a release, the latch with that bit masked out |
| `InvadersProofs.PopReturn` | EmulateSpaceInvaders.c:203-206 | the 8080's RET as the reference for the push: it pops PC from SP and SP+1 and raises SP by two, changing nothing else |
| `InvadersProofs.InterruptThenReturn` | EmulateSpaceInvaders.c:203-211 | popping what the interrupt pushed gives back the old PC and SP; only the two stack bytes and interrupt-enable differ from before the interrupt |
| `InvadersProofs.ToggleAlternates` | EmulateSpaceInvaders.c:223 | the interrupt number alternates between 0 and 1 and comes back after two toggles |
| `InvadersProofs.InterruptVectors` | EmulateSpaceInvaders.c:214-225 | a firing interrupt with number 0 jumps to 0x08 and makes the next number 1, which jumps to 0x10 and makes the next number 0 |
| `InvadersProofs.NoInterruptWithin16ms` | EmulateSpaceInvaders.c:216-218 | no interrupt fires within 16 ms of the previous one, even across a wrap of the 32-bit clock |
| `InvadersProofs.RunFromPowerOn` | EmulateSpaceInvaders.c:251-311 | no implemented opcode enables interrupts, so along every run from power-on interrupts stay disabled, the clock keeps its first reading and the latches stay well formed |
| `InvadersProofs.WellFormedEnablesIn` | EmulateSpaceInvaders.c:296-301 | with well-formed latches, IN (including IN 3) is always defined |
| `InvadersProofs.RunExtends` | EmulateSpaceInvaders.c:273-328 | a run over one more input is the run followed by one more loop iteration, while the machine keeps running |

## Left out

- Loading the ROM (`ReadFileMem`) is file I/O. Memory is an arbitrary 65536-byte initial sequence.
- Drawing the screen (`draw_screen`, graphics.c) and its call inside `HandleInterrupt` are rendering only, and do not touch processor or latch state.
- Sound (sound.c) is audio-device I/O.
- SDL initialisation, the window, the renderer and the `line` counter in `main` are host plumbing. `SDL_PollEvent` becomes a sequence of events per iteration, and `SDL_GetTicks64` becomes a clock reading passed in per iteration.
- `UnimplementedInstruction` prints and calls `exit(1)`. It is modelled only as the error outcome carrying the opcode.
- The `cycles8080` table is declared but never defined or used.
- The auxiliary-carry flag is never computed. The model only states that no step changes it.
- The commented-out disassembler and trace output are left out.
- The second copy of `KeyDown`/`KeyUp` in EmulateSpaceInvaders.c:88-159 is not modelled separately. It differs from input.c only by a `printf("return")` when the Return key is pressed (line 95). That print is logging output and is left out; the latch updates are the same.
- `Emulator.Emulate8080Op` requires the bytes an instruction reads after its opcode to lie below 0x10000, because the C code indexes `opcode[1]` and `opcode[2]` without wrapping. Instructions that read no operand need nothing.
- `Invaders.GenerateInterrupt` requires SP ≥ 2, because the pushes index memory with `int` arithmetic at SP−1 and SP−2. It also requires `8 * n` to fit in a C `int`.
- `Invaders.MachineIN` requires a shift amount of at most 8 for port 3, because a larger one makes the C shift count negative. OUT 2 only ever stores three bits, so well-formed latches meet this.
- `Invaders.HandleInterrupt` returns a `double` in the C code. The model keeps the `Uint32` clock value, which converts to `double` and back exactly.
