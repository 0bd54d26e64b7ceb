# CHIP-8 interpreter core in Dafny

This project models the two parts of the CHIP-8 interpreter that carry its
semantics, and proves what they do:

* the opcode decoder of `src/instruction.rs` (`OpCodeInstruction` and
  `process_opcode`), as pure functions in module `Instructions`;
* the CPU of `src/Chip8/cpu.rs` (`struct CPU` and its operations), twice:
  * as a value-level specification in module `CpuSpec`, with one function per
    operation over a `State` datatype;
  * as the class `Cpu.CPU`, whose fields and arrays the methods update in
    place, as the Rust methods do.

The public operations of the class (`constructor`, `Load`, `Tick`, `Reset`,
`TriggerReset`, `Pause`, `Start`, `SetKeyArray`) and the execute dispatch
methods (`ExecuteInstruction`, its per-family methods and `Draw`) are proved
to take the machine from `old(Abs())` to the state computed by the matching
`CpuSpec` function, or to `old(Abs())` with only the keys replaced. The
helper methods (`SetRegister`, the clearing loops, `FetchInstruction`,
`StoreBcd`, the transfer loops and the drawing steps) state instead what they
do to one array or what they return. Module `CpuProperties` then
proves about those functions what the interpreter promises. This covers:

* program-counter movement, `CALL`/`RET` and the `VF` flag arithmetic;
* sprite drawing with wrap-around and collision detection;
* the memory transfers;
* the life cycle of `tick`, `trigger_reset`, `load` and `reset`.

The decoder is also paired with a reference encoder. Two lemmas connect them.
`EncodeThenDecode` shows that every instruction the decoder can produce
decodes from its conventional opcode. `DecodeThenEncode` shows that every word
that decodes encodes back to itself minus the bits the decoder ignores.

## Modelling choices

* Bytes and words are integer subset types (`uint8`, `uint16`).
  * Every wrap-around in the source is written out as `% 256`: `wrapping_add`,
    `wrapping_sub`, `as u8` and `<< 1` on a `u8`. Dafny's remainder is never
    negative, so this is exact.
  * The shifts and masks of the decoder become the equal integer divisions
    and remainders.
  * `(a as u16) << 8 | b` in `fetch_instruction` becomes `a * 256 + b`.
  * `|`, `&` and `^` on two bytes go through `bv8`.
* Rust panics become preconditions (`CpuSpec.CanExecute`, `CpuSpec.TickSafe`):
  * out-of-range indices into registers, keys, memory and the stack, including
    `CALL` with 16 frames in use and `RET` on an empty stack;
  * `u8` overflow in debug builds: `y + index` in `DRW` and `sprite * 5` in `LDS`;
  * the `unwrap` of a failed decode in `fetch_instruction`;
  * the unhandled `SYS` variant.
* `RND` takes its random byte as a parameter; the result is `random & kk`.
* `LDK` is modelled only when some key is already pressed, and then it
  stores 1.
* `set_key_array` is called from www/chip8.js:190-193 but is not defined in
  cpu.rs. `Cpu.CPU.SetKeyArray` is a plain whole-array setter, so that the key
  flags can change at all.
* The font table comes from a `font` module that is not part of this model.
  `FONT_SET` holds the usual 80 glyph bytes, and the proofs use only its length.
* `cpu.rs` imports an instruction module that is not shown. It is taken to be
  `src/instruction.rs` without `SYS`. The decoder never builds `SYS`
  (`Instructions.Decode`), so the fetched instruction is never `SYS`.

## What the code does, as modelled

The model follows the code where it differs from textbook CHIP-8 and from the
system's specification:

* `SEQB`/`SNEQB` take their register from bits 3-0, not 11-8
  (src/instruction.rs:78-79).
* The stack holds bytes, so `CALL` stores `pc mod 256`.
  * A `CALL` at 0x200 followed by `RET` resumes at address 2, not at 0x202
    (`CpuProperties.CallFromProgramStartReturnsToTwo`).
  * The specification expects 0x202.
* `SUB` sets VF only when `Vx > Vy`. Equal operands therefore read as a borrow.
* `SUBN` writes `Vy - Vx` into Vy and sets VF to 1 when that subtraction
  borrows or the operands are equal.
  * The comment at src/Chip8/cpu.rs:300 calls this flag "!borrow".
  * The specification asks for VF = 1 when Vy >= Vx.
  * The model follows the code (`CpuProperties.SubNBorrows`).
* `DRW` sets every covered pixel to its sprite bit instead of XOR-ing it.
  * VF is cleared at the start of each sprite row, so it reports a collision
    in the last row only.
  * Drawing a sprite twice therefore leaves the first picture
    (`CpuProperties.DrawTwiceIsIdempotent`).
  * The specification describes an XOR blit with a flag accumulated over all rows.
* `LDK` stores 1 (`true as u8`), not the index of the key; the specification
  expects the index.
* `SR` and `LR` advance `I` by `x + 1`.
* `load` during a pending reset loses the program.
  * `trigger_reset` clears `data_loaded`, and `load` sets it again.
  * The next `tick` then resets memory to the font and zeros, but keeps
    `data_loaded`.
  * It then fetches the zero word at 0x200, which does not decode, so
    `fetch_instruction` panics (`CpuProperties.LoadDuringPendingResetFails`).

## Model

| member | source | states |
|---|---|---|
| Instructions.OpCodeInstruction.I | src/instruction.rs:127-129 | the family field is a nibble (below 16) |
| Instructions.OpCodeInstruction.Nnn | src/instruction.rs:131-133 | the address field is below 4096 |
| Instructions.OpCodeInstruction.N | src/instruction.rs:135-137 | the low field is a nibble |
| Instructions.OpCodeInstruction.X | src/instruction.rs:139-141 | the first register field is a nibble |
| Instructions.OpCodeInstruction.Y | src/instruction.rs:143-145 | the second register field is a nibble |
| Instructions.OpCodeInstruction.Kk | src/instruction.rs:147-149 | the byte field is the y nibble followed by the n nibble |
| Instructions.OpCodeInstruction.ProcessOpcode | src/instruction.rs:59-125 | `process_opcode` returns None exactly for family 0 with kk not E0/EE, family 8 with n not 0-7/E, family E with kk not 9E/A1, and family F with kk outside its nine sub-codes |
| Instructions.Dispatch | src/instruction.rs:68-124 | the outer match always succeeds for the twelve families without a sub-code, and never yields SYS |
| Instructions.DispatchSystem | src/instruction.rs:69-75 | family 0 decodes exactly for kk in {E0, EE} |
| Instructions.DispatchArithmetic | src/instruction.rs:83-96 | family 8 decodes exactly for n in {0..7, E} |
| Instructions.DispatchKeys | src/instruction.rs:102-108 | family E decodes exactly for kk in {9E, A1} |
| Instructions.DispatchMisc | src/instruction.rs:109-122 | family F decodes exactly for kk in {07, 0A, 15, 18, 1E, 29, 33, 55, 65} |
| Instructions.Decode | src/instruction.rs:55-125 | `new` then `process_opcode` never yields SYS, although the enum declares it |
| Instructions.FieldsOf39854 | src/instruction.rs:153-211 | for the word 39854 the six accessors give 9, 2990, 14, 11, 10 and 174, as the unit tests expect |
| Instructions.FieldsRecompose | src/instruction.rs:127-149 | the fields partition the word: value = i*0x1000 + nnn, nnn = x*0x100 + kk, kk = y*0x10 + n |
| Instructions.NibblesOfNumber | src/instruction.rs:127-145 | a word built from four nibbles yields exactly those nibbles as i, x, y and n |
| Instructions.DecodeByNibbles | src/instruction.rs:59-125 | decoding a word is the nested match applied to its nibbles, with nnn and kk assembled from them |
| Instructions.SystemThenEncode | src/instruction.rs:69-75 | what family 0 decodes to is a valid instruction whose encoding is its low byte |
| Instructions.ArithmeticThenEncode | src/instruction.rs:83-96 | what family 8 decodes to re-encodes to the word, except that SHR/SHL drop the y field |
| Instructions.KeysThenEncode | src/instruction.rs:102-108 | what family E decodes to re-encodes to the word |
| Instructions.MiscThenEncode | src/instruction.rs:109-122 | what family F decodes to re-encodes to the word |
| Instructions.DirectThenEncode | src/instruction.rs:76-101 | the families without a sub-code decode to valid instructions that re-encode to the word minus its ignored bits |
| Instructions.DispatchThenEncode | src/instruction.rs:68-124 | every successful dispatch on four nibbles yields a valid instruction that encodes back to the word minus its ignored bits |
| Instructions.DecodeThenEncode | src/instruction.rs:59-125 | every word that decodes gives a valid instruction whose encoding is the word minus the bits the decoder ignores |
| Instructions.EncodeThenDecodeDirect | src/instruction.rs:76-99 | JMP, CALL, LDI and JPV0 with a 12-bit address decode from their encoding |
| Instructions.EncodeThenDecodeImmediate | src/instruction.rs:78-100 | SEQB, SNEQB, LBR, ABR and RND decode from their encoding |
| Instructions.EncodeThenDecodeRegisters | src/instruction.rs:69-101 | CLS, RET, SRER, SNE and DRW decode from their encoding |
| Instructions.EncodeThenDecodeArithmetic | src/instruction.rs:83-96 | the nine family-8 instructions decode from their encoding |
| Instructions.EncodeThenDecodeKeys | src/instruction.rs:102-114 | SKP, SKNP, LDDV, LDK, LDVD and LDST decode from their encoding |
| Instructions.EncodeThenDecodeMemory | src/instruction.rs:115-119 | ADDI, LDS, BCD, SR and LR decode from their encoding |
| Instructions.EncodeThenDecode | src/instruction.rs:59-125 | every instruction the decoder can produce is what it returns for that instruction's encoding |
| Instructions.SkipByteRegisterIsLowNibble | src/instruction.rs:78-79 | SEQB and SNEQB carry bits 3-0 as their register, which is also the low nibble of their byte operand |
| Instructions.RegisterSkipsIgnoreLowNibble | src/instruction.rs:80-97 | words of family 5 or 9 that agree on x and y decode alike, and always decode |
| Instructions.FamilyZeroIgnoresX | src/instruction.rs:69-75 | in family 0, any low byte E0 is CLS and any low byte EE is RET, whatever bits 11-8 hold |
| Instructions.OperandPlacement | src/instruction.rs:76-101 | families 1, 2, A and B carry nnn; 6, 7 and C carry (x, kk); D carries (x, y, n); SHR and SHL carry x alone |
| CpuSpec.GetIndex | src/Chip8/cpu.rs:92-94 | an on-screen (row, column) gives a display index below 2048 from which row and column are recovered by division and remainder by 64 |
| CpuSpec.FreshMemory | src/Chip8/cpu.rs:55-60 | power-on memory has 4096 bytes: the font at the bottom and zero elsewhere |
| CpuSpec.NewState | src/Chip8/cpu.rs:53-78 | `new`: pc = 0x200; I, sp, every register, stack frame and timer zero; every pixel OFF; no key pressed; font memory; all three flags false |
| CpuSpec.ResetState | src/Chip8/cpu.rs:138-174 | `reset` gives the power-on state except that `paused` and `data_loaded` keep their values (the reset flag is cleared) |
| CpuSpec.LoadState | src/Chip8/cpu.rs:111-118 | `load` puts data[k] at 0x200 + k, leaves every other byte and field alone and sets `data_loaded` |
| CpuSpec.OpcodeAt | src/Chip8/cpu.rs:176-179 | the fetched word has memory[pc] as its high byte and memory[pc+1] as its low byte |
| CpuSpec.TriggerResetState | src/Chip8/cpu.rs:96-101 | `trigger_reset` sets the reset flag and clears `data_loaded`, nothing else, so the next tick cannot panic |
| CpuSpec.PauseState | src/Chip8/cpu.rs:103-105 | `pause` sets `paused`, nothing else, so a tick cannot panic |
| CpuSpec.StartState | src/Chip8/cpu.rs:107-109 | `start` clears `paused`, nothing else |
| CpuSpec.CanExecute | src/Chip8/cpu.rs:181-471 | the conditions under which `execute_instruction` does not panic; they exclude SYS, which has no arm |
| CpuSpec.TickSafe | src/Chip8/cpu.rs:120-133 | the condition under which `tick` does not panic; it always holds for a paused machine or one without a program |
| CpuSpec.ExecuteFlow | src/Chip8/cpu.rs:184-209 | CLS, RET, JMP, CALL and JPV0 leave registers, memory, I and the timers alone |
| CpuSpec.ExecuteSkip | src/Chip8/cpu.rs:211-236 | a skip changes only pc, by 2 or by 4 |
| CpuSpec.ExecuteAlu | src/Chip8/cpu.rs:238-275 | LBR, ABR, LRR, OR, AND, XOR and RND change only registers, and pc by 2 |
| CpuSpec.ExecuteArith | src/Chip8/cpu.rs:277-317 | ADD, SUB, SHR, SUBN and SHL change only registers, and pc by 2 |
| CpuSpec.ExecuteDraw | src/Chip8/cpu.rs:347-378 | DRW changes only the display, the registers and pc, which advances by 2 |
| CpuSpec.ExecuteMisc | src/Chip8/cpu.rs:398-469 | LDI and family F advance pc by 2 and leave the display, the stack and sp alone |
| CpuSpec.Execute | src/Chip8/cpu.rs:181-471 | every arm keeps the machine well formed (array sizes, sp <= 16) and leaves the keys and the three control flags alone |
| CpuSpec.Add | src/Chip8/cpu.rs:278-283 | ADD changes only registers and advances pc by 2 |
| CpuSpec.Sub | src/Chip8/cpu.rs:286-290 | SUB changes only registers and advances pc by 2 |
| CpuSpec.ShiftRight | src/Chip8/cpu.rs:293-298 | SHR changes only registers and advances pc by 2 |
| CpuSpec.SubN | src/Chip8/cpu.rs:301-309 | SUBN changes only registers and advances pc by 2 |
| CpuSpec.ShiftLeft | src/Chip8/cpu.rs:312-317 | SHL changes only registers and advances pc by 2 |
| CpuSpec.TickState | src/Chip8/cpu.rs:120-133 | a tick that does not panic keeps the machine well formed |
| CpuProperties.StateFreeInstructionsExecute | src/Chip8/cpu.rs:181-471 | every decoded instruction other than RET, CALL, DRW, SKP, SKNP, LDK, LDS, BCD, SR and LR executes without panicking in every state |
| CpuProperties.OrdinaryInstructionAdvancesPc | src/Chip8/cpu.rs:238-469 | every instruction other than CLS, RET, JMP, CALL, JPV0 and the skips adds 2 to pc |
| CpuProperties.SkipAdvancesPc | src/Chip8/cpu.rs:211-236 | each of SEQB, SNEQB, SRER, SNE, SKP and SKNP adds 4 to pc exactly when its condition holds and 2 otherwise, changing nothing else |
| CpuProperties.JumpTargets | src/Chip8/cpu.rs:199-202 | JMP sets pc to its address and JPV0 to address + V0, with no further advance and nothing else changed |
| CpuProperties.CallPushesLowByte | src/Chip8/cpu.rs:205-209 | CALL writes pc mod 256 to stack[sp], leaves the other frames alone, increments sp and jumps |
| CpuProperties.RetPops | src/Chip8/cpu.rs:193-197 | RET decrements sp and sets pc to the popped byte plus 2, changing nothing else |
| CpuProperties.CallThenRet | src/Chip8/cpu.rs:193-209 | CALL then RET restores sp and resumes at (pc mod 256) + 2, which is the word after the call exactly when pc < 256 |
| CpuProperties.CallFromProgramStartReturnsToTwo | src/Chip8/cpu.rs:205-209 | a subroutine called from 0x200 returns to address 2 |
| CpuProperties.ClearScreen | src/Chip8/cpu.rs:185-190 | CLS turns every pixel OFF and changes nothing else but pc, which advances by 2 |
| CpuProperties.AddCarries | src/Chip8/cpu.rs:278-283 | for Vx other than VF: 256*VF + Vx' equals Vx + Vy, VF is 0 or 1, and no other register changes |
| CpuProperties.AddIntoFlagLosesCarry | src/Chip8/cpu.rs:278-283 | ADD into VF leaves the wrapped sum in VF, overwriting the carry; every other register and field is unchanged and pc moves on by 2 |
| CpuProperties.SubBorrows | src/Chip8/cpu.rs:286-290 | for x and y other than VF: with differing operands Vx' = Vx - Vy + 256*(1 - VF); equal operands give Vx' = 0 and VF = 0; no other register changes |
| CpuProperties.SubWithFlagOperand | src/Chip8/cpu.rs:286-290 | SUB with VF as an operand: VF takes the flag f = (Vx > Vy) first, and the subtraction reads f in place of VF, so SUB(x, F) leaves Vx - f, SUB(F, y) leaves f - Vy and SUB(F, F) leaves 0, all modulo 256 |
| CpuProperties.SubNBorrows | src/Chip8/cpu.rs:300-309 | for x and y other than VF: with differing operands Vy' = Vy - Vx + 256*VF; equal operands give Vy' = 0 and VF = 1; Vx and the other registers are untouched |
| CpuProperties.SubNWithFlagOperand | src/Chip8/cpu.rs:300-309 | SUBN with VF as an operand: VF takes the flag f = (Vy <= Vx) first, and Vy - Vx reads f in place of VF, so SUBN(F, y) leaves Vy - f, SUBN(x, F) leaves f - Vx and SUBN(F, F) leaves 0, all modulo 256 |
| CpuProperties.ShiftRightSplits | src/Chip8/cpu.rs:292-298 | for x other than VF: 2*Vx' + VF equals the old Vx, VF is 0 or 1, and no other register changes |
| CpuProperties.ShiftLeftSplits | src/Chip8/cpu.rs:311-317 | for x other than VF: Vx' + 256*VF equals twice the old Vx, VF is 0 or 1, and no other register changes |
| CpuProperties.ShiftFlagItself | src/Chip8/cpu.rs:292-317 | shifting VF itself reads the flag just written: SHR(F) leaves 0 and SHL(F) twice the old top bit in VF, every other register and field is unchanged and pc moves on by 2 |
| CpuProperties.AddByteKeepsFlag | src/Chip8/cpu.rs:244-248 | for every x, VF included: ABR adds modulo 256 into Vx and changes no other register, so VF keeps its value unless x is VF, and pc moves on by 2 |
| CpuProperties.RandomIsMasked | src/Chip8/cpu.rs:339-344 | RND sets Vx to random & kk and pc to pc + 2, changing nothing else, so Vx has no bit outside kk nor outside the random byte |
| CpuProperties.RegisterLoads | src/Chip8/cpu.rs:238-254 | LBR sets Vx to kk and LRR sets Vx to Vy; nothing else changes but pc, by 2 |
| CpuProperties.BitwiseOperations | src/Chip8/cpu.rs:256-275 | OR, AND and XOR set Vx to Vx \| Vy, Vx & Vy and Vx ^ Vy; nothing else changes but pc, by 2 |
| CpuProperties.XorSelfClears | src/Chip8/cpu.rs:270-275 | XOR of a register with itself leaves 0 |
| CpuProperties.IndexLoads | src/Chip8/cpu.rs:328-442 | LDI sets I to the address, ADDI adds Vx to I and LDS sets I to 5*Vx within a byte; nothing else changes but pc, by 2 |
| CpuProperties.TimerTransfers | src/Chip8/cpu.rs:398-429 | LDDV copies the delay timer to Vx, LDVD and LDST copy Vx to the delay and sound timers; nothing else changes but pc, by 2 |
| CpuProperties.DelayTimerRoundTrip | src/Chip8/cpu.rs:398-423 | LDVD(x) then LDDV(y) copies Vx into Vy and changes no other register |
| CpuProperties.WaitKeyStoresOne | src/Chip8/cpu.rs:404-417 | with some key pressed, LDK stores 1 in Vx and advances pc by 2, nothing else |
| CpuProperties.FontGlyphAddress | src/Chip8/cpu.rs:437-442 | for a digit Vx < 16, LDS points I at 5*Vx, whose five glyph bytes lie inside the font |
| CpuProperties.BcdDigits | src/Chip8/cpu.rs:444-450 | BCD writes three decimal digits with 100*d0 + 10*d1 + d2 = Vx at I..I+2 and changes no other byte or field |
| CpuProperties.StoreRegistersWrites | src/Chip8/cpu.rs:452-460 | SR writes Vk to I+k for k <= x, leaves the rest of memory alone and sets I to I + x + 1 |
| CpuProperties.LoadRegistersReads | src/Chip8/cpu.rs:462-469 | LR sets Vk to memory[I+k] for k <= x, leaves higher registers alone and sets I to I + x + 1 |
| CpuProperties.StoreThenLoadRestores | src/Chip8/cpu.rs:452-469 | SR followed by LR from the same address gives every register back its value |
| CpuProperties.OffsetsOfPixel | src/Chip8/cpu.rs:353-358 | the wrapped display position of sprite pixel (r, c) lies on the screen and its row/column offsets give back r and c |
| CpuProperties.PixelOfOffsets | src/Chip8/cpu.rs:353-358 | every display index is the wrapped position of its own row and column offsets |
| CpuProperties.DrawSetsSpritePixel | src/Chip8/cpu.rs:347-378 | after DRW the pixel at ((Vy+r) mod 32, (Vx+c) mod 64) shows bit 7-c of memory[I+r], for r < n and c < 8 |
| CpuProperties.DrawKeepsOtherPixels | src/Chip8/cpu.rs:347-378 | a pixel that no sprite pixel lands on keeps its colour |
| CpuProperties.DrawCollisionFlag | src/Chip8/cpu.rs:347-378 | with n = 0 only pc changes; otherwise VF = 1 exactly when some pixel of the last row was ON under a 1 bit, no other register changes and only display, VF and pc differ |
| CpuProperties.DrawTwiceIsIdempotent | src/Chip8/cpu.rs:362-374 | for x and y other than VF: drawing the same sprite twice leaves the display of the first draw, and the second draw reports a collision exactly when the last sprite row has a 1 bit |
| CpuProperties.RedrawKeepsDisplay | src/Chip8/cpu.rs:369-374 | for x and y other than VF: a first DRW keeps the coordinates, I and memory, and a second identical DRW leaves the display unchanged |
| CpuProperties.TickAfterTriggerResetOnlyResets | src/Chip8/cpu.rs:96-133 | after `trigger_reset` the next tick cannot panic and yields the power-on state with `paused` kept |
| CpuProperties.IdleTick | src/Chip8/cpu.rs:120-133 | a paused machine, or one without a program, only performs a pending reset on a tick |
| CpuProperties.RunningTickExecutes | src/Chip8/cpu.rs:120-133 | a running, loaded machine without a pending reset has a decodable word at pc, and a tick executes exactly that instruction |
| CpuProperties.LoadDuringPendingResetFails | src/Chip8/cpu.rs:96-133 | `load` between `trigger_reset` and the next tick leaves a tick that panics on the zero word at 0x200 |
| CpuProperties.ResetIsPowerOnState | src/Chip8/cpu.rs:138-174 | a reset puts the font at the bottom of memory and zero above it; after `trigger_reset` it gives the power-on state with `paused` kept |
| Cpu.WriteFont | src/Chip8/cpu.rs:152-154 | the font loop puts FONT_SET at the bottom of memory and leaves the bytes above it alone |
| Cpu.ZeroFill | src/Chip8/cpu.rs:140-158 | a clearing loop of `reset` zeroes the whole array |
| Cpu.CPU.Abs | src/Chip8/cpu.rs:35-49 | the fields and arrays of a valid object form a well-formed machine state |
| Cpu.CPU.constructor | src/Chip8/cpu.rs:53-78 | `new` builds fresh arrays holding the power-on state |
| Cpu.CPU.SetRegister | src/Chip8/cpu.rs:477-479 | only register `reg` changes, to `value` |
| Cpu.CPU.TriggerReset | src/Chip8/cpu.rs:96-101 | sets the reset flag and clears `data_loaded`, nothing else |
| Cpu.CPU.Pause | src/Chip8/cpu.rs:103-105 | sets `paused`, nothing else |
| Cpu.CPU.Start | src/Chip8/cpu.rs:107-109 | clears `paused`, nothing else |
| Cpu.CPU.SetKeyArray | www/chip8.js:190-193 | the key flags become the given 16 values, nothing else changes |
| Cpu.CPU.Load | src/Chip8/cpu.rs:111-118 | the copy loop gives the state of `CpuSpec.LoadState` |
| Cpu.CPU.Tick | src/Chip8/cpu.rs:120-133 | a safe tick gives the state of `CpuSpec.TickState` |
| Cpu.CPU.Reset | src/Chip8/cpu.rs:138-174 | the clearing loops give the state of `CpuSpec.ResetState` |
| Cpu.CPU.ClearKeys | src/Chip8/cpu.rs:167-169 | every key flag becomes false |
| Cpu.CPU.ClearDisplay | src/Chip8/cpu.rs:186-188 | every pixel becomes OFF |
| Cpu.CPU.FetchInstruction | src/Chip8/cpu.rs:176-179 | returns the decoded big-endian word at pc, which is never SYS |
| Cpu.CPU.ExecuteInstruction | src/Chip8/cpu.rs:181-471 | executing an instruction gives the state of `CpuSpec.Execute` |
| Cpu.CPU.ExecuteFlow | src/Chip8/cpu.rs:184-209 | CLS, RET, JMP, CALL and JPV0 reach the state of `CpuSpec.ExecuteFlow` |
| Cpu.CPU.ExecuteSkip | src/Chip8/cpu.rs:211-236 | the conditional skips reach the state of `CpuSpec.ExecuteSkip` |
| Cpu.CPU.ExecuteAlu | src/Chip8/cpu.rs:238-275 | LBR, ABR, LRR, OR, AND, XOR and RND reach the state of `CpuSpec.ExecuteAlu` |
| Cpu.CPU.ExecuteArith | src/Chip8/cpu.rs:277-317 | the flag-writing family-8 instructions reach the state of `CpuSpec.ExecuteArith` |
| Cpu.CPU.Add | src/Chip8/cpu.rs:278-283 | reaches the state of `CpuSpec.Add` |
| Cpu.CPU.Sub | src/Chip8/cpu.rs:286-290 | reaches the state of `CpuSpec.Sub` |
| Cpu.CPU.ShiftRight | src/Chip8/cpu.rs:293-298 | reaches the state of `CpuSpec.ShiftRight` |
| Cpu.CPU.SubN | src/Chip8/cpu.rs:301-309 | reaches the state of `CpuSpec.SubN` |
| Cpu.CPU.ShiftLeft | src/Chip8/cpu.rs:312-317 | reaches the state of `CpuSpec.ShiftLeft` |
| Cpu.CPU.ExecuteMisc | src/Chip8/cpu.rs:398-469 | LDI and the family-F instructions reach the state of `CpuSpec.ExecuteMisc` |
| Cpu.CPU.StoreBcd | src/Chip8/cpu.rs:446-448 | the three digit writes change memory at I, I+1 and I+2 only |
| Cpu.CPU.StoreRegisters | src/Chip8/cpu.rs:454-457 | the `0..=reg` loop stores V0..Vx from I on and changes no other byte |
| Cpu.CPU.LoadRegisters | src/Chip8/cpu.rs:464-466 | the `0..=reg` loop loads V0..Vx from I on and changes no other register |
| Cpu.CPU.Draw | src/Chip8/cpu.rs:347-378 | the nested row and bit loops reach the state of `CpuSpec.ExecuteDraw` |
| Cpu.CPU.DrawRow | src/Chip8/cpu.rs:351-376 | one row paints its eight pixels and leaves VF reporting a collision in that row |
| Cpu.CPU.DrawBit | src/Chip8/cpu.rs:355-375 | one bit paints one pixel and folds its collision into VF |
| Cpu.CPU.FoldCollision | src/Chip8/cpu.rs:362-367 | VF becomes 1 when it already was, or when the pixel is ON under a 1 bit, and stays 0 otherwise |
| Cpu.CPU.SetPixel | src/Chip8/cpu.rs:369-374 | the pixel takes the sprite bit's colour and no other pixel changes |
| Cpu.CollisionStep | src/Chip8/cpu.rs:355-367 | a collision among the first bit+1 pixels of a row is one among the first bit pixels or at pixel bit |
| Cpu.FlagOrLemma | src/Chip8/cpu.rs:362-367 | on 0/1 values, VF or-ed with (p and 1) is their disjunction, and VF or-ed with (p and 0) is VF |
| Cpu.PaintStep | src/Chip8/cpu.rs:369-374 | visiting one more bit of a row changes exactly that bit's display cell |
| Cpu.PaintRowDone | src/Chip8/cpu.rs:355-375 | a row whose eight bits are visited counts as a completed row |

## Left out

- Logging (`log!`), the `#[wasm_bindgen]` glue and `set_panic_hook`: foreign calls without effect on the machine state.
- `rand::thread_rng` in RND: the random byte is a parameter of `Execute`, `TickState` and `Cpu.CPU.Tick`.
- LDK's endless loop when no key is pressed: `CanExecute` demands a pressed key, so only the terminating case is modelled.
- Timer countdown: no code in cpu.rs decrements `delay_timer` or `sound_timer`, so the model has no timer-advance operation.
- The `height`, `width` and `pixels` getters: they return constants or a raw pointer for the host page.
- The `font` module is not part of this model; `FONT_SET` is the conventional 80-byte font table rather than an arbitrary one. Most proofs use only that it fits in memory, but `CpuProperties.LoadDuringPendingResetFails` also depends on the font ending below 0x200, so that the word at 0x200 after a reset is zero, and `CpuProperties.FontGlyphAddress` depends on it holding 16 five-byte glyphs.
- src/chip8.rs, src/display.rs, src/drivers, src/main.rs and the www files: SDL, canvas, threads, audio and key-event I/O outside the CPU.
- Panics are not modelled as behaviour: each panicking case is excluded by a precondition (`CpuSpec.CanExecute`, `CpuSpec.TickSafe`, `Cpu.CPU.Load`).
- CpuSpec.CanExecute: excludes DRW heights above 15, which the decoder cannot produce (the height is a nibble).
- Cpu.CPU.GetRegister: a read accessor with no contract of its own; the methods that call it are specified instead.
- Cpu.CPU.SetKeyArray: cpu.rs does not define `set_key_array`; the model's setter is a plain replacement of the 16 key flags.
- DrawTwiceIsIdempotent, RedrawKeepsDisplay: stated for x and y other than VF only. When a coordinate register is VF, the first draw rewrites it with the collision flag, so the second draw may land at another column or row and neither property need hold.
- ShiftRightSplits, ShiftLeftSplits: stated for x other than VF only, where the split identities hold; for x = VF the result is stated instead by ShiftFlagItself.
- CpuSpec.Execute, CpuSpec.TickState, CpuSpec.Add, CpuSpec.Sub, CpuSpec.ShiftRight, CpuSpec.SubN, CpuSpec.ShiftLeft and the CpuSpec.Execute* family functions: their own contracts state only well-formedness and which fields may change. What each arm computes is stated by the lemmas of `CpuProperties`: JumpTargets, CallPushesLowByte, RetPops, ClearScreen, SkipAdvancesPc, RegisterLoads, AddByteKeepsFlag, BitwiseOperations, RandomIsMasked, AddCarries, AddIntoFlagLosesCarry, SubBorrows, SubWithFlagOperand, ShiftRightSplits, SubNBorrows, SubNWithFlagOperand, ShiftLeftSplits, ShiftFlagItself, DrawSetsSpritePixel, DrawKeepsOtherPixels, DrawCollisionFlag, IndexLoads, TimerTransfers, WaitKeyStoresOne, BcdDigits, StoreRegistersWrites and LoadRegistersReads.
