/**
 * What the CPU operations of src/Chip8/cpu.rs promise, stated about the
 * functions of CpuSpec: program-counter movement, the VF flag arithmetic,
 * the sprite drawing, the memory transfers, and the life cycle of
 * `tick`, `trigger_reset` and `load`.
 */
module CpuProperties {
  import opened Instructions
  import opened CpuSpec

  // ---------------------------------------------------------------------
  // Panic freedom

  /** Only the state-dependent arms can panic: every other decoded instruction can always execute. */
  lemma StateFreeInstructionsExecute(s: State, value: uint16)
    requires WellFormed(s) && Decode(value).Some? && !StateDependent(Decode(value).value)
    ensures CanExecute(s, Decode(value).value)
  {
    DecodeThenEncode(value);
  }

  // ---------------------------------------------------------------------
  // Program counter

  /** The condition under which each conditional skip jumps over the next instruction. */
  predicate SkipTaken(s: State, ins: Instruction)
    requires WellFormed(s) && CanExecute(s, ins) && IsSkip(ins)
  {
    match ins
    case SEQB(r, k) => s.regs[r] == k
    case SNEQB(r, k) => s.regs[r] != k
    case SRER(x, y) => s.regs[x] == s.regs[y]
    case SNE(x, y) => s.regs[x] != s.regs[y]
    case SKP(x) => s.keys[s.regs[x]]
    case SKNP(x) => !s.keys[s.regs[x]]
  }

  /** Every instruction that is neither a jump, a call, a return nor a skip moves pc on by one word. */
  lemma OrdinaryInstructionAdvancesPc(s: State, ins: Instruction, random: uint8)
    requires WellFormed(s) && CanExecute(s, ins) && !IsFlow(ins)
    ensures Execute(s, ins, random).pc == s.pc + 2
  {
    if ins.DRW? {
    } else if IsArith(ins) {
    } else if IsAlu(ins) {
    }
  }

  /** A skip moves pc on by two words exactly when its condition holds, and by one otherwise. */
  lemma SkipAdvancesPc(s: State, ins: Instruction, random: uint8)
    requires WellFormed(s) && CanExecute(s, ins) && IsSkip(ins)
    ensures Execute(s, ins, random).pc == s.pc + (if SkipTaken(s, ins) then 4 else 2)
    ensures Execute(s, ins, random) == s.(pc := Execute(s, ins, random).pc)
  {
  }

  /** JMP and JPV0 go to their target without the usual advance. */
  lemma JumpTargets(s: State, a: Address, random: uint8)
    requires WellFormed(s)
    ensures Execute(s, JMP(a), random) == s.(pc := a)
    ensures Execute(s, JPV0(a), random) == s.(pc := a + s.regs[0])
  {
  }

  /** CALL pushes only the low byte of pc, because the stack holds bytes. */
  lemma CallPushesLowByte(s: State, a: Address, random: uint8)
    requires WellFormed(s) && s.sp < NUM_STACK_FRAMES
    ensures var t := Execute(s, CALL(a), random);
      && t.sp == s.sp + 1 && t.pc == a
      && t.stack[s.sp] == s.pc % 256
      && (forall k :: 0 <= k < NUM_STACK_FRAMES && k != s.sp ==> t.stack[k] == s.stack[k])
      && t == s.(stack := t.stack, sp := t.sp, pc := t.pc)
  {
  }

  /** RET pops the top frame and continues two bytes after it. */
  lemma RetPops(s: State, random: uint8)
    requires WellFormed(s) && s.sp > 0
    ensures var t := Execute(s, RET, random);
      t == s.(sp := s.sp - 1, pc := s.stack[s.sp - 1] as int + 2)
  {
  }

  /**
   * A call followed by a return restores the stack pointer but resumes at
   * the low byte of the calling address plus two, not at the word after
   * the call unless that address is below 256.
   */
  lemma CallThenRet(s: State, a: Address, r1: uint8, r2: uint8)
    requires WellFormed(s) && s.sp < NUM_STACK_FRAMES
    ensures var u := Execute(Execute(s, CALL(a), r1), RET, r2);
      && u.sp == s.sp && u.pc == s.pc % 256 + 2
      && (u.pc == s.pc + 2 <==> s.pc < 256)
  {
    CallPushesLowByte(s, a, r1);
  }

  /** From the usual start address a subroutine returns to address 2. */
  lemma CallFromProgramStartReturnsToTwo(s: State, a: Address, r1: uint8, r2: uint8)
    requires WellFormed(s) && s.sp < NUM_STACK_FRAMES && s.pc == PROGRAM_START
    ensures Execute(Execute(s, CALL(a), r1), RET, r2).pc == 2
  {
    CallThenRet(s, a, r1, r2);
  }

  /** CLS turns every pixel off and changes nothing else but pc. */
  lemma ClearScreen(s: State, random: uint8)
    requires WellFormed(s)
    ensures var t := Execute(s, CLS, random);
      && (forall idx :: 0 <= idx < DISPLAY_SIZE ==> t.display[idx] == OFF)
      && t == s.(display := t.display, pc := s.pc + 2)
  {
  }

  // ---------------------------------------------------------------------
  // Registers and the VF flag

  /** Only the registers named may differ. */
  predicate OthersUnchanged(s: State, t: State, a: nat, b: nat)
    requires WellFormed(s) && WellFormed(t)
  {
    forall k :: 0 <= k < NUM_GENERAL_REGS && k != a && k != b ==> t.regs[k] == s.regs[k]
  }

  /** ADD: VF and Vx together hold the nine-bit sum. */
  lemma AddCarries(s: State, x: Register, y: Register, random: uint8)
    requires WellFormed(s) && x < FLAG && y < 16
    ensures var t := Execute(s, ADD(x, y), random);
      && t.regs[FLAG] <= 1
      && 256 * t.regs[FLAG] as int + t.regs[x] == s.regs[x] as int + s.regs[y]
      && OthersUnchanged(s, t, x, FLAG)
      && t == s.(regs := t.regs, pc := s.pc + 2)
  {
  }

  /** ADD into VF: the sum overwrites the carry, and nothing else but pc changes. */
  lemma AddIntoFlagLosesCarry(s: State, y: Register, random: uint8)
    requires WellFormed(s) && y < 16
    ensures Execute(s, ADD(FLAG, y), random)
         == s.(regs := s.regs[FLAG := (s.regs[FLAG] as int + s.regs[y]) % 256], pc := s.pc + 2)
  {
  }

  /**
   * SUB: when the operands differ VF is 1 exactly when no borrow was
   * needed; equal operands give 0 with VF = 0, reported as a borrow.
   */
  lemma SubBorrows(s: State, x: Register, y: Register, random: uint8)
    requires WellFormed(s) && x < FLAG && y < FLAG
    ensures var t := Execute(s, SUB(x, y), random);
      && t.regs[FLAG] <= 1
      && (s.regs[x] != s.regs[y] ==> t.regs[x] == s.regs[x] as int - s.regs[y] + 256 * (1 - t.regs[FLAG] as int))
      && (s.regs[x] == s.regs[y] ==> t.regs[x] == 0 && t.regs[FLAG] == 0)
      && OthersUnchanged(s, t, x, FLAG)
      && t == s.(regs := t.regs, pc := s.pc + 2)
  {
  }

  /**
   * SUBN: Vy takes Vy - Vx and VF is 1 exactly when that borrows or the
   * operands are equal, the reverse of SUB's flag; Vx is untouched.
   */
  lemma SubNBorrows(s: State, x: Register, y: Register, random: uint8)
    requires WellFormed(s) && x < FLAG && y < FLAG
    ensures var t := Execute(s, SUBN(x, y), random);
      && t.regs[FLAG] <= 1
      && (s.regs[x] != s.regs[y] ==> t.regs[y] == s.regs[y] as int - s.regs[x] + 256 * t.regs[FLAG] as int)
      && (s.regs[x] == s.regs[y] ==> t.regs[y] == 0 && t.regs[FLAG] == 1)
      && OthersUnchanged(s, t, y, FLAG)
      && t == s.(regs := t.regs, pc := s.pc + 2)
  {
  }

  /**
   * SUB with VF as an operand: VF takes the flag f first, and the
   * subtraction then reads f wherever it reads VF.
   */
  lemma SubWithFlagOperand(s: State, x: Register, y: Register, random: uint8)
    requires WellFormed(s) && x < 16 && y < 16 && (x == FLAG || y == FLAG)
    ensures var t := Execute(s, SUB(x, y), random);
      var f := if s.regs[x] > s.regs[y] then 1 else 0;
      && (x < FLAG ==> t.regs[FLAG] == f && t.regs[x] == (s.regs[x] as int - f) % 256)
      && (x == FLAG && y < FLAG ==> t.regs[FLAG] == (f - s.regs[y] as int) % 256)
      && (x == FLAG && y == FLAG ==> t.regs[FLAG] == 0)
      && OthersUnchanged(s, t, x, FLAG)
      && t == s.(regs := t.regs, pc := s.pc + 2)
  {
  }

  /**
   * SUBN with VF as an operand: VF takes the flag f first, and Vy - Vx
   * then reads f wherever it reads VF.
   */
  lemma SubNWithFlagOperand(s: State, x: Register, y: Register, random: uint8)
    requires WellFormed(s) && x < 16 && y < 16 && (x == FLAG || y == FLAG)
    ensures var t := Execute(s, SUBN(x, y), random);
      var f := if s.regs[y] > s.regs[x] then 0 else 1;
      && (y < FLAG ==> t.regs[FLAG] == f && t.regs[y] == (s.regs[y] as int - f) % 256)
      && (y == FLAG && x < FLAG ==> t.regs[FLAG] == (f - s.regs[x] as int) % 256)
      && (x == FLAG && y == FLAG ==> t.regs[FLAG] == 0)
      && OthersUnchanged(s, t, y, FLAG)
      && t == s.(regs := t.regs, pc := s.pc + 2)
  {
  }

  /** SHR: the shifted-out bit lands in VF, and with Vx it rebuilds the old value. */
  lemma ShiftRightSplits(s: State, x: Register, random: uint8)
    requires WellFormed(s) && x < FLAG
    ensures var t := Execute(s, SHR(x), random);
      && t.regs[FLAG] <= 1
      && 2 * t.regs[x] as int + t.regs[FLAG] == s.regs[x]
      && OthersUnchanged(s, t, x, FLAG)
      && t == s.(regs := t.regs, pc := s.pc + 2)
  {
  }

  /** SHL: the shifted-out bit lands in VF, and with Vx it rebuilds twice the old value. */
  lemma ShiftLeftSplits(s: State, x: Register, random: uint8)
    requires WellFormed(s) && x < FLAG
    ensures var t := Execute(s, SHL(x), random);
      && t.regs[FLAG] <= 1
      && t.regs[x] as int + 256 * t.regs[FLAG] as int == 2 * s.regs[x] as int
      && OthersUnchanged(s, t, x, FLAG)
      && t == s.(regs := t.regs, pc := s.pc + 2)
  {
  }

  /** Shifting VF itself: the shift reads the flag just written, so SHR leaves 0 and SHL 0 or 2. */
  lemma ShiftFlagItself(s: State, random: uint8)
    requires WellFormed(s)
    ensures Execute(s, SHR(FLAG), random) == s.(regs := s.regs[FLAG := 0], pc := s.pc + 2)
    ensures Execute(s, SHL(FLAG), random)
         == s.(regs := s.regs[FLAG := 2 * (s.regs[FLAG] as int / 128)], pc := s.pc + 2)
  {
    assert Execute(s, SHR(FLAG), random) == ShiftRight(s, FLAG);
    assert Execute(s, SHL(FLAG), random) == ShiftLeft(s, FLAG);
  }

  /** ABR wraps and writes Vx alone: VF keeps its value unless it is Vx itself. */
  lemma AddByteKeepsFlag(s: State, x: Register, k: uint8, random: uint8)
    requires WellFormed(s) && x < 16
    ensures var t := Execute(s, ABR(x, k), random);
      && t.regs[x] == (if s.regs[x] as int + k > 255 then s.regs[x] as int + k - 256 else s.regs[x] as int + k)
      && OthersUnchanged(s, t, x, x)
      && t == s.(regs := t.regs, pc := s.pc + 2)
  {
  }

  /**
   * RND: Vx becomes the random byte masked with kk, so it has no bit
   * outside the mask nor outside the random byte; only Vx and pc change.
   */
  lemma RandomIsMasked(s: State, x: Register, k: uint8, random: uint8)
    requires WellFormed(s) && x < 16
    ensures var t := Execute(s, RND(x, k), random);
      && t == s.(regs := s.regs[x := BitAnd(random, k)], pc := s.pc + 2)
      && BitAnd(t.regs[x], k) == t.regs[x] && BitAnd(t.regs[x], random) == t.regs[x]
  {
    var v := (random as bv8) & (k as bv8);
    assert (v as int) as bv8 == v;
    assert v & (k as bv8) == v && v & (random as bv8) == v;
  }

  /** LBR and LRR write Vx alone, and pc moves on by one word. */
  lemma RegisterLoads(s: State, x: Register, y: Register, k: uint8, random: uint8)
    requires WellFormed(s) && x < 16 && y < 16
    ensures Execute(s, LBR(x, k), random) == s.(regs := s.regs[x := k], pc := s.pc + 2)
    ensures Execute(s, LRR(x, y), random) == s.(regs := s.regs[x := s.regs[y]], pc := s.pc + 2)
  {
  }

  /** OR, AND and XOR combine Vx with Vy into Vx alone, and pc moves on by one word. */
  lemma BitwiseOperations(s: State, x: Register, y: Register, random: uint8)
    requires WellFormed(s) && x < 16 && y < 16
    ensures Execute(s, OR(x, y), random) == s.(regs := s.regs[x := BitOr(s.regs[x], s.regs[y])], pc := s.pc + 2)
    ensures Execute(s, AND(x, y), random) == s.(regs := s.regs[x := BitAnd(s.regs[x], s.regs[y])], pc := s.pc + 2)
    ensures Execute(s, XOR(x, y), random) == s.(regs := s.regs[x := BitXor(s.regs[x], s.regs[y])], pc := s.pc + 2)
  {
    AluDispatch(s, OR(x, y), random);
    AluDispatch(s, AND(x, y), random);
    AluDispatch(s, XOR(x, y), random);
  }

  /** A register instruction that leaves VF alone executes by `ExecuteAlu`. */
  lemma AluDispatch(s: State, ins: Instruction, random: uint8)
    requires WellFormed(s) && CanExecute(s, ins) && IsAlu(ins) && !IsArith(ins)
    ensures Execute(s, ins, random) == ExecuteAlu(s, ins, random)
  {
  }

  /** XOR of a register with itself clears it. */
  lemma XorSelfClears(s: State, x: Register, random: uint8)
    requires WellFormed(s) && x < 16
    ensures Execute(s, XOR(x, x), random).regs[x] == 0
  {
    var v := s.regs[x] as bv8;
    assert v ^ v == 0;
  }

  /** LDI, ADDI and LDS write I alone, and pc moves on by one word. */
  lemma IndexLoads(s: State, x: Register, a: Address, random: uint8)
    requires WellFormed(s) && x < 16
    ensures Execute(s, LDI(a), random) == s.(iReg := a, pc := s.pc + 2)
    ensures Execute(s, ADDI(x), random) == s.(iReg := s.iReg + s.regs[x], pc := s.pc + 2)
    ensures s.regs[x] as int * 5 <= 255 ==>
      Execute(s, LDS(x), random) == s.(iReg := 5 * s.regs[x] as int, pc := s.pc + 2)
  {
    MiscDispatch(s, LDI(a), random);
    MiscDispatch(s, ADDI(x), random);
    if s.regs[x] as int * 5 <= 255 {
      MiscDispatch(s, LDS(x), random);
    }
  }

  /** LDDV copies the delay timer into Vx; LDVD and LDST copy Vx into a timer; pc moves on by one word. */
  lemma TimerTransfers(s: State, x: Register, random: uint8)
    requires WellFormed(s) && x < 16
    ensures Execute(s, LDDV(x), random) == s.(regs := s.regs[x := s.delayTimer], pc := s.pc + 2)
    ensures Execute(s, LDVD(x), random) == s.(delayTimer := s.regs[x], pc := s.pc + 2)
    ensures Execute(s, LDST(x), random) == s.(soundTimer := s.regs[x], pc := s.pc + 2)
  {
    MiscDispatch(s, LDDV(x), random);
    MiscDispatch(s, LDVD(x), random);
    MiscDispatch(s, LDST(x), random);
  }

  /** An instruction outside the flow, register and drawing groups executes by `ExecuteMisc`. */
  lemma MiscDispatch(s: State, ins: Instruction, random: uint8)
    requires WellFormed(s) && CanExecute(s, ins) && !IsFlow(ins) && !IsAlu(ins) && !ins.DRW?
    ensures Execute(s, ins, random) == ExecuteMisc(s, ins)
  {
  }

  /** Setting the delay timer from Vx and reading it back into Vy copies Vx to Vy. */
  lemma DelayTimerRoundTrip(s: State, x: Register, y: Register, r1: uint8, r2: uint8)
    requires WellFormed(s) && x < 16 && y < 16
    ensures var t := Execute(s, LDVD(x), r1);
      Execute(t, LDDV(y), r2).regs == s.regs[y := s.regs[x]]
  {
    TimerTransfers(s, x, r1);
  }

  /** LDK stores 1, not the index of the pressed key. */
  lemma WaitKeyStoresOne(s: State, x: Register, random: uint8)
    requires WellFormed(s) && x < 16 && exists k :: 0 <= k < NUM_KEYS && s.keys[k]
    ensures Execute(s, LDK(x), random) == s.(regs := s.regs[x := 1], pc := s.pc + 2)
  {
  }

  /** LDS points I at the five-byte glyph of digit Vx inside the font. */
  lemma FontGlyphAddress(s: State, x: Register, random: uint8)
    requires WellFormed(s) && x < 16 && s.regs[x] < 16
    ensures var t := Execute(s, LDS(x), random);
      && t.iReg == 5 * s.regs[x] as int && t.iReg + 5 <= |FONT_SET|
      && t == s.(iReg := t.iReg, pc := s.pc + 2)
  {
  }

  // ---------------------------------------------------------------------
  // Memory transfers

  /** BCD writes the three decimal digits of Vx and nothing else. */
  lemma BcdDigits(s: State, x: Register, random: uint8)
    requires WellFormed(s) && x < 16 && s.iReg + 2 < MEMORY_SIZE
    ensures var t := Execute(s, BCD(x), random);
      var i := s.iReg;
      && t.memory[i] < 10 && t.memory[i + 1] < 10 && t.memory[i + 2] < 10
      && 100 * t.memory[i] as int + 10 * t.memory[i + 1] as int + t.memory[i + 2] == s.regs[x]
      && (forall a :: 0 <= a < MEMORY_SIZE && !(i <= a <= i + 2) ==> t.memory[a] == s.memory[a])
      && t == s.(memory := t.memory, pc := s.pc + 2)
  {
  }

  /** SR stores V0..Vx from I on, then moves I past them. */
  lemma StoreRegistersWrites(s: State, x: Register, random: uint8)
    requires WellFormed(s) && x < 16 && s.iReg + x < MEMORY_SIZE
    ensures var t := Execute(s, SR(x), random);
      && (forall k :: 0 <= k <= x ==> t.memory[s.iReg + k] == s.regs[k])
      && (forall a :: 0 <= a < MEMORY_SIZE && !(s.iReg <= a <= s.iReg + x) ==> t.memory[a] == s.memory[a])
      && t == s.(memory := t.memory, iReg := s.iReg + x + 1, pc := s.pc + 2)
  {
  }

  /** LR loads V0..Vx from I on, then moves I past them. */
  lemma LoadRegistersReads(s: State, x: Register, random: uint8)
    requires WellFormed(s) && x < 16 && s.iReg + x < MEMORY_SIZE
    ensures var t := Execute(s, LR(x), random);
      && (forall k :: 0 <= k <= x ==> t.regs[k] == s.memory[s.iReg + k])
      && OthersUnchangedAbove(s, t, x)
      && t == s.(regs := t.regs, iReg := s.iReg + x + 1, pc := s.pc + 2)
  {
  }

  predicate OthersUnchangedAbove(s: State, t: State, x: nat)
    requires WellFormed(s) && WellFormed(t)
  {
    forall k :: x < k < NUM_GENERAL_REGS ==> t.regs[k] == s.regs[k]
  }

  /** Storing registers and loading them back from the same address restores them. */
  lemma StoreThenLoadRestores(s: State, x: Register, r1: uint8, r2: uint8)
    requires WellFormed(s) && x < 16 && s.iReg + x < MEMORY_SIZE
    ensures var t := Execute(s, SR(x), r1);
      Execute(t.(iReg := s.iReg), LR(x), r2).regs == s.regs
  {
    var t := Execute(s, SR(x), r1);
    StoreRegistersWrites(s, x, r1);
    var u := Execute(t.(iReg := s.iReg), LR(x), r2);
    LoadRegistersReads(t.(iReg := s.iReg), x, r2);
    assert forall k :: 0 <= k < NUM_GENERAL_REGS ==> u.regs[k] == s.regs[k];
  }

  // ---------------------------------------------------------------------
  // Drawing

  /** The row and column offsets of DRW invert the wrapped placement of a sprite pixel. */
  lemma OffsetsOfPixel(vx: uint8, vy: uint8, r: nat, c: nat)
    requires r < CHIP8_HEIGHT && c < CHIP8_WIDTH
    ensures var idx := SpriteCell(vx, vy, r, c);
      && idx < DISPLAY_SIZE
      && RowOffset(vy, idx / CHIP8_WIDTH) == r
      && ColumnOffset(vx, idx % CHIP8_WIDTH) == c
  {
    var row, column := (vy + r) % CHIP8_HEIGHT, (vx + c) % CHIP8_WIDTH;
    WrapBack(vy, r, CHIP8_HEIGHT);
    WrapBack(vx, c, CHIP8_WIDTH);
  }

  /** Every pixel sits at the wrapped position of its own offsets. */
  lemma PixelOfOffsets(vx: uint8, vy: uint8, idx: nat)
    requires idx < DISPLAY_SIZE
    ensures idx == SpriteCell(vx, vy, RowOffset(vy, idx / CHIP8_WIDTH), ColumnOffset(vx, idx % CHIP8_WIDTH))
  {
    var row, column := idx / CHIP8_WIDTH, idx % CHIP8_WIDTH;
    WrapForth(vy, row, CHIP8_HEIGHT);
    WrapForth(vx, column, CHIP8_WIDTH);
  }

  lemma WrapBack(v: nat, r: nat, m: nat)
    requires (m == CHIP8_HEIGHT || m == CHIP8_WIDTH) && r < m
    ensures ((v + r) % m - v) % m == r
  {
    var q := (v + r) / m;
    assert (v + r) % m - v == r - m * q;
    ModOfShift(r, -q, m);
  }

  lemma WrapForth(v: nat, row: nat, m: nat)
    requires (m == CHIP8_HEIGHT || m == CHIP8_WIDTH) && row < m
    ensures (v + (row - v) % m) % m == row
  {
    var q := (row - v) / m;
    assert v + (row - v) % m == row - m * q;
    ModOfShift(row, -q, m);
  }

  lemma ModOfShift(r: nat, q: int, m: nat)
    requires (m == CHIP8_HEIGHT || m == CHIP8_WIDTH) && r < m
    ensures (r + m * q) % m == r
  {
    if m == CHIP8_HEIGHT {
      assert (r + 32 * q) % 32 == r;
    } else {
      assert (r + 64 * q) % 64 == r;
    }
  }

  /** Pixel (r, c) of the sprite, placed with wrap-around, shows its sprite bit. */
  lemma DrawSetsSpritePixel(s: State, x: Register, y: Register, n: uint8, random: uint8, r: nat, c: nat)
    requires WellFormed(s) && CanExecute(s, DRW(x, y, n)) && r < n && c < 8
    ensures var t := Execute(s, DRW(x, y, n), random);
      t.display[SpriteCell(s.regs[x], s.regs[y], r, c)] == PixelOf(SpriteBit(s.memory[s.iReg + r], c))
  {
    OffsetsOfPixel(s.regs[x], s.regs[y], r, c);
  }

  /** A pixel that no sprite pixel lands on keeps its colour. */
  lemma DrawKeepsOtherPixels(s: State, x: Register, y: Register, n: uint8, random: uint8, idx: nat)
    requires WellFormed(s) && CanExecute(s, DRW(x, y, n)) && idx < DISPLAY_SIZE
    requires forall r, c :: 0 <= r < n && 0 <= c < 8 ==> idx != SpriteCell(s.regs[x], s.regs[y], r, c)
    ensures Execute(s, DRW(x, y, n), random).display[idx] == s.display[idx]
  {
    var vx, vy := s.regs[x], s.regs[y];
    PixelOfOffsets(vx, vy, idx);
  }

  /**
   * VF after DRW reports a collision in the last sprite row only, and DRW
   * touches no other register; with no rows only pc changes.
   */
  lemma DrawCollisionFlag(s: State, x: Register, y: Register, n: uint8, random: uint8)
    requires WellFormed(s) && CanExecute(s, DRW(x, y, n))
    ensures var t := Execute(s, DRW(x, y, n), random);
      && (n == 0 ==> t == s.(pc := s.pc + 2))
      && (n > 0 ==>
            && (t.regs[FLAG] == 1 <==> RowCollides(s.display, s.memory, s.iReg, s.regs[x], s.regs[y], n - 1))
            && t.regs[FLAG] <= 1
            && OthersUnchanged(s, t, FLAG, FLAG)
            && t == s.(display := t.display, regs := t.regs, pc := s.pc + 2))
  {
  }

  /**
   * Because DRW sets pixels instead of toggling them, drawing the same
   * sprite twice leaves the picture of the first draw, and the second
   * draw reports a collision exactly when the last sprite row has a 1 bit.
   */
  lemma DrawTwiceIsIdempotent(s: State, x: Register, y: Register, n: uint8, r1: uint8, r2: uint8)
    requires WellFormed(s) && x < FLAG && y < FLAG && CanExecute(s, DRW(x, y, n)) && n > 0
    ensures var t := Execute(s, DRW(x, y, n), r1);
      var u := Execute(t, DRW(x, y, n), r2);
      var last := s.memory[s.iReg + n - 1];
      && u.display == t.display
      && (u.regs[FLAG] == 1 <==> exists c :: 0 <= c < 8 && SpriteBit(last, c) == 1)
  {
    var t := Execute(s, DRW(x, y, n), r1);
    RedrawKeepsDisplay(s, x, y, n, r1, r2);
    var vx, vy := s.regs[x], s.regs[y];
    var last := s.memory[s.iReg + n - 1];
    forall c | 0 <= c < 8
      ensures CollidesAt(t.display, t.memory, t.iReg, vx, vy, n - 1, c) <==> SpriteBit(last, c) == 1
    {
      DrawSetsSpritePixel(s, x, y, n, r1, n - 1, c);
    }
  }

  lemma RedrawKeepsDisplay(s: State, x: Register, y: Register, n: uint8, r1: uint8, r2: uint8)
    requires WellFormed(s) && x < FLAG && y < FLAG && CanExecute(s, DRW(x, y, n)) && n > 0
    ensures var t := Execute(s, DRW(x, y, n), r1);
      && t.regs[x] == s.regs[x] && t.regs[y] == s.regs[y] && t.memory == s.memory && t.iReg == s.iReg
      && Execute(t, DRW(x, y, n), r2).display == t.display
  {
    var t := Execute(s, DRW(x, y, n), r1);
    var u := Execute(t, DRW(x, y, n), r2);
    assert t.regs[x] == s.regs[x] && t.regs[y] == s.regs[y];
    forall idx | 0 <= idx < DISPLAY_SIZE
      ensures u.display[idx] == t.display[idx]
    {
    }
  }

  // ---------------------------------------------------------------------
  // Life cycle

  /** After `trigger_reset` the next tick only resets: the program is no longer marked loaded. */
  lemma TickAfterTriggerResetOnlyResets(s: State, random: uint8)
    requires WellFormed(s)
    ensures TickSafe(TriggerResetState(s))
    ensures TickState(TriggerResetState(s), random) == NewState().(paused := s.paused)
  {
  }

  /** A paused machine, or one without a program, does nothing on a tick but a pending reset. */
  lemma IdleTick(s: State, random: uint8)
    requires WellFormed(s) && (s.paused || !s.dataLoaded)
    ensures TickSafe(s)
    ensures TickState(s, random) == if s.reset then ResetState(s) else s
  {
  }

  /** A running, loaded machine with no pending reset executes exactly the fetched instruction. */
  lemma RunningTickExecutes(s: State, random: uint8)
    requires WellFormed(s) && !s.reset && !s.paused && s.dataLoaded && TickSafe(s)
    ensures s.pc + 1 < MEMORY_SIZE && Fetched(s).Some?
    ensures TickState(s, random) == Execute(s, Fetched(s).value, random)
  {
  }

  /**
   * A program loaded while a reset is pending is wiped by the next tick,
   * which then fetches the zero word at 0x200, which does not decode.
   */
  lemma LoadDuringPendingResetFails(s: State, data: seq<uint8>)
    requires WellFormed(s) && !s.paused && |data| <= MEMORY_SIZE - PROGRAM_START
    ensures !TickSafe(LoadState(TriggerResetState(s), data))
  {
    var p := Prepared(LoadState(TriggerResetState(s), data));
    assert p.memory[PROGRAM_START] == 0 && p.memory[PROGRAM_START + 1] == 0;
    assert OpcodeAt(p.memory, p.pc) == 0;
    assert Unmapped(OpCodeInstruction(0));
  }

  /** A reset restores the font and zeroes the rest of memory; a reset after a trigger gives the power-on state, keeping only the pause flag. */
  lemma ResetIsPowerOnState(s: State)
    ensures ResetState(s).memory[..|FONT_SET|] == FONT_SET
    ensures forall a :: |FONT_SET| <= a < MEMORY_SIZE ==> ResetState(s).memory[a] == 0
    ensures ResetState(TriggerResetState(s)) == NewState().(paused := s.paused)
  {
  }
}
