/**
 * The CHIP-8 machine as a value: the state of `struct CPU` and one
 * function per operation of src/Chip8/cpu.rs. The imperative class in
 * cpu.dfy is proved to follow these functions, and the lemmas below
 * state what the operations promise.
 *
 * Bytes are integers in [0, 256). Every wrap-around of the source
 * (`wrapping_add`, `wrapping_sub`, `as u8`, `<< 1` on a `u8`) is written
 * out as `% 256`, which is exact for these operands because Dafny's `%`
 * never yields a negative remainder. The shifts and masks of the source
 * on a single byte are written as the equal integer divisions.
 */
module CpuSpec {
  import opened Instructions

  const CHIP8_WIDTH: nat := 64
  const CHIP8_HEIGHT: nat := 32
  const DISPLAY_SIZE: nat := 2048
  const MEMORY_SIZE: nat := 4096
  const NUM_STACK_FRAMES: nat := 16
  const NUM_GENERAL_REGS: nat := 16
  const NUM_KEYS: nat := 16
  const PROGRAM_START: nat := 0x200
  /** VF, the register the arithmetic and drawing instructions use as a flag. */
  const FLAG: Register := 0xF

  /**
   * The 16 hexadecimal digit glyphs, five bytes each, copied to the bottom
   * of memory. The proofs use only its length.
   */
  const FONT_SET: seq<uint8> := [
    0xF0, 0x90, 0x90, 0x90, 0xF0,  0x20, 0x60, 0x20, 0x20, 0x70,
    0xF0, 0x10, 0xF0, 0x80, 0xF0,  0xF0, 0x10, 0xF0, 0x10, 0xF0,
    0x90, 0x90, 0xF0, 0x10, 0x10,  0xF0, 0x80, 0xF0, 0x10, 0xF0,
    0xF0, 0x80, 0xF0, 0x90, 0xF0,  0xF0, 0x10, 0x20, 0x40, 0x40,
    0xF0, 0x90, 0xF0, 0x90, 0xF0,  0xF0, 0x90, 0xF0, 0x10, 0xF0,
    0xF0, 0x90, 0xF0, 0x90, 0x90,  0xE0, 0x90, 0xE0, 0x90, 0xE0,
    0xF0, 0x80, 0x80, 0x80, 0xF0,  0xE0, 0x90, 0x90, 0x90, 0xE0,
    0xF0, 0x80, 0xF0, 0x80, 0xF0,  0xF0, 0x80, 0xF0, 0x80, 0x80
  ]

  datatype Pixel = OFF | ON

  datatype State = State(
    regs: seq<uint8>,
    iReg: nat,
    sp: nat,
    pc: nat,
    memory: seq<uint8>,
    stack: seq<uint8>,
    delayTimer: uint8,
    soundTimer: uint8,
    display: seq<Pixel>,
    keys: seq<bool>,
    reset: bool,
    paused: bool,
    dataLoaded: bool)

  /** Fixed sizes of the arrays, and a stack pointer that never passes the last frame. */
  predicate WellFormed(s: State) {
    && |s.regs| == NUM_GENERAL_REGS
    && |s.memory| == MEMORY_SIZE
    && |s.stack| == NUM_STACK_FRAMES
    && |s.display| == DISPLAY_SIZE
    && |s.keys| == NUM_KEYS
    && s.sp <= NUM_STACK_FRAMES
  }

  /** Row-major position of a pixel in the display. */
  function GetIndex(row: nat, column: nat): (idx: nat)
    ensures row < CHIP8_HEIGHT && column < CHIP8_WIDTH ==>
      idx < DISPLAY_SIZE && idx / CHIP8_WIDTH == row && idx % CHIP8_WIDTH == column
  {
    row * CHIP8_WIDTH + column
  }

  function Zeros(n: nat): seq<uint8> {
    seq(n, _ => 0)
  }

  function Blank(): seq<Pixel> {
    seq(DISPLAY_SIZE, _ => OFF)
  }

  function NoKeys(): seq<bool> {
    seq(NUM_KEYS, _ => false)
  }

  /** Memory at power-on: the font at the bottom, zero everywhere else. */
  function FreshMemory(): (m: seq<uint8>)
    ensures |m| == MEMORY_SIZE
    ensures forall a :: 0 <= a < |FONT_SET| ==> m[a] == FONT_SET[a]
    ensures forall a :: |FONT_SET| <= a < MEMORY_SIZE ==> m[a] == 0
  {
    FONT_SET + Zeros(MEMORY_SIZE - |FONT_SET|)
  }

  function NewState(): (s: State)
    ensures WellFormed(s)
    ensures s.pc == PROGRAM_START && s.iReg == 0 && s.sp == 0
    ensures s.delayTimer == 0 && s.soundTimer == 0
    ensures forall k :: 0 <= k < NUM_GENERAL_REGS ==> s.regs[k] == 0
    ensures forall k :: 0 <= k < NUM_STACK_FRAMES ==> s.stack[k] == 0
    ensures forall idx :: 0 <= idx < DISPLAY_SIZE ==> s.display[idx] == OFF
    ensures forall k :: 0 <= k < NUM_KEYS ==> !s.keys[k]
    ensures s.memory == FreshMemory()
    ensures !s.reset && !s.paused && !s.dataLoaded
  {
    State(Zeros(NUM_GENERAL_REGS), 0, 0, PROGRAM_START, FreshMemory(), Zeros(NUM_STACK_FRAMES),
          0, 0, Blank(), NoKeys(), false, false, false)
  }

  /** The private `reset`: the power-on state, except that `paused` and `data_loaded` survive. */
  function ResetState(s: State): (t: State)
    ensures t == NewState().(paused := s.paused, dataLoaded := s.dataLoaded)
  {
    s.(regs := Zeros(NUM_GENERAL_REGS), iReg := 0, sp := 0, pc := PROGRAM_START,
       memory := FreshMemory(), stack := Zeros(NUM_STACK_FRAMES), delayTimer := 0, soundTimer := 0,
       display := Blank(), keys := NoKeys(), reset := false)
  }

  /** `trigger_reset`: a reset is pending and the program no longer counts as loaded, so the next tick cannot panic. */
  function TriggerResetState(s: State): (t: State)
    ensures t.reset && !t.dataLoaded && t == s.(reset := t.reset, dataLoaded := t.dataLoaded)
    ensures WellFormed(s) ==> WellFormed(t) && TickSafe(t)
  {
    s.(reset := true, dataLoaded := false)
  }

  /** `pause`: only the pause flag changes, and a paused machine cannot panic on a tick. */
  function PauseState(s: State): (t: State)
    ensures t.paused && t == s.(paused := t.paused)
    ensures WellFormed(s) ==> WellFormed(t) && TickSafe(t)
  {
    s.(paused := true)
  }

  /** `start`: only the pause flag changes. */
  function StartState(s: State): (t: State)
    ensures !t.paused && t == s.(paused := t.paused)
  {
    s.(paused := false)
  }

  /** `load`: the program goes to memory from address 0x200 on. */
  function LoadState(s: State, data: seq<uint8>): (t: State)
    requires WellFormed(s) && |data| <= MEMORY_SIZE - PROGRAM_START
    ensures WellFormed(t)
    ensures forall a :: 0 <= a < MEMORY_SIZE ==>
      t.memory[a] == if PROGRAM_START <= a < PROGRAM_START + |data| then data[a - PROGRAM_START] else s.memory[a]
    ensures t == s.(memory := t.memory, dataLoaded := true)
  {
    s.(memory := s.memory[..PROGRAM_START] + data + s.memory[PROGRAM_START + |data|..], dataLoaded := true)
  }

  /** The big-endian word at `pc`. */
  function OpcodeAt(memory: seq<uint8>, pc: nat): (w: uint16)
    requires pc + 1 < |memory|
    ensures w / 0x100 == memory[pc] && w % 0x100 == memory[pc + 1]
  {
    memory[pc] as int * 0x100 + memory[pc + 1]
  }

  /** The instruction `tick` fetches at pc and decodes (src/Chip8/cpu.rs:176-178). */
  function Fetched(s: State): Option<Instruction>
    requires s.pc + 1 < |s.memory|
  {
    Decode(OpcodeAt(s.memory, s.pc))
  }

  // ---------------------------------------------------------------------
  // Instruction semantics

  function BitOr(a: uint8, b: uint8): uint8 {
    ((a as bv8) | (b as bv8)) as int
  }

  function BitAnd(a: uint8, b: uint8): uint8 {
    ((a as bv8) & (b as bv8)) as int
  }

  function BitXor(a: uint8, b: uint8): uint8 {
    ((a as bv8) ^ (b as bv8)) as int
  }

  /** Bit `7 - c` of a sprite byte: column `c` of its row, counted from the left (src/Chip8/cpu.rs:360). */
  function SpriteBit(b: uint8, c: nat): (bit: uint8)
    requires c < 8
    ensures bit <= 1
  {
    (((b as bv8) >> (7 - c)) & 1) as int
  }

  function PixelOf(bit: uint8): Pixel {
    if bit == 1 then ON else OFF
  }

  /** Which sprite row lands on display row `row` when the sprite starts at row `vy`. */
  function RowOffset(vy: uint8, row: nat): nat {
    (row - vy) % CHIP8_HEIGHT
  }

  /** Which sprite column lands on display column `column` when the sprite starts at `vx`. */
  function ColumnOffset(vx: uint8, column: nat): nat {
    (column - vx) % CHIP8_WIDTH
  }

  /**
   * Whether the drawing loop of DRW has already visited pixel `idx` after
   * `rows` complete rows and `cols` bits of the next one.
   */
  predicate Visited(vx: uint8, vy: uint8, rows: nat, cols: nat, idx: nat) {
    var r, c := RowOffset(vy, idx / CHIP8_WIDTH), ColumnOffset(vx, idx % CHIP8_WIDTH);
    (r < rows && c < 8) || (r == rows && c < cols)
  }

  /** The display once the visited pixels show their sprite bit. */
  function Painted(display: seq<Pixel>, memory: seq<uint8>, iReg: nat, vx: uint8, vy: uint8,
                   rows: nat, cols: nat): (d: seq<Pixel>)
    requires |display| == DISPLAY_SIZE
    requires cols <= 8 && (rows > 0 || cols > 0 ==> iReg + rows + (if cols > 0 then 1 else 0) <= |memory|)
    ensures |d| == DISPLAY_SIZE
  {
    seq(DISPLAY_SIZE, idx requires 0 <= idx < DISPLAY_SIZE =>
      if Visited(vx, vy, rows, cols, idx)
      then PixelOf(SpriteBit(memory[iReg + RowOffset(vy, idx / CHIP8_WIDTH)], ColumnOffset(vx, idx % CHIP8_WIDTH)))
      else display[idx])
  }

  /** The display after DRW has drawn `n` rows: each covered pixel takes its sprite bit. */
  function DrawnDisplay(display: seq<Pixel>, memory: seq<uint8>, iReg: nat, vx: uint8, vy: uint8, n: nat): seq<Pixel>
    requires |display| == DISPLAY_SIZE && (n > 0 ==> iReg + n <= |memory|)
  {
    Painted(display, memory, iReg, vx, vy, n, 0)
  }

  /** The display index that pixel (r, c) of a sprite placed at (vx, vy) lands on, wrapping at the edges. */
  function SpriteCell(vx: uint8, vy: uint8, r: nat, c: nat): nat {
    GetIndex((vy + r) % CHIP8_HEIGHT, (vx + c) % CHIP8_WIDTH)
  }

  /** Pixel `c` of sprite row `r` was ON and the sprite has a 1 bit there. */
  predicate CollidesAt(display: seq<Pixel>, memory: seq<uint8>, iReg: nat, vx: uint8, vy: uint8, r: nat, c: nat)
    requires |display| == DISPLAY_SIZE && iReg + r < |memory| && c < 8
  {
    SpriteBit(memory[iReg + r], c) == 1
    && display[SpriteCell(vx, vy, r, c)] == ON
  }

  /** Some pixel of sprite row `r` was ON where that row has a 1 bit. */
  predicate RowCollides(display: seq<Pixel>, memory: seq<uint8>, iReg: nat, vx: uint8, vy: uint8, r: nat)
    requires |display| == DISPLAY_SIZE && iReg + r < |memory|
  {
    exists c :: 0 <= c < 8 && CollidesAt(display, memory, iReg, vx, vy, r, c)
  }

  /** Memory after SR: V0..Vx stored from I on. */
  function StoredRegisters(memory: seq<uint8>, iReg: nat, regs: seq<uint8>, x: nat): (m: seq<uint8>)
    requires x < |regs| && iReg + x < |memory|
    ensures |m| == |memory|
  {
    seq(|memory|, a requires 0 <= a < |memory| =>
      if iReg <= a <= iReg + x then regs[a - iReg] else memory[a])
  }

  /** Registers after LR: V0..Vx loaded from I on. */
  function LoadedRegisters(regs: seq<uint8>, memory: seq<uint8>, iReg: nat, x: nat): (r: seq<uint8>)
    requires x < |regs| && iReg + x < |memory|
    ensures |r| == |regs|
  {
    seq(|regs|, k requires 0 <= k < |regs| => if k <= x then memory[iReg + k] else regs[k])
  }

  /**
   * What `execute_instruction` needs in order not to panic: every register
   * index in range, no stack overflow or underflow, no `u8` overflow in
   * DRW's row or LDS's product, every memory index below 4096, and some
   * key pressed for LDK, which otherwise spins forever. The arm-less SYS
   * is excluded, and so are DRW heights above 15, which the decoder
   * cannot produce.
   */
  predicate CanExecute(s: State, ins: Instruction): (ok: bool)
    requires WellFormed(s)
    ensures ok ==> !ins.SYS?
  {
    match ins
    case SYS(_) => false
    case CLS => true
    case RET => s.sp > 0
    case JMP(_) => true
    case CALL(_) => s.sp < NUM_STACK_FRAMES
    case SEQB(r, _) => r < 16
    case SNEQB(r, _) => r < 16
    case SRER(x, y) => x < 16 && y < 16
    case LBR(x, _) => x < 16
    case ABR(x, _) => x < 16
    case LRR(x, y) => x < 16 && y < 16
    case OR(x, y) => x < 16 && y < 16
    case AND(x, y) => x < 16 && y < 16
    case XOR(x, y) => x < 16 && y < 16
    case ADD(x, y) => x < 16 && y < 16
    case SUB(x, y) => x < 16 && y < 16
    case SHR(x) => x < 16
    case SUBN(x, y) => x < 16 && y < 16
    case SHL(x) => x < 16
    case SNE(x, y) => x < 16 && y < 16
    case LDI(_) => true
    case JPV0(_) => true
    case RND(x, _) => x < 16
    case DRW(x, y, n) =>
      x < 16 && y < 16 && n < 16 && (n > 0 ==> s.regs[y] as int + n - 1 <= 255 && s.iReg + n <= MEMORY_SIZE)
    case SKP(x) => x < 16 && s.regs[x] < NUM_KEYS
    case SKNP(x) => x < 16 && s.regs[x] < NUM_KEYS
    case LDDV(x) => x < 16
    case LDK(x) => x < 16 && exists k :: 0 <= k < NUM_KEYS && s.keys[k]
    case LDVD(x) => x < 16
    case LDST(x) => x < 16
    case ADDI(x) => x < 16
    case LDS(x) => x < 16 && s.regs[x] as int * 5 <= 255
    case BCD(x) => x < 16 && s.iReg + 2 < MEMORY_SIZE
    case SR(x) => x < 16 && s.iReg + x < MEMORY_SIZE
    case LR(x) => x < 16 && s.iReg + x < MEMORY_SIZE
  }

  /**
   * The arms whose panic-freedom depends on the state (stack depth, a
   * register value, I or the keys); every other decoded instruction is
   * always safe to execute.
   */
  predicate StateDependent(ins: Instruction) {
    ins.RET? || ins.CALL? || ins.DRW? || ins.SKP? || ins.SKNP? || ins.LDK? || ins.LDS? || ins.BCD? || ins.SR? || ins.LR?
  }

  function SetReg(s: State, r: Register, v: uint8): State
    requires r < |s.regs|
  {
    s.(regs := s.regs[r := v])
  }

  function Next(s: State): State {
    s.(pc := s.pc + 2)
  }

  function Skip(s: State, taken: bool): State {
    s.(pc := s.pc + if taken then 4 else 2)
  }

  /** Control flow: CLS, RET, JMP, CALL, JPV0 and the six conditional skips. */
  predicate IsFlow(ins: Instruction) {
    ins.CLS? || ins.RET? || ins.JMP? || ins.CALL? || ins.JPV0? || IsSkip(ins)
  }

  predicate IsSkip(ins: Instruction) {
    ins.SEQB? || ins.SNEQB? || ins.SRER? || ins.SNE? || ins.SKP? || ins.SKNP?
  }

  /** The register instructions of families 6, 7, 8 and C. */
  predicate IsAlu(ins: Instruction) {
    ins.LBR? || ins.ABR? || ins.LRR? || ins.OR? || ins.AND? || ins.XOR? || ins.RND? || IsArith(ins)
  }

  predicate IsArith(ins: Instruction) {
    ins.ADD? || ins.SUB? || ins.SHR? || ins.SUBN? || ins.SHL?
  }

  /**
   * One arm of `execute_instruction`. Where the source writes VF before the
   * destination, the destination is computed from the state after that
   * write, so a destination of VF sees the new flag.
   */
  function Execute(s: State, ins: Instruction, random: uint8): (t: State)
    requires WellFormed(s) && CanExecute(s, ins)
    ensures WellFormed(t)
    ensures t.keys == s.keys && t.reset == s.reset && t.paused == s.paused && t.dataLoaded == s.dataLoaded
  {
    if ins.DRW? then
      var DRW(x, y, n) := ins;
      ExecuteDraw(s, x, y, n)
    else if IsSkip(ins) then ExecuteSkip(s, ins)
    else if IsFlow(ins) then ExecuteFlow(s, ins)
    else if IsArith(ins) then ExecuteArith(s, ins)
    else if IsAlu(ins) then ExecuteAlu(s, ins, random)
    else ExecuteMisc(s, ins)
  }

  function ExecuteFlow(s: State, ins: Instruction): (t: State)
    requires WellFormed(s) && CanExecute(s, ins) && IsFlow(ins) && !IsSkip(ins)
    ensures WellFormed(t)
    ensures t.keys == s.keys && t.reset == s.reset && t.paused == s.paused && t.dataLoaded == s.dataLoaded
    ensures t.regs == s.regs && t.memory == s.memory && t.iReg == s.iReg
    ensures t.delayTimer == s.delayTimer && t.soundTimer == s.soundTimer
  {
    match ins
    case CLS => Next(s.(display := Blank()))
    case RET => s.(sp := s.sp - 1, pc := s.stack[s.sp - 1] as int + 2)
    case JMP(a) => s.(pc := a)
    case CALL(a) => s.(stack := s.stack[s.sp := s.pc % 256], sp := s.sp + 1, pc := a)
    case JPV0(a) => s.(pc := a + s.regs[0])
  }

  function ExecuteSkip(s: State, ins: Instruction): (t: State)
    requires WellFormed(s) && CanExecute(s, ins) && IsSkip(ins)
    ensures WellFormed(t)
    ensures t == s.(pc := t.pc) && (t.pc == s.pc + 2 || t.pc == s.pc + 4)
  {
    match ins
    case SEQB(r, k) => Skip(s, s.regs[r] == k)
    case SNEQB(r, k) => Skip(s, s.regs[r] != k)
    case SRER(x, y) => Skip(s, s.regs[x] == s.regs[y])
    case SNE(x, y) => Skip(s, s.regs[x] != s.regs[y])
    case SKP(x) => Skip(s, s.keys[s.regs[x]])
    case SKNP(x) => Skip(s, !s.keys[s.regs[x]])
  }

  function ExecuteAlu(s: State, ins: Instruction, random: uint8): (t: State)
    requires WellFormed(s) && CanExecute(s, ins) && IsAlu(ins) && !IsArith(ins)
    ensures WellFormed(t) && t == Next(s).(regs := t.regs)
  {
    match ins
    case LBR(x, k) => Next(SetReg(s, x, k))
    case ABR(x, k) => Next(SetReg(s, x, (k as int + s.regs[x]) % 256))
    case LRR(x, y) => Next(SetReg(s, x, s.regs[y]))
    case OR(x, y) => Next(SetReg(s, x, BitOr(s.regs[x], s.regs[y])))
    case AND(x, y) => Next(SetReg(s, x, BitAnd(s.regs[x], s.regs[y])))
    case XOR(x, y) => Next(SetReg(s, x, BitXor(s.regs[x], s.regs[y])))
    case RND(x, k) => Next(SetReg(s, x, BitAnd(random, k)))
  }

  /** The five family-8 instructions that write VF. */
  function ExecuteArith(s: State, ins: Instruction): (t: State)
    requires WellFormed(s) && CanExecute(s, ins) && IsArith(ins)
    ensures WellFormed(t) && t == Next(s).(regs := t.regs)
  {
    match ins
    case ADD(x, y) => Add(s, x, y)
    case SUB(x, y) => Sub(s, x, y)
    case SHR(x) => ShiftRight(s, x)
    case SUBN(x, y) => SubN(s, x, y)
    case SHL(x) => ShiftLeft(s, x)
  }

  /** 8XY4: VF is the carry, then Vx the low byte of the sum taken before that write. */
  function Add(s: State, x: Register, y: Register): (t: State)
    requires WellFormed(s) && x < 16 && y < 16
    ensures WellFormed(t) && t == Next(s).(regs := t.regs)
  {
    var sum := s.regs[x] as int + s.regs[y];
    Next(SetReg(SetReg(s, FLAG, if sum > 255 then 1 else 0), x, sum % 256))
  }

  /** 8XY5: VF is 1 iff Vx > Vy, then Vx - Vy wraps, both read after the VF write. */
  function Sub(s: State, x: Register, y: Register): (t: State)
    requires WellFormed(s) && x < 16 && y < 16
    ensures WellFormed(t) && t == Next(s).(regs := t.regs)
  {
    var f := SetReg(s, FLAG, if s.regs[x] > s.regs[y] then 1 else 0);
    Next(SetReg(f, x, (f.regs[x] as int - f.regs[y]) % 256))
  }

  /** 8XY6: VF is the low bit, then Vx (read after the VF write) is halved. */
  function ShiftRight(s: State, x: Register): (t: State)
    requires WellFormed(s) && x < 16
    ensures WellFormed(t) && t == Next(s).(regs := t.regs)
  {
    var f := SetReg(s, FLAG, s.regs[x] % 2);
    Next(SetReg(f, x, f.regs[x] / 2))
  }

  /** 8XY7: VF is 0 iff Vy > Vx, then Vy - Vx wraps into Vy. */
  function SubN(s: State, x: Register, y: Register): (t: State)
    requires WellFormed(s) && x < 16 && y < 16
    ensures WellFormed(t) && t == Next(s).(regs := t.regs)
  {
    var f := SetReg(s, FLAG, if s.regs[y] > s.regs[x] then 0 else 1);
    Next(SetReg(f, y, (f.regs[y] as int - f.regs[x]) % 256))
  }

  /** 8XYE: VF is the high bit, then Vx (read after the VF write) is doubled modulo 256. */
  function ShiftLeft(s: State, x: Register): (t: State)
    requires WellFormed(s) && x < 16
    ensures WellFormed(t) && t == Next(s).(regs := t.regs)
  {
    var f := SetReg(s, FLAG, s.regs[x] / 128);
    Next(SetReg(f, x, (f.regs[x] as int * 2) % 256))
  }

  /**
   * DRW: the covered pixels take their sprite bits and VF reports a
   * collision in the last row only, because the loop clears VF at the
   * start of every row. With no rows, only pc moves.
   */
  function ExecuteDraw(s: State, x: Register, y: Register, n: uint8): (t: State)
    requires WellFormed(s) && CanExecute(s, DRW(x, y, n))
    ensures WellFormed(t) && t == Next(s).(display := t.display, regs := t.regs)
  {
    if n == 0 then Next(s)
    else
      var vx, vy := s.regs[x], s.regs[y];
      Next(s.(display := DrawnDisplay(s.display, s.memory, s.iReg, vx, vy, n),
              regs := s.regs[FLAG := if RowCollides(s.display, s.memory, s.iReg, vx, vy, n - 1) then 1 else 0]))
  }

  /** Family F and what is left: timers, keys, I and the memory transfers. */
  function ExecuteMisc(s: State, ins: Instruction): (t: State)
    requires WellFormed(s) && CanExecute(s, ins) && !IsFlow(ins) && !IsAlu(ins) && !ins.DRW?
    ensures WellFormed(t)
    ensures t.keys == s.keys && t.reset == s.reset && t.paused == s.paused && t.dataLoaded == s.dataLoaded
    ensures t.pc == s.pc + 2 && t.display == s.display && t.stack == s.stack && t.sp == s.sp
  {
    match ins
    case LDI(a) => Next(s.(iReg := a))
    case LDDV(x) => Next(SetReg(s, x, s.delayTimer))
    case LDK(x) => Next(SetReg(s, x, 1))
    case LDVD(x) => Next(s.(delayTimer := s.regs[x]))
    case LDST(x) => Next(s.(soundTimer := s.regs[x]))
    case ADDI(x) => Next(s.(iReg := s.iReg + s.regs[x]))
    case LDS(x) => Next(s.(iReg := s.regs[x] as int * 5))
    case BCD(x) =>
      var v := s.regs[x];
      Next(s.(memory := s.memory[s.iReg := v / 100][s.iReg + 1 := v % 100 / 10][s.iReg + 2 := v % 10]))
    case SR(x) => Next(s.(memory := StoredRegisters(s.memory, s.iReg, s.regs, x), iReg := s.iReg + x + 1))
    case LR(x) => Next(s.(regs := LoadedRegisters(s.regs, s.memory, s.iReg, x), iReg := s.iReg + x + 1))
  }

  /** The state `tick` executes from: the pending reset, if any, done first (src/Chip8/cpu.rs:121-123). */
  function Prepared(s: State): State {
    if s.reset then ResetState(s) else s
  }

  /** `tick` does not panic: if it gets as far as fetching, the fetch and the instruction are safe. */
  predicate TickSafe(s: State): (ok: bool)
    requires WellFormed(s)
    ensures s.paused || !s.dataLoaded ==> ok
  {
    var t := Prepared(s);
    t.paused || !t.dataLoaded
    || (t.pc + 1 < MEMORY_SIZE && Fetched(t).Some? && CanExecute(t, Fetched(t).value))
  }

  function TickState(s: State, random: uint8): (t: State)
    requires WellFormed(s) && TickSafe(s)
    ensures WellFormed(t)
  {
    var p := Prepared(s);
    if p.paused || !p.dataLoaded then p
    else Execute(p, Fetched(p).value, random)
  }
}
