/**
 * `struct CPU` of src/Chip8/cpu.rs as a class whose methods update its
 * fields in place. Each method is proved to take the machine from state
 * `old(Abs())` to the state the matching function of CpuSpec computes.
 */
module Cpu {
  import opened Instructions
  import opened CpuSpec
  import CpuProperties

  /** Copies the font to the bottom of memory, leaving the rest as it was. */
  method WriteFont(mem: array<uint8>)
    requires mem.Length == MEMORY_SIZE
    modifies mem
    ensures forall a :: 0 <= a < |FONT_SET| ==> mem[a] == FONT_SET[a]
    ensures forall a :: |FONT_SET| <= a < MEMORY_SIZE ==> mem[a] == old(mem[a])
  {
    for i := 0 to |FONT_SET|
      invariant forall a :: 0 <= a < i ==> mem[a] == FONT_SET[a]
      invariant forall a :: i <= a < MEMORY_SIZE ==> mem[a] == old(mem[a])
    {
      mem[i] := FONT_SET[i];
    }
  }

  /** One of the clearing loops of `reset`. */
  method ZeroFill(a: array<uint8>)
    modifies a
    ensures a[..] == Zeros(a.Length)
  {
    for idx := 0 to a.Length
      invariant forall j :: 0 <= j < idx ==> a[j] == 0
    {
      a[idx] := 0;
    }
    assert a[..] == Zeros(a.Length);
  }

  class CPU {
    const regs: array<uint8>
    var iReg: nat
    var sp: nat
    var pc: nat
    const memory: array<uint8>
    const stack: array<uint8>
    var delayTimer: uint8
    var soundTimer: uint8
    const display: array<Pixel>
    const keys: array<bool>
    var reset: bool
    var paused: bool
    var dataLoaded: bool

    ghost predicate Valid()
      reads this
    {
      && regs.Length == NUM_GENERAL_REGS
      && memory.Length == MEMORY_SIZE
      && stack.Length == NUM_STACK_FRAMES
      && display.Length == DISPLAY_SIZE
      && keys.Length == NUM_KEYS
      && regs != memory && regs != stack && memory != stack
      && sp <= NUM_STACK_FRAMES
    }

    /** The machine state the fields and arrays hold. */
    ghost function Abs(): (s: State)
      reads this, regs, memory, stack, display, keys
      ensures Valid() ==> WellFormed(s)
    {
      State(regs[..], iReg, sp, pc, memory[..], stack[..], delayTimer, soundTimer,
            display[..], keys[..], reset, paused, dataLoaded)
    }

    /** `new`: the power-on state, with the font in memory and pc at 0x200. */
    constructor ()
      ensures Valid() && Abs() == NewState()
      ensures fresh(regs) && fresh(memory) && fresh(stack) && fresh(display) && fresh(keys)
    {
      var mem := new uint8[MEMORY_SIZE](_ => 0);
      WriteFont(mem);
      regs := new uint8[NUM_GENERAL_REGS](_ => 0);
      iReg := 0;
      delayTimer := 0;
      soundTimer := 0;
      sp := 0;
      pc := PROGRAM_START;
      memory := mem;
      stack := new uint8[NUM_STACK_FRAMES](_ => 0);
      display := new Pixel[DISPLAY_SIZE](_ => OFF);
      keys := new bool[NUM_KEYS](_ => false);
      reset := false;
      paused := false;
      dataLoaded := false;
      new;
      assert memory[..] == FreshMemory();
      assert regs[..] == Zeros(NUM_GENERAL_REGS) && stack[..] == Zeros(NUM_STACK_FRAMES);
      assert display[..] == Blank() && keys[..] == NoKeys();
    }

    function GetRegister(reg: Register): uint8
      requires Valid() && reg < 16
      reads this, regs
    {
      regs[reg]
    }

    method SetRegister(reg: Register, value: uint8)
      requires Valid() && reg < 16
      modifies regs
      ensures regs[..] == old(regs[..])[reg := value]
    {
      regs[reg] := value;
    }

    method TriggerReset()
      requires Valid()
      modifies this
      ensures Valid() && Abs() == TriggerResetState(old(Abs()))
    {
      reset := true;
      dataLoaded := false;
    }

    method Pause()
      requires Valid()
      modifies this
      ensures Valid() && Abs() == PauseState(old(Abs()))
    {
      paused := true;
    }

    method Start()
      requires Valid()
      modifies this
      ensures Valid() && Abs() == StartState(old(Abs()))
    {
      paused := false;
    }

    /** Host-side keypad update: the page replaces all 16 key flags before every tick. */
    method SetKeyArray(newKeys: seq<bool>)
      requires Valid() && |newKeys| == NUM_KEYS
      modifies keys
      ensures Valid() && Abs() == old(Abs()).(keys := newKeys)
    {
      for k := 0 to NUM_KEYS
        invariant forall j :: 0 <= j < k ==> keys[j] == newKeys[j]
      {
        keys[k] := newKeys[k];
      }
      assert keys[..] == newKeys;
    }

    method Load(data: seq<uint8>)
      requires Valid() && |data| <= MEMORY_SIZE - PROGRAM_START
      modifies this, memory
      ensures Valid() && Abs() == LoadState(old(Abs()), data)
    {
      for i := 0 to |data|
        modifies memory
        invariant forall a :: 0 <= a < MEMORY_SIZE ==>
          memory[a] == if PROGRAM_START <= a < PROGRAM_START + i then data[a - PROGRAM_START] else old(memory[a])
      {
        memory[PROGRAM_START + i] := data[i];
      }
      dataLoaded := true;
      assert memory[..] == LoadState(old(Abs()), data).memory;
    }

    method Tick(random: uint8)
      requires Valid() && TickSafe(Abs())
      modifies this, regs, memory, stack, display, keys
      ensures Valid() && Abs() == TickState(old(Abs()), random)
    {
      if reset {
        Reset();
      }
      if paused {
        return;
      }
      if !dataLoaded {
        return;
      }
      var instr := FetchInstruction();
      ExecuteInstruction(instr, random);
    }

    /** The private `reset`: everything back to its power-on value but `paused` and `data_loaded`. */
    method Reset()
      requires Valid()
      modifies this, regs, memory, stack, display, keys
      ensures Valid() && Abs() == ResetState(old(Abs()))
    {
      ZeroFill(regs);
      iReg := 0;
      sp := 0;
      pc := PROGRAM_START;
      ZeroFill(memory);
      WriteFont(memory);
      ZeroFill(stack);
      delayTimer := 0;
      soundTimer := 0;
      ClearDisplay();
      ClearKeys();
      reset := false;
      assert memory[..] == FreshMemory();
    }

    method ClearKeys()
      requires Valid()
      modifies keys
      ensures keys[..] == NoKeys()
    {
      for key := 0 to NUM_KEYS
        invariant forall j :: 0 <= j < key ==> !keys[j]
      {
        keys[key] := false;
      }
      assert keys[..] == NoKeys();
    }

    method ClearDisplay()
      requires Valid()
      modifies display
      ensures display[..] == Blank()
    {
      for idx := 0 to DISPLAY_SIZE
        invariant forall j :: 0 <= j < idx ==> display[j] == OFF
      {
        display[idx] := OFF;
      }
      assert display[..] == Blank();
    }

    /** The big-endian word at pc, decoded; the source unwraps the decode. */
    method FetchInstruction() returns (instr: Instruction)
      requires Valid() && pc + 1 < MEMORY_SIZE && Fetched(Abs()).Some?
      ensures instr == Fetched(Abs()).value && !instr.SYS?
    {
      var opcode := memory[pc] as int * 0x100 + memory[pc + 1];
      instr := OpCodeInstruction(opcode).ProcessOpcode().value;
    }

    method ExecuteInstruction(instr: Instruction, random: uint8)
      requires Valid() && CanExecute(Abs(), instr)
      modifies this, regs, memory, stack, display
      ensures Valid() && Abs() == Execute(old(Abs()), instr, random)
    {
      if instr.DRW? {
        var DRW(x, y, n) := instr;
        Draw(x, y, n);
      } else if IsSkip(instr) {
        ExecuteSkip(instr);
      } else if IsFlow(instr) {
        ExecuteFlow(instr);
      } else if IsArith(instr) {
        ExecuteArith(instr);
      } else if IsAlu(instr) {
        ExecuteAlu(instr, random);
      } else {
        ExecuteMisc(instr);
      }
    }

    method ExecuteFlow(instr: Instruction)
      requires Valid() && CanExecute(Abs(), instr) && IsFlow(instr) && !IsSkip(instr)
      modifies this, stack, display
      ensures Valid() && Abs() == CpuSpec.ExecuteFlow(old(Abs()), instr)
    {
      match instr
      case CLS =>
        ClearDisplay();
        pc := pc + 2;
      case RET =>
        sp := sp - 1;
        pc := stack[sp] as int;
        pc := pc + 2;
      case JMP(addr) =>
        pc := addr;
      case CALL(addr) =>
        stack[sp] := pc % 256;
        sp := sp + 1;
        pc := addr;
      case JPV0(addr) =>
        pc := addr + GetRegister(0);
    }

    method ExecuteSkip(instr: Instruction)
      requires Valid() && CanExecute(Abs(), instr) && IsSkip(instr)
      modifies this
      ensures Valid() && Abs() == CpuSpec.ExecuteSkip(old(Abs()), instr)
    {
      var taken: bool;
      match instr {
        case SEQB(reg, value) => taken := GetRegister(reg) == value;
        case SNEQB(reg, value) => taken := GetRegister(reg) != value;
        case SRER(reg1, reg2) => taken := GetRegister(reg1) == GetRegister(reg2);
        case SNE(reg1, reg2) => taken := GetRegister(reg1) != GetRegister(reg2);
        case SKP(reg) => taken := keys[GetRegister(reg)];
        case SKNP(reg) => taken := !keys[GetRegister(reg)];
      }
      if taken {
        pc := pc + 4;
      } else {
        pc := pc + 2;
      }
    }

    method ExecuteAlu(instr: Instruction, random: uint8)
      requires Valid() && CanExecute(Abs(), instr) && IsAlu(instr) && !IsArith(instr)
      modifies this, regs
      ensures Valid() && Abs() == CpuSpec.ExecuteAlu(old(Abs()), instr, random)
    {
      match instr {
        case LBR(reg, value) =>
          SetRegister(reg, value);
        case ABR(reg, value) =>
          SetRegister(reg, (value as int + GetRegister(reg)) % 256);
        case LRR(reg1, reg2) =>
          SetRegister(reg1, GetRegister(reg2));
        case OR(reg1, reg2) =>
          var value := BitOr(GetRegister(reg1), GetRegister(reg2));
          SetRegister(reg1, value);
        case AND(reg1, reg2) =>
          var value := BitAnd(GetRegister(reg1), GetRegister(reg2));
          SetRegister(reg1, value);
        case XOR(reg1, reg2) =>
          var value := BitXor(GetRegister(reg1), GetRegister(reg2));
          SetRegister(reg1, value);
        case RND(reg, nn) =>
          SetRegister(reg, BitAnd(random, nn));
      }
      pc := pc + 2;
    }

    method ExecuteArith(instr: Instruction)
      requires Valid() && CanExecute(Abs(), instr) && IsArith(instr)
      modifies this, regs
      ensures Valid() && Abs() == CpuSpec.ExecuteArith(old(Abs()), instr)
    {
      match instr {
        case ADD(reg1, reg2) => Add(reg1, reg2);
        case SUB(reg1, reg2) => Sub(reg1, reg2);
        case SHR(reg) => ShiftRight(reg);
        case SUBN(reg1, reg2) => SubN(reg1, reg2);
        case SHL(reg) => ShiftLeft(reg);
      }
    }

    method Add(reg1: Register, reg2: Register)
      requires Valid() && reg1 < 16 && reg2 < 16
      modifies this, regs
      ensures Valid() && Abs() == CpuSpec.Add(old(Abs()), reg1, reg2)
    {
      var sum := GetRegister(reg1) as int + GetRegister(reg2);
      SetRegister(FLAG, if sum > 255 then 1 else 0);
      SetRegister(reg1, sum % 256);
      pc := pc + 2;
    }

    method Sub(reg1: Register, reg2: Register)
      requires Valid() && reg1 < 16 && reg2 < 16
      modifies this, regs
      ensures Valid() && Abs() == CpuSpec.Sub(old(Abs()), reg1, reg2)
    {
      SetRegister(FLAG, if GetRegister(reg1) > GetRegister(reg2) then 1 else 0);
      SetRegister(reg1, (GetRegister(reg1) as int - GetRegister(reg2)) % 256);
      pc := pc + 2;
    }

    method ShiftRight(reg: Register)
      requires Valid() && reg < 16
      modifies this, regs
      ensures Valid() && Abs() == CpuSpec.ShiftRight(old(Abs()), reg)
    {
      SetRegister(FLAG, GetRegister(reg) % 2);
      SetRegister(reg, GetRegister(reg) / 2);
      pc := pc + 2;
    }

    method SubN(reg1: Register, reg2: Register)
      requires Valid() && reg1 < 16 && reg2 < 16
      modifies this, regs
      ensures Valid() && Abs() == CpuSpec.SubN(old(Abs()), reg1, reg2)
    {
      if GetRegister(reg2) > GetRegister(reg1) {
        SetRegister(FLAG, 0);
      } else {
        SetRegister(FLAG, 1);
      }
      SetRegister(reg2, (GetRegister(reg2) as int - GetRegister(reg1)) % 256);
      pc := pc + 2;
    }

    method ShiftLeft(reg: Register)
      requires Valid() && reg < 16
      modifies this, regs
      ensures Valid() && Abs() == CpuSpec.ShiftLeft(old(Abs()), reg)
    {
      SetRegister(FLAG, GetRegister(reg) / 128);
      SetRegister(reg, (GetRegister(reg) as int * 2) % 256);
      pc := pc + 2;
    }

    method ExecuteMisc(instr: Instruction)
      requires Valid() && CanExecute(Abs(), instr) && !IsFlow(instr) && !IsAlu(instr) && !instr.DRW?
      modifies this, regs, memory
      ensures Valid() && Abs() == CpuSpec.ExecuteMisc(old(Abs()), instr)
    {
      match instr {
        case LDI(addr) =>
          iReg := addr;
        case LDDV(reg) =>
          SetRegister(reg, delayTimer);
        case LDK(reg) =>
          // The source spins until some key is set; the precondition says one is.
          SetRegister(reg, 1);
        case LDVD(reg) =>
          delayTimer := GetRegister(reg);
        case LDST(reg) =>
          soundTimer := GetRegister(reg);
        case ADDI(reg) =>
          iReg := iReg + GetRegister(reg);
        case LDS(reg) =>
          var sprite := GetRegister(reg);
          iReg := sprite as int * 5;
        case BCD(reg) =>
          StoreBcd(reg);
        case SR(reg) =>
          StoreRegisters(reg);
          iReg := iReg + reg as int + 1;
        case LR(reg) =>
          LoadRegisters(reg);
          iReg := iReg + reg as int + 1;
      }
      pc := pc + 2;
    }

    /** The three digit writes of BCD. */
    method StoreBcd(reg: Register)
      requires Valid() && reg < 16 && iReg + 2 < MEMORY_SIZE
      modifies memory
      ensures var v := regs[reg];
        memory[..] == old(memory[..])[iReg := v / 100][iReg + 1 := v % 100 / 10][iReg + 2 := v % 10]
    {
      memory[iReg] := GetRegister(reg) / 100;
      memory[iReg + 1] := (GetRegister(reg) % 100) / 10;
      memory[iReg + 2] := GetRegister(reg) % 10;
    }

    /** The `0..=reg` loop of SR. */
    method StoreRegisters(reg: Register)
      requires Valid() && reg < 16 && iReg + reg < MEMORY_SIZE
      modifies memory
      ensures memory[..] == StoredRegisters(old(memory[..]), iReg, regs[..], reg)
    {
      for x := 0 to reg as int + 1
        invariant forall a :: 0 <= a < MEMORY_SIZE ==>
          memory[a] == if iReg <= a < iReg + x then regs[a - iReg] else old(memory[a])
      {
        var value := GetRegister(x);
        memory[iReg + x] := value;
      }
      assert memory[..] == StoredRegisters(old(memory[..]), iReg, regs[..], reg);
    }

    /** The `0..=reg` loop of LR. */
    method LoadRegisters(reg: Register)
      requires Valid() && reg < 16 && iReg + reg < MEMORY_SIZE
      modifies regs
      ensures regs[..] == LoadedRegisters(old(regs[..]), memory[..], iReg, reg)
    {
      for x := 0 to reg as int + 1
        invariant forall k :: 0 <= k < NUM_GENERAL_REGS ==>
          regs[k] == if k < x then memory[iReg + k] else old(regs[k])
      {
        SetRegister(x, memory[iReg + x]);
      }
      assert regs[..] == LoadedRegisters(old(regs[..]), memory[..], iReg, reg);
    }

    /** DRW: the nested row and bit loops. */
    method Draw(reg1: Register, reg2: Register, numBytes: uint8)
      requires Valid() && CanExecute(Abs(), DRW(reg1, reg2, numBytes))
      modifies this, regs, display
      ensures Valid() && Abs() == CpuSpec.ExecuteDraw(old(Abs()), reg1, reg2, numBytes)
    {
      var x := GetRegister(reg1);
      var y := GetRegister(reg2);
      ghost var d0 := display[..];
      ghost var r0 := regs[..];
      for index := 0 to numBytes
        modifies regs, display
        invariant display[..] == Painted(d0, memory[..], iReg, x, y, index, 0)
        invariant index == 0 ==> regs[..] == r0
        invariant index > 0 ==>
          regs[..] == r0[FLAG := if RowCollides(d0, memory[..], iReg, x, y, index - 1) then 1 else 0]
      {
        SetRegister(FLAG, 0);
        DrawRow(x, y, index, d0, r0);
      }
      pc := pc + 2;
    }

    /** One row of DRW: the eight bits of memory[I + index] from the left. */
    method DrawRow(x: uint8, y: uint8, index: nat, ghost d0: seq<Pixel>, ghost r0: seq<uint8>)
      requires Valid() && |d0| == DISPLAY_SIZE && index < 16 && y as int + index <= 255 && iReg + index < MEMORY_SIZE
      requires display[..] == Painted(d0, memory[..], iReg, x, y, index, 0)
      requires |r0| == NUM_GENERAL_REGS && regs[..] == r0[FLAG := 0]
      modifies regs, display
      ensures display[..] == Painted(d0, memory[..], iReg, x, y, index + 1, 0)
      ensures regs[..] == r0[FLAG := if RowCollides(d0, memory[..], iReg, x, y, index) then 1 else 0]
    {
      var row := (y as int + index) % CHIP8_HEIGHT;
      for bit := 0 to 8
        invariant display[..] == Painted(d0, memory[..], iReg, x, y, index, bit)
        invariant regs[..] == r0[FLAG := regs[FLAG]]
        invariant regs[FLAG] == if exists c :: 0 <= c < bit && CollidesAt(d0, memory[..], iReg, x, y, index, c) then 1 else 0
      {
        DrawBit(x, y, row, index, bit, d0, r0);
        CollisionStep(d0, memory[..], iReg, x, y, index, bit);
      }
      PaintRowDone(d0, memory[..], iReg, x, y, index);
    }

    /** One pass of the bit loop: fold the collision into VF, then set the pixel to the sprite bit. */
    method DrawBit(x: uint8, y: uint8, row: nat, index: nat, bit: nat, ghost d0: seq<Pixel>, ghost r0: seq<uint8>)
      requires Valid() && |d0| == DISPLAY_SIZE && index < 16 && bit < 8 && iReg + index < MEMORY_SIZE
      requires row == (y as int + index) % CHIP8_HEIGHT
      requires display[..] == Painted(d0, memory[..], iReg, x, y, index, bit)
      requires |r0| == NUM_GENERAL_REGS && regs[..] == r0[FLAG := regs[FLAG]] && regs[FLAG] <= 1
      modifies regs, display
      ensures display[..] == Painted(d0, memory[..], iReg, x, y, index, bit + 1)
      ensures regs[..] == r0[FLAG := regs[FLAG]]
      ensures regs[FLAG] == if old(regs[FLAG]) == 1 || CollidesAt(d0, memory[..], iReg, x, y, index, bit) then 1 else 0
    {
      var column := (x as int + bit) % CHIP8_WIDTH;
      var itx := GetIndex(row, column);
      var pixelToDisplay := SpriteBit(memory[iReg + index], bit);
      CpuProperties.OffsetsOfPixel(x, y, index, bit);
      assert display[itx] == d0[itx];
      FoldCollision(itx, pixelToDisplay);
      SetPixel(itx, pixelToDisplay);
      PaintStep(d0, memory[..], iReg, x, y, index, bit);
    }

    /** VF |= pixel & 1 when the display pixel is ON, VF |= pixel & 0 otherwise. */
    method FoldCollision(itx: nat, pixelToDisplay: uint8)
      requires Valid() && itx < DISPLAY_SIZE && pixelToDisplay <= 1 && regs[FLAG] <= 1
      modifies regs
      ensures regs[..] == old(regs[..])[FLAG := if old(regs[FLAG]) == 1 || (display[itx] == ON && pixelToDisplay == 1) then 1 else 0]
    {
      FlagOrLemma(GetRegister(FLAG), pixelToDisplay);
      if display[itx] == ON {
        SetRegister(FLAG, BitOr(GetRegister(FLAG), BitAnd(pixelToDisplay, 1)));
      } else {
        SetRegister(FLAG, BitOr(GetRegister(FLAG), BitAnd(pixelToDisplay, 0)));
      }
    }

    /** The pixel becomes the sprite bit: OFF turns ON for a 1, ON turns OFF for a 0. */
    method SetPixel(itx: nat, pixelToDisplay: uint8)
      requires Valid() && itx < DISPLAY_SIZE && pixelToDisplay <= 1
      modifies display
      ensures display[..] == old(display[..])[itx := PixelOf(pixelToDisplay)]
    {
      if display[itx] == OFF && pixelToDisplay == 1 {
        display[itx] := ON;
      } else if display[itx] == ON && pixelToDisplay == 0 {
        display[itx] := OFF;
      }
    }
  }

  /** A collision among the first bit + 1 pixels is one among the first bit or at pixel bit. */
  lemma CollisionStep(d0: seq<Pixel>, mem: seq<uint8>, iReg: nat, vx: uint8, vy: uint8, r: nat, bit: nat)
    requires |d0| == DISPLAY_SIZE && iReg + r < |mem| && bit < 8
    ensures (exists c :: 0 <= c < bit + 1 && CollidesAt(d0, mem, iReg, vx, vy, r, c))
      <==> (exists c :: 0 <= c < bit && CollidesAt(d0, mem, iReg, vx, vy, r, c)) || CollidesAt(d0, mem, iReg, vx, vy, r, bit)
  {
  }

  /** The flag updates of DRW's inner loop on 0/1 values. */
  lemma FlagOrLemma(v: uint8, p: uint8)
    requires v <= 1 && p <= 1
    ensures BitOr(v, BitAnd(p, 1)) == (if v == 1 || p == 1 then 1 else 0)
    ensures BitOr(v, BitAnd(p, 0)) == v
  {
  }

  /** Visiting one more bit of the current row paints exactly that bit's pixel. */
  lemma PaintStep(d0: seq<Pixel>, mem: seq<uint8>, iReg: nat, vx: uint8, vy: uint8, rows: nat, cols: nat)
    requires |d0| == DISPLAY_SIZE && cols < 8 && rows < CHIP8_HEIGHT && iReg + rows < |mem|
    ensures Painted(d0, mem, iReg, vx, vy, rows, cols + 1)
         == Painted(d0, mem, iReg, vx, vy, rows, cols)[SpriteCell(vx, vy, rows, cols) := PixelOf(SpriteBit(mem[iReg + rows], cols))]
  {
    var cell := SpriteCell(vx, vy, rows, cols);
    CpuProperties.OffsetsOfPixel(vx, vy, rows, cols);
    forall idx | 0 <= idx < DISPLAY_SIZE && idx != cell
      ensures Visited(vx, vy, rows, cols + 1, idx) == Visited(vx, vy, rows, cols, idx)
    {
      CpuProperties.PixelOfOffsets(vx, vy, idx);
    }
  }

  /** A row with all eight bits visited is a completed row. */
  lemma PaintRowDone(d0: seq<Pixel>, mem: seq<uint8>, iReg: nat, vx: uint8, vy: uint8, rows: nat)
    requires |d0| == DISPLAY_SIZE && iReg + rows < |mem|
    ensures Painted(d0, mem, iReg, vx, vy, rows, 8) == Painted(d0, mem, iReg, vx, vy, rows + 1, 0)
  {
  }
}
