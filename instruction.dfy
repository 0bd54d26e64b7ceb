/**
  The CHIP-8 opcode decoder (src/instruction.rs).

  An opcode is a 16-bit word; its nibble and byte fields are taken out with the
  same masks and shifts as the source, and `ProcessOpcode` maps the family
  nibble and, for families 0, 8, E and F, a sub-code to one `Instruction`
  variant or to `None`.
*/
module Instructions {

  /** Rust's unsigned integer types, as bounded mathematical integers. */
  type uint8 = x: int | 0 <= x < 0x100
  type uint16 = x: int | 0 <= x < 0x1_0000

  type Address = uint16
  type Register = uint8

  datatype Option<+T> = None | Some(value: T)

  /** One variant per mnemonic of the source's `Instruction` enum. */
  datatype Instruction =
    | SYS(Address)
    | CLS
    | RET
    | JMP(Address)
    | CALL(Address)
    | SEQB(Register, uint8)
    | SNEQB(Register, uint8)
    | SRER(Register, Register)
    | LBR(Register, uint8)
    | ABR(Register, uint8)
    | LRR(Register, Register)
    | OR(Register, Register)
    | AND(Register, Register)
    | XOR(Register, Register)
    | ADD(Register, Register)
    | SUB(Register, Register)
    | SHR(Register)
    | SUBN(Register, Register)
    | SHL(Register)
    | SNE(Register, Register)
    | LDI(Address)
    | JPV0(Address)
    | RND(Register, uint8)
    | DRW(Register, Register, uint8)
    | SKP(Register)
    | SKNP(Register)
    | LDDV(Register)
    | LDK(Register)
    | LDVD(Register)
    | LDST(Register)
    | ADDI(Register)
    | LDS(Register)
    | BCD(Register)
    | SR(Register)
    | LR(Register)

  /** A raw instruction word; `OpCodeInstruction(v)` plays the part of `OpCodeInstruction::new(v)`. */
  datatype OpCodeInstruction = OpCodeInstruction(value: uint16) {

    /** Bits 15-12: the instruction family. */
    function I(): (r: uint8)
      ensures r < 16
    {
      value / 0x1000
    }

    /** Bits 11-0: a 12-bit address. */
    function Nnn(): (r: uint16)
      ensures r < 0x1000
    {
      value % 0x1000
    }

    /** Bits 3-0. */
    function N(): (r: uint8)
      ensures r < 16
    {
      value % 0x10
    }

    /** Bits 11-8: the first register operand. */
    function X(): (r: uint8)
      ensures r < 16
    {
      value / 0x100 % 0x10
    }

    /** Bits 7-4: the second register operand. */
    function Y(): (r: uint8)
      ensures r < 16
    {
      value / 0x10 % 0x10
    }

    /** Bits 7-0: an immediate byte. */
    function Kk(): (r: uint8)
      ensures r / 0x10 == Y() && r % 0x10 == N()
    {
      value % 0x100
    }

    /** `process_opcode`: read the six fields, then dispatch on them. */
    function ProcessOpcode(): (r: Option<Instruction>)
      ensures r.None? <==> Unmapped(this)
    {
      Dispatch(I(), Nnn(), N(), X(), Y(), Kk())
    }
  }

  /** The outer `match` of `process_opcode`, on the family nibble. */
  function Dispatch(i: uint8, nnn: Address, n: uint8, x: Register, y: Register, kk: uint8): (r: Option<Instruction>)
    ensures i < 16 && i !in {0x0, 0x8, 0xE, 0xF} ==> r.Some?
    ensures r.Some? ==> !r.value.SYS?
  {
    match i
    case 0x0 => DispatchSystem(kk)
    case 0x1 => Some(JMP(nnn))
    case 0x2 => Some(CALL(nnn))
    case 0x3 => Some(SEQB(n, kk))
    case 0x4 => Some(SNEQB(n, kk))
    case 0x5 => Some(SRER(x, y))
    case 0x6 => Some(LBR(x, kk))
    case 0x7 => Some(ABR(x, kk))
    case 0x8 => DispatchArithmetic(n, x, y)
    case 0x9 => Some(SNE(x, y))
    case 0xA => Some(LDI(nnn))
    case 0xB => Some(JPV0(nnn))
    case 0xC => Some(RND(x, kk))
    case 0xD => Some(DRW(x, y, n))
    case 0xE => DispatchKeys(x, kk)
    case 0xF => DispatchMisc(x, kk)
    case _ => None
  }

  /** Family 0, the inner `match` on `kk`. */
  function DispatchSystem(kk: uint8): (r: Option<Instruction>)
    ensures r.Some? <==> kk in {0xE0, 0xEE}
  {
    match kk
    case 0xE0 => Some(CLS)
    case 0xEE => Some(RET)
    case _ => None
  }

  /** Family 8, the inner `match` on `n`. */
  function DispatchArithmetic(n: uint8, x: Register, y: Register): (r: Option<Instruction>)
    ensures r.Some? <==> n in {0x0, 0x1, 0x2, 0x3, 0x4, 0x5, 0x6, 0x7, 0xE}
  {
    match n
    case 0x0 => Some(LRR(x, y))
    case 0x1 => Some(OR(x, y))
    case 0x2 => Some(AND(x, y))
    case 0x3 => Some(XOR(x, y))
    case 0x4 => Some(ADD(x, y))
    case 0x5 => Some(SUB(x, y))
    case 0x6 => Some(SHR(x))
    case 0x7 => Some(SUBN(x, y))
    case 0xE => Some(SHL(x))
    case _ => None
  }

  /** Family E, the inner `match` on `kk`. */
  function DispatchKeys(x: Register, kk: uint8): (r: Option<Instruction>)
    ensures r.Some? <==> kk in {0x9E, 0xA1}
  {
    match kk
    case 0x9E => Some(SKP(x))
    case 0xA1 => Some(SKNP(x))
    case _ => None
  }

  /** Family F, the inner `match` on `kk`. */
  function DispatchMisc(x: Register, kk: uint8): (r: Option<Instruction>)
    ensures r.Some? <==> kk in {0x07, 0x0A, 0x15, 0x18, 0x1E, 0x29, 0x33, 0x55, 0x65}
  {
    match kk
    case 0x07 => Some(LDDV(x))
    case 0x0A => Some(LDK(x))
    case 0x15 => Some(LDVD(x))
    case 0x18 => Some(LDST(x))
    case 0x1E => Some(ADDI(x))
    case 0x29 => Some(LDS(x))
    case 0x33 => Some(BCD(x))
    case 0x55 => Some(SR(x))
    case 0x65 => Some(LR(x))
    case _ => None
  }

  /** Decode the word `value`; the decoder never builds SYS. */
  function Decode(value: uint16): (r: Option<Instruction>)
    ensures r.Some? ==> !r.value.SYS?
  {
    OpCodeInstruction(value).ProcessOpcode()
  }

  // ---------------------------------------------------------------------
  // Field arithmetic
  // ---------------------------------------------------------------------

  /** The source's unit-test word 39854 (0b1001_1011_1010_1110). */
  lemma FieldsOf39854()
    ensures OpCodeInstruction(39854).I() == 9
    ensures OpCodeInstruction(39854).Nnn() == 2990
    ensures OpCodeInstruction(39854).N() == 14
    ensures OpCodeInstruction(39854).X() == 11
    ensures OpCodeInstruction(39854).Y() == 10
    ensures OpCodeInstruction(39854).Kk() == 174
  {
  }

  /** The fields partition the word: family, then x, then y, then n. */
  lemma FieldsRecompose(op: OpCodeInstruction)
    ensures op.value == op.I() * 0x1000 + op.Nnn()
    ensures op.Nnn() == op.X() * 0x100 + op.Kk()
    ensures op.Kk() == op.Y() * 0x10 + op.N()
  {
  }

  /** The nibbles of a word are read off its numeric value. */
  lemma NibblesOfNumber(op: OpCodeInstruction, i: int, x: int, y: int, n: int)
    requires 0 <= i < 16 && 0 <= x < 16 && 0 <= y < 16 && 0 <= n < 16
    requires op.value == i * 0x1000 + x * 0x100 + y * 0x10 + n
    ensures op.I() == i && op.X() == x && op.Y() == y && op.N() == n
  {
    FieldsRecompose(op);
  }

  /** Decoding a word given by its nibbles is dispatching on those nibbles. */
  lemma DecodeByNibbles(value: uint16, i: int, x: int, y: int, n: int)
    requires 0 <= i < 16 && 0 <= x < 16 && 0 <= y < 16 && 0 <= n < 16
    requires value == i * 0x1000 + x * 0x100 + y * 0x10 + n
    ensures Decode(value) == Dispatch(i, x * 0x100 + y * 0x10 + n, n, x, y, y * 0x10 + n)
  {
    var op := OpCodeInstruction(value);
    NibblesOfNumber(op, i, x, y, n);
    FieldsRecompose(op);
  }

  // ---------------------------------------------------------------------
  // When decoding fails
  // ---------------------------------------------------------------------

  /** The family/sub-code pairs that have no mnemonic, stated as sets. */
  predicate Unmapped(op: OpCodeInstruction)
  {
    || (op.I() == 0x0 && op.Kk() !in {0xE0, 0xEE})
    || (op.I() == 0x8 && op.N() !in {0x0, 0x1, 0x2, 0x3, 0x4, 0x5, 0x6, 0x7, 0xE})
    || (op.I() == 0xE && op.Kk() !in {0x9E, 0xA1})
    || (op.I() == 0xF && op.Kk() !in {0x07, 0x0A, 0x15, 0x18, 0x1E, 0x29, 0x33, 0x55, 0x65})
  }

  // ---------------------------------------------------------------------
  // What the decoder produces: a reference encoding
  // ---------------------------------------------------------------------

  /**
    The instructions the decoder can return: operands fit their fields, SYS
    never occurs, and SEQB/SNEQB name the register held in bits 3-0, which
    are also the low bits of their byte operand.
  */
  predicate Decodable(ins: Instruction)
  {
    match ins
    case SYS(_) => false
    case CLS => true
    case RET => true
    case JMP(a) => a < 0x1000
    case CALL(a) => a < 0x1000
    case SEQB(r, k) => r == k % 16
    case SNEQB(r, k) => r == k % 16
    case SRER(x, y) => x < 16 && y < 16
    case LBR(x, _) => x < 16
    case ABR(x, _) => x < 16
    case LRR(x, y) => x < 16 && y < 16
    case OR(x, y) => x < 16 && y < 16
    case AND(x, y) => x < 16 && y < 16
    case XOR(x, y) => x < 16 && y < 16
    case ADD(x, y) => x < 16 && y < 16
    case SUB(x, y) => x < 16 && y < 16
    case SHR(x) => x < 16
    case SUBN(x, y) => x < 16 && y < 16
    case SHL(x) => x < 16
    case SNE(x, y) => x < 16 && y < 16
    case LDI(a) => a < 0x1000
    case JPV0(a) => a < 0x1000
    case RND(x, _) => x < 16
    case DRW(x, y, n) => x < 16 && y < 16 && n < 16
    case SKP(x) => x < 16
    case SKNP(x) => x < 16
    case LDDV(x) => x < 16
    case LDK(x) => x < 16
    case LDVD(x) => x < 16
    case LDST(x) => x < 16
    case ADDI(x) => x < 16
    case LDS(x) => x < 16
    case BCD(x) => x < 16
    case SR(x) => x < 16
    case LR(x) => x < 16
  }

  /** The conventional opcode of an instruction, with unread fields zero. */
  function Encode(ins: Instruction): int
  {
    match ins
    case SYS(a) => a
    case CLS => 0x00E0
    case RET => 0x00EE
    case JMP(a) => 0x1000 + a
    case CALL(a) => 0x2000 + a
    case SEQB(_, k) => 0x3000 + k
    case SNEQB(_, k) => 0x4000 + k
    case SRER(x, y) => 0x5000 + x * 0x100 + y * 0x10
    case LBR(x, k) => 0x6000 + x * 0x100 + k
    case ABR(x, k) => 0x7000 + x * 0x100 + k
    case LRR(x, y) => 0x8000 + x * 0x100 + y * 0x10
    case OR(x, y) => 0x8001 + x * 0x100 + y * 0x10
    case AND(x, y) => 0x8002 + x * 0x100 + y * 0x10
    case XOR(x, y) => 0x8003 + x * 0x100 + y * 0x10
    case ADD(x, y) => 0x8004 + x * 0x100 + y * 0x10
    case SUB(x, y) => 0x8005 + x * 0x100 + y * 0x10
    case SHR(x) => 0x8006 + x * 0x100
    case SUBN(x, y) => 0x8007 + x * 0x100 + y * 0x10
    case SHL(x) => 0x800E + x * 0x100
    case SNE(x, y) => 0x9000 + x * 0x100 + y * 0x10
    case LDI(a) => 0xA000 + a
    case JPV0(a) => 0xB000 + a
    case RND(x, k) => 0xC000 + x * 0x100 + k
    case DRW(x, y, n) => 0xD000 + x * 0x100 + y * 0x10 + n
    case SKP(x) => 0xE09E + x * 0x100
    case SKNP(x) => 0xE0A1 + x * 0x100
    case LDDV(x) => 0xF007 + x * 0x100
    case LDK(x) => 0xF00A + x * 0x100
    case LDVD(x) => 0xF015 + x * 0x100
    case LDST(x) => 0xF018 + x * 0x100
    case ADDI(x) => 0xF01E + x * 0x100
    case LDS(x) => 0xF029 + x * 0x100
    case BCD(x) => 0xF033 + x * 0x100
    case SR(x) => 0xF055 + x * 0x100
    case LR(x) => 0xF065 + x * 0x100
  }

  /**
    The part of a word's value that the decoder ignores: bits 11-8 in
    families 0, 3 and 4, bits 3-0 in families 5 and 9, and bits 7-4 for the
    shifts 8XY6 and 8XYE.
  */
  function IgnoredBits(op: OpCodeInstruction): int
  {
    IgnoredFields(op.I(), op.X(), op.Y(), op.N())
  }

  function IgnoredFields(i: int, x: int, y: int, n: int): int
  {
    if i in {0x0, 0x3, 0x4} then x * 0x100
    else if i in {0x5, 0x9} then n
    else if i == 0x8 && n in {0x6, 0xE} then y * 0x10
    else 0
  }

  lemma SystemThenEncode(kk: uint8)
    requires DispatchSystem(kk).Some?
    ensures Decodable(DispatchSystem(kk).value) && Encode(DispatchSystem(kk).value) == kk
  {
  }

  lemma ArithmeticThenEncode(n: uint8, x: uint8, y: uint8)
    requires x < 16 && y < 16
    requires DispatchArithmetic(n, x, y).Some?
    ensures Decodable(DispatchArithmetic(n, x, y).value)
    ensures Encode(DispatchArithmetic(n, x, y).value)
         == 0x8000 + x * 0x100 + (if n in {0x6, 0xE} then 0 else y * 0x10) + n
  {
  }

  lemma KeysThenEncode(x: uint8, kk: uint8)
    requires x < 16
    requires DispatchKeys(x, kk).Some?
    ensures Decodable(DispatchKeys(x, kk).value) && Encode(DispatchKeys(x, kk).value) == 0xE000 + x * 0x100 + kk
  {
  }

  lemma MiscThenEncode(x: uint8, kk: uint8)
    requires x < 16
    requires DispatchMisc(x, kk).Some?
    ensures Decodable(DispatchMisc(x, kk).value) && Encode(DispatchMisc(x, kk).value) == 0xF000 + x * 0x100 + kk
  {
  }

  lemma DispatchThenEncode(i: uint8, x: uint8, y: uint8, n: uint8)
    requires i < 16 && x < 16 && y < 16 && n < 16
    requires Dispatch(i, x * 0x100 + y * 0x10 + n, n, x, y, y * 0x10 + n).Some?
    ensures var ins := Dispatch(i, x * 0x100 + y * 0x10 + n, n, x, y, y * 0x10 + n).value;
      && Decodable(ins)
      && Encode(ins) == i * 0x1000 + x * 0x100 + y * 0x10 + n - IgnoredFields(i, x, y, n)
  {
    var kk := y * 0x10 + n;
    if i == 0x0 {
      SystemThenEncode(kk);
    } else if i == 0x8 {
      ArithmeticThenEncode(n, x, y);
    } else if i == 0xE {
      KeysThenEncode(x, kk);
    } else if i == 0xF {
      MiscThenEncode(x, kk);
    } else {
      DirectThenEncode(i, x, y, n);
    }
  }

  /** The families whose operands come straight from the fields. */
  lemma DirectThenEncode(i: uint8, x: uint8, y: uint8, n: uint8)
    requires i < 16 && x < 16 && y < 16 && n < 16 && i !in {0x0, 0x8, 0xE, 0xF}
    ensures var ins := Dispatch(i, x * 0x100 + y * 0x10 + n, n, x, y, y * 0x10 + n).value;
      && Decodable(ins)
      && Encode(ins) == i * 0x1000 + x * 0x100 + y * 0x10 + n - IgnoredFields(i, x, y, n)
  {
    assert (y * 0x10 + n) % 0x10 == n;
  }

  /** Every decoded instruction is decodable and encodes back to its word minus the ignored bits. */
  lemma DecodeThenEncode(value: uint16)
    requires Decode(value).Some?
    ensures Decodable(Decode(value).value)
    ensures Encode(Decode(value).value) == value - IgnoredBits(OpCodeInstruction(value))
  {
    var op := OpCodeInstruction(value);
    var i, x, y, n := op.I(), op.X(), op.Y(), op.N();
    FieldsRecompose(op);
    DecodeByNibbles(value, i, x, y, n);
    DispatchThenEncode(i, x, y, n);
  }

  /** Split a 12-bit address into its three nibbles. */
  lemma AddressNibbles(a: Address)
    requires a < 0x1000
    ensures 0 <= a / 0x100 < 16 && a == a / 0x100 * 0x100 + a / 0x10 % 0x10 * 0x10 + a % 0x10
  {
  }

  lemma EncodeThenDecodeDirect(ins: Instruction, value: uint16)
    requires ins.JMP? || ins.CALL? || ins.LDI? || ins.JPV0?
    requires Decodable(ins) && value == Encode(ins)
    ensures Decode(value) == Some(ins)
  {
    match ins
    case JMP(a) => AddressNibbles(a); DecodeByNibbles(value, 0x1, a / 0x100, a / 0x10 % 0x10, a % 0x10);
    case CALL(a) => AddressNibbles(a); DecodeByNibbles(value, 0x2, a / 0x100, a / 0x10 % 0x10, a % 0x10);
    case LDI(a) => AddressNibbles(a); DecodeByNibbles(value, 0xA, a / 0x100, a / 0x10 % 0x10, a % 0x10);
    case JPV0(a) => AddressNibbles(a); DecodeByNibbles(value, 0xB, a / 0x100, a / 0x10 % 0x10, a % 0x10);
  }

  lemma EncodeThenDecodeImmediate(ins: Instruction, value: uint16)
    requires ins.SEQB? || ins.SNEQB? || ins.LBR? || ins.ABR? || ins.RND?
    requires Decodable(ins) && value == Encode(ins)
    ensures Decode(value) == Some(ins)
  {
    match ins
    case SEQB(_, k) => DecodeByNibbles(value, 0x3, 0x0, k / 0x10, k % 0x10);
    case SNEQB(_, k) => DecodeByNibbles(value, 0x4, 0x0, k / 0x10, k % 0x10);
    case LBR(x, k) => DecodeByNibbles(value, 0x6, x, k / 0x10, k % 0x10);
    case ABR(x, k) => DecodeByNibbles(value, 0x7, x, k / 0x10, k % 0x10);
    case RND(x, k) => DecodeByNibbles(value, 0xC, x, k / 0x10, k % 0x10);
  }

  lemma EncodeThenDecodeRegisters(ins: Instruction, value: uint16)
    requires ins.SRER? || ins.SNE? || ins.DRW? || ins.CLS? || ins.RET?
    requires Decodable(ins) && value == Encode(ins)
    ensures Decode(value) == Some(ins)
  {
    match ins
    case CLS => DecodeByNibbles(value, 0x0, 0x0, 0xE, 0x0);
    case RET => DecodeByNibbles(value, 0x0, 0x0, 0xE, 0xE);
    case SRER(x, y) => DecodeByNibbles(value, 0x5, x, y, 0x0);
    case SNE(x, y) => DecodeByNibbles(value, 0x9, x, y, 0x0);
    case DRW(x, y, n) => DecodeByNibbles(value, 0xD, x, y, n);
  }

  lemma EncodeThenDecodeArithmetic(ins: Instruction, value: uint16)
    requires ins.LRR? || ins.OR? || ins.AND? || ins.XOR? || ins.ADD? || ins.SUB? || ins.SHR? || ins.SUBN? || ins.SHL?
    requires Decodable(ins) && value == Encode(ins)
    ensures Decode(value) == Some(ins)
  {
    match ins
    case LRR(x, y) => DecodeByNibbles(value, 0x8, x, y, 0x0);
    case OR(x, y) => DecodeByNibbles(value, 0x8, x, y, 0x1);
    case AND(x, y) => DecodeByNibbles(value, 0x8, x, y, 0x2);
    case XOR(x, y) => DecodeByNibbles(value, 0x8, x, y, 0x3);
    case ADD(x, y) => DecodeByNibbles(value, 0x8, x, y, 0x4);
    case SUB(x, y) => DecodeByNibbles(value, 0x8, x, y, 0x5);
    case SHR(x) => DecodeByNibbles(value, 0x8, x, 0x0, 0x6);
    case SUBN(x, y) => DecodeByNibbles(value, 0x8, x, y, 0x7);
    case SHL(x) => DecodeByNibbles(value, 0x8, x, 0x0, 0xE);
  }

  lemma EncodeThenDecodeKeys(ins: Instruction, value: uint16)
    requires ins.SKP? || ins.SKNP? || ins.LDDV? || ins.LDK? || ins.LDVD? || ins.LDST?
    requires Decodable(ins) && value == Encode(ins)
    ensures Decode(value) == Some(ins)
  {
    match ins
    case SKP(x) => DecodeByNibbles(value, 0xE, x, 0x9, 0xE);
    case SKNP(x) => DecodeByNibbles(value, 0xE, x, 0xA, 0x1);
    case LDDV(x) => DecodeByNibbles(value, 0xF, x, 0x0, 0x7);
    case LDK(x) => DecodeByNibbles(value, 0xF, x, 0x0, 0xA);
    case LDVD(x) => DecodeByNibbles(value, 0xF, x, 0x1, 0x5);
    case LDST(x) => DecodeByNibbles(value, 0xF, x, 0x1, 0x8);
  }

  lemma EncodeThenDecodeMemory(ins: Instruction, value: uint16)
    requires ins.ADDI? || ins.LDS? || ins.BCD? || ins.SR? || ins.LR?
    requires Decodable(ins) && value == Encode(ins)
    ensures Decode(value) == Some(ins)
  {
    match ins
    case ADDI(x) => DecodeByNibbles(value, 0xF, x, 0x1, 0xE);
    case LDS(x) => DecodeByNibbles(value, 0xF, x, 0x2, 0x9);
    case BCD(x) => DecodeByNibbles(value, 0xF, x, 0x3, 0x3);
    case SR(x) => DecodeByNibbles(value, 0xF, x, 0x5, 0x5);
    case LR(x) => DecodeByNibbles(value, 0xF, x, 0x6, 0x5);
  }

  /** Every decodable instruction is what the decoder returns for its encoding. */
  lemma EncodeThenDecode(ins: Instruction, value: uint16)
    requires Decodable(ins)
    requires value == Encode(ins)
    ensures Decode(value) == Some(ins)
  {
    if ins.JMP? || ins.CALL? || ins.LDI? || ins.JPV0? {
      EncodeThenDecodeDirect(ins, value);
    } else if ins.SEQB? || ins.SNEQB? || ins.LBR? || ins.ABR? || ins.RND? {
      EncodeThenDecodeImmediate(ins, value);
    } else if ins.SRER? || ins.SNE? || ins.DRW? || ins.CLS? || ins.RET? {
      EncodeThenDecodeRegisters(ins, value);
    } else if ins.LRR? || ins.OR? || ins.AND? || ins.XOR? || ins.ADD? || ins.SUB? || ins.SHR? || ins.SUBN? || ins.SHL? {
      EncodeThenDecodeArithmetic(ins, value);
    } else if ins.SKP? || ins.SKNP? || ins.LDDV? || ins.LDK? || ins.LDVD? || ins.LDST? {
      EncodeThenDecodeKeys(ins, value);
    } else {
      EncodeThenDecodeMemory(ins, value);
    }
  }

  // ---------------------------------------------------------------------
  // Operand placement and ignored bits
  // ---------------------------------------------------------------------

  /** SEQB and SNEQB take their register from bits 3-0, the low nibble of their byte. */
  lemma SkipByteRegisterIsLowNibble(value: uint16, r: Register, k: uint8)
    requires Decode(value) == Some(SEQB(r, k)) || Decode(value) == Some(SNEQB(r, k))
    ensures r == OpCodeInstruction(value).N() && r == k % 16
  {
    FieldsRecompose(OpCodeInstruction(value));
  }

  /** Families 5 and 9 decode alike whatever bits 3-0 hold. */
  lemma RegisterSkipsIgnoreLowNibble(v: uint16, w: uint16)
    requires OpCodeInstruction(v).I() == OpCodeInstruction(w).I()
    requires OpCodeInstruction(v).I() in {0x5, 0x9}
    requires OpCodeInstruction(v).X() == OpCodeInstruction(w).X()
    requires OpCodeInstruction(v).Y() == OpCodeInstruction(w).Y()
    ensures Decode(v) == Decode(w)
    ensures Decode(v).Some?
  {
  }

  /** Family 0 reads only the low byte: any 0x0?E0 is CLS and any 0x0?EE is RET. */
  lemma FamilyZeroIgnoresX(value: uint16)
    requires OpCodeInstruction(value).I() == 0x0
    ensures OpCodeInstruction(value).Kk() == 0xE0 ==> Decode(value) == Some(CLS)
    ensures OpCodeInstruction(value).Kk() == 0xEE ==> Decode(value) == Some(RET)
  {
  }

  /** Where each family puts its operands. */
  lemma OperandPlacement(value: uint16)
    ensures var op := OpCodeInstruction(value);
      var d := Decode(value);
      && (op.I() == 0x1 ==> d == Some(JMP(op.Nnn())))
      && (op.I() == 0x2 ==> d == Some(CALL(op.Nnn())))
      && (op.I() == 0xA ==> d == Some(LDI(op.Nnn())))
      && (op.I() == 0xB ==> d == Some(JPV0(op.Nnn())))
      && (op.I() == 0x6 ==> d == Some(LBR(op.X(), op.Kk())))
      && (op.I() == 0x7 ==> d == Some(ABR(op.X(), op.Kk())))
      && (op.I() == 0xC ==> d == Some(RND(op.X(), op.Kk())))
      && (op.I() == 0xD ==> d == Some(DRW(op.X(), op.Y(), op.N())))
      && (op.I() == 0x8 && op.N() in {0x6, 0xE} ==> d == Some(if op.N() == 0x6 then SHR(op.X()) else SHL(op.X())))
  {
  }
}
