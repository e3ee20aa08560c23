/** The LS-8 instruction set: bytes, the opcode table and the width decode. */
module Isa {

  /** An unsigned char of the machine: every memory cell, register, address and the PC. */
  newtype byte = x: int | 0 <= x < 256

  datatype Option<T> = None | Some(value: T)

  /** Conversion of an int to an unsigned char: truncation to the low eight bits. */
  function Wrap(x: int): (b: byte)
    ensures (x - b as int) % 256 == 0
    ensures 0 <= x < 256 ==> b as int == x
  {
    (x % 256) as byte
  }

  /** Register 7 is the stack pointer. */
  const SP: byte := 7

  /** Number of general registers. */
  const RegisterCount: nat := 8

  /** The stack pointer's value after initialisation. */
  const StackTop: byte := 0xF4

  // Opcode bytes. The two high bits of each opcode encode how many operand
  // bytes follow it (bit 0x80: two, bit 0x40 alone: one, neither: none).
  const LDI: byte := 0x82
  const PRN: byte := 0x47
  const HLT: byte := 0x01
  const ADD: byte := 0xA0
  const MUL: byte := 0xA2
  const CMP: byte := 0xA7
  const PUSH: byte := 0x45
  const POP: byte := 0x46
  const CALL: byte := 0x50
  const RET: byte := 0x11

  /** The recognised instructions, as a tagged enumeration of the opcode table. */
  datatype Op = Ldi | Prn | Hlt | Add | Mul | Cmp | Push | Pop | Call | Ret

  function Encode(op: Op): byte
  {
    match op
    case Ldi => LDI
    case Prn => PRN
    case Hlt => HLT
    case Add => ADD
    case Mul => MUL
    case Cmp => CMP
    case Push => PUSH
    case Pop => POP
    case Call => CALL
    case Ret => RET
  }

  /** The dispatch of the execution engine: which table entry, if any, an instruction byte is. */
  function Decode(ir: byte): (r: Option<Op>)
    ensures r.Some? ==> Encode(r.value) == ir
    ensures r.None? ==> forall op: Op :: Encode(op) != ir
  {
    if ir == LDI then Some(Ldi)
    else if ir == PRN then Some(Prn)
    else if ir == HLT then Some(Hlt)
    else if ir == ADD then Some(Add)
    else if ir == MUL then Some(Mul)
    else if ir == CMP then Some(Cmp)
    else if ir == PUSH then Some(Push)
    else if ir == POP then Some(Pop)
    else if ir == CALL then Some(Call)
    else if ir == RET then Some(Ret)
    else None
  }

  /** Each opcode of the table decodes to its own instruction, so the ten opcodes are distinct. */
  lemma DecodeEncode(op: Op)
    ensures Decode(Encode(op)) == Some(op)
  {
  }

  /** How many operand bytes each instruction reads. */
  function Operands(op: Op): nat
  {
    match op
    case Ldi | Add | Mul | Cmp => 2
    case Prn | Push | Pop | Call => 1
    case Ret | Hlt => 0
  }

  /** `ir & 0x80` is non-zero. */
  predicate Bit7(ir: byte)
  {
    ir as int / 0x80 % 2 == 1
  }

  /** `ir & 0x40` is non-zero. */
  predicate Bit6(ir: byte)
  {
    ir as int / 0x40 % 2 == 1
  }

  /**
   * Total width of the instruction starting with `ir`, decoded from its two
   * high bits. For every opcode of the table the width covers exactly the
   * operands that opcode reads, so no instruction uses an operand byte that
   * the decode did not fetch.
   */
  function Width(ir: byte): (w: nat)
    ensures 1 <= w <= 3
    ensures forall op: Op :: Encode(op) == ir ==> w == 1 + Operands(op)
  {
    if Bit7(ir) then 3 else if Bit6(ir) then 2 else 1
  }
}
