/**
 * The arithmetic-logic unit of `CPU.alu`: its operation codes, the flag
 * values CMP writes and the value each other operation computes from the two
 * register values.  Register values are Python ints, so nothing is truncated.
 */
module Alu {
  import opened Wrappers
  import opened Faults
  import Bits

  const ADD: int := 0xA0
  const SUB: int := 0xA1
  const MUL: int := 0xA2
  const DIV: int := 0xA3
  const CMP: int := 0xA7
  const OR: int := 0xAA
  const XOR: int := 0xAB
  const SHL: int := 0xAC
  const SHR: int := 0xAD

  /** Flag values written by CMP. */
  const FL_EQ: int := 2  // 0b010
  const FL_LT: int := 4  // 0b100
  const FL_GT: int := 1  // 0b001

  datatype Op = Add | Sub | Mul | Div | Or | Xor | Shl | Shr | Cmp

  /** The operation `alu` performs for an opcode; None for the ones it rejects. */
  function OpOf(code: int): Option<Op>
  {
    if code == ADD then Some(Add)
    else if code == MUL then Some(Mul)
    else if code == SUB then Some(Sub)
    else if code == DIV then Some(Div)
    else if code == OR then Some(Or)
    else if code == XOR then Some(Xor)
    else if code == SHL then Some(Shl)
    else if code == SHR then Some(Shr)
    else if code == CMP then Some(Cmp)
    else None
  }

  function Code(op: Op): int
  {
    match op
    case Add => ADD
    case Sub => SUB
    case Mul => MUL
    case Div => DIV
    case Or => OR
    case Xor => XOR
    case Shl => SHL
    case Shr => SHR
    case Cmp => CMP
  }

  /** The operation table and `Code` are inverse: each code names one operation. */
  lemma OpOfCode(code: int, op: Op)
    ensures OpOf(code) == Some(op) <==> code == Code(op)
  {
  }

  /** Every supported opcode has the ALU bit (bit 5) set, so `run` sends it to `alu`. */
  lemma SupportedOpsAreAluOpcodes(op: Op)
    ensures Bits.Bit(Code(op), 5)
  {
    match op
    case Add => assert Bits.Bit(ADD, 5);
    case Sub => assert Bits.Bit(SUB, 5);
    case Mul => assert Bits.Bit(MUL, 5);
    case Div => assert Bits.Bit(DIV, 5);
    case Or => assert Bits.Bit(OR, 5);
    case Xor => assert Bits.Bit(XOR, 5);
    case Shl => assert Bits.Bit(SHL, 5);
    case Shr => assert Bits.Bit(SHR, 5);
    case Cmp => assert Bits.Bit(CMP, 5);
  }

  /** The flag CMP writes: exactly one of the three values, each for its own ordering. */
  function Compare(x: int, y: int): (f: int)
    ensures f in {FL_EQ, FL_LT, FL_GT}
    ensures f == FL_EQ <==> x == y
    ensures f == FL_LT <==> x < y
    ensures f == FL_GT <==> x > y
  {
    if x == y then FL_EQ
    else if x < y then FL_LT
    else FL_GT
  }

  /** Either the value an operation stores into the first register, or the exception it raises. */
  datatype Outcome = Value(v: int) | Error(fault: Fault)

  /** The value each non-CMP operation computes from `reg[reg_a]` (x) and `reg[reg_b]` (y). */
  function Apply(op: Op, x: int, y: int): (r: Outcome)
    requires op != Cmp
    ensures r.Error? <==> op == Div || ((op == Shl || op == Shr) && y < 0)
    ensures r.Error? ==> r.fault in {ZeroDivision, FloatDivision, NegativeShiftCount}
  {
    match op
    case Add => Value(x + y)
    case Mul => Value(x * y)
    case Sub => Value(x - y)
    case Div => if y == 0 then Error(ZeroDivision) else Error(FloatDivision)
    case Or => Value(Bits.Or(x, y))
    case Xor => Value(Bits.Xor(x, y))
    case Shl => if y < 0 then Error(NegativeShiftCount) else Value(Bits.Shl(x, y))
    case Shr => if y < 0 then Error(NegativeShiftCount) else Value(Bits.Shr(x, y))
  }

  /**
   * What the stored value means: the arithmetic operations are exact on
   * unbounded integers, OR and XOR act bit by bit, and the shifts multiply by
   * or floor-divide by a power of two.
   */
  lemma ApplyMeaning(op: Op, x: int, y: int)
    requires op != Cmp
    ensures Apply(op, x, y).Error? <==>
      (op == Div || ((op == Shl || op == Shr) && y < 0))
    ensures op == Add ==> Apply(op, x, y) == Value(x + y)
    ensures op == Sub ==> Apply(op, x, y) == Value(x - y)
    ensures op == Mul ==> Apply(op, x, y) == Value(x * y)
    ensures op == Div ==> Apply(op, x, y).fault == (if y == 0 then ZeroDivision else FloatDivision)
    ensures op == Or ==> forall k: nat :: Bits.Bit(Apply(op, x, y).v, k) == (Bits.Bit(x, k) || Bits.Bit(y, k))
    ensures op == Xor ==> forall k: nat :: Bits.Bit(Apply(op, x, y).v, k) == (Bits.Bit(x, k) != Bits.Bit(y, k))
    ensures op == Shl && y >= 0 ==> Apply(op, x, y) == Value(x * Bits.Pow2(y))
    ensures op == Shr && y >= 0 ==> Apply(op, x, y) == Value(x / Bits.Pow2(y))
  {
    if op == Or {
      forall k: nat ensures Bits.Bit(Bits.Or(x, y), k) == (Bits.Bit(x, k) || Bits.Bit(y, k)) {
        Bits.OrBit(x, y, k);
      }
    } else if op == Xor {
      forall k: nat ensures Bits.Bit(Bits.Xor(x, y), k) == (Bits.Bit(x, k) != Bits.Bit(y, k)) {
        Bits.XorBit(x, y, k);
      }
    } else if op == Shl && y >= 0 {
      Bits.ShlIsMultiplication(x, y);
    } else if op == Shr && y >= 0 {
      Bits.ShrIsFloorDivision(x, y);
    }
  }
}
