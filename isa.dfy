/**
 * The instruction set: the opcode constants of the instruction table, the
 * fields `run` extracts from an opcode, and the decoder that reproduces the
 * dispatch order of `run`.
 */
module Isa {
  import opened Wrappers
  import Bits

  const HLT: int := 0x01
  const LDI: int := 0x82
  const PRN: int := 0x47
  const PUSH: int := 0x45
  const POP: int := 0x46
  const CALL: int := 0x50
  const RET: int := 0x11
  const JMP: int := 0x54
  const JEQ: int := 0x55
  const JNE: int := 0x56

  /** The handlers the instruction table holds. */
  datatype Handler = HltHandler | LdiHandler | PrnHandler | PushHandler | PopHandler
                   | CallHandler | RetHandler | JmpHandler | JeqHandler | JneHandler

  /** A decoded instruction with the operand bytes it consumes. */
  datatype Instr =
    | Hlt
    | Ldi(a: int, b: int)
    | Prn(a: int)
    | Push(a: int)
    | Pop(a: int)
    | Call(a: int)
    | Ret
    | Jmp(a: int)
    | Jeq(a: int)
    | Jne(a: int)
    | Alu(op: int, a: int, b: int)

  /** The instruction table: a lookup keyed by the whole opcode value. */
  function Table(ir: int): Option<Handler>
  {
    if ir == HLT then Some(HltHandler)
    else if ir == LDI then Some(LdiHandler)
    else if ir == PRN then Some(PrnHandler)
    else if ir == PUSH then Some(PushHandler)
    else if ir == POP then Some(PopHandler)
    else if ir == CALL then Some(CallHandler)
    else if ir == RET then Some(RetHandler)
    else if ir == JMP then Some(JmpHandler)
    else if ir == JEQ then Some(JeqHandler)
    else if ir == JNE then Some(JneHandler)
    else None
  }

  /** How many operands each handler takes. */
  function Params(h: Handler): nat
  {
    match h
    case HltHandler | RetHandler => 0
    case LdiHandler => 2
    case _ => 1
  }

  function Bind(h: Handler, a: int, b: int): Instr
  {
    match h
    case HltHandler => Hlt
    case LdiHandler => Ldi(a, b)
    case PrnHandler => Prn(a)
    case PushHandler => Push(a)
    case PopHandler => Pop(a)
    case CallHandler => Call(a)
    case RetHandler => Ret
    case JmpHandler => Jmp(a)
    case JeqHandler => Jeq(a)
    case JneHandler => Jne(a)
  }

  /** `(IR & 0b11000000) >> 6`: bits 7 and 6 of the opcode. */
  function Arity(ir: int): nat
  {
    (if Bits.Bit(ir, 7) then 2 else 0) + (if Bits.Bit(ir, 6) then 1 else 0)
  }

  /** `(IR & 0b00100000) >> 5` is non-zero: bit 5 of the opcode. */
  predicate IsAlu(ir: int)
  {
    Bits.Bit(ir, 5)
  }

  /**
   * `self.in_table[IR](...)` called with `arity` operands: None when the key
   * is missing (KeyError) or the handler takes another number of operands.
   */
  function Dispatch(ir: int, arity: nat, a: int, b: int): Option<Instr>
  {
    match Table(ir)
    case None => None
    case Some(h) => if Params(h) == arity then Some(Bind(h, a, b)) else None
  }

  /** The decode order of `run`: CALL and RET first, then the ALU bit, then the arity. */
  function Decode(ir: int, a: int, b: int): (r: Option<Instr>)
    ensures r.Some? && r.value.Alu? ==> IsAlu(ir) && r.value.op == ir
    ensures r.None? ==> ir != CALL && ir != RET && !IsAlu(ir) && Arity(ir) < 3
  {
    if ir == CALL then Some(Call(a))
    else if ir == RET then Some(Ret)
    else if IsAlu(ir) then Some(Alu(ir, a, b))
    else if Arity(ir) < 3 then Dispatch(ir, Arity(ir), a, b)
    else Some(Hlt)
  }

  /** The opcode an instruction is stored under. */
  function Opcode(i: Instr): int
  {
    match i
    case Hlt => HLT
    case Ldi(_, _) => LDI
    case Prn(_) => PRN
    case Push(_) => PUSH
    case Pop(_) => POP
    case Call(_) => CALL
    case Ret => RET
    case Jmp(_) => JMP
    case Jeq(_) => JEQ
    case Jne(_) => JNE
    case Alu(op, _, _) => op
  }

  /** The bytes of an instruction as a program stores them: opcode then operands. */
  function Encode(i: Instr): (e: seq<int>)
  {
    match i
    case Hlt | Ret => [Opcode(i)]
    case Ldi(a, b) => [LDI, a, b]
    case Alu(op, a, b) => [op, a, b]
    case _ => [Opcode(i), i.a]
  }

  /** An instruction the assembler can write: an ALU instruction must carry bit 5. */
  predicate WellFormed(i: Instr)
  {
    i.Alu? ==> IsAlu(i.op)
  }

  lemma SplitByte(x: int)
    ensures x == 256 * (x / 256) + x % 256 && 0 <= x % 256 < 256
    ensures x == 64 * (x / 64) + x % 64 && 0 <= x % 64 < 64
  {
  }

  lemma SplitQuarter(r: int)
    requires 0 <= r < 256
    ensures 0 <= r / 64 < 4 && r == 64 * (r / 64) + r % 64 && 0 <= r % 64 < 64
  {
  }

  lemma LowBitsOfQuotient(q: int, h: int)
    requires 0 <= h < 4
    ensures (4 * q + h) % 2 == h % 2 && (2 * q + h / 2) % 2 == h / 2
    ensures (if h / 2 == 1 then 2 else 0) + (if h % 2 == 1 then 1 else 0) == h
  {
    assert 4 * q + h == 2 * (2 * q) + h;
    if h == 0 {
    } else if h == 1 {
    } else if h == 2 {
      assert 4 * q + h == 2 * (2 * q + 1);
    } else {
      assert 4 * q + h == 2 * (2 * q + 1) + 1;
    }
  }

  /** The arity field is the opcode's value modulo 256 divided by 64, the ALU bit is bit 5 of it. */
  lemma ArityIsHighBits(ir: int)
    ensures Arity(ir) == (ir % 256) / 64
    ensures IsAlu(ir) <==> (ir % 64) / 32 == 1
  {
    ArityField(ir);
    AluBitField(ir);
  }

  lemma ArityField(ir: int)
    ensures Arity(ir) == (ir % 256) / 64
  {
    Bits.BitIsDivMod(ir, 7);
    Bits.BitIsDivMod(ir, 6);
    assert Bits.Pow2(6) == 64 && Bits.Pow2(7) == 128;
    SplitByte(ir);
    var q, r := ir / 256, ir % 256;
    SplitQuarter(r);
    var h := r / 64;
    Bits.DivUnique(ir, 64, 4 * q + h, r % 64);
    Bits.DivUnique(ir, 128, 2 * q + h / 2, r % 64 + 64 * (h % 2));
    LowBitsOfQuotient(q, h);
  }

  lemma AluBitField(ir: int)
    ensures IsAlu(ir) <==> (ir % 64) / 32 == 1
  {
    Bits.BitIsDivMod(ir, 5);
    assert Bits.Pow2(5) == 32;
    SplitByte(ir);
    var m := ir % 64;
    assert 0 <= m / 32 < 2 && m == 32 * (m / 32) + m % 32 && 0 <= m % 32 < 32;
    Bits.DivUnique(ir, 32, 2 * (ir / 64) + m / 32, m % 32);
    LowBitsOfQuotient(ir / 64, m / 32);
  }

  /**
   * Every handler in the table takes as many operands as its opcode's arity
   * field announces, so the call in `run` never fails for a wrong number of
   * arguments.
   */
  lemma TableMatchesArity(ir: int)
    requires Table(ir).Some?
    ensures Params(Table(ir).value) == Arity(ir)
    ensures !IsAlu(ir)
  {
    var h := Table(ir).value;
    if h == HltHandler { assert ir == HLT; ArityIsHighBits(HLT); }
    else if h == LdiHandler { assert ir == LDI; ArityIsHighBits(LDI); }
    else if h == PrnHandler { assert ir == PRN; ArityIsHighBits(PRN); }
    else if h == PushHandler { assert ir == PUSH; ArityIsHighBits(PUSH); }
    else if h == PopHandler { assert ir == POP; ArityIsHighBits(POP); }
    else if h == CallHandler { assert ir == CALL; ArityIsHighBits(CALL); }
    else if h == RetHandler { assert ir == RET; ArityIsHighBits(RET); }
    else if h == JmpHandler { assert ir == JMP; ArityIsHighBits(JMP); }
    else if h == JeqHandler { assert ir == JEQ; ArityIsHighBits(JEQ); }
    else { assert ir == JNE; ArityIsHighBits(JNE); }
  }

  /** Decoding fails exactly for an opcode outside the table whose ALU bit is clear and whose arity is 0, 1 or 2. */
  lemma DecodeFails(ir: int, a: int, b: int)
    ensures Decode(ir, a, b).None? <==> Table(ir).None? && !IsAlu(ir) && Arity(ir) < 3
  {
    if Table(ir).Some? {
      TableMatchesArity(ir);
    }
  }

  /** Decoding the bytes of a well-formed instruction, followed by any bytes, gives it back. */
  lemma DecodeEncode(i: Instr, x: int, y: int)
    requires WellFormed(i)
    ensures var e := Encode(i) + [x, y]; Decode(e[0], e[1], e[2]) == Some(i)
  {
    if !i.Alu? {
      TableMatchesArity(Opcode(i));
    }
  }

  /** Whatever decodes was stored under its own opcode, except the arity-3 halt. */
  lemma DecodeOpcode(ir: int, a: int, b: int)
    requires Decode(ir, a, b).Some?
    ensures var i := Decode(ir, a, b).value;
      ir == Opcode(i) || (i == Hlt && Arity(ir) == 3 && !IsAlu(ir))
  {
    if ir != CALL && ir != RET && !IsAlu(ir) && Arity(ir) < 3 {
      BindOpcode(ir, a, b);
    }
  }

  lemma BindOpcode(ir: int, a: int, b: int)
    requires Table(ir).Some?
    ensures Opcode(Bind(Table(ir).value, a, b)) == ir
  {
  }
}
