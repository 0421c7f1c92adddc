/**
 * The state of the emulated machine as a value, and one transition function
 * per handler of `CPU`, the fetch/decode/dispatch step of `run` and a
 * fuel-bounded run.  These are the specification the `Cpu.CPU` class is
 * proved against.
 *
 * A Python exception ends the process; here it becomes the status
 * `Faulted(kind)` with every other part of the state left as it was before the
 * instruction.  `hlt` becomes the status `Halted`.  Console output is the
 * sequence `out` of values printed by PRN.
 */
module Machine {
  import opened Wrappers
  import opened Faults
  import Isa
  import Alu

  const RAM_SIZE: nat := 256
  const REG_COUNT: nat := 8
  /** Initial value of the stack pointer field `SP`. */
  const SP_START: int := 0xF4

  datatype Status = Running | Halted | Faulted(fault: Fault)

  /** `sp` is the field `SP`, separate from register 7. `fl` is None until the first CMP. */
  datatype State = State(ram: seq<int>, reg: seq<int>, pc: int, sp: int, fl: Option<int>,
                         out: seq<int>, status: Status)

  /** The state `__init__` builds: register 7 is loaded from `ram[SP]`, which is 0. */
  function Init(): State
  {
    var ram := seq(RAM_SIZE, _ => 0);
    State(ram, seq(REG_COUNT, _ => 0)[7 := ram[SP_START]], 0, SP_START, None, [], Running)
  }

  /** The initial state with a program stored from address 0. */
  function Boot(program: seq<int>): State
    requires |program| <= RAM_SIZE
  {
    Init().(ram := program + Init().ram[|program|..])
  }

  predicate RamIndex(s: State, i: int) { 0 <= i < |s.ram| }
  predicate RegIndex(s: State, i: int) { 0 <= i < |s.reg| }

  function Fail(s: State, f: Fault): State
  {
    s.(status := Faulted(f))
  }

  function Hlt(s: State): State
  {
    s.(status := Halted)
  }

  function Ldi(s: State, a: int, b: int): State
    requires RegIndex(s, a)
  {
    s.(reg := s.reg[a := b], pc := s.pc + 3)
  }

  function Prn(s: State, a: int): State
    requires RegIndex(s, a)
  {
    s.(out := s.out + [s.reg[a]], pc := s.pc + 2)
  }

  /** As written, PUSH copies RAM cell `a`, not register `a`. */
  function Push(s: State, a: int): State
    requires RamIndex(s, s.sp - 1) && RamIndex(s, a)
  {
    s.(sp := s.sp - 1, ram := s.ram[s.sp - 1 := s.ram[a]], pc := s.pc + 2)
  }

  function Pop(s: State, a: int): State
    requires RamIndex(s, s.sp) && RegIndex(s, a)
  {
    s.(reg := s.reg[a := s.ram[s.sp]], sp := s.sp + 1, pc := s.pc + 2)
  }

  /**
   * As written, CALL stores the return address below SP and then loads SP (not
   * the PC) from RAM cell `a`, reading that cell after the store.
   */
  function Call(s: State, a: int): State
    requires RamIndex(s, s.sp - 1) && RamIndex(s, a)
  {
    var ram := s.ram[s.sp - 1 := s.pc + 2];
    s.(ram := ram, sp := ram[a])
  }

  function Ret(s: State): State
    requires RamIndex(s, s.sp)
  {
    s.(pc := s.ram[s.sp], sp := s.sp + 1)
  }

  function Jmp(s: State, a: int): State
    requires RegIndex(s, a)
  {
    s.(pc := s.reg[a])
  }

  /** Register `a` is read only when the jump is taken. */
  function Jeq(s: State, a: int): State
    requires s.fl == Some(Alu.FL_EQ) ==> RegIndex(s, a)
  {
    if s.fl == Some(Alu.FL_EQ) then s.(pc := s.reg[a]) else s.(pc := s.pc + 2)
  }

  function Jne(s: State, a: int): State
    requires s.fl != Some(Alu.FL_EQ) ==> RegIndex(s, a)
  {
    if s.fl != Some(Alu.FL_EQ) then s.(pc := s.reg[a]) else s.(pc := s.pc + 2)
  }

  /** `alu(op, a, b)`: the operand registers are read only for a supported operation. */
  function AluDispatch(s: State, code: int, a: int, b: int): State
    requires Alu.OpOf(code).Some? ==> RegIndex(s, a) && RegIndex(s, b)
  {
    match Alu.OpOf(code)
    case None => Fail(s, UnsupportedAluOp)
    case Some(op) =>
      if op == Alu.Cmp then
        s.(fl := Some(Alu.Compare(s.reg[a], s.reg[b])), pc := s.pc + 3)
      else
        match Alu.Apply(op, s.reg[a], s.reg[b])
        case Value(v) => s.(reg := s.reg[a := v], pc := s.pc + 3)
        case Error(f) => Fail(s, f)
  }

  /** Run one decoded instruction; an index the handler would use out of range is an IndexError. */
  function Execute(s: State, i: Isa.Instr): State
  {
    match i
    case Hlt => Hlt(s)
    case Ldi(a, b) => if RegIndex(s, a) then Ldi(s, a, b) else Fail(s, IndexOutOfRange)
    case Prn(a) => if RegIndex(s, a) then Prn(s, a) else Fail(s, IndexOutOfRange)
    case Push(a) =>
      if RamIndex(s, s.sp - 1) && RamIndex(s, a) then Push(s, a) else Fail(s, IndexOutOfRange)
    case Pop(a) =>
      if RamIndex(s, s.sp) && RegIndex(s, a) then Pop(s, a) else Fail(s, IndexOutOfRange)
    case Call(a) =>
      if RamIndex(s, s.sp - 1) && RamIndex(s, a) then Call(s, a) else Fail(s, IndexOutOfRange)
    case Ret => if RamIndex(s, s.sp) then Ret(s) else Fail(s, IndexOutOfRange)
    case Jmp(a) => if RegIndex(s, a) then Jmp(s, a) else Fail(s, IndexOutOfRange)
    case Jeq(a) =>
      if s.fl != Some(Alu.FL_EQ) || RegIndex(s, a) then Jeq(s, a) else Fail(s, IndexOutOfRange)
    case Jne(a) =>
      if s.fl == Some(Alu.FL_EQ) || RegIndex(s, a) then Jne(s, a) else Fail(s, IndexOutOfRange)
    case Alu(code, a, b) =>
      if Alu.OpOf(code).None? || (RegIndex(s, a) && RegIndex(s, b)) then AluDispatch(s, code, a, b)
      else Fail(s, IndexOutOfRange)
  }

  /**
   * One iteration of the loop in `run`: fetch the opcode and both following
   * bytes, decode, dispatch.  A stopped machine does not move.
   */
  function Step(s: State): (r: State)
    ensures |r.ram| == |s.ram| && |r.reg| == |s.reg|
  {
    if !s.status.Running? then s
    else if !(0 <= s.pc && s.pc + 2 < |s.ram|) then Fail(s, IndexOutOfRange)
    else
      match Isa.Decode(s.ram[s.pc], s.ram[s.pc + 1], s.ram[s.pc + 2])
      case None => Fail(s, UnknownOpcode)
      case Some(i) => Execute(s, i)
  }

  /** At most `fuel` applications of `step`, stopping early when the machine stops. */
  function Iterate(step: State -> State, s: State, fuel: nat): State
    decreases fuel
  {
    if fuel == 0 || !s.status.Running? then s else Iterate(step, step(s), fuel - 1)
  }

  /** At most `fuel` iterations of `run`, stopping early when the machine stops. */
  function Run(s: State, fuel: nat): State
  {
    Iterate(Step, s, fuel)
  }
}
