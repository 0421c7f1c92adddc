/**
 * The `CPU` class: RAM and the register file are arrays updated in place, and
 * every handler, `alu`, one iteration of `run` and a fuel-bounded `run` are
 * methods.  Each method's effect is stated on the fields and tied to the
 * transition of the same name in `Machine` through `Snapshot()`.
 */
module Cpu {
  import opened Wrappers
  import opened Faults
  import Bits
  import Isa
  import Alu
  import Machine
  import Loader

  class CPU {
    var ram: array<int>
    var reg: array<int>
    var pc: int
    /** None until the first CMP. */
    var fl: Option<int>
    /** The stack pointer; register 7 is not used as one. */
    var SP: int
    /** Values printed by PRN, in order. */
    var output: seq<int>
    var status: Machine.Status

    ghost predicate Valid()
      reads this
    {
      ram.Length == Machine.RAM_SIZE && reg.Length == Machine.REG_COUNT
    }

    /** The whole machine state as a value. */
    ghost function Snapshot(): Machine.State
      reads this, ram, reg
    {
      Machine.State(ram[..], reg[..], pc, SP, fl, output, status)
    }

    constructor ()
      ensures Valid() && fresh(ram) && fresh(reg)
      ensures Snapshot() == Machine.Init()
      ensures pc == 0 && SP == 0xF4 && fl == None && reg[7] == 0
      ensures forall i :: 0 <= i < ram.Length ==> ram[i] == 0
      ensures forall i :: 0 <= i < reg.Length ==> reg[i] == 0
    {
      ram := new int[Machine.RAM_SIZE](_ => 0);
      reg := new int[Machine.REG_COUNT](_ => 0);
      pc := 0;
      fl := None;
      SP := Machine.SP_START;
      output := [];
      status := Machine.Running;
      new;
      reg[7] := ram[SP];
    }

    method RamRead(mar: int) returns (mdr: int)
      requires Valid() && 0 <= mar < ram.Length
      ensures mdr == ram[mar]
    {
      mdr := ram[mar];
    }

    method RamWrite(mar: int, mdr: int)
      requires Valid() && 0 <= mar < ram.Length
      modifies ram
      ensures ram[..] == old(ram[..])[mar := mdr]
    {
      ram[mar] := mdr;
    }

    /** Stops the machine instead of ending the process. */
    method Hlt()
      requires Valid()
      modifies this`status
      ensures status == Machine.Halted
      ensures Snapshot() == Machine.Hlt(old(Snapshot()))
    {
      status := Machine.Halted;
    }

    method Ldi(a: int, b: int)
      requires Valid() && 0 <= a < reg.Length
      modifies this`pc, reg
      ensures reg[..] == old(reg[..])[a := b] && pc == old(pc) + 3
      ensures Snapshot() == Machine.Ldi(old(Snapshot()), a, b)
    {
      reg[a] := b;
      pc := pc + 3;
    }

    method Prn(a: int)
      requires Valid() && 0 <= a < reg.Length
      modifies this`output, this`pc
      ensures output == old(output) + [reg[a]] && pc == old(pc) + 2
      ensures Snapshot() == Machine.Prn(old(Snapshot()), a)
    {
      output := output + [reg[a]];
      pc := pc + 2;
    }

    /** Copies RAM cell `a` (not register `a`) to the new top of the stack. */
    method Push(a: int)
      requires Valid() && 0 <= SP - 1 < ram.Length && 0 <= a < ram.Length
      modifies this`SP, this`pc, ram
      ensures SP == old(SP) - 1 && pc == old(pc) + 2
      ensures ram[..] == old(ram[..])[old(SP) - 1 := old(ram[a])]
      ensures Snapshot() == Machine.Push(old(Snapshot()), a)
    {
      SP := SP - 1;
      var value := ram[a];
      ram[SP] := value;
      pc := pc + 2;
    }

    method Pop(a: int)
      requires Valid() && 0 <= SP < ram.Length && 0 <= a < reg.Length
      modifies this`SP, this`pc, reg
      ensures reg[..] == old(reg[..])[a := ram[old(SP)]]
      ensures SP == old(SP) + 1 && pc == old(pc) + 2
      ensures Snapshot() == Machine.Pop(old(Snapshot()), a)
    {
      var value := ram[SP];
      reg[a] := value;
      SP := SP + 1;
      pc := pc + 2;
    }

    /** Stores the return address below SP, then loads SP (PC is left alone) from RAM cell `a`. */
    method Call(a: int)
      requires Valid() && 0 <= SP - 1 < ram.Length && 0 <= a < ram.Length
      modifies this`SP, ram
      ensures ram[..] == old(ram[..])[old(SP) - 1 := old(pc) + 2]
      ensures SP == ram[a]
      ensures Snapshot() == Machine.Call(old(Snapshot()), a)
    {
      SP := SP - 1;
      var nextInstructionAddress := pc + 2;
      ram[SP] := nextInstructionAddress;
      var addressToJumpTo := ram[a];
      SP := addressToJumpTo;
    }

    method Ret()
      requires Valid() && 0 <= SP < ram.Length
      modifies this`pc, this`SP
      ensures pc == ram[old(SP)] && SP == old(SP) + 1
      ensures Snapshot() == Machine.Ret(old(Snapshot()))
    {
      var address := ram[SP];
      pc := address;
      SP := SP + 1;
    }

    method Jmp(a: int)
      requires Valid() && 0 <= a < reg.Length
      modifies this`pc
      ensures pc == reg[a]
      ensures Snapshot() == Machine.Jmp(old(Snapshot()), a)
    {
      pc := reg[a];
    }

    method Jeq(a: int)
      requires Valid() && (fl == Some(Alu.FL_EQ) ==> 0 <= a < reg.Length)
      modifies this`pc
      ensures pc == if fl == Some(Alu.FL_EQ) then reg[a] else old(pc) + 2
      ensures Snapshot() == Machine.Jeq(old(Snapshot()), a)
    {
      if fl == Some(Alu.FL_EQ) {
        pc := reg[a];
      } else {
        pc := pc + 2;
      }
    }

    method Jne(a: int)
      requires Valid() && (fl != Some(Alu.FL_EQ) ==> 0 <= a < reg.Length)
      modifies this`pc
      ensures pc == if fl != Some(Alu.FL_EQ) then reg[a] else old(pc) + 2
      ensures Snapshot() == Machine.Jne(old(Snapshot()), a)
    {
      if fl != Some(Alu.FL_EQ) {
        pc := reg[a];
      } else {
        pc := pc + 2;
      }
    }

    /**
     * The loop of `load` over the lines of the program file: each kept line's
     * value goes to the next address from 0.  `ok` is false when a line raised
     * (empty line, bad binary text, or a 257th value); the values stored before
     * stay in RAM.
     */
    method Load(lines: seq<string>) returns (ok: bool)
      requires Valid()
      modifies ram
      ensures var p := Loader.ParseLines(lines);
        ok == (p.ok && |p.values| <= ram.Length) &&
        ram[..] == Loader.Store(old(ram[..]), p.values)
    {
      var address := 0;
      var i := 0;
      while i < |lines|
        invariant 0 <= i <= |lines|
        invariant Loader.ParseLines(lines[..i]).ok
        invariant address == |Loader.ParseLines(lines[..i]).values| <= ram.Length
        invariant ram[..] == Loader.Store(old(ram[..]), Loader.ParseLines(lines[..i]).values)
      {
        match Loader.ParseLine(lines[i]) {
          case Skip =>
            Loader.SkipStep(lines, i);
          case Bad =>
            Loader.StopsAtBadLine(lines, i);
            return false;
          case Value(v) =>
            if address == ram.Length {
              Loader.StopsWhenFull(old(ram[..]), lines, i);
              return false;
            }
            Loader.ValueStep(old(ram[..]), lines, i);
            ram[address] := v;
            address := address + 1;
        }
        i := i + 1;
      }
      assert lines[..i] == lines;
      return true;
    }

    /**
     * `alu(op, reg_a, reg_b)`.  An exception (unknown operation, negative
     * shift count, division) stops the machine before PC moves.
     */
    method AluOp(op: int, regA: int, regB: int)
      requires Valid()
      requires Alu.OpOf(op).Some? ==> 0 <= regA < reg.Length && 0 <= regB < reg.Length
      modifies this`fl, this`pc, this`status, reg
      ensures Snapshot() == Machine.AluDispatch(old(Snapshot()), op, regA, regB)
    {
      // Each arm computes the new value of `reg[regA]`; the single store and
      // the `pc` advance after the chain are shared by every arm that
      // completes, and `o` records which operation the arm performed. The
      // operands exist whenever the opcode is supported; an unsupported one
      // raises without looking at them.
      var v: int;
      ghost var o: Alu.Op;
      var x := if 0 <= regA < reg.Length then reg[regA] else 0;
      var y := if 0 <= regB < reg.Length then reg[regB] else 0;
      if op == Alu.ADD {
        v, o := x + y, Alu.Add;
      } else if op == Alu.MUL {
        v, o := x * y, Alu.Mul;
      } else if op == Alu.SUB {
        v, o := x - y, Alu.Sub;
      } else if op == Alu.DIV {
        status := Machine.Faulted(if y == 0 then ZeroDivision else FloatDivision);
        return;
      } else if op == Alu.OR {
        v, o := Bits.Or(x, y), Alu.Or;
      } else if op == Alu.XOR {
        v, o := Bits.Xor(x, y), Alu.Xor;
      } else if op == Alu.SHL {
        if y < 0 {
          status := Machine.Faulted(NegativeShiftCount);
          return;
        }
        v, o := Bits.Shl(x, y), Alu.Shl;
      } else if op == Alu.SHR {
        if y < 0 {
          status := Machine.Faulted(NegativeShiftCount);
          return;
        }
        v, o := Bits.Shr(x, y), Alu.Shr;
      } else if op == Alu.CMP {
        if x == y {
          fl := Some(Alu.FL_EQ);
        } else if x < y {
          fl := Some(Alu.FL_LT);
        } else {
          fl := Some(Alu.FL_GT);
        }
        pc := pc + 3;
        return;
      } else {
        status := Machine.Faulted(UnsupportedAluOp);
        return;
      }
      assert Alu.OpOf(op) == Some(o) && o != Alu.Cmp && Alu.Apply(o, x, y) == Alu.Value(v);
      reg[regA] := v;
      pc := pc + 3;
    }

    /** Runs one decoded instruction, stopping with IndexOutOfRange where the handler would index outside a list. */
    method Execute(i: Isa.Instr)
      requires Valid() && status == Machine.Running
      modifies this, ram, reg
      ensures Valid() && ram == old(ram) && reg == old(reg)
      ensures Snapshot() == Machine.Execute(old(Snapshot()), i)
    {
      match i
      case Hlt => Hlt();
      case Ldi(a, b) =>
        if 0 <= a < reg.Length { Ldi(a, b); } else { status := Machine.Faulted(IndexOutOfRange); }
      case Prn(a) =>
        if 0 <= a < reg.Length { Prn(a); } else { status := Machine.Faulted(IndexOutOfRange); }
      case Push(a) =>
        if 0 <= SP - 1 < ram.Length && 0 <= a < ram.Length { Push(a); }
        else { status := Machine.Faulted(IndexOutOfRange); }
      case Pop(a) =>
        if 0 <= SP < ram.Length && 0 <= a < reg.Length { Pop(a); }
        else { status := Machine.Faulted(IndexOutOfRange); }
      case Call(a) =>
        if 0 <= SP - 1 < ram.Length && 0 <= a < ram.Length { Call(a); }
        else { status := Machine.Faulted(IndexOutOfRange); }
      case Ret =>
        if 0 <= SP < ram.Length { Ret(); } else { status := Machine.Faulted(IndexOutOfRange); }
      case Jmp(a) =>
        if 0 <= a < reg.Length { Jmp(a); } else { status := Machine.Faulted(IndexOutOfRange); }
      case Jeq(a) =>
        if fl != Some(Alu.FL_EQ) || 0 <= a < reg.Length { Jeq(a); }
        else { status := Machine.Faulted(IndexOutOfRange); }
      case Jne(a) =>
        if fl == Some(Alu.FL_EQ) || 0 <= a < reg.Length { Jne(a); }
        else { status := Machine.Faulted(IndexOutOfRange); }
      case Alu(op, a, b) =>
        if Alu.OpOf(op).None? || (0 <= a < reg.Length && 0 <= b < reg.Length) { AluOp(op, a, b); }
        else { status := Machine.Faulted(IndexOutOfRange); }
    }

    /** One iteration of the loop in `run`. */
    method Step()
      requires Valid()
      modifies this, ram, reg
      ensures Valid() && ram == old(ram) && reg == old(reg)
      ensures Snapshot() == Machine.Step(old(Snapshot()))
    {
      if status != Machine.Running {
        return;
      }
      if !(0 <= pc && pc + 2 < ram.Length) {
        status := Machine.Faulted(IndexOutOfRange);
        return;
      }
      var ir := ram[pc];
      var operandA := RamRead(pc + 1);
      var operandB := RamRead(pc + 2);
      match Isa.Decode(ir, operandA, operandB)
      case None => status := Machine.Faulted(UnknownOpcode);
      case Some(i) => Execute(i);
    }

    /** `run`, cut off after `fuel` instructions if the machine has not stopped. */
    method Run(fuel: nat)
      requires Valid()
      modifies this, ram, reg
      ensures Valid() && ram == old(ram) && reg == old(reg)
      ensures Snapshot() == Machine.Run(old(Snapshot()), fuel)
    {
      var n: nat := fuel;
      while n > 0 && status == Machine.Running
        invariant Valid() && ram == old(ram) && reg == old(reg)
        invariant n <= fuel
        invariant Machine.Run(Snapshot(), n) == Machine.Run(old(Snapshot()), fuel)
      {
        Step();
        n := n - 1;
      }
    }
  }
}
