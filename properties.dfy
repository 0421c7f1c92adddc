/**
 * What the machine promises across instructions: stopping is final, runs
 * compose, only CMP writes the flag, only PRN writes output, memory is written
 * only just below the stack pointer, faults change nothing else, and the
 * handler-level protocols (push/pop, the jump family, the ALU).
 */
module Properties {
  import opened Wrappers
  import opened Faults
  import opened Machine
  import Isa
  import Alu

  /** A halted or faulted machine never moves again. */
  lemma StoppedIsFinal(s: State, n: nat)
    requires !s.status.Running?
    ensures Step(s) == s && Run(s, n) == s
  {
    if n > 0 {
      assert Run(s, n) == s;
    }
  }

  /** Running n + m steps is running n steps and then m more. */
  lemma RunSplit(s: State, n: nat, m: nat)
    ensures Run(s, n + m) == Run(Run(s, n), m)
  {
    IterateSplit(Step, s, n, m);
  }

  /** Iterating any step function n + m times is iterating it n times and then m more. */
  lemma {:induction false} IterateSplit(step: State -> State, s: State, n: nat, m: nat)
    ensures Iterate(step, s, n + m) == Iterate(step, Iterate(step, s, n), m)
    decreases n
  {
    if n > 0 && s.status.Running? {
      IterateSplit(step, step(s), n - 1, m);
    }
  }

  /** A run that is still going used up all its fuel on running steps. */
  lemma {:induction false} RunningAfterRun(s: State, n: nat)
    requires Run(s, n).status.Running?
    ensures s.status.Running?
    ensures n > 0 ==> Run(s, n) == Run(Step(s), n - 1)
    decreases n
  {
  }

  /** An instruction that faults leaves everything but the status as it was. */
  lemma FaultChangesNothingElse(s: State)
    requires Step(s).status.Faulted?
    ensures Step(s) == s.(status := Step(s).status)
  {
  }

  /** The machine faults with UnknownOpcode exactly when the fetched opcode does not decode. */
  lemma UnknownOpcodeFault(s: State)
    ensures Step(s).status == Faulted(UnknownOpcode) <==>
      (s.status == Faulted(UnknownOpcode)) ||
      (s.status == Running && 0 <= s.pc && s.pc + 2 < |s.ram| &&
       Isa.Decode(s.ram[s.pc], s.ram[s.pc + 1], s.ram[s.pc + 2]).None?)
  {
    if s.status == Running && 0 <= s.pc && s.pc + 2 < |s.ram| {
      var d := Isa.Decode(s.ram[s.pc], s.ram[s.pc + 1], s.ram[s.pc + 2]);
      if d.Some? && d.value.Alu? {
        var i := d.value;
        if Alu.OpOf(i.op).Some? && RegIndex(s, i.a) && RegIndex(s, i.b) {
          var op := Alu.OpOf(i.op).value;
          if op != Alu.Cmp && Alu.Apply(op, s.reg[i.a], s.reg[i.b]).Error? {
            Alu.ApplyMeaning(op, s.reg[i.a], s.reg[i.b]);
          }
        }
      }
    }
  }

  /** Only a CMP instruction changes the flag register. */
  lemma OnlyCmpWritesFlag(s: State)
    ensures Step(s).fl == s.fl ||
      (s.status == Running && 0 <= s.pc < |s.ram| && s.ram[s.pc] == Alu.CMP)
  {
    if Step(s).fl != s.fl {
      var d := Isa.Decode(s.ram[s.pc], s.ram[s.pc + 1], s.ram[s.pc + 2]);
      assert d.Some? && d.value.Alu?;
      Alu.OpOfCode(d.value.op, Alu.Cmp);
    }
  }

  /** Only PRN produces output, and it appends exactly the value of its register. */
  lemma OnlyPrnWritesOutput(s: State)
    ensures Step(s).out == s.out ||
      (s.status == Running && 0 <= s.pc && s.pc + 1 < |s.ram| && s.ram[s.pc] == Isa.PRN &&
       RegIndex(s, s.ram[s.pc + 1]) && Step(s).out == s.out + [s.reg[s.ram[s.pc + 1]]])
  {
    if Step(s).out != s.out {
      var d := Isa.Decode(s.ram[s.pc], s.ram[s.pc + 1], s.ram[s.pc + 2]);
      assert d.Some? && d.value.Prn?;
      Isa.DecodeOpcode(s.ram[s.pc], s.ram[s.pc + 1], s.ram[s.pc + 2]);
    }
  }

  /** An instruction writes memory at most at the cell just below the stack pointer. */
  lemma MemoryWrittenOnlyBelowSp(s: State, i: int)
    requires 0 <= i < |s.ram| && i != s.sp - 1
    ensures Step(s).ram[i] == s.ram[i]
  {
  }

  /** Every instruction other than the jumps, CALL, RET and HLT advances PC past its own bytes. */
  lemma StraightLinePcAdvance(s: State)
    requires s.status == Running && 0 <= s.pc && s.pc + 2 < |s.ram|
    requires Isa.Decode(s.ram[s.pc], s.ram[s.pc + 1], s.ram[s.pc + 2]).Some?
    requires var i := Isa.Decode(s.ram[s.pc], s.ram[s.pc + 1], s.ram[s.pc + 2]).value;
      i.Ldi? || i.Prn? || i.Push? || i.Pop? || i.Alu?
    requires Step(s).status == Running
    ensures var i := Isa.Decode(s.ram[s.pc], s.ram[s.pc + 1], s.ram[s.pc + 2]).value;
      Step(s).pc == s.pc + |Isa.Encode(i)|
  {
  }

  /**
   * PUSH then POP restores the stack pointer; the value in between sits just
   * below the old stack pointer and ends up in the popped register.  As
   * written, that value is RAM cell `a`, not register `a`.
   */
  lemma PushThenPop(s: State, a: int, r: int)
    requires RamIndex(s, s.sp - 1) && RamIndex(s, a) && RegIndex(s, r)
    ensures var t := Push(s, a); var u := Pop(t, r);
      t.ram[s.sp - 1] == s.ram[a] && t.sp == s.sp - 1 && t.pc == s.pc + 2 &&
      u.sp == s.sp && u.pc == s.pc + 4 && u.reg == s.reg[r := s.ram[a]] &&
      u.fl == s.fl && u.out == s.out
  {
  }

  /** For any flag, exactly one of JEQ and JNE jumps to register `a`; the other steps over its operand. */
  lemma JeqJneComplementary(s: State, a: int)
    requires RegIndex(s, a)
    ensures s.fl == Some(Alu.FL_EQ) ==> Jeq(s, a) == s.(pc := s.reg[a]) && Jne(s, a) == s.(pc := s.pc + 2)
    ensures s.fl != Some(Alu.FL_EQ) ==> Jne(s, a) == s.(pc := s.reg[a]) && Jeq(s, a) == s.(pc := s.pc + 2)
  {
  }

  /** CMP writes exactly one of the three flags and nothing else, and advances PC by 3. */
  lemma CmpEffect(s: State, a: int, b: int)
    requires RegIndex(s, a) && RegIndex(s, b)
    ensures var r := AluDispatch(s, Alu.CMP, a, b);
      r == s.(fl := r.fl, pc := s.pc + 3) &&
      (r.fl == Some(Alu.FL_EQ) <==> s.reg[a] == s.reg[b]) &&
      (r.fl == Some(Alu.FL_LT) <==> s.reg[a] < s.reg[b]) &&
      (r.fl == Some(Alu.FL_GT) <==> s.reg[a] > s.reg[b])
  {
  }

  /**
   * A supported non-CMP operation either stores its value into register `a`
   * only and advances PC by 3, or raises with nothing changed.
   */
  lemma AluWritesOnlyTarget(s: State, code: int, a: int, b: int)
    requires Alu.OpOf(code).Some? && Alu.OpOf(code) != Some(Alu.Cmp)
    requires RegIndex(s, a) && RegIndex(s, b)
    ensures var op := Alu.OpOf(code).value; var r := AluDispatch(s, code, a, b);
      match Alu.Apply(op, s.reg[a], s.reg[b])
      case Value(v) => r == s.(reg := s.reg[a := v], pc := s.pc + 3)
      case Error(f) => r == Fail(s, f)
  {
  }

  /** An operation `alu` does not know raises without touching any state, PC included. */
  lemma UnsupportedAluOpKeepsState(s: State, code: int, a: int, b: int)
    requires Alu.OpOf(code).None?
    ensures AluDispatch(s, code, a, b) == Fail(s, UnsupportedAluOp)
  {
  }

  /** CMP of a smaller value then a jump: JNE is taken, JEQ falls through. */
  lemma CmpLessThenJump(s: State, a: int, b: int, j: int)
    requires RegIndex(s, a) && RegIndex(s, b) && RegIndex(s, j)
    requires s.reg[a] < s.reg[b]
    ensures var t := AluDispatch(s, Alu.CMP, a, b);
      t.fl == Some(Alu.FL_LT) && Jne(t, j).pc == s.reg[j] && Jeq(t, j).pc == s.pc + 5
  {
    CmpEffect(s, a, b);
  }
}
