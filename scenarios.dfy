/** Whole programs run through the machine. */
module Scenarios {
  import opened Wrappers
  import opened Faults
  import opened Machine
  import Isa
  import Alu
  import Properties

  /** LDI r, v followed by PRN r prints exactly v. */
  lemma LdiThenPrn(s: State, r: int, v: int)
    requires s.status == Running && 0 <= s.pc && s.pc + 5 < |s.ram|
    requires s.ram[s.pc..s.pc + 5] == [Isa.LDI, r, v, Isa.PRN, r]
    requires RegIndex(s, r)
    ensures Step(Step(s)).out == s.out + [v]
    ensures Step(Step(s)).pc == s.pc + 5 && Step(Step(s)).status == Running
  {
    var w := s.ram[s.pc..s.pc + 5];
    assert w[0] == s.ram[s.pc] && w[1] == s.ram[s.pc + 1] && w[2] == s.ram[s.pc + 2];
    assert w[3] == s.ram[s.pc + 3] && w[4] == s.ram[s.pc + 4];
    Isa.DecodeEncode(Isa.Ldi(r, v), 0, 0);
    assert Isa.Encode(Isa.Ldi(r, v)) == [Isa.LDI, r, v];
    assert Isa.Decode(s.ram[s.pc], s.ram[s.pc + 1], s.ram[s.pc + 2]) == Some(Isa.Ldi(r, v));
    var t := Step(s);
    assert t == Ldi(s, r, v);
    assert t.ram == s.ram && t.pc == s.pc + 3;
    Isa.DecodeEncode(Isa.Prn(r), t.ram[t.pc + 2], 0);
    assert Isa.Encode(Isa.Prn(r)) == [Isa.PRN, r];
    assert Isa.Decode(t.ram[t.pc], t.ram[t.pc + 1], t.ram[t.pc + 2]) == Some(Isa.Prn(r));
  }

  /** LDI R0,8; LDI R1,9; ADD R0,R1; PRN R0; HLT */
  const AddProgram: seq<int> := [Isa.LDI, 0, 8, Isa.LDI, 1, 9, Alu.ADD, 0, 1, Isa.PRN, 0, Isa.HLT]

  /** A running machine whose fetched bytes decode to `i` executes `i`. */
  lemma StepDecoded(s: State, i: Isa.Instr)
    requires s.status == Running && 0 <= s.pc && s.pc + 2 < |s.ram|
    requires Isa.Decode(s.ram[s.pc], s.ram[s.pc + 1], s.ram[s.pc + 2]) == Some(i)
    ensures Step(s) == Execute(s, i)
  {
  }

  /** ADD a, b at `pc` adds register b into register a and moves on by three bytes. */
  lemma AddStep(s: State, a: int, b: int)
    requires s.status == Running && 0 <= s.pc && s.pc + 2 < |s.ram|
    requires s.ram[s.pc] == Alu.ADD && s.ram[s.pc + 1] == a && s.ram[s.pc + 2] == b
    requires RegIndex(s, a) && RegIndex(s, b)
    ensures Step(s) == s.(reg := s.reg[a := s.reg[a] + s.reg[b]], pc := s.pc + 3)
  {
    assert Isa.IsAlu(Alu.ADD) by { Alu.SupportedOpsAreAluOpcodes(Alu.Add); }
    Isa.DecodeEncode(Isa.Alu(Alu.ADD, a, b), 0, 0);
    StepDecoded(s, Isa.Alu(Alu.ADD, a, b));
    assert Alu.OpOf(Alu.ADD) == Some(Alu.Add);
  }

  /** The two LDI instructions of the program above load 8 into R0 and 9 into R1. */
  lemma AddProgramLoads()
    ensures var s := Run(Boot(AddProgram), 2);
      s == Boot(AddProgram).(reg := Boot(AddProgram).reg[0 := 8][1 := 9], pc := 6)
  {
    var s0 := Boot(AddProgram);
    assert s0.ram[..12] == AddProgram;
    assert s0.ram[0] == Isa.LDI && s0.ram[1] == 0 && s0.ram[2] == 8;
    Isa.DecodeEncode(Isa.Ldi(0, 8), 0, 0);
    StepDecoded(s0, Isa.Ldi(0, 8));
    var s1 := Step(s0);
    assert s1 == Ldi(s0, 0, 8);
    assert s1.ram[3] == Isa.LDI && s1.ram[4] == 1 && s1.ram[5] == 9;
    Isa.DecodeEncode(Isa.Ldi(1, 9), 0, 0);
    StepDecoded(s1, Isa.Ldi(1, 9));
    var s2 := Step(s1);
    assert s2 == Ldi(s1, 1, 9);
    assert Run(s0, 2) == Run(s1, 1) == Run(s2, 0);
  }

  /** The first three instructions of the program above leave 17 in R0. */
  lemma AddProgramFirstThree()
    ensures var s := Run(Boot(AddProgram), 3);
      s.status == Running && s.pc == 9 && s.reg[0] == 17 && s.out == [] &&
      s.ram == Boot(AddProgram).ram
  {
    var s0 := Boot(AddProgram);
    AddProgramLoads();
    Properties.RunSplit(s0, 2, 1);
    var s2 := Run(s0, 2);
    assert s2.pc == 6 && s2.reg[0] == 8 && s2.reg[1] == 9 && s2.ram == s0.ram;
    assert s0.ram[..12] == AddProgram;
    assert s2.ram[6] == Alu.ADD && s2.ram[7] == 0 && s2.ram[8] == 1;
    AddStep(s2, 0, 1);
    var s3 := Step(s2);
    assert Run(s2, 1) == Run(s3, 0);
  }

  /** The program above prints 17 and halts after five instructions. */
  lemma AddProgramPrints17()
    ensures Run(Boot(AddProgram), 5).out == [17]
    ensures Run(Boot(AddProgram), 5).status == Halted
  {
    var s0 := Boot(AddProgram);
    AddProgramFirstThree();
    Properties.RunSplit(s0, 3, 2);
    var s3 := Run(s0, 3);
    assert s0.ram[..12] == AddProgram;
    assert s3.ram[9] == Isa.PRN && s3.ram[10] == 0 && s3.ram[11] == Isa.HLT;
    Isa.DecodeEncode(Isa.Prn(0), Isa.HLT, 0);
    StepDecoded(s3, Isa.Prn(0));
    var s4 := Step(s3);
    assert s4 == Prn(s3, 0);
    assert s4.pc == 11 && s4.out == [17] && s4.ram == s3.ram;
    assert s4.ram[12] == 0 && s4.ram[13] == 0;
    Isa.DecodeEncode(Isa.Hlt, 0, 0);
    StepDecoded(s4, Isa.Hlt);
    var s5 := Step(s4);
    assert s5.status == Halted && s5.out == [17];
    assert Run(s3, 2) == Run(s4, 1) == Run(s5, 0);
  }

  /** A program made of one byte that is not an opcode stops with UnknownOpcode and changes nothing else. */
  lemma UnknownOpcodeProgram(n: nat)
    requires n >= 1
    ensures Run(Boot([0]), n) == Boot([0]).(status := Faulted(UnknownOpcode))
  {
    var s := Boot([0]);
    assert s.ram[0] == 0 && s.ram[1] == 0 && s.ram[2] == 0;
    Isa.DecodeFails(0, 0, 0);
    assert Step(s) == Fail(s, UnknownOpcode);
    assert Run(s, n) == Run(Step(s), n - 1);
    Properties.StoppedIsFinal(Step(s), n - 1);
  }
}
