/**
 * PUSH and CALL as their comments in cpu.py describe them, next to lemmas
 * that show how the code as written (`Machine.Push`, `Machine.Call`) differs.
 * The machine model keeps the code as written; these corrected transitions
 * carry the stack protocol the comments promise.
 */
module Intended {
  import opened Wrappers
  import opened Machine
  import Isa

  /** As written, PUSH 0 stores RAM cell 0, not register 0: with R0 = 5 and RAM zeroed, 0 is pushed. */
  lemma PushStoresRamCell()
    ensures var s := Init().(reg := Init().reg[0 := 5]);
      Push(s, 0).ram[s.sp - 1] == 0 && s.reg[0] == 5
  {
  }

  /**
   * As written, executing CALL leaves PC on the CALL itself; unless the return
   * address was stored over the opcode, the next step executes the same CALL.
   */
  lemma CallDoesNotJump(s: State)
    requires s.status == Running && 0 <= s.pc && s.pc + 2 < |s.ram| && s.ram[s.pc] == Isa.CALL
    requires RamIndex(s, s.sp - 1) && RamIndex(s, s.ram[s.pc + 1])
    ensures Step(s).pc == s.pc && Step(s).status == Running
    ensures s.sp - 1 != s.pc ==> Step(s).ram[Step(s).pc] == Isa.CALL
  {
  }

  /** PUSH as intended: the value of register `r` goes to the new top of the stack. */
  function IntendedPush(s: State, r: int): State
    requires RamIndex(s, s.sp - 1) && RegIndex(s, r)
  {
    s.(sp := s.sp - 1, ram := s.ram[s.sp - 1 := s.reg[r]], pc := s.pc + 2)
  }

  /** CALL as intended: push the return address, then jump to the address in register `r`. */
  function IntendedCall(s: State, r: int): State
    requires RamIndex(s, s.sp - 1) && RegIndex(s, r)
  {
    s.(sp := s.sp - 1, ram := s.ram[s.sp - 1 := s.pc + 2], pc := s.reg[r])
  }

  /** PUSH r then POP t copies register r into register t and restores the stack pointer. */
  lemma IntendedPushPop(s: State, r: int, t: int)
    requires RamIndex(s, s.sp - 1) && RegIndex(s, r) && RegIndex(s, t)
    ensures var u := Pop(IntendedPush(s, r), t);
      u.reg == s.reg[t := s.reg[r]] && u.sp == s.sp && u.pc == s.pc + 4
  {
  }

  /**
   * CALL r jumps to register r; RET straight after it returns to the
   * instruction after the CALL with the caller's stack pointer, and so does a
   * callee that leaves the stack pointer and the return slot as it found them.
   */
  lemma IntendedCallRet(s: State, r: int, callee: State)
    requires RamIndex(s, s.sp - 1) && RegIndex(s, r)
    requires callee.sp == s.sp - 1 && |callee.ram| == |s.ram|
    requires callee.ram[callee.sp] == IntendedCall(s, r).ram[s.sp - 1]
    ensures IntendedCall(s, r).pc == s.reg[r]
    ensures Ret(IntendedCall(s, r)).pc == s.pc + 2 && Ret(IntendedCall(s, r)).sp == s.sp
    ensures Ret(IntendedCall(s, r)).ram == IntendedCall(s, r).ram
    ensures Ret(callee).pc == s.pc + 2 && Ret(callee).sp == s.sp
  {
  }
}
