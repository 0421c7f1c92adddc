# LS-8 CPU emulator — Dafny model of `cpu.py`

This project models the `CPU` class of a Python emulator for a small 8-bit
machine: 256 RAM cells, 8 registers, a program counter `pc`, a flag register
`fl` (Python `None` until the first CMP) and a stack pointer field `SP`
(initially `0xF4`, separate from register 7). It covers the instruction
handlers (`hlt`, `ldi`, `prn`, `push`, `pop`, `call`, `ret`, `jmp`, `jeq`,
`jne`), the ALU dispatcher `alu`, the fetch/decode/dispatch loop `run`, and
the per-line parsing loop of `load`.

Layout:

- `cpu.dfy` — module `Cpu`, class `CPU`: `ram` and `reg` are arrays updated in
  place; one method per handler, `AluOp` for `alu`, `Step` for one iteration
  of `run`, `Run` for a fuel-bounded `run`, and `Load` for the loop of `load`.
  Each handler method, and `Execute`, `Step` and `Run`, states its new
  fields and ties them, through `Snapshot()`, to the transition of the same
  name in `Machine`; `AluOp` is tied to `Machine.AluDispatch`, and `Load` to
  `Loader.ParseLines` and `Loader.Store`. `RamRead` and `RamWrite` state the
  cell they read or replace directly.
- `machine.dfy` — module `Machine`: the state as a value, one transition
  function per handler, `AluDispatch`, `Execute`, `Step` and `Run`.
- `properties.dfy`, `scenarios.dfy` — what the machine promises across
  instructions, and whole programs.
- `isa.dfy` — opcodes, the instruction table and the decoder `Decode`, which
  follows `run`'s order: CALL, RET, then bit 5 (ALU), then the arity field.
- `alu.dfy`, `bits.dfy` — ALU operations on unbounded Python ints; `|`, `^`,
  `<<` and `>>` are proved against a two's-complement bit reading (`OrBit`,
  `XorBit`, `ShlBit`, `ShrBit`), and the shifts against multiplication and
  floor division by a power of two. `XorInvolution` and `OrIdempotent` are
  sanity checks of that bitwise model, not promises of cpu.py.
- `loader.dfy` — the line filter and `int(text, 2)` of `load`, and its loop
  over the lines: `Collect` for any reading of one line, `ParseLines` for
  `ParseLine`.
- `intended.dfy` — the two defects listed under Findings.
- `wrappers.dfy`, `faults.dfy` — `Option`, and why a run stopped other than by HLT (an exception, or a DIV quotient the model does not follow).

The model follows the code as written: `push` copies `ram[operand_a]`, `call`
loads `SP` (not `pc`) from `ram[operand_a]`, register 7 is loaded from
`ram[0xF4]` (so it is 0) and is never the stack pointer, and ALU results are
never truncated to 8 bits. Where an exception ends the Python process, the
model's status becomes `Faulted(kind)` and nothing else changes. `hlt` sets
the status `Halted`. PRN appends the register's value to `output`.

## Model

| member | source | states |
|---|---|---|
| Cpu.CPU.constructor | cpu.py:9-28 | RAM and registers all 0 (register 7 is loaded from `ram[0xF4]`, which is 0), `pc` 0, `SP` 0xF4, `fl` None; equals `Machine.Init()` |
| Cpu.CPU.RamRead | cpu.py:30-31 | returns the RAM cell at the address |
| Cpu.CPU.RamWrite | cpu.py:33-34 | RAM afterwards is the old RAM with exactly that cell replaced |
| Cpu.CPU.Hlt | cpu.py:36-37 | the machine's status becomes Halted; nothing else changes |
| Cpu.CPU.Ldi | cpu.py:39-41 | `reg[a] := b`, `pc` + 3; RAM, `SP`, `fl`, output and other registers unchanged (frame) |
| Cpu.CPU.Prn | cpu.py:43-45 | output gains exactly `reg[a]` at its end, `pc` + 2, nothing else changes |
| Cpu.CPU.Push | cpu.py:47-54 | `SP` − 1, the cell at the new `SP` receives the old `ram[a]`, `pc` + 2; registers and `fl` unchanged |
| Cpu.CPU.Pop | cpu.py:56-62 | `reg[a]` receives `ram[SP]`, `SP` + 1, `pc` + 2; RAM unchanged |
| Cpu.CPU.Call | cpu.py:64-73 | `ram[old SP − 1]` holds `pc` + 2, then `SP` is loaded from `ram[a]` (read after that store); `pc` and registers unchanged |
| Cpu.CPU.Ret | cpu.py:75-78 | `pc := ram[SP]`, `SP` + 1; RAM and registers unchanged |
| Cpu.CPU.Jmp | cpu.py:80-81 | `pc := reg[a]`, nothing else changes |
| Cpu.CPU.Jeq | cpu.py:83-87 | jumps to `reg[a]` iff `fl` is 0b010, else `pc` + 2; `reg[a]` must exist only when the jump is taken |
| Cpu.CPU.Jne | cpu.py:89-93 | jumps to `reg[a]` iff `fl` is not 0b010 (None included), else `pc` + 2 |
| Cpu.CPU.AluOp | cpu.py:117-172 | the new state is `Machine.AluDispatch` of the old one: the if-chain over the opcode constants, `pc` + 3 after a supported op, no change but the status on a raise |
| Cpu.CPU.Execute | cpu.py:212-230 | runs one decoded instruction as its handler, or faults with IndexOutOfRange where the handler would index outside RAM or the registers |
| Cpu.CPU.Step | cpu.py:194-230 | one loop iteration of `run` (fetch of `ram[pc]`, `ram[pc+1]`, `ram[pc+2]`, decode, dispatch) equals `Machine.Step` of the old state; the arrays stay the same objects |
| Cpu.CPU.Run | cpu.py:194-230 | after the loop the state equals `Machine.Run(old state, fuel)`: steps until halted, faulted or out of fuel |
| Cpu.CPU.Load | cpu.py:95-115 | `ok` iff no line raised and at most 256 values were kept; RAM holds the kept values from address 0 (as many as fit) and is otherwise unchanged |
| Machine.Step | cpu.py:194-230 | a step never changes the size of RAM or the number of registers |
| Properties.StoppedIsFinal | cpu.py:36-37 | a halted or faulted machine never moves again, for any number of steps |
| Properties.RunSplit | cpu.py:194-195 | running n + m steps equals running n steps and then m more |
| Properties.RunningAfterRun | cpu.py:194-195 | a run still going at the end was going at the start and spent its fuel on running steps (a check of the fuel-bounded `Run`, which `run` itself does not have) |
| Properties.FaultChangesNothingElse | cpu.py:199-230 | an instruction that raises leaves RAM, registers, `pc`, `SP`, `fl` and output as they were |
| Properties.UnknownOpcodeFault | cpu.py:223-228 | a step faults with UnknownOpcode (KeyError) exactly when the fetched opcode does not decode |
| Properties.OnlyCmpWritesFlag | cpu.py:160-168 | a step that changes `fl` fetched the CMP opcode |
| Properties.OnlyPrnWritesOutput | cpu.py:43-45 | a step that changes the output fetched PRN and appended exactly the value of its register |
| Properties.MemoryWrittenOnlyBelowSp | cpu.py:47-73 | a step writes RAM at most at address `SP` − 1 |
| Properties.StraightLinePcAdvance | cpu.py:39-62 | LDI, PRN, PUSH, POP and ALU instructions that complete advance `pc` by their own encoded length |
| Properties.PushThenPop | cpu.py:47-62 | PUSH a then POP r: `SP` restored, `ram[SP − 1]` held `ram[a]` in between, `reg[r]` receives it, `pc` + 4, `fl` and output unchanged |
| Properties.JeqJneComplementary | cpu.py:83-93 | for any `fl`, exactly one of JEQ/JNE jumps to `reg[a]`, the other sets `pc` + 2; neither changes anything else |
| Properties.CmpEffect | cpu.py:160-172 | CMP sets `fl` to 0b010, 0b100 or 0b001 exactly for equal, less, greater; only `fl` and `pc` (+ 3) change |
| Properties.CmpLessThenJump | cpu.py:83-93 | after CMP of a smaller value, JNE is taken and JEQ falls through |
| Properties.AluWritesOnlyTarget | cpu.py:132-159 | a supported non-CMP op changes only `reg[a]` and `pc` (+ 3), or raises with nothing changed |
| Properties.UnsupportedAluOpKeepsState | cpu.py:169-170 | an unknown ALU opcode raises without changing `pc` or anything else |
| Scenarios.LdiThenPrn | cpu.py:39-45 | LDI r, v followed by PRN r prints exactly v and leaves `pc` 5 further |
| Scenarios.AddStep | cpu.py:132-133 | ADD a, b adds register b into register a, advances `pc` by 3 and changes nothing else |
| Scenarios.AddProgramPrints17 | cpu.py:194-230 | LDI R0,8; LDI R1,9; ADD R0,R1; PRN R0; HLT prints 17 and halts within five steps |
| Scenarios.UnknownOpcodeProgram | cpu.py:223-224 | a program that is one non-opcode byte stops with UnknownOpcode, registers and RAM untouched |
| Isa.Decode | cpu.py:199-230 | `run`'s dispatch order: CALL, then RET, then bit 5 sends any opcode to `alu`, then arity 0–2 looks the opcode up in the table (a missing key or an operand-count mismatch is None, the KeyError/TypeError), then arity 3 halts; an ALU result carries its own opcode, and None only arises for a non-ALU opcode of arity below 3 that is neither CALL nor RET |
| Isa.ArityIsHighBits | cpu.py:207-208 | the arity field is `(IR mod 256) div 64`; the ALU bit is bit 5 |
| Isa.TableMatchesArity | cpu.py:18-28 | every handler in the table takes as many operands as its opcode's arity field says, and none has the ALU bit |
| Isa.DecodeFails | cpu.py:207-230 | decoding fails exactly for opcodes outside the table with the ALU bit clear and arity 0–2 |
| Isa.DecodeEncode | cpu.py:18-28 | decoding the bytes of any well-formed instruction, followed by any bytes, gives it back |
| Isa.DecodeOpcode | cpu.py:210-230 | whatever decodes was stored under its own opcode, except the arity-3 halt |
| Alu.OpOfCode | cpu.py:119-130 | the ALU opcode table and `Code` are inverse |
| Alu.SupportedOpsAreAluOpcodes | cpu.py:119-130 | every supported ALU opcode has bit 5 set, so `run` sends it to `alu` |
| Alu.Compare | cpu.py:160-168 | the flag CMP writes is one of 0b010, 0b100, 0b001, each iff equal, less, greater |
| Alu.Apply | cpu.py:132-159 | the value ADD, MUL, SUB, OR, XOR, SHL and SHR store into `reg[reg_a]`, or the exception: it raises exactly for DIV (ZeroDivision or FloatDivision) and for a negative shift count |
| Alu.ApplyMeaning | cpu.py:132-157 | ADD, SUB, MUL exact on unbounded ints; OR/XOR bitwise; SHL multiplies and SHR floor-divides by 2^n; DIV and negative shift counts raise |
| Bits.OrBit | cpu.py:142-144 | bit k of the bitwise OR of x and y is set iff bit k of x or of y is set |
| Bits.XorBit | cpu.py:145-147 | bit k of `x ^ y` is bit k of x xor bit k of y |
| Bits.XorInvolution | cpu.py:145-147 | `(x ^ y) ^ y == x` |
| Bits.OrIdempotent | cpu.py:142-144 | the bitwise OR of x with itself is x |
| Bits.ShlIsMultiplication | cpu.py:150-153 | `x << n == x * 2^n` |
| Bits.ShrIsFloorDivision | cpu.py:154-157 | `x >> n` is the floor of `x / 2^n` |
| Bits.ShrShl | cpu.py:150-157 | `(x << n) >> n == x` |
| Bits.ShlBit | cpu.py:150-153 | bit k of `x << n` is bit k − n of x for k ≥ n, and clear below n |
| Bits.ShrBit | cpu.py:154-157 | bit k of `x >> n` is bit k + n of x |
| Loader.ParseBinary | cpu.py:112 | `int(text, 2)` on a stripped line: optional `0b`/`0B` prefix, binary digits with single underscores; a value is read only from text that begins and ends with a binary digit, otherwise None (ValueError) |
| Loader.ParseLine | cpu.py:106-112 | one line of `load`: skipped exactly when its first character is not '0' or '1', raises on an empty line or on text `int(_, 2)` rejects, else the value of the text before '#' stripped of whitespace |
| Loader.ParseLinesLength | cpu.py:104-113 | `ParseLines`, the values of the kept lines in order up to the first line that raises, never holds more values than there are lines: each line stores at most one |
| Loader.SkipStep | cpu.py:106 | a line that does not begin with '0' or '1' leaves the values loaded so far as they were |
| Loader.ValueStep | cpu.py:106-113 | a line that loads as a value, with room left in RAM, adds exactly that value, stored at the next address |
| Loader.ParsesAll | cpu.py:104-113 | lines that each load as a value load as exactly those values, with `ok` |
| Loader.ParseLinesPrefix | cpu.py:104-113 | more lines only extend the loaded values; nothing is added after a line that raised |
| Loader.StopsAtBadLine | cpu.py:100-115 | a line that raises ends loading with the values before it |
| Loader.StopsWhenFull | cpu.py:112-115 | a value beyond address 255 raises and leaves RAM as it was |
| Loader.DigitsOfBinaryDigits | cpu.py:112 | reading n binary digits of v with `int(_, 2)` gives v |
| Loader.ListingLineParses | cpu.py:106-112 | an 8-digit binary line followed by a `#` comment loads as its byte, whatever the comment |
| Loader.ListingRoundTrip | cpu.py:104-113 | a listing of bytes with any comments loads back exactly those bytes |
| Intended.PushStoresRamCell | cpu.py:47-54 | as written, with R0 = 5 and RAM zeroed, PUSH 0 pushes 0 |
| Intended.CallDoesNotJump | cpu.py:64-73 | as written, CALL leaves `pc` on the CALL, which executes again |
| Intended.IntendedPushPop | cpu.py:47-62 | corrected PUSH r then POP t copies register r into t and restores `SP` |
| Intended.IntendedCallRet | cpu.py:64-78 | corrected CALL r jumps to `reg[r]`; RET straight after it returns to `pc` + 2 with the caller's `SP` and RAM as CALL left it, and so does RET from a callee that keeps `SP` and the return slot |

## Left out

- `trace` (cpu.py:174-192): debug printing only.
- The file and command-line part of `load` (cpu.py:100-102, 114-115): opening `sys.argv[1]` and printing the error message. `Cpu.CPU.Load` takes the lines as a parameter and reports failure through `ok`.
- Process exit in `hlt` (cpu.py:36-37): modelled as the status `Halted`.
- The console write in `prn` (cpu.py:44): modelled as appending the value to `output`.
- Cpu.CPU.AluOp: DIV by a non-zero register leaves the model with status `Faulted(FloatDivision)` instead of storing Python's float quotient, because floating point is not modelled; DIV by 0 is the ZeroDivisionError it is in Python.
- Alu.ApplyMeaning: states DIV only as the two stopping statuses, for the same reason.
- Cpu.CPU.Step: a negative index into RAM or the registers is IndexOutOfRange here, while Python would read from the end of the list.
- Cpu.CPU.Execute: when PUSH or CALL raises, Python has already decremented `SP` (and CALL may have stored the return address); the model's fault keeps the state from before the instruction. The exception ends the process, so no later instruction sees the difference.
- Cpu.CPU.Run: `run` loops forever; the model runs at most `fuel` steps.
- Loader.ParseBinary accepts only ASCII binary digits; Python's `int` also accepts other Unicode decimal digits. It models only strings that begin with '0' or '1', the only ones `load` passes.
- Memory exhaustion from a huge SHL count is not modelled.

## Findings

| source | as written | input that shows it | evidently intended | confidence | as-written member | corrected member |
|---|---|---|---|---|---|---|
| cpu.py:47-54 | `push` copies `self.ram[operand_a]` to the stack | R0 = 5, RAM all 0: PUSH 0 pushes 0, not 5 | copy register `operand_a` (the comment at cpu.py:49-50 says "the value in the given register") | high; not executed | Intended.PushStoresRamCell | Intended.IntendedPushPop |
| cpu.py:64-73 | `call` assigns the jump target to `self.SP` and reads it from RAM | any CALL whose indices are valid: `pc` stays on the CALL, which runs again | set `pc` to the address in the register (comments at cpu.py:67 and 72) | high; not executed | Intended.CallDoesNotJump | Intended.IntendedCallRet |

The machine model (`Machine`, `Cpu`) keeps both defects so that it can be
compared line by line with cpu.py; the corrected transitions in `Intended`
carry the push/pop and call/return protocol the comments describe.
