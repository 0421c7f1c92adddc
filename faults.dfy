/**
 * Why the machine stopped other than by HLT: a Python exception that ends the
 * process, or (FloatDivision) a quotient the model does not follow.
 */
module Faults {
  datatype Fault =
    | IndexOutOfRange     // IndexError: a RAM or register index outside the list
    | UnknownOpcode       // KeyError: the opcode is not in the instruction table
    | UnsupportedAluOp    // the exception raised by `alu` for an unknown operation
    | NegativeShiftCount  // ValueError: SHL or SHR by a negative count
    | ZeroDivision        // ZeroDivisionError: DIV by a register holding 0
    | FloatDivision       // DIV by a non-zero value: the register would hold a float, not followed here
}
