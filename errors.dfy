/**
 * Error kinds of pkg/errors/errors.go, plus the Go runtime panics
 * (index out of range, failed type assertion) that the handlers can raise.
 * Every Go `panic(err)` and every `(value, error)` return becomes a
 * `Result` or an `Outcome` carrying one of these.
 */
module Errors {

  datatype Error =
    | InvalidAddress(address: bv16)   // NewAccessError / NewReadError / NewWriteError
    | InvalidMnemonic                 // NewInvalidMnemonicError
    | InvalidOperand                  // NewInvalidOperandError, NewOperandSymbolError, get/set operand errors
    | InvalidSymbol                   // NewInvalidSymbolError
    | InvalidInstruction(opcode: bv8) // NewUnknownOPCodeError
    | IllegalInstruction(opcode: bv8) // NewIllegalInstructionError
    | NotImplemented                  // NewNotImplementedError
    | IndexOutOfRange                 // Go runtime panic: slice or array index out of range
    | FailedTypeAssertion             // Go runtime panic: x.(T) on a value that is not a T

  datatype Option<+T> = None | Some(value: T)

  datatype Result<+T> = Success(value: T) | Failure(error: Error)

  /** The result of an operation that returns nothing but may fail. */
  datatype Outcome = Pass | Fail(error: Error)
}
