/** Failures raised by the conversion engine, and the Result/Outcome wrappers
    that carry them instead of Python exceptions. */
module Errors {

  datatype Error =
    | DivisionByZero              // Python's ZeroDivisionError on a true division
    | MeasureMismatch             // converting between units of different measures
    | Unregistered                // a unit whose measure was never set (AttributeError on None)
    | DuplicateUnit(name: string) // a measure already holds a unit of that name
    | NoTransform                 // no transformation registered from one measure to another
    | MissingProperty(property: string) // an element lacks a property a transform reads
    | InvalidOperand              // arithmetic with an operand that is neither a number nor an element

  datatype Result<+T> = Ok(value: T) | Err(error: Error) {
    predicate IsFailure() { Err? }
    function PropagateFailure<U>(): Result<U> requires Err? { Err(error) }
    function Extract(): T requires Ok? { value }
  }

  datatype Outcome = Pass | Fail(error: Error)

  datatype Option<+T> = None | Some(value: T)
}
