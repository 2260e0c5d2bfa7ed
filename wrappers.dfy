/** Failure-compatible result types shared by the whole model. */
module Wrappers {

  datatype Option<+T> = None | Some(value: T)

  datatype Result<+T, +E> = Success(value: T) | Failure(error: E) {
    predicate IsFailure() { Failure? }

    function PropagateFailure<U>(): Result<U, E>
      requires Failure?
    {
      Failure(error)
    }

    function Extract(): T
      requires Success?
    {
      value
    }
  }
}

/** The Python exceptions that the modelled testbench code can raise. */
module PyExceptions {

  datatype Exception =
    | AssertionError   // a failed `assert`
    | ValueError       // an x or z bit where an integer is needed
    | StructError      // `struct.unpack` given the wrong number of bytes
    | OverflowError    // `struct.pack` given a value outside single precision
    | TimeoutError     // the done-polling budget ran out
}
