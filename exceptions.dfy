/**
  The C++ exceptions the core throws (`std::invalid_argument`, and the
  `std::out_of_range` of `std::stoi`), and the optional
  values that stand for nullable `shared_ptr`s.
 */
module Exceptions {

  /** The exceptions thrown by the core, with their `what()` text. */
  datatype Exception = InvalidArgument(what: string) | OutOfRange(what: string)

  /** A value, or the exception thrown instead of producing it. */
  datatype Result<+T> = Ok(value: T) | Throw(error: Exception) {

    predicate IsFailure() {
      Throw?
    }

    function PropagateFailure<U>(): Result<U>
      requires Throw?
    {
      Throw(error)
    }

    function Extract(): T
      requires Ok?
    {
      value
    }
  }

  /** A `shared_ptr` that may be `nullptr`. */
  datatype Option<+T> = None | Some(value: T)
}
