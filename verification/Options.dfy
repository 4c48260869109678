/** The two small result types every module of the model shares. */
module Options {

  datatype Option<+T> = None | Some(value: T)

  /** An operation either yields a value or is refused; a refusal writes nothing. */
  datatype Result<+T, +E> = Ok(value: T) | Err(error: E) {
    predicate IsFailure() {
      Err?
    }

    function PropagateFailure<U>(): Result<U, E>
      requires Err?
    {
      Err(error)
    }

    function Extract(): T
      requires Ok?
    {
      value
    }
  }
}
