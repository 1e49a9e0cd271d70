/** Success-or-label results, usable with `:-` the way the program uses `?`. */
module Results {

  datatype Option<+T> = None | Some(value: T)

  /** Either a value or the label of the check that failed. */
  datatype Result<+T> = Ok(value: T) | Err(error: string) {

    predicate IsFailure() {
      Err?
    }

    function PropagateFailure<U>(): Result<U>
      requires Err?
    {
      Err(error)
    }

    function Extract(): T
      requires Ok?
    {
      value
    }
  }
}
