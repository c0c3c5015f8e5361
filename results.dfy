/** Outcomes of the scripts' operations: a value, or the Python exception that ends the run. */
module Results {

  /** The exceptions the modelled code can raise on its own inputs. */
  datatype Exception =
    | ZeroDivisionError  // 1.0 / gamma with gamma == 0
    | AssertionError     // a failed `assert` statement
    | KeyError           // a paper name missing from a size table
    | ValueError         // Image.new asked for a negative size
    | TypeError          // subscripting the None that getbbox returns for an all-black image

  datatype Result<+T> = Ok(value: T) | Err(error: Exception)
  {
    predicate IsFailure() { Err? }

    function PropagateFailure<U>(): Result<U>
      requires Err?
    {
      Err(error)
    }

    function Extract(): T
      requires Ok?
    {
      value
    }
  }

  datatype Option<+T> = None | Some(value: T)
}
