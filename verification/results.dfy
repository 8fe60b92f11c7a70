/** Failure-compatible wrappers shared by every module of the model.
    A Python call that raises is modelled as `Err(e)`; one that returns
    normally as `Ok(v)`, so `:-` plays the role of exception propagation. */
module Results {

  datatype Option<+T> = None | Some(value: T)

  datatype Result<+T, +E> = Ok(value: T) | Err(error: E) {

    predicate IsFailure() {
      Err?
    }

    function PropagateFailure<U>(): Result<U, E>
      requires Err?
    {
      Err(error)
    }

    function Extract(): T
      requires Ok?
    {
      value
    }
  }
}
