/** Failure-carrying datatypes shared by the whole model.

    `Result` stands for Rust's `Result<T, E>`; `Outcome` records whether a
    call returned at all or panicked (an `unwrap` or `assert!` that fired).
 */
module Results {

  datatype Option<+T> = None | Some(value: T)

  datatype Result<+T, +E> = Ok(value: T) | Err(error: E) {
    /** Applies `f` to the error and keeps a success unchanged (Rust's `map_err`). */
    function MapErr<E2>(f: E -> E2): (r: Result<T, E2>)
      ensures r.Ok? <==> Ok?
      ensures Ok? ==> r == Ok(value)
      ensures Err? ==> r == Err(f(error))
    {
      match this
      case Ok(v) => Ok(v)
      case Err(e) => Err(f(e))
    }
  }

  /** A call either returns a value or panics. */
  datatype Outcome<+T> = Returned(value: T) | Panicked

  /** Rust's `unwrap` on a result produced by the platform. */
  function Unwrap<T, E>(r: Result<T, E>): (o: Outcome<T>)
    ensures o.Returned? <==> r.Ok?
    ensures o.Returned? ==> o.value == r.value
  {
    match r
    case Ok(v) => Returned(v)
    case Err(_) => Panicked
  }
}
