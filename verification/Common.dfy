/** Small value types shared by every component of the model. */
module Common {

  /** A nullable column or argument. */
  datatype Option<+T> = None | Some(value: T)

  /** Row identifiers. A table is a sequence of rows and a row's identifier is its position,
      so every insertion draws an identifier that no row has used before, as `uuid4` does. */
  type Id = nat

  /** Instants and durations; only their order and differences matter. */
  type Time = int

  /** The result of a service call: a value, or the application error it raised. */
  datatype Result<+T, +E> = Ok(value: T) | Raised(error: E) {
    predicate IsFailure() {
      Raised?
    }

    function PropagateFailure<U>(): Result<U, E>
      requires Raised?
    {
      Raised(error)
    }

    function Extract(): T
      requires Ok?
    {
      value
    }
  }

  /** `at_or_after(now, deadline)` for a nullable deadline. */
  predicate Due(deadline: Option<Time>, now: Time) {
    deadline.Some? && now >= deadline.value
  }
}
