/** Values shared by the whole model: an optional value (Python's `None` or a
    value) and what one call of an external collaborator does. */
module Outcomes {

  /** A value, or Python's `None`. */
  datatype Option<T> = None | Some(value: T)

  /** One call of a collaborator: it raises an exception or returns a value. */
  datatype Outcome<T> = Raised | Returned(value: T)

  /** How a collaborator behaves over successive calls: `op(n)` is what the
      call numbered `n` (counting from 0) does. */
  type Script<T> = nat -> Outcome<T>
}
