/** The optional-value type shared by every module of the model. */
module Wrappers {

  /** A value that may be absent: a missing dictionary entry, or an operation that raised. */
  datatype Option<+T> = None | Some(value: T)
  {
    /** The value, or `default` when there is none (Python's `d.get(k, default)`). */
    function GetOr(default: T): T
    {
      match this
      case Some(v) => v
      case None => default
    }

    /** This option when it holds a value, otherwise `other`. */
    function OrElse(other: Option<T>): Option<T>
    {
      match this
      case Some(_) => this
      case None => other
    }

    predicate IsFailure()
    {
      None?
    }

    function PropagateFailure<U>(): Option<U>
      requires None?
    {
      None
    }

    function Extract(): T
      requires Some?
    {
      value
    }
  }
}
