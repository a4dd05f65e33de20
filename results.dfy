/** Optional values and success-or-error outcomes shared by the other modules. */
module Results {

  datatype Option<+T> = None | Some(value: T) {

    /** The carried value, or `default` when there is none. */
    function GetOr(default: T): T {
      match this
      case Some(v) => v
      case None => default
    }
  }

  /** The outcome of a handler: a value, or the error the client receives. */
  datatype Result<+T, +E> = Ok(value: T) | Err(error: E)
}
