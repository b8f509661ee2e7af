/** The `T | null` and `T | undefined` fields of the dashboard's records. */
module Optional {

  datatype Option<+T> = None | Some(value: T) {

    /** The value, or `default` when absent (JavaScript's `x ?? default`). */
    function GetOr(default: T): T
    {
      match this
      case Some(v) => v
      case None => default
    }
  }

  /** The outcome of a remote call: the decoded reply, or the error it threw. */
  datatype Result<+R> = Ok(value: R) | Err(message: string)
}
