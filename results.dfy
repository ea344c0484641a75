/** Optional values and results: the model's stand-ins for TypeScript's
    `T | undefined` / `T | null` and for a promise that resolves or rejects. */
module Results {

  datatype Option<+T> = None | Some(value: T) {

    /** The value when present, otherwise `default` (the `x || d` idiom). */
    function GetOr(default: T): T
    {
      match this
      case Some(v) => v
      case None => default
    }
  }

  datatype Result<+R, +E> = Ok(value: R) | Err(error: E)
}
