/** Configuration lookups as the templates perform them: `configuration[key]`
    yields null for an absent key, and `??` supplies a fallback; and the
    result of an operation that may throw. */
module Configuration {

  /** The value of one configuration key, absent (null) or present. */
  datatype Option<T> = None | Some(value: T) {

    /** The C# `??` operator: the value when present, otherwise the fallback. */
    function OrElse(fallback: T): T {
      match this
      case Some(v) => v
      case None => fallback
    }
  }

  /** The value an operation returns, or the exception it throws. */
  datatype Result<T, E> = Ok(value: T) | Err(error: E)
}
