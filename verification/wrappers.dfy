/** Optional values and JavaScript-style outcomes shared by every module.
    A thrown `Error` is modelled by its message string, which is all the
    application ever reads of it. */
module Wrappers {

  /** `T | null`, `T | undefined`, or an optional property `k?: T`. */
  datatype Option<+T> = None | Some(value: T) {

    /** The value, or `default` when absent (the `x ?? default` idiom). */
    function GetOr(default: T): (r: T)
      ensures Some? ==> r == value
      ensures None? ==> r == default
    {
      match this
      case Some(v) => v
      case None => default
    }
  }

  /** The outcome of an operation that may throw an `Error(message)`. */
  datatype Result<+T> = Ok(value: T) | Err(message: string)

  /** The outcome of an effect performed on the environment's behalf
      (a storage call): it either completes or throws with a message. */
  datatype Effect = Completes | Throws(message: string)

  /** JavaScript truthiness of an optional string: `null`, `undefined`
      and `""` are falsy, every other string is truthy. */
  predicate Truthy(s: Option<string>)
  {
    s.Some? && s.value != ""
  }

  /** `s || fallback` for an optional string. */
  function OrElse(s: Option<string>, fallback: string): (r: string)
    ensures Truthy(s) ==> r == s.value
    ensures !Truthy(s) ==> r == fallback
  {
    if Truthy(s) then s.value else fallback
  }
}
