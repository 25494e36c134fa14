/** Small shared vocabulary: optional values, the result of an asynchronous call
    that may throw, the thrown values themselves, and the toast notifications the
    pages show. */
module Common {

  datatype Option<+T> = None | Some(value: T)

  /** What a JavaScript value thrown by a call looks like to its catcher.
      `Error(m)` is an `Error` instance with message `m`; `Raw(s)` is any other
      thrown value (the identity provider rejects with bare strings). */
  datatype Exception = Error(message: string) | Raw(value: string)

  /** A call that either resolves with a value or throws. */
  datatype Outcome<+T> = Ok(value: T) | Throw(exn: Exception)

  /** `x instanceof Error ? x.message : fallback`, as the pages word their failure toasts. */
  function MessageOr(e: Exception, fallback: string): (m: string)
    ensures e.Error? ==> m == e.message
    ensures e.Raw? ==> m == fallback
  {
    match e
    case Error(msg) => msg
    case Raw(_) => fallback
  }

  datatype Variant = Default | Destructive

  /** One toast notification shown to the user. */
  datatype Toast = Toast(variant: Variant, title: string, description: string)

  function SuccessToast(description: string): Toast
  {
    Toast(Default, "Success", description)
  }

  function ErrorToast(description: string): Toast
  {
    Toast(Destructive, "Error", description)
  }

  /** JavaScript's `s.startsWith(prefix)`. */
  predicate StartsWith(s: string, prefix: string)
  {
    |prefix| <= |s| && s[..|prefix|] == prefix
  }
}
