/**
  Failure-carrying wrappers shared by every module, and the exceptions of the
  audit pipeline as values.
 */
module Common {

  datatype Option<+T> = None | Some(value: T) {
    function GetOr(default: T): T {
      match this
      case Some(v) => v
      case None => default
    }
  }

  /** A value or the exception the Python code would raise instead of returning it. */
  datatype Result<+T> = Ok(value: T) | Err(error: Error) {
    predicate IsFailure() {
      Err?
    }

    function PropagateFailure<U>(): Result<U>
      requires Err?
    {
      Err(error)
    }

    function Extract(): T
      requires Ok?
    {
      value
    }
  }

  /**
    The exceptions the modelled code raises. `ProviderFailure` stands for
    anything a provider, HTTP or file-system call raises (network error,
    timeout, non-2xx status, malformed transport reply); the core never
    catches those, it only propagates them. `AttributeError` names the attribute
    looked up on a value of the wrong type (`.get` on a list, say).
   */
  datatype Error =
    | ValueError(message: string)
    | ImportError(message: string)
    | AttributeError(attribute: string)
    | TypeError(message: string)
    | KeyError(key: string)
    | IndexError(message: string)
    | ProviderFailure(detail: string)

  /** Python truthiness of an optional string: `None` and `""` are falsy. */
  predicate Truthy(s: Option<string>) {
    s.Some? && s.value != ""
  }
}
