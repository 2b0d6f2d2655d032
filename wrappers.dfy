/** Shared value types: optional values, handler results and the few JavaScript
    value semantics (truthiness, strict equality) the handlers rely on. */
module Wrappers {

  datatype Option<+T> = None | Some(value: T) {
    function GetOr(default: T): T {
      match this
      case Some(v) => v
      case None => default
    }
  }

  /** How a handler fails: an HTTP response with a status code, or an Error thrown
      to the caller (the service layer has no status codes of its own). */
  datatype Failure = Http(status: int, message: string) | Thrown(message: string)

  datatype Result<+T> = Ok(value: T) | Err(failure: Failure)

  /** A JavaScript value as it arrives in a request body. Numbers are modelled as
      integers; floating point is not modelled. */
  datatype Js = Undefined | Null | Bool(b: bool) | Num(n: int) | Str(s: string)

  /** JavaScript truthiness: `undefined`, `null`, `false`, `0` and `""` are falsy. */
  predicate Truthy(v: Js) {
    match v
    case Undefined => false
    case Null => false
    case Bool(b) => b
    case Num(n) => n != 0
    case Str(s) => s != ""
  }

  /** JavaScript strict equality `===`: same type and same value, no coercion. */
  predicate StrictEquals(a: Js, b: Js) {
    a == b
  }

  /** A string field that may be absent is present for `!x` checks only when non-empty. */
  predicate Present(s: Option<string>) {
    s.Some? && s.value != ""
  }

  lemma StrictEqualsNoCoercion(n: int, s: string)
    ensures !StrictEquals(Num(n), Str(s))
  {
  }
}
