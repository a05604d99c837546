/** Optional values and the JavaScript notion of a "truthy" string, shared by every module. */
module Base {

  /** `None` stands for JavaScript's `null`/`undefined`, `Some(v)` for a present value. */
  datatype Option<+T> = None | Some(value: T) {
    function GetOr(default: T): T {
      match this
      case Some(v) => v
      case None => default
    }
  }

  /** A nullable string is truthy when it is present and not the empty string. */
  predicate Truthy(s: Option<string>) {
    s.Some? && s.value != ""
  }

  /** JavaScript's `a || b` on strings: `a` when it is non-empty, otherwise `b`. */
  function OrElse(a: string, b: string): (r: string)
    ensures a != "" ==> r == a
    ensures a == "" ==> r == b
  {
    if a != "" then a else b
  }

  /** `x?.message || fallback` for an optional server message. */
  function MessageOr(message: Option<string>, fallback: string): (r: string)
    ensures Truthy(message) ==> r == message.value
    ensures !Truthy(message) ==> r == fallback
  {
    if Truthy(message) then message.value else fallback
  }

  /** The outcome of one HTTP call, as the client sees it. */
  datatype CallOutcome =
    | Ok
    | HttpError(status: int, message: Option<string>)
    | NetworkError
  {
    predicate IsForbidden() { HttpError? && status == 403 }

    /** `err?.response?.data?.message`, absent for a transport failure. */
    function ServerMessage(): Option<string> {
      if HttpError? then message else None
    }
  }
}
