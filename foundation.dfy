/** The optional value used wherever the source has `undefined`, `null` or a missing field. */
module Wrappers {

  datatype Option<+T> = None | Some(value: T) {

    /** The value, or `default` when there is none. */
    function GetOr(default: T): T {
      match this
      case Some(v) => v
      case None => default
    }
  }
}

/**
 * JavaScript values, as far as the client inspects them: it only ever asks whether a value
 * is truthy, whether it is nullish, and whether it is a string. Arrays and objects are one
 * opaque case, since their contents are never looked at where a `Value` is used.
 */
module Js {

  datatype Value = Undefined | Null | Bool(b: bool) | Num(n: int) | Str(s: string) | Composite

  /** JavaScript truthiness: `undefined`, `null`, `false`, `0` and `""` are falsy. */
  predicate Truthy(v: Value) {
    match v
    case Undefined => false
    case Null => false
    case Bool(b) => b
    case Num(n) => n != 0
    case Str(s) => s != ""
    case Composite => true
  }

  /** What `??` and `?.` treat as absent. */
  predicate Nullish(v: Value) {
    v.Undefined? || v.Null?
  }

  /** `a || b`: the left operand when it is truthy, the right one otherwise. */
  function Or(a: Value, b: Value): (r: Value)
    ensures Truthy(r) <==> Truthy(a) || Truthy(b)
    ensures Truthy(a) ==> r == a
    ensures !Truthy(a) ==> r == b
  {
    if Truthy(a) then a else b
  }

  /** `a ?? b`: the left operand unless it is nullish. */
  function Coalesce(a: Value, b: Value): (r: Value)
    ensures Nullish(r) <==> Nullish(a) && Nullish(b)
    ensures !Nullish(a) ==> r == a
    ensures Nullish(a) ==> r == b
  {
    if Nullish(a) then b else a
  }
}

/** The error objects the gateways throw, the outcome of a gateway call, and a fetch response. */
module Http {
  import opened Wrappers

  /**
   * A thrown error: `message`, plus the `status` and `details` properties the gateways attach
   * after `new Error(...)`. `responseStatus` is `err.response.status`, which only errors thrown
   * by foreign code can carry; the gateways never set it.
   */
  datatype Error = Error(message: string, status: Option<int>, details: Option<string>, responseStatus: Option<int>)

  /** `new Error(message)` with no extra properties. */
  function Plain(message: string): (e: Error)
    ensures e.message == message && e.status.None? && e.details.None? && e.responseStatus.None?
  {
    Error(message, None, None, None)
  }

  /** The outcome of an awaited call: the value it resolved to, or the error it threw. */
  datatype Reply<+T> = Ok(value: T) | Thrown(error: Error)

  /**
   * A fetch response: the status, the body as `response.text()` returns it (read on the error
   * path) and the body as `response.json()` parses it (read on the success path). Where that
   * parse can throw, `B` is a `Reply` whose `Thrown` case is the parse error.
   */
  datatype Response<+B> = Response(status: int, text: string, json: B)

  /** `response.ok`. */
  predicate IsOk(status: int) {
    200 <= status <= 299
  }
}
