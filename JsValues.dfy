/** The few pieces of JavaScript semantics that the staff page relies on:
    truthiness of optional strings, numbers and ids, the
    `err instanceof Error ? err.message : fallback` idiom, and the way
    `Promise.all` combines two fetches. */
module JsValues {
  import opened Wrappers

  /** `v || fallback` for a string field that may be null or undefined:
      the empty string is falsy, like a missing value. */
  function OrString(v: Option<string>, fallback: string): string {
    if v.Some? && v.value != "" then v.value else fallback
  }

  /** `v || fallback` for a numeric field that may be null or undefined:
      zero is falsy (NaN is not modelled). */
  function OrNumber(v: Option<real>, fallback: real): real {
    if v.Some? && v.value != 0.0 then v.value else fallback
  }

  /** Truthiness of a `number | null` id: `null` and `0` are both falsy. */
  predicate TruthyId(id: Option<int>)
    ensures TruthyId(id) <==> id != None && id != Some(0)
  {
    id.Some? && id.value != 0
  }

  /** A value thrown by an awaited call: an `Error` object with its
      message, or anything else. */
  datatype Thrown = ErrorObject(message: string) | OtherValue

  /** `err instanceof Error ? err.message : fallback`. */
  function MessageOf(err: Thrown, fallback: string): (m: string)
    ensures err.ErrorObject? ==> m == err.message
    ensures err.OtherValue? ==> m == fallback
  {
    match err
    case ErrorObject(msg) => msg
    case OtherValue => fallback
  }

  /** `Promise.all([a, b])` for two calls that have settled with `a` and
      `b`: it resolves with both values when both succeed, and otherwise
      rejects with the rejection that happened first in time;
      `aRejectsFirst` says which one that was when both rejected. */
  function PromiseAll<A, B, E>(a: Result<A, E>, b: Result<B, E>, aRejectsFirst: bool): (r: Result<(A, B), E>)
    ensures r.Success? <==> a.Success? && b.Success?
    ensures r.Success? ==> r.value.0 == a.value && r.value.1 == b.value
    ensures a.Failure? && (b.Success? || aRejectsFirst) ==> r == Failure(a.error)
    ensures b.Failure? && (a.Success? || !aRejectsFirst) ==> r == Failure(b.error)
  {
    match (a, b)
    case (Success(x), Success(y)) => Success((x, y))
    case (Failure(e), Success(_)) => Failure(e)
    case (Success(_), Failure(e)) => Failure(e)
    case (Failure(e1), Failure(e2)) => if aRejectsFirst then Failure(e1) else Failure(e2)
  }
}
