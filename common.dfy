/** Small value wrappers shared by every module of the model. */
module Common {

  /** Python's `X | None`. */
  datatype Option<+T> = None | Some(value: T) {
    function GetOr(default: T): T {
      match this
      case Some(v) => v
      case None => default
    }
  }

  /** A value or the exception the source raises instead of returning it. */
  datatype Result<+T, +E> = Success(value: T) | Failure(error: E)

  /** Python truthiness of an optional string (`if v:`): set and non-empty. */
  predicate Given(v: Option<string>) {
    v.Some? && v.value != ""
  }

  /** `a or b` on two Python strings: the first unless it is empty. */
  function OrElse(a: string, b: string): (r: string)
    ensures r == a || r == b
    ensures r == "" <==> (a == "" && b == "")
    ensures a != "" ==> r == a
  {
    if a != "" then a else b
  }
}
