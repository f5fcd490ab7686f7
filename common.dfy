/** Shared vocabulary: optional values, the outcome of a call into a
    collaborator, and the few Python conversions the bot relies on. */
module Common {

  datatype Option<+T> = None | Some(value: T)

  /** The outcome of a call into code outside the model: either it raised an
      exception that escaped to the caller, or it returned a value. */
  datatype Reply<+T> = Raised | Returned(value: T)

  /** A constructor that may raise (ValueError in the source). */
  datatype Result<+T> = Ok(value: T) | Err(message: string)

  function Min(a: int, b: int): int { if a <= b then a else b }

  function Max(a: int, b: int): int { if a >= b then a else b }

  /** Python truthiness of an optional string: None and "" are false. */
  predicate Truthy(s: Option<string>) { s.Some? && s.value != "" }

  /** Python truthiness of an optional number: None and 0.0 are false. */
  predicate TruthyReal(x: Option<real>) { x.Some? && x.value != 0.0 }

  /** Python's `a or b` on optional strings. */
  function OrElse(a: Option<string>, b: Option<string>): (r: Option<string>)
    ensures Truthy(r) <==> Truthy(a) || Truthy(b)
    ensures Truthy(a) ==> r == a
  {
    if Truthy(a) then a else b
  }

  /** Python's `int(x)` on a float: truncation toward zero. */
  function Trunc(x: real): (r: int)
    ensures 0.0 <= x ==> 0 <= r && r as real <= x < r as real + 1.0
    ensures x < 0.0 ==> r <= 0 && r as real - 1.0 < x <= r as real
  {
    if x >= 0.0 then x.Floor else -((-x).Floor)
  }

  /** Python's `b ** i` for a non-negative integer exponent. */
  function Pow(b: int, i: nat): int
  {
    if i == 0 then 1 else b * Pow(b, i - 1)
  }
}
