/** Small shared datatypes and the JavaScript number idioms the game relies on. */
module Base {
  /** A value that may be absent (`undefined`/`null` in the source). */
  datatype Option<T> = None | Some(value: T)

  /** JavaScript `x || d` on a number: `0` is the only falsy number the game produces. */
  function Or(x: int, d: int): int
  {
    if x != 0 then x else d
  }

  /** JavaScript `Math.min`. */
  function Min(x: int, y: int): int
  {
    if x <= y then x else y
  }

  /** JavaScript `Math.max`. */
  function Max(x: int, y: int): int
  {
    if x >= y then x else y
  }

  /** JavaScript `Math.abs`. */
  function Abs(x: int): nat
  {
    if x < 0 then -x else x
  }

  /** The quotient of JavaScript's division truncated toward zero, `Math.trunc(a / b)`,
      for a positive divisor. */
  function JsQuot(a: int, b: int): int
    requires b > 0
  {
    if a >= 0 then a / b else -((-a) / b)
  }

  /** JavaScript `a % b` for a positive divisor: the remainder of the truncating
      division, so it takes the sign of `a` (Dafny's `%` is Euclidean and never
      negative). */
  function JsRem(a: int, b: int): (r: int)
    requires b > 0
    ensures a >= 0 ==> 0 <= r < b
    ensures a < 0 ==> -b < r <= 0
    ensures a == JsQuot(a, b) * b + r
  {
    if a >= 0 then a % b else -((-a) % b)
  }
}
