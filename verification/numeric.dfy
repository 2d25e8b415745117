/** Python's numeric conversions, written out over Dafny's unbounded numbers. */
module Numeric {

  /** Python's `int()` applied to a float: truncation toward zero. */
  function Trunc(x: real): (n: int)
    ensures 0.0 <= x ==> 0 <= n && n as real <= x < n as real + 1.0
    ensures x < 0.0 ==> n <= 0 && n as real - 1.0 < x <= n as real
  {
    if x >= 0.0 then x.Floor else -((-x).Floor)
  }

  function Abs(x: real): real
  {
    if x < 0.0 then -x else x
  }

  function Max(a: real, b: real): real
  {
    if a < b then b else a
  }

  function Min(a: real, b: real): real
  {
    if a < b then a else b
  }

  /** How a product with a non-negative factor compares with the factor. */
  lemma ProductBounds(x: real, k: real)
    requires 0.0 <= x && 0.0 <= k
    ensures 0.0 <= x * k
    ensures k <= 1.0 ==> x * k <= x
    ensures 1.0 <= k ==> x <= x * k
  {
    assert x * k - x == x * (k - 1.0);
  }
}
