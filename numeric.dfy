/** Numeric conventions shared by the whole model.
    Java `double` values are modelled as exact `real`s; the only IEEE special value that
    the engine can produce and expose, NaN (a 0/0 ratio), is made explicit by `Value`. */
module Numeric {

  /** A Java `double` result that may be NaN. */
  datatype Value = Num(v: real) | NaN {

    /** Java's `a > b`: false whenever `a` is NaN. */
    predicate Greater(b: real) {
      Num? && v > b
    }
  }

  datatype Option<+T> = None | Some(value: T)

  datatype Result<+T, +E> = Success(value: T) | Failure(error: E)

  /** Java's `/` on doubles for a ratio whose denominator may be zero: 0/0 is NaN.
      (The numerators used here are never non-zero over a zero denominator.) */
  function Ratio(num: real, den: real): (r: Value)
    ensures r.NaN? <==> den == 0.0
    ensures r.Num? ==> r.v * den == num
  {
    if den == 0.0 then NaN else Num(num / den)
  }

  /** Java's `/` on `int`, which truncates toward zero (Dafny's `/` is Euclidean). */
  function JavaIntDiv(a: int, b: int): (q: int)
    requires b > 0
    ensures 0 <= a ==> q * b <= a < q * b + b
    ensures a < 0 ==> q * b - b < a <= q * b
  {
    if a >= 0 then a / b else -((-a) / b)
  }

  /** Java's `(int)` cast of a double, which truncates toward zero. */
  function TruncateToInt(x: real): (n: int)
    ensures 0.0 <= x ==> n as real <= x < n as real + 1.0
    ensures x < 0.0 ==> n as real - 1.0 < x <= n as real
  {
    if x >= 0.0 then x.Floor else -((-x).Floor)
  }

  /** The sign of a product of reals: non-negative factors give a non-negative product,
      positive ones a positive product, and a positive factor keeps the sign of the other. */
  lemma ProductSign(a: real, b: real)
    ensures 0.0 <= a && 0.0 <= b ==> 0.0 <= a * b
    ensures 0.0 < a && 0.0 < b ==> 0.0 < a * b
    ensures 0.0 < a && b < 0.0 ==> a * b < 0.0
  {
  }

  /** Multiset inclusion is transitive. */
  lemma MultisetTransitive<T>(a: multiset<T>, b: multiset<T>, c: multiset<T>)
    requires a <= b && b <= c
    ensures a <= c
  {
  }

  function Min(a: int, b: int): (m: int)
    ensures m <= a && m <= b && (m == a || m == b)
  {
    if a <= b then a else b
  }

  function MaxReal(a: real, b: real): (m: real)
    ensures a <= m && b <= m && (m == a || m == b)
  {
    if a >= b then a else b
  }

  function MinReal(a: real, b: real): (m: real)
    ensures m <= a && m <= b && (m == a || m == b)
  {
    if a <= b then a else b
  }
}
