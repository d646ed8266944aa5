// Python built-ins on floats and lists that the core relies on:
// `min`, `max` and slicing `xs[:n]` (which also accepts a negative bound).

module Builtins {

  function Min(a: real, b: real): (r: real)
    ensures r <= a && r <= b
    ensures r == a || r == b
  {
    if a <= b then a else b
  }

  function Max(a: real, b: real): (r: real)
    ensures r >= a && r >= b
    ensures r == a || r == b
  {
    if a >= b then a else b
  }

  /** `max(lo, min(value, hi))`: the clamp idiom of the physics layer. */
  function Clamp(lo: real, value: real, hi: real): (r: real)
    requires lo <= hi
    ensures lo <= r <= hi
    ensures lo <= value <= hi ==> r == value
    ensures value < lo ==> r == lo
    ensures value > hi ==> r == hi
  {
    Max(lo, Min(value, hi))
  }

  lemma ClampMonotone(lo: real, a: real, b: real, hi: real)
    requires lo <= hi && a <= b
    ensures Clamp(lo, a, hi) <= Clamp(lo, b, hi)
  {
  }

  /** A clamped product of three non-negative factors grows with the first two. */
  lemma ClampedProductMonotone(lo: real, hi: real, a1: real, f1: real, a2: real, f2: real, c: real)
    requires lo <= hi
    requires 0.0 <= a1 <= a2 && 0.0 <= f1 <= f2 && c >= 0.0
    ensures Clamp(lo, a1 * f1 * c, hi) <= Clamp(lo, a2 * f2 * c, hi)
  {
    MulBoundedAbove(a1, a2, f1, f2);
    MulMonotone(a1 * f1, a2 * f2, c);
    ClampMonotone(lo, a1 * f1 * c, a2 * f2 * c, hi);
  }

  /** Python `xs[:n]` for an integer `n`, negative bounds counting from the end. */
  function SliceTo<T>(xs: seq<T>, n: int): (r: seq<T>)
    ensures n >= 0 ==> |r| == if n <= |xs| then n else |xs|
    ensures n < 0 ==> |r| == if -n <= |xs| then |xs| + n else 0
    ensures r == xs[..|r|]
  {
    if n >= 0 then
      (if n <= |xs| then xs[..n] else xs)
    else
      (if -n <= |xs| then xs[..|xs| + n] else [])
  }

  // Small facts of nonlinear real arithmetic, proved once and reused.

  lemma MulPositive(a: real, b: real)
    requires a > 0.0 && b > 0.0
    ensures a * b > 0.0
  {
  }

  lemma MulNonNegative(a: real, b: real)
    requires a >= 0.0 && b >= 0.0
    ensures a * b >= 0.0
  {
  }

  /** Bounds on two non-negative factors bound their product. */
  lemma MulBoundedAbove(a: real, bigA: real, c: real, bigC: real)
    requires 0.0 <= a <= bigA && 0.0 <= c <= bigC
    ensures a * c <= bigA * bigC
  {
    MulMonotone(a, bigA, c);
    MulMonotone(c, bigC, bigA);
  }

  /** A factor of at least 1 never shrinks a non-negative value. */
  lemma MulAtLeast(a: real, b: real)
    requires a >= 1.0 && b >= 0.0
    ensures a * b >= b
  {
    MulNonNegative(a - 1.0, b);
    assert (a - 1.0) * b == a * b - b;
  }

  lemma MulMonotone(a: real, b: real, c: real)
    requires a <= b && c >= 0.0
    ensures a * c <= b * c
  {
  }

  lemma MulStrictMonotone(a: real, b: real, c: real)
    requires a < b && c > 0.0
    ensures a * c < b * c
  {
  }

  /** Between non-negative reals, squaring preserves the order both ways. */
  lemma SquareMonotone(a: real, b: real)
    requires a >= 0.0 && b >= 0.0
    ensures a <= b <==> a * a <= b * b
  {
    assert b * b - a * a == (b - a) * (b + a);
    if a <= b {
      MulNonNegative(b - a, b + a);
    } else {
      MulPositive(a - b, a + b);
      assert a * a - b * b == (a - b) * (a + b);
    }
  }

  /** `a * b > 0` stated of a named product `p`, which keeps the solver off squares. */
  lemma ProductPositive(a: real, b: real, p: real)
    requires a > 0.0 && b > 0.0 && p == a * b
    ensures p > 0.0
  {
  }

  /** `x ** 2`: never negative, and positive for a non-zero `x`. */
  function Square(x: real): (r: real)
    ensures r >= 0.0
    ensures x != 0.0 ==> r > 0.0
  {
    var p := x * x;
    if x > 0.0 then ProductPositive(x, x, p); p
    else if x < 0.0 then ProductPositive(-x, -x, (-x) * (-x)); assert p == (-x) * (-x); p
    else p
  }

  lemma DivPositive(x: real, d: real)
    requires x > 0.0 && d > 0.0
    ensures x / d > 0.0
  {
  }

  lemma DivNonNegative(x: real, d: real)
    requires x >= 0.0 && d > 0.0
    ensures x / d >= 0.0
  {
  }

  /** `c * x * d` grows with `x` for non-negative `c` and `d`. */
  lemma ScaleMonotone(c: real, x: real, y: real, d: real)
    requires c >= 0.0 && d >= 0.0 && x <= y
    ensures c * x * d <= c * y * d
  {
    MulNonNegative(c, d);
    MulNonNegative(y - x, c * d);
    assert c * y * d - c * x * d == (y - x) * (c * d);
  }

  /** A product of three positive factors is positive. */
  lemma TriplePositive(a: real, b: real, c: real)
    requires a > 0.0 && b > 0.0 && c > 0.0
    ensures a * b * c > 0.0
  {
    MulPositive(a, b);
    MulPositive(a * b, c);
  }

  /** A quotient of positives below its divisor is below one. */
  lemma DivBelowOne(x: real, d: real)
    requires d > 0.0 && x < d
    ensures x / d < 1.0
  {
    assert x / d * d == x;
    if x / d >= 1.0 {
      MulMonotone(1.0, x / d, d);
    }
  }

  /** A named product `p` of `a` and `b` may stand for `a * b` inside a larger product. */
  lemma MulSubstitute(a: real, b: real, c: real, p: real)
    requires p == a * b
    ensures p * c == a * b * c
  {
  }

  /** The last two factors of a product may be swapped. */
  lemma MulSwap(a: real, b: real, c: real)
    ensures a * b * c == a * c * b
  {
  }

  /** Equal left factors give equal products. */
  lemma MulEqual(a: real, b: real, c: real)
    requires a == b
    ensures a * c == b * c
  {
  }

  /** Scaling by a factor equal to one changes nothing. */
  lemma MulByOne(x: real, c: real)
    requires c == 1.0
    ensures x * c == x
  {
  }

  /** Concatenation is associative (stated once so loop proofs need not rediscover it). */
  lemma AppendAssociative<T>(a: seq<T>, b: seq<T>, c: seq<T>)
    ensures a + (b + c) == (a + b) + c
  {
  }

  /** One more group of `p` items: `(n - 1) * p + p == n * p`. */
  lemma MulSuccessor(n: int, p: int)
    ensures (n - 1) * p + p == n * p
  {
  }
}
