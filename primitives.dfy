/**
 * Numeric and geometric primitives shared by both prototypes.
 *
 * Both prototypes convert a clock count to pixels with the Rust idiom
 * `(n as f32 * k) as i32`, where `k` is a scale factor written with two
 * decimals (1.68 or 1.95). `as i32` truncates toward zero. This module
 * models that idiom on exact rationals: the factor is a count of
 * hundredths and the product is divided by 100 with truncation toward
 * zero. Dafny's own `/` is Euclidean, which agrees only on non-negative
 * numerators, so truncation is defined separately here.
 */
module Primitives {

  /** A vertex of a drawn polygon or the destination of a drawn instance. */
  datatype Vec2 = Vec2(x: int, y: int)

  /** `q` is `n / d` rounded toward zero. */
  ghost predicate IsTruncQuotient(q: int, n: int, d: int)
  {
    (n >= 0 ==> q * d <= n < q * d + d) &&
    (n < 0 ==> q * d - d < n <= q * d)
  }

  /** Division that rounds toward zero, as Rust's `as i32` does on a quotient. */
  function TruncDiv(n: int, d: int): (q: int)
    requires d > 0
    ensures IsTruncQuotient(q, n, d)
    ensures n >= 0 ==> q >= 0
    ensures n <= 0 ==> q <= 0
  {
    if n >= 0 then
      EuclideanBounds(n, d);
      n / d
    else
      EuclideanBounds(-n, d);
      -((-n) / d)
  }

  /** Euclidean division of a non-negative numerator leaves a remainder below the divisor. */
  lemma EuclideanBounds(n: int, d: int)
    requires n >= 0 && d > 0
    ensures 0 <= n / d
    ensures (n / d) * d <= n < (n / d) * d + d
  {
    var q, r := n / d, n % d;
    assert n == q * d + r && 0 <= r < d;
  }

  /** The truncated quotient is the only integer meeting the truncation property. */
  lemma TruncQuotientUnique(q1: int, q2: int, n: int, d: int)
    requires d > 0
    requires IsTruncQuotient(q1, n, d) && IsTruncQuotient(q2, n, d)
    ensures q1 == q2
  {
    if q1 < q2 {
      MulStrictlyMonotone(q1, q2, d);
    } else if q2 < q1 {
      MulStrictlyMonotone(q2, q1, d);
    }
  }

  lemma MulStrictlyMonotone(a: int, b: int, d: int)
    requires a < b && d > 0
    ensures a * d + d <= b * d
  {
    var k: nat := b - a - 1;
    assert b * d == a * d + d + k * d;
    assert k * d >= 0;
  }

  /** Truncating division by a positive divisor is monotone in the numerator. */
  lemma {:induction false} TruncDivMonotone(n1: int, n2: int, d: int)
    requires d > 0 && n1 <= n2
    ensures TruncDiv(n1, d) <= TruncDiv(n2, d)
  {
    var q1, q2 := TruncDiv(n1, d), TruncDiv(n2, d);
    if q2 < q1 {
      MulStrictlyMonotone(q2, q1, d);
      // a numerator of each sign is separated by zero; equal signs contradict the bounds
      assert false;
    }
  }

  /**
   * `(x as f32 * (hundredths / 100)) as i32`, on exact rationals:
   * the exact product truncated toward zero.
   */
  function ScaleTrunc(x: int, hundredths: nat): (r: int)
    ensures IsTruncQuotient(r, x * hundredths, 100)
    ensures x == 0 ==> r == 0
  {
    TruncDiv(x * hundredths, 100)
  }

  /** Scaling by a non-negative factor and truncating keeps the order of the arguments. */
  lemma ScaleTruncMonotone(x1: int, x2: int, hundredths: nat)
    requires x1 <= x2
    ensures ScaleTrunc(x1, hundredths) <= ScaleTrunc(x2, hundredths)
  {
    assert x1 * hundredths <= x2 * hundredths by {
      var k: nat := x2 - x1;
      assert x2 * hundredths == x1 * hundredths + k * hundredths;
      assert k * hundredths >= 0;
    }
    TruncDivMonotone(x1 * hundredths, x2 * hundredths, 100);
  }

  /**
   * The four vertices of an axis-aligned rectangle in the order the
   * engine-plugin prototype pushes them for the net and the paddles:
   * top-left, top-right, bottom-right, bottom-left (y grows downwards).
   */
  function Rect(x: int, y: int, w: int, h: int): seq<Vec2>
  {
    [Vec2(x, y), Vec2(x + w, y), Vec2(x + w, y + h), Vec2(x, y + h)]
  }

  /** The k-th group of four vertices of a flat vertex buffer. */
  function Quad(vs: seq<Vec2>, k: nat): seq<Vec2>
    requires 4 * k + 4 <= |vs|
  {
    vs[4 * k..4 * k + 4]
  }
}
