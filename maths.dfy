/** Scalar helpers shared by every component (src/Utilities/maths.ts), plus the
    host functions the game takes from JavaScript's Math object. */
module Maths {

  /** Math.PI, written as the decimal JavaScript prints for it. */
  const PI: real := 3.141592653589793

  /** The transcendental functions the game calls on Math. They are not
      modelled; every operation that needs them takes them as a value. */
  datatype MathFns = MathFns(
    sqrt: real -> real,
    cos: real -> real,
    sin: real -> real,
    atan2: (real, real) -> real)

  /** The one fact about Math.sqrt that the proofs rely on: on a non-negative
      argument it returns the non-negative square root. */
  ghost predicate ExactSqrt(m: MathFns)
  {
    forall t :: 0.0 <= t ==> 0.0 <= m.sqrt(t) && m.sqrt(t) * m.sqrt(t) == t
  }

  function Max(a: real, b: real): real
  {
    if a >= b then a else b
  }

  function Min(a: real, b: real): real
  {
    if a <= b then a else b
  }

  /** clamp(x, lo, hi) = Math.max(lo, Math.min(hi, x)). */
  function Clamp(x: real, lo: real, hi: real): (r: real)
    ensures lo <= hi ==> lo <= r <= hi
    ensures lo <= x <= hi ==> r == x
    ensures lo <= hi && x < lo ==> r == lo
    ensures lo <= hi && hi < x ==> r == hi
    ensures hi < lo ==> r == lo
  {
    Max(lo, Min(hi, x))
  }

  /** Clamping a value that is already clamped changes nothing. */
  lemma ClampIdempotent(x: real, lo: real, hi: real)
    ensures Clamp(Clamp(x, lo, hi), lo, hi) == Clamp(x, lo, hi)
  {
  }

  function Sq(n: real): (r: real)
    ensures 0.0 <= r
    ensures r == 0.0 <==> n == 0.0
  {
    if n > 0.0 then
      ProductPositive(n, n, n * n);
      n * n
    else if n < 0.0 then
      ProductPositive(-n, -n, n * n);
      n * n
    else
      n * n
  }

  /** The product k of two positive numbers is positive. (Stated with the
      product as a separate argument, which the solver handles reliably.) */
  lemma ProductPositive(a: real, b: real, k: real)
    requires 0.0 < a && 0.0 < b && k == a * b
    ensures 0.0 < k
  {
  }

  /** Multiplying by a positive y keeps the sign of x. */
  lemma SignOfProduct(x: real, y: real, k: real)
    requires 0.0 < y && k == x * y
    ensures 0.0 < k <==> 0.0 < x
    ensures k < 0.0 <==> x < 0.0
  {
    if 0.0 < x {
      ProductPositive(x, y, k);
    } else if x < 0.0 {
      ProductPositive(-x, y, -k);
    }
  }

  /** Taking a fraction t in [0, 1] of a non-negative c gives a value k in [0, c]. */
  lemma FractionOf(c: real, t: real, k: real)
    requires 0.0 <= c && 0.0 <= t <= 1.0 && k == c * t
    ensures 0.0 <= k <= c
  {
  }

  /** The scalar lerp that map.ts imports from the maths module. The shown
      maths.ts does not define it; this is the usual linear interpolation. */
  function Lerp(a: real, b: real, t: real): (r: real)
    ensures t == 0.0 ==> r == a
    ensures t == 1.0 ==> r == b
    ensures 0.0 <= t <= 1.0 && a <= b ==> a <= r <= b
    ensures 0.0 <= t <= 1.0 && b <= a ==> b <= r <= a
  {
    if 0.0 <= t <= 1.0 && a <= b then
      FractionOf(b - a, t, (b - a) * t);
      a + (b - a) * t
    else if 0.0 <= t <= 1.0 then
      FractionOf(a - b, t, (a - b) * t);
      a + (b - a) * t
    else
      a + (b - a) * t
  }
}
