/** Failure types shared by every component. */
module Wrappers {

  datatype Option<+T> = None | Some(value: T)

  datatype Result<+T, +E> = Ok(value: T) | Err(error: E)

  /** The outcome of code that divides decimals: the library panics on a zero divisor. */
  datatype Outcome<+T> = Done(value: T) | Panicked
}

/**
 Products of reals behind a name. Proofs that only rearrange products hide `Times` and use these
 laws, so that the solver never meets non-linear arithmetic in them.
 */
module RealFacts {

  function Times(x: real, y: real): real { x * y }

  lemma TimesZero(x: real)
    ensures Times(0.0, x) == 0.0 && Times(x, 0.0) == 0.0
  {
  }

  lemma TimesSum(x: real, y: real, p: real)
    ensures Times(x + y, p) == Times(x, p) + Times(y, p)
  {
  }

  lemma TimesOfSum(k: real, x: real, y: real)
    ensures Times(k, x + y) == Times(k, x) + Times(k, y)
  {
  }

  lemma TimesAssociates(k: real, x: real, p: real)
    ensures Times(Times(k, x), p) == Times(k, Times(x, p))
  {
  }

  lemma TimesMonotone(k: real, x: real, y: real)
    requires 0.0 <= k && x <= y
    ensures Times(k, x) <= Times(k, y)
  {
    ScaleMonotone(k, x, y);
  }

  lemma TimesStrictlyMonotone(k: real, x: real, y: real)
    requires 0.0 < k && x < y
    ensures Times(k, x) < Times(k, y)
  {
    PositiveProduct(k, y - x);
    TimesOfSum(k, x, y - x);
  }

  lemma TimesNonNegative(x: real, y: real)
    requires 0.0 <= x && 0.0 <= y
    ensures 0.0 <= Times(x, y)
  {
  }

  lemma TimesNegated(x: real, p: real)
    ensures Times(x, -p) == -Times(x, p)
  {
  }

  /** A blend of two points of [0, s] stays in [0, s]. */
  lemma BlendBounds(j: real, k: real, x: real, y: real, s: real)
    requires 0.0 <= j && 0.0 <= k && j + k == 1.0
    requires 0.0 <= x <= s && 0.0 <= y <= s
    ensures 0.0 <= Times(j, x) + Times(k, y) <= s
  {
    hide Times;
    TimesNonNegative(j, x);
    TimesNonNegative(k, y);
    TimesMonotone(j, x, s);
    TimesMonotone(k, y, s);
    TimesSum(j, k, s);
    TimesOne(s);
  }

  lemma TimesOne(s: real)
    ensures Times(1.0, s) == s
  {
  }

  lemma ProductNonNegative(x: real, y: real)
    requires 0.0 <= x && 0.0 <= y
    ensures 0.0 <= x * y
  {
  }

  lemma PositiveProduct(x: real, y: real)
    requires 0.0 < x && 0.0 < y
    ensures 0.0 < x * y == Times(x, y)
  {
  }

  lemma ScaleMonotone(k: real, x: real, y: real)
    requires 0.0 <= k && x <= y
    ensures k * x <= k * y
  {
    ProductNonNegative(k, y - x);
  }

  lemma QuotientUnique(x: real, d: real, q: real)
    requires d != 0.0 && x == q * d
    ensures x / d == q
  {
  }

  lemma QuotientMonotone(x: real, y: real, d: real)
    requires 0.0 < d && x <= y
    ensures x / d <= y / d
  {
    var q, r := x / d, y / d;
    assert (q - r) * d == x - y;
    if q > r {
      PositiveProduct(q - r, d);
    }
  }

  function PerUnit(x: real, d: real): real
    requires d != 0.0
  {
    x / d
  }

  lemma PerUnitTimes(x: real, d: real)
    requires d != 0.0
    ensures Times(PerUnit(x, d), d) == x
  {
  }

  lemma PerUnitNegated(x: real, d: real)
    requires d != 0.0
    ensures PerUnit(-x, d) == -PerUnit(x, d)
  {
    var q := x / d;
    assert q * d == x;
    assert (-q) * d == -(q * d);
    QuotientUnique(-x, d, -q);
  }

  /** If c1 is at most the fraction k of c2, and t1 is that fraction of t2, c1 per t1 is at most c2 per t2. */
  lemma PerUnitOfPart(c1: real, c2: real, k: real, t1: real, t2: real)
    requires 0.0 < t1 && 0.0 < t2 && Times(k, t2) == t1 && c1 <= Times(k, c2)
    ensures PerUnit(c1, t1) <= PerUnit(c2, t2)
  {
    var u := c2 / t2;
    assert u * t2 == c2;
    QuotientMonotone(c1, k * c2, t1);
    assert k * (u * t2) == u * (k * t2);
    QuotientUnique(k * c2, t1, u);
  }
}
