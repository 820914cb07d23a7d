/** Real-number helpers standing in for JavaScript's Math.abs, Math.min, Math.max
    and the demo's own `clamp`. Coordinates are exact reals: no rounding, no NaN. */
module Numeric {

  function Abs(x: real): (r: real)
    ensures r >= 0.0
    ensures r == x || r == -x
  {
    if x < 0.0 then -x else x
  }

  /** Math.max on two finite numbers. */
  function Max(a: real, b: real): (r: real)
    ensures r >= a && r >= b
    ensures r == a || r == b
  {
    if a >= b then a else b
  }

  /** Math.min on two finite numbers. */
  function Min(a: real, b: real): (r: real)
    ensures r <= a && r <= b
    ensures r == a || r == b
  {
    if a <= b then a else b
  }

  /** `Math.min(Math.max(val, lo), hi)`: the lower bound is applied first, so when
      the interval is empty (`hi < lo`) the upper bound wins. */
  function Clamp(val: real, lo: real, hi: real): (r: real)
    ensures lo <= hi ==> lo <= r <= hi
    ensures lo <= val <= hi ==> r == val
    ensures val < lo && lo <= hi ==> r == lo
    ensures hi < val ==> r == hi
    ensures hi < lo ==> r == hi
  {
    Min(Max(val, lo), hi)
  }

  /** Clamping into a non-empty interval returns the point of the interval
      nearest to the input, so a second clamp changes nothing. */
  lemma ClampNearest(val: real, lo: real, hi: real, p: real)
    requires lo <= hi && lo <= p <= hi
    ensures Abs(Clamp(val, lo, hi) - val) <= Abs(p - val)
    ensures Clamp(Clamp(val, lo, hi), lo, hi) == Clamp(val, lo, hi)
  {
  }

  /** Scaling a value of magnitude `s` by `m` gives magnitude `s * |m|`. */
  lemma AbsScaled(v: real, s: real, m: real)
    requires Abs(v) == s
    ensures Abs(v * m) == s * Abs(m)
  {
    if v >= 0.0 {
      if m < 0.0 {
        assert -(v * m) == v * (-m);
      }
    } else {
      if m >= 0.0 {
        assert -(v * m) == (-v) * m;
      } else {
        assert v * m == (-v) * (-m);
      }
    }
  }
}
