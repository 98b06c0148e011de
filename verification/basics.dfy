/** Small helpers shared by both dashboards: an optional value, JavaScript's
    `Math.round`, and the `clamp` helper both scripts define. */
module Basics {

  datatype Option<T> = None | Some(value: T)

  /** `Math.round`: the nearest integer, with halves rounded toward +infinity
      (so `Math.round(-2.5) == -2`, unlike rounding half away from zero). */
  function Round(x: real): (r: int)
    ensures r as real - 0.5 <= x < r as real + 0.5
  {
    (x + 0.5).Floor
  }

  /** The rounding of `x` is the one integer within half a unit below or strictly
      less than half a unit above it. */
  lemma RoundUnique(x: real, n: int)
    requires n as real - 0.5 <= x < n as real + 0.5
    ensures Round(x) == n
  {
  }

  lemma RoundOfInteger(n: int)
    ensures Round(n as real) == n
  {
  }

  lemma RoundMonotone(x: real, y: real)
    requires x <= y
    ensures Round(x) <= Round(y)
  {
  }

  function MinR(a: real, b: real): (r: real)
    ensures r <= a && r <= b && (r == a || r == b)
  {
    if a <= b then a else b
  }

  /** `clamp(v, lo, hi) = Math.max(lo, Math.min(hi, v))`: inside the bounds the
      value is kept, outside it is moved to the nearer bound. When `lo > hi`
      (never the case at the call sites) the lower bound wins. */
  function Clamp(v: real, lo: real, hi: real): (r: real)
    ensures lo <= r
    ensures lo <= hi ==> r <= hi
    ensures lo <= v <= hi ==> r == v
    ensures v <= lo ==> r == lo
    ensures lo <= hi <= v ==> r == hi
  {
    var m := if hi <= v then hi else v;
    if m <= lo then lo else m
  }
}
