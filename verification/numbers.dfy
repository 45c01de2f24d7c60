/** The few JavaScript number idioms the services rely on, over `real`. */
module Numbers {
  import opened Wrappers

  /** `Math.round(x)`: the nearest integer, halves rounding up. */
  function Round(x: real): (r: int)
    ensures r as real - 0.5 <= x < r as real + 0.5
  {
    (x + 0.5).Floor
  }

  /** `Math.max(lo, Math.min(hi, x))`. */
  function Clamp(x: real, lo: real, hi: real): (r: real)
    requires lo <= hi
    ensures lo <= r <= hi
    ensures lo <= x <= hi ==> r == x
    ensures x < lo ==> r == lo
    ensures hi < x ==> r == hi
  {
    if x < lo then lo else if hi < x then hi else x
  }

  /** `x || d` for a number that may be missing: a missing value and the
      falsy 0 both fall back to `d`; any other value is kept. */
  function JsOr(x: Option<real>, d: real): (r: real)
    ensures x.None? ==> r == d
    ensures x.Some? && x.value == 0.0 ==> r == d
    ensures x.Some? && x.value != 0.0 ==> r == x.value
  {
    if x.Some? && x.value != 0.0 then x.value else d
  }

  lemma RoundMonotone(x: real, y: real)
    requires x <= y
    ensures Round(x) <= Round(y)
  {
  }

  /** `x / total * 100`: `x` as a percentage of `total`. */
  function Percent(x: real, total: real): (r: real)
    requires total != 0.0
    ensures r * total == x * 100.0
  {
    x / total * 100.0
  }

  lemma PercentAdds(x: real, y: real, total: real)
    requires total != 0.0
    ensures Percent(x, total) + Percent(y, total) == Percent(x + y, total)
  {
  }

  lemma PercentSign(x: real, total: real)
    requires total > 0.0
    ensures Percent(x, total) > 0.0 <==> x > 0.0
    ensures Percent(x, total) >= 0.0 <==> x >= 0.0
  {
  }

  lemma PercentMonotone(x: real, y: real, total: real)
    requires total > 0.0 && x <= y
    ensures Percent(x, total) <= Percent(y, total)
  {
  }

  lemma PercentOfWhole(total: real)
    requires total != 0.0
    ensures Percent(total, total) == 100.0
  {
  }
}
