/**
 * The two extensions every layout formula relies on: the bounds-checked
 * subscript of `Collection` and the saturating division operator `&/`.
 * A Swift `Double`/`CGFloat` is modelled as an exact `real`.
 */
module Extensions {
  import opened Wrappers

  /** `collection[safe: index]`: the element when `index` is one of the indices, otherwise nil. */
  function SafeGet<T>(s: seq<T>, index: int): (r: Option<T>)
    ensures r.Some? <==> 0 <= index < |s|
    ensures r.Some? ==> r.value == s[index]
  {
    if 0 <= index < |s| then Some(s[index]) else None
  }

  /** On an empty collection every index yields nil. */
  lemma SafeGetEmpty<T>(s: seq<T>, index: int)
    requires s == []
    ensures SafeGet(s, index) == None
  {
  }

  /** Looking up a position of a prefix is the same as looking it up in the whole sequence. */
  lemma SafeGetPrefix<T>(s: seq<T>, t: seq<T>, index: int)
    requires 0 <= index < |s|
    ensures SafeGet(s + t, index) == SafeGet(s, index)
  {
  }

  /** `lhs &/ rhs`: ordinary division, except that a zero divisor yields 0 instead of infinity or NaN. */
  function SatDiv(lhs: real, rhs: real): (r: real)
    ensures rhs == 0.0 ==> r == 0.0
    ensures rhs != 0.0 ==> r * rhs == lhs
  {
    if rhs == 0.0 then 0.0 else lhs / rhs
  }

  /** `0 &/ y` is 0 for every divisor. */
  lemma SatDivZeroNumerator(rhs: real)
    ensures SatDiv(0.0, rhs) == 0.0
  {
  }

  /** For a positive divisor, `&/` preserves the order of numerators. */
  lemma SatDivMonotone(a: real, b: real, d: real)
    requires d > 0.0 && a <= b
    ensures SatDiv(a, d) <= SatDiv(b, d)
  {
  }

  /** A numerator between 0 and a positive divisor gives a quotient between 0 and 1. */
  lemma SatDivUnit(a: real, d: real)
    requires d > 0.0 && 0.0 <= a <= d
    ensures 0.0 <= SatDiv(a, d) <= 1.0
  {
    SatDivMonotone(0.0, a, d);
    SatDivMonotone(a, d, d);
    assert SatDiv(d, d) == 1.0;
  }

  /**
   * `Int(x)` for a Double `x`: truncation toward zero (the model assumes the
   * value is finite and in range, where Swift would trap).
   */
  function Truncate(x: real): (r: int)
    ensures x >= 0.0 ==> r as real <= x < r as real + 1.0
    ensures x < 0.0 ==> r as real - 1.0 < x <= r as real
  {
    if x >= 0.0 then x.Floor else -((-x).Floor)
  }
}
