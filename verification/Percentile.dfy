/** The percentile of backend/app/api/analytics.py, over real numbers. */
module Percentile {
  import opened Basics

  predicate Ascending(values: seq<real>)
  {
    forall i, j | 0 <= i <= j < |values| :: values[i] <= values[j]
  }

  function Position(n: nat, ratio: real): real
    requires n > 0
  {
    (n - 1) as real * ratio
  }

  function Between(a: real, b: real, fraction: real): real
  {
    a * (1.0 - fraction) + b * fraction
  }

  /** percentile; int() truncates, which on the non-negative positions here is the floor. */
  function PercentileOf(values: seq<real>, ratio: real): Option<real>
    requires 0.0 <= ratio <= 1.0
  {
    if values == [] then None
    else
      var position := Position(|values|, ratio);
      PositionBounded(|values|, ratio);
      var lower := position.Floor;
      var upper := if lower + 1 < |values| - 1 then lower + 1 else |values| - 1;
      Some(Between(values[lower], values[upper], position - lower as real))
  }

  lemma PositionBounded(n: nat, ratio: real)
    requires n > 0 && 0.0 <= ratio <= 1.0
    ensures 0.0 <= Position(n, ratio) <= (n - 1) as real
    ensures 0 <= Position(n, ratio).Floor <= n - 1
  {
    var m := (n - 1) as real;
    assert m >= 0.0;
    assert m * ratio >= 0.0;
    assert m * (1.0 - ratio) >= 0.0;
    assert m - m * ratio == m * (1.0 - ratio);
  }

  lemma BetweenBounded(a: real, b: real, fraction: real)
    requires a <= b && 0.0 <= fraction <= 1.0
    ensures a <= Between(a, b, fraction) <= b
  {
    var d := b - a;
    assert d * fraction >= 0.0 && d * (1.0 - fraction) >= 0.0;
    assert Between(a, b, fraction) == a + d * fraction == b - d * (1.0 - fraction);
  }

  lemma BetweenMonotone(a: real, b: real, f: real, g: real)
    requires a <= b && f <= g
    ensures Between(a, b, f) <= Between(a, b, g)
  {
    var d, e := b - a, g - f;
    assert d * e >= 0.0;
    assert Between(a, b, g) - Between(a, b, f) == d * e;
  }

  /** The percentile lies between the two elements around its position. */
  lemma BetweenNeighbours(values: seq<real>, ratio: real)
    requires Ascending(values) && values != [] && 0.0 <= ratio <= 1.0
    ensures PercentileOf(values, ratio).Some?
    ensures var lower := Position(|values|, ratio).Floor;
            && 0 <= lower < |values|
            && values[lower] <= PercentileOf(values, ratio).value
            && PercentileOf(values, ratio).value <= values[if lower + 1 < |values| then lower + 1 else lower]
  {
    var position := Position(|values|, ratio);
    PositionBounded(|values|, ratio);
    var lower := position.Floor;
    BetweenBounded(values[lower], values[if lower + 1 < |values| then lower + 1 else lower], position - lower as real);
  }

  lemma Start(a: real, b: real)
    ensures Between(a, b, 0.0) == a
  {
    assert b * 0.0 == 0.0;
  }

  /** Ratio 0 gives the minimum and ratio 1 the maximum. */
  lemma Extremes(values: seq<real>)
    requires Ascending(values) && values != []
    ensures PercentileOf(values, 0.0) == Some(values[0])
    ensures PercentileOf(values, 1.0) == Some(values[|values| - 1])
    ensures forall v | v in values :: values[0] <= v <= values[|values| - 1]
  {
    var n := |values|;
    assert Position(n, 0.0) == 0.0 && Position(n, 1.0) == (n - 1) as real;
    Start(values[0], values[if 1 < n - 1 then 1 else n - 1]);
    Start(values[n - 1], values[n - 1]);
  }

  lemma PositionMonotone(n: nat, p: real, q: real)
    requires n > 0 && p <= q
    ensures Position(n, p) <= Position(n, q)
  {
    var m, d := (n - 1) as real, q - p;
    assert m >= 0.0 && m * d >= 0.0;
    assert Position(n, q) - Position(n, p) == m * d;
  }

  /** A larger ratio never gives a smaller percentile, also across the elements of the list. */
  lemma Monotone(values: seq<real>, p: real, q: real)
    requires Ascending(values) && values != [] && 0.0 <= p <= q <= 1.0
    ensures PercentileOf(values, p).value <= PercentileOf(values, q).value
  {
    var a, b := Position(|values|, p), Position(|values|, q);
    PositionMonotone(|values|, p, q);
    PositionBounded(|values|, p);
    PositionBounded(|values|, q);
    if a.Floor == b.Floor {
      var upper := if a.Floor + 1 < |values| - 1 then a.Floor + 1 else |values| - 1;
      BetweenMonotone(values[a.Floor], values[upper], a - a.Floor as real, b - b.Floor as real);
    } else {
      BetweenNeighbours(values, p);
      BetweenNeighbours(values, q);
      assert a.Floor + 1 <= b.Floor;
      assert values[a.Floor + 1] <= values[b.Floor];
    }
  }
}
