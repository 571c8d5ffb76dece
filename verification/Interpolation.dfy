/**
  The two directions of reading a digest. A digest is seen as a ladder: bounds
  bs of its segments, and the cumulative weights ws below each bound. A quantile
  carries a weight to a bound, the cumulative distribution a value to a weight.
 */
module Interpolation {

  /** Segment bounds never decrease; each segment carries some weight. */
  predicate Ladder(bs: seq<real>, ws: seq<real>) {
    && |bs| == |ws| >= 2
    && ws[0] == 0.0
    && (forall i, j :: 0 <= i < j < |ws| ==> ws[i] < ws[j])
    && (forall i, j :: 0 <= i < j < |bs| ==> bs[i] <= bs[j])
  }

  predicate StrictlyIncreasing(bs: seq<real>) {
    forall i, j :: 0 <= i < j < |bs| ==> bs[i] < bs[j]
  }

  /** The point of [x, y] that lies where t lies in [a, b]. */
  function Along(t: real, a: real, b: real, x: real, y: real): real
    requires a < b
  {
    x + (t - a) / (b - a) * (y - x)
  }

  /** The first segment whose cumulative weight reaches t. */
  function Reaching(ws: seq<real>, t: real, from: nat): (i: nat)
    requires from + 1 < |ws| && t <= ws[|ws| - 1]
    ensures from <= i < |ws| - 1 && t <= ws[i + 1]
    ensures forall j :: from < j <= i ==> ws[j] < t
    decreases |ws| - from
  {
    if t <= ws[from + 1] then from else Reaching(ws, t, from + 1)
  }

  /** The first segment whose upper bound lies above v. */
  function Holding(bs: seq<real>, v: real, from: nat): (i: nat)
    requires from + 1 < |bs| && v < bs[|bs| - 1]
    ensures from <= i < |bs| - 1 && v < bs[i + 1]
    ensures forall j :: from < j <= i ==> bs[j] <= v
    decreases |bs| - from
  {
    if v < bs[from + 1] then from else Holding(bs, v, from + 1)
  }

  /** The value below which weight t lies. */
  function ValueAt(bs: seq<real>, ws: seq<real>, t: real): real
    requires Ladder(bs, ws) && 0.0 <= t <= ws[|ws| - 1]
  {
    var i := Reaching(ws, t, 0);
    Along(t, ws[i], ws[i + 1], bs[i], bs[i + 1])
  }

  /** The weight below v. */
  function WeightBelow(bs: seq<real>, ws: seq<real>, v: real): real
    requires Ladder(bs, ws)
  {
    if v <= bs[0] then 0.0
    else if v >= bs[|bs| - 1] then ws[|ws| - 1]
    else
      var i := Holding(bs, v, 0);
      Along(v, bs[i], bs[i + 1], ws[i], ws[i + 1])
  }

  function Portion(q: real, total: real): (t: real)
    requires 0.0 <= q <= 1.0 && total > 0.0
    ensures 0.0 <= t <= total
  {
    assert (1.0 - q) * total >= 0.0;
    q * total
  }

  function Share(t: real, total: real): (q: real)
    requires 0.0 <= t <= total && total > 0.0
    ensures 0.0 <= q <= 1.0
  {
    t / total
  }

  function Quantile(bs: seq<real>, ws: seq<real>, q: real): real
    requires Ladder(bs, ws) && 0.0 <= q <= 1.0
  {
    ValueAt(bs, ws, Portion(q, ws[|ws| - 1]))
  }

  function Cdf(bs: seq<real>, ws: seq<real>, v: real): real
    requires Ladder(bs, ws)
  {
    WeightBelowWithin(bs, ws, v);
    Share(WeightBelow(bs, ws, v), ws[|ws| - 1])
  }

  // ---- Linear interpolation

  lemma ProductSign(x: real, d: real)
    requires d > 0.0
    ensures x > 0.0 <==> x * d > 0.0
    ensures x == 0.0 <==> x * d == 0.0
  {
  }

  lemma ProductGrows(p: real, q: real, d: real)
    requires p <= q && d >= 0.0
    ensures p * d <= q * d
  {
  }

  lemma FractionWithin(t: real, a: real, b: real)
    requires a < b && a <= t <= b
    ensures 0.0 <= (t - a) / (b - a) <= 1.0
    ensures t == a ==> (t - a) / (b - a) == 0.0
    ensures t == b ==> (t - a) / (b - a) == 1.0
    ensures (t - a) / (b - a) * (b - a) == t - a
  {
  }

  lemma AlongWithin(t: real, a: real, b: real, x: real, y: real)
    requires a < b && a <= t <= b && x <= y
    ensures x <= Along(t, a, b, x, y) <= y
    ensures t == a ==> Along(t, a, b, x, y) == x
    ensures t == b ==> Along(t, a, b, x, y) == y
  {
    FractionWithin(t, a, b);
    ProductGrows(0.0, (t - a) / (b - a), y - x);
    ProductGrows((t - a) / (b - a), 1.0, y - x);
  }

  lemma AlongMonotone(t: real, u: real, a: real, b: real, x: real, y: real)
    requires a < b && t <= u && x <= y
    ensures Along(t, a, b, x, y) <= Along(u, a, b, x, y)
  {
    assert (u - a) / (b - a) - (t - a) / (b - a) == (u - t) / (b - a) >= 0.0;
    ProductGrows((t - a) / (b - a), (u - a) / (b - a), y - x);
  }

  /** Carrying a point over and back gives the point, if both intervals are proper. */
  lemma AlongInverse(t: real, a: real, b: real, x: real, y: real)
    requires a < b && x < y
    ensures Along(Along(t, a, b, x, y), x, y, a, b) == t
  {
    var f := (t - a) / (b - a);
    assert f * (y - x) / (y - x) == f;
    assert f * (b - a) == t - a;
  }

  lemma PortionOfShare(t: real, total: real)
    requires 0.0 <= t <= total && total > 0.0
    ensures Portion(Share(t, total), total) == t
  {
  }

  lemma ShareOfPortion(q: real, total: real)
    requires 0.0 <= q <= 1.0 && total > 0.0
    ensures Share(Portion(q, total), total) == q
  {
  }

  lemma PortionMonotone(p: real, q: real, total: real)
    requires 0.0 <= p <= q <= 1.0 && total > 0.0
    ensures Portion(p, total) <= Portion(q, total)
  {
    assert (q - p) * total == q * total - p * total;
    ProductSign(q - p, total);
  }

  lemma ShareMonotone(t: real, u: real, total: real)
    requires 0.0 <= t <= u <= total && total > 0.0
    ensures Share(t, total) <= Share(u, total)
    ensures t < u ==> Share(t, total) < Share(u, total)
  {
    var a, b := t / total, u / total;
    assert a * total == t && b * total == u;
    assert (b - a) * total == u - t;
    ProductSign(b - a, total);
  }

  // ---- Range and monotonicity

  lemma ValueWithin(bs: seq<real>, ws: seq<real>, t: real)
    requires Ladder(bs, ws) && 0.0 <= t <= ws[|ws| - 1]
    ensures bs[0] <= ValueAt(bs, ws, t) <= bs[|bs| - 1]
  {
    hide Along;
    var i := Reaching(ws, t, 0);
    AlongWithin(t, ws[i], ws[i + 1], bs[i], bs[i + 1]);
  }

  lemma ValueMonotone(bs: seq<real>, ws: seq<real>, t: real, u: real)
    requires Ladder(bs, ws) && 0.0 <= t <= u <= ws[|ws| - 1]
    ensures ValueAt(bs, ws, t) <= ValueAt(bs, ws, u)
  {
    hide Along;
    var i, j := Reaching(ws, t, 0), Reaching(ws, u, 0);
    if i == j {
      AlongMonotone(t, u, ws[i], ws[i + 1], bs[i], bs[i + 1]);
    } else {
      assert i < j;
      AlongWithin(t, ws[i], ws[i + 1], bs[i], bs[i + 1]);
      AlongWithin(u, ws[j], ws[j + 1], bs[j], bs[j + 1]);
    }
  }

  lemma WeightBelowWithin(bs: seq<real>, ws: seq<real>, v: real)
    requires Ladder(bs, ws)
    ensures 0.0 <= WeightBelow(bs, ws, v) <= ws[|ws| - 1]
  {
    hide Along;
    if bs[0] < v < bs[|bs| - 1] {
      var i := Holding(bs, v, 0);
      AlongWithin(v, bs[i], bs[i + 1], ws[i], ws[i + 1]);
    }
  }

  lemma WeightBelowMonotone(bs: seq<real>, ws: seq<real>, v: real, w: real)
    requires Ladder(bs, ws) && v <= w
    ensures WeightBelow(bs, ws, v) <= WeightBelow(bs, ws, w)
  {
    hide Along;
    WeightBelowWithin(bs, ws, v);
    WeightBelowWithin(bs, ws, w);
    if bs[0] < v <= w < bs[|bs| - 1] {
      var i, j := Holding(bs, v, 0), Holding(bs, w, 0);
      if i == j {
        AlongMonotone(v, w, bs[i], bs[i + 1], ws[i], ws[i + 1]);
      } else {
        assert i < j;
        AlongWithin(v, bs[i], bs[i + 1], ws[i], ws[i + 1]);
        AlongWithin(w, bs[j], bs[j + 1], ws[j], ws[j + 1]);
      }
    }
  }

  // ---- The two directions undo each other, counted in weight

  /** A weight determines its segment. */
  lemma ReachingUnique(bs: seq<real>, ws: seq<real>, t: real, i: nat)
    requires Ladder(bs, ws) && i + 1 < |ws|
    requires 0.0 <= t <= ws[i + 1] && (i == 0 || ws[i] < t)
    ensures t <= ws[|ws| - 1] && Reaching(ws, t, 0) == i
  {
    assert i + 1 < |ws| - 1 ==> ws[i + 1] < ws[|ws| - 1];
  }

  /** So does a value inside a proper segment. */
  lemma HoldingUnique(bs: seq<real>, ws: seq<real>, v: real, i: nat)
    requires Ladder(bs, ws) && i + 1 < |bs|
    requires bs[i] <= v < bs[i + 1]
    ensures v < bs[|bs| - 1] && Holding(bs, v, 0) == i
  {
    assert i + 1 < |bs| - 1 ==> bs[i + 1] <= bs[|bs| - 1];
  }

  /** Looking a value up and reading the weight back gives the value, in every digest. */
  lemma ValueOfWeightBelow(bs: seq<real>, ws: seq<real>, v: real)
    requires Ladder(bs, ws) && bs[0] <= v <= bs[|bs| - 1]
    ensures 0.0 <= WeightBelow(bs, ws, v) <= ws[|ws| - 1]
    ensures ValueAt(bs, ws, WeightBelow(bs, ws, v)) == v
  {
    hide Along;
    WeightBelowWithin(bs, ws, v);
    var n := |bs| - 2;
    if v == bs[0] {
      AlongWithin(0.0, ws[0], ws[1], bs[0], bs[1]);
    } else if v == bs[n + 1] {
      ReachingUnique(bs, ws, ws[n + 1], n);
      AlongWithin(ws[n + 1], ws[n], ws[n + 1], bs[n], bs[n + 1]);
    } else {
      var i := Holding(bs, v, 0);
      var t := Along(v, bs[i], bs[i + 1], ws[i], ws[i + 1]);
      AlongWithin(v, bs[i], bs[i + 1], ws[i], ws[i + 1]);
      AlongInverse(v, bs[i], bs[i + 1], ws[i], ws[i + 1]);
      if t > ws[i] || i == 0 {
        ReachingUnique(bs, ws, t, i);
      } else {
        AlongWithin(t, ws[i], ws[i + 1], bs[i], bs[i + 1]);
        ReachingUnique(bs, ws, t, i - 1);
        AlongWithin(t, ws[i - 1], ws[i], bs[i - 1], bs[i]);
      }
    }
  }

  lemma WeightBelowAtLeast(bs: seq<real>, ws: seq<real>, v: real, i: nat)
    requires Ladder(bs, ws) && i + 1 < |bs|
    requires bs[0] < v && v >= bs[i + 1]
    ensures WeightBelow(bs, ws, v) >= ws[i + 1]
  {
    hide Along;
    if v < bs[|bs| - 1] {
      var j := Holding(bs, v, 0);
      assert j > i;
      AlongWithin(v, bs[j], bs[j + 1], ws[j], ws[j + 1]);
    }
  }

  /** The other way round: never short once past the minimum. */
  lemma WeightBelowValue(bs: seq<real>, ws: seq<real>, t: real)
    requires Ladder(bs, ws) && 0.0 <= t <= ws[|ws| - 1]
    ensures ValueAt(bs, ws, t) > bs[0] ==> WeightBelow(bs, ws, ValueAt(bs, ws, t)) >= t
  {
    hide Along;
    var i := Reaching(ws, t, 0);
    var r := ValueAt(bs, ws, t);
    AlongWithin(t, ws[i], ws[i + 1], bs[i], bs[i + 1]);
    if bs[0] < r < bs[i + 1] {
      HoldingUnique(bs, ws, r, i);
      AlongInverse(t, ws[i], ws[i + 1], bs[i], bs[i + 1]);
    } else if bs[0] < r {
      WeightBelowAtLeast(bs, ws, r, i);
    }
  }

  /** Exact when no segment is flat. */
  lemma WeightBelowValueStrict(bs: seq<real>, ws: seq<real>, t: real)
    requires Ladder(bs, ws) && StrictlyIncreasing(bs) && 0.0 <= t <= ws[|ws| - 1]
    ensures WeightBelow(bs, ws, ValueAt(bs, ws, t)) == t
  {
    hide Along;
    var i := Reaching(ws, t, 0);
    var r := ValueAt(bs, ws, t);
    AlongWithin(t, ws[i], ws[i + 1], bs[i], bs[i + 1]);
    AlongInverse(t, ws[i], ws[i + 1], bs[i], bs[i + 1]);
    AlongWithin(r, bs[i], bs[i + 1], ws[i], ws[i + 1]);
    if r < bs[i + 1] {
      HoldingUnique(bs, ws, r, i);
    } else if i + 2 < |bs| {
      HoldingUnique(bs, ws, r, i + 1);
      AlongWithin(r, bs[i + 1], bs[i + 2], ws[i + 1], ws[i + 2]);
    }
  }

  /** The weight in the middle of a flat segment is not recovered. */
  lemma FlatSegmentLoses(bs: seq<real>, ws: seq<real>, i: nat, t: real)
    requires Ladder(bs, ws) && i + 1 < |bs| && bs[i] == bs[i + 1]
    requires ws[i] < t < ws[i + 1] && t <= ws[|ws| - 1]
    ensures WeightBelow(bs, ws, ValueAt(bs, ws, t)) != t
  {
    hide Along;
    ReachingUnique(bs, ws, t, i);
    AlongWithin(t, ws[i], ws[i + 1], bs[i], bs[i + 1]);
    if bs[0] < bs[i] {
      WeightBelowAtLeast(bs, ws, bs[i], i);
    }
  }

  // ---- The same facts for quantiles in [0, 1]

  lemma QuantileSound(bs: seq<real>, ws: seq<real>, p: real, q: real)
    requires Ladder(bs, ws) && 0.0 <= p <= q <= 1.0
    ensures bs[0] <= Quantile(bs, ws, q) <= bs[|bs| - 1]
    ensures Quantile(bs, ws, p) <= Quantile(bs, ws, q)
  {
    hide ValueAt, Portion;
    PortionMonotone(p, q, ws[|ws| - 1]);
    ValueWithin(bs, ws, Portion(q, ws[|ws| - 1]));
    ValueMonotone(bs, ws, Portion(p, ws[|ws| - 1]), Portion(q, ws[|ws| - 1]));
  }

  /** How the search of Quantile ends: in the segment it stops in. */
  lemma QuantileInSegment(bs: seq<real>, ws: seq<real>, q: real, i: nat)
    requires Ladder(bs, ws) && 0.0 <= q <= 1.0 && i + 1 < |ws|
    requires Portion(q, ws[|ws| - 1]) <= ws[i + 1] && (i == 0 || ws[i] < Portion(q, ws[|ws| - 1]))
    ensures ws[i] < ws[i + 1]
    ensures Quantile(bs, ws, q) == Along(Portion(q, ws[|ws| - 1]), ws[i], ws[i + 1], bs[i], bs[i + 1])
  {
    hide Portion, Along;
    ReachingUnique(bs, ws, Portion(q, ws[|ws| - 1]), i);
  }

  // ---- What the answers are at the bounds and between them

  /** On a segment, its ends included, values follow the straight line between its bounds. */
  lemma ValueOnSegment(bs: seq<real>, ws: seq<real>, t: real, i: nat)
    requires Ladder(bs, ws) && i + 1 < |ws| && ws[i] <= t <= ws[i + 1]
    ensures 0.0 <= t <= ws[|ws| - 1] && ValueAt(bs, ws, t) == Along(t, ws[i], ws[i + 1], bs[i], bs[i + 1])
  {
    hide Along;
    if i == 0 || ws[i] < t {
      ReachingUnique(bs, ws, t, i);
    } else {
      ReachingUnique(bs, ws, t, i - 1);
      AlongWithin(t, ws[i - 1], ws[i], bs[i - 1], bs[i]);
      AlongWithin(t, ws[i], ws[i + 1], bs[i], bs[i + 1]);
    }
  }

  /** The quantile at the weight below a bound is that bound. */
  lemma QuantileAtBound(bs: seq<real>, ws: seq<real>, i: nat)
    requires Ladder(bs, ws) && i < |ws|
    ensures 0.0 <= ws[i] <= ws[|ws| - 1] && Quantile(bs, ws, Share(ws[i], ws[|ws| - 1])) == bs[i]
  {
    hide Along, Share, Portion;
    PortionOfShare(ws[i], ws[|ws| - 1]);
    var j := if i == 0 then 0 else i - 1;
    ValueOnSegment(bs, ws, ws[i], j);
    AlongWithin(ws[i], ws[j], ws[j + 1], bs[j], bs[j + 1]);
  }

  /** Between p and q on one segment, equal steps of the quantile are equal steps of the value. */
  lemma QuantileStraight(bs: seq<real>, ws: seq<real>, i: nat, p: real, q: real, f: real)
    requires Ladder(bs, ws) && i + 1 < |ws| && 0.0 <= p <= q <= 1.0 && 0.0 <= f <= 1.0
    requires ws[i] <= Portion(p, ws[|ws| - 1]) && Portion(q, ws[|ws| - 1]) <= ws[i + 1]
    ensures 0.0 <= Between(p, q, f) <= 1.0
    ensures Quantile(bs, ws, Between(p, q, f)) == Between(Quantile(bs, ws, p), Quantile(bs, ws, q), f)
  {
    hide Along, Portion, Between, ValueAt;
    var total, r := ws[|ws| - 1], Between(p, q, f);
    BetweenWithin(p, q, f);
    PortionMonotone(p, r, total);
    PortionMonotone(r, q, total);
    PortionMonotone(p, q, total);
    PortionBetween(p, q, f, total);
    ValueOnSegment(bs, ws, Portion(p, total), i);
    ValueOnSegment(bs, ws, Portion(q, total), i);
    ValueOnSegment(bs, ws, Portion(r, total), i);
    AlongBetween(Portion(p, total), Portion(q, total), f, ws[i], ws[i + 1], bs[i], bs[i + 1]);
  }

  /** The point at a fraction of the way from x to y. */
  function Between(x: real, y: real, f: real): real {
    x + f * (y - x)
  }

  lemma BetweenWithin(x: real, y: real, f: real)
    requires x <= y && 0.0 <= f <= 1.0
    ensures x <= Between(x, y, f) <= y
  {
    ProductGrows(0.0, f, y - x);
    ProductGrows(f, 1.0, y - x);
  }

  lemma PortionBetween(p: real, q: real, f: real, total: real)
    requires 0.0 <= p <= q <= 1.0 && 0.0 <= f <= 1.0 && 0.0 <= Between(p, q, f) <= 1.0 && total > 0.0
    ensures Portion(Between(p, q, f), total) == Between(Portion(p, total), Portion(q, total), f)
  {
    assert (p + f * (q - p)) * total == p * total + f * (q * total - p * total);
  }

  lemma AlongBetween(t: real, u: real, f: real, a: real, b: real, x: real, y: real)
    requires a < b
    ensures Along(Between(t, u, f), a, b, x, y) == Between(Along(t, a, b, x, y), Along(u, a, b, x, y), f)
  {
    var d, m := y - x, 1.0 / (b - a);
    Slope(t, a, b, x, y);
    Slope(u, a, b, x, y);
    Slope(Between(t, u, f), a, b, x, y);
    assert (t + f * (u - t) - a) * (m * d) == (t - a) * (m * d) + f * ((u - a) * (m * d) - (t - a) * (m * d));
  }

  lemma Slope(t: real, a: real, b: real, x: real, y: real)
    requires a < b
    ensures Along(t, a, b, x, y) == x + (t - a) * ((1.0 / (b - a)) * (y - x))
  {
    assert (t - a) / (b - a) == (t - a) * (1.0 / (b - a));
  }

  /** At a bound that no other shares, the distribution is the weight below it. */
  lemma CdfAtBound(bs: seq<real>, ws: seq<real>, i: nat)
    requires Ladder(bs, ws) && 0 < i < |bs| - 1 && bs[0] < bs[i] < bs[i + 1]
    ensures 0.0 <= ws[i] <= ws[|ws| - 1] && Cdf(bs, ws, bs[i]) == Share(ws[i], ws[|ws| - 1])
  {
    hide Along, Share;
    CdfInSegment(bs, ws, bs[i], i);
    AlongWithin(bs[i], bs[i], bs[i + 1], ws[i], ws[i + 1]);
  }

  /** How the search of CDF ends. */
  lemma CdfInSegment(bs: seq<real>, ws: seq<real>, v: real, i: nat)
    requires Ladder(bs, ws) && bs[0] < v && i + 1 < |bs| && bs[i] <= v < bs[i + 1]
    ensures 0.0 <= Along(v, bs[i], bs[i + 1], ws[i], ws[i + 1]) <= ws[|ws| - 1]
    ensures Cdf(bs, ws, v) == Share(Along(v, bs[i], bs[i + 1], ws[i], ws[i + 1]), ws[|ws| - 1])
  {
    hide Share, Along;
    HoldingUnique(bs, ws, v, i);
    WeightBelowWithin(bs, ws, v);
  }

  lemma CdfOutside(bs: seq<real>, ws: seq<real>, v: real)
    requires Ladder(bs, ws)
    ensures v <= bs[0] ==> Cdf(bs, ws, v) == 0.0
    ensures bs[0] < v && v >= bs[|bs| - 1] ==> Cdf(bs, ws, v) == 1.0
  {
    assert ws[|ws| - 1] / ws[|ws| - 1] == 1.0 && 0.0 / ws[|ws| - 1] == 0.0;
  }

  lemma CdfSound(bs: seq<real>, ws: seq<real>, v: real, w: real)
    requires Ladder(bs, ws) && v <= w
    ensures 0.0 <= Cdf(bs, ws, v) <= Cdf(bs, ws, w) <= 1.0
  {
    hide WeightBelow, Share;
    WeightBelowWithin(bs, ws, v);
    WeightBelowWithin(bs, ws, w);
    WeightBelowMonotone(bs, ws, v, w);
    ShareMonotone(WeightBelow(bs, ws, v), WeightBelow(bs, ws, w), ws[|ws| - 1]);
  }

  lemma QuantileOfCdf(bs: seq<real>, ws: seq<real>, v: real)
    requires Ladder(bs, ws) && bs[0] <= v <= bs[|bs| - 1]
    ensures Quantile(bs, ws, Cdf(bs, ws, v)) == v
  {
    hide WeightBelow, Share, ValueAt, Portion;
    ValueOfWeightBelow(bs, ws, v);
    PortionOfShare(WeightBelow(bs, ws, v), ws[|ws| - 1]);
  }

  lemma CdfOfQuantile(bs: seq<real>, ws: seq<real>, q: real)
    requires Ladder(bs, ws) && 0.0 <= q <= 1.0
    ensures Quantile(bs, ws, q) > bs[0] ==> Cdf(bs, ws, Quantile(bs, ws, q)) >= q
    ensures StrictlyIncreasing(bs) ==> Cdf(bs, ws, Quantile(bs, ws, q)) == q
  {
    hide WeightBelow, Share, ValueAt, Portion;
    var total := ws[|ws| - 1];
    var t := Portion(q, total);
    var v := ValueAt(bs, ws, t);
    ShareOfPortion(q, total);
    WeightBelowWithin(bs, ws, v);
    if v > bs[0] {
      WeightBelowValue(bs, ws, t);
      ShareMonotone(t, WeightBelow(bs, ws, v), total);
    }
    if StrictlyIncreasing(bs) {
      WeightBelowValueStrict(bs, ws, t);
    }
  }

  /** Exactly the digests without flat segments are inverted on every quantile. */
  lemma {:induction false} InverseIffStrict(bs: seq<real>, ws: seq<real>)
    requires Ladder(bs, ws)
    ensures (forall q :: 0.0 <= q <= 1.0 ==> Cdf(bs, ws, Quantile(bs, ws, q)) == q) <==> StrictlyIncreasing(bs)
  {
    hide WeightBelow, Share, ValueAt, Portion;
    if StrictlyIncreasing(bs) {
      forall q | 0.0 <= q <= 1.0
        ensures Cdf(bs, ws, Quantile(bs, ws, q)) == q
      {
        CdfOfQuantile(bs, ws, q);
      }
    } else {
      var i, j :| 0 <= i < j < |bs| && bs[i] >= bs[j];
      assert bs[i] <= bs[i + 1] <= bs[j];
      var total, t := ws[|ws| - 1], (ws[i] + ws[i + 1]) / 2.0;
      var q := Share(t, total);
      PortionOfShare(t, total);
      FlatSegmentLoses(bs, ws, i, t);
      WeightBelowWithin(bs, ws, ValueAt(bs, ws, t));
      var u := WeightBelow(bs, ws, ValueAt(bs, ws, t));
      if t < u {
        ShareMonotone(t, u, total);
      } else {
        ShareMonotone(u, t, total);
      }
      assert Cdf(bs, ws, Quantile(bs, ws, q)) != q;
    }
  }
}
