/** How Quantile and CDF read a merged digest, and what their answers satisfy. */
module DigestReading {
  import opened Centroids
  import opened Options
  import Interpolation

  /** The bounds of the segments: the extremes, and the midpoints between neighbours. */
  function Bounds(mains: seq<Centroid>, min: real, max: real): (bs: seq<real>)
    ensures |bs| == |mains| + 1
  {
    seq(|mains| + 1, i requires 0 <= i <= |mains| =>
      if i == |mains| then max else if i == 0 then min else (mains[i].mean + mains[i - 1].mean) / 2.0)
  }

  function Cumulative(mains: seq<Centroid>): (ws: seq<real>)
    ensures |ws| == |mains| + 1
  {
    seq(|mains| + 1, i requires 0 <= i <= |mains| => Weight(mains[..i]))
  }

  /** A nonempty, merged list with its range, as the two searches find it. */
  ghost predicate Readable(mains: seq<Centroid>, min: real, max: real, total: real) {
    && mains != [] && Positive(mains) && SortedByMean(mains) && MeansWithin(mains, min, max)
    && Weight(mains) == total
  }

  /** The segments of such a list make a ladder. */
  lemma {:induction false} LadderOf(mains: seq<Centroid>, min: real, max: real, total: real)
    requires Readable(mains, min, max, total)
    ensures Interpolation.Ladder(Bounds(mains, min, max), Cumulative(mains))
    ensures Bounds(mains, min, max)[0] == min && Bounds(mains, min, max)[|mains|] == max
    ensures Cumulative(mains)[0] == 0.0 && Cumulative(mains)[|mains|] == total > 0.0
  {
    hide Total;
    var bs, ws := Bounds(mains, min, max), Cumulative(mains);
    assert mains[..|mains|] == mains && mains[..0] == [];
    TotalOfEmpty(WeightOf);
    forall i, j | 0 <= i < j < |ws|
      ensures ws[i] < ws[j]
    {
      PrefixWeight(mains, i, j);
    }
    forall i, j | 0 <= i < j < |bs|
      ensures bs[i] <= bs[j]
    {
      BoundsOrdered(mains, min, max, i, j);
    }
  }

  /** What the digest answers for a quantile: the ladder read from weight to value. */
  ghost function QuantileOf(mains: seq<Centroid>, min: real, max: real, total: real, q: real): real
    requires Readable(mains, min, max, total) && 0.0 <= q <= 1.0
  {
    LadderOf(mains, min, max, total);
    Interpolation.Quantile(Bounds(mains, min, max), Cumulative(mains), q)
  }

  /** What the digest answers for a value: the ladder read from value to weight. */
  ghost function CdfOf(mains: seq<Centroid>, min: real, max: real, total: real, v: real): real
    requires Readable(mains, min, max, total)
  {
    LadderOf(mains, min, max, total);
    Interpolation.Cdf(Bounds(mains, min, max), Cumulative(mains), v)
  }

  lemma QuantileOfLadder(mains: seq<Centroid>, min: real, max: real, total: real, q: real)
    requires Readable(mains, min, max, total) && 0.0 <= q <= 1.0
    ensures Interpolation.Ladder(Bounds(mains, min, max), Cumulative(mains))
    ensures QuantileOf(mains, min, max, total, q)
            == Interpolation.Quantile(Bounds(mains, min, max), Cumulative(mains), q)
  {
    hide Interpolation.Quantile, Interpolation.Ladder, Bounds, Cumulative;
    LadderOf(mains, min, max, total);
  }

  lemma CdfOfLadder(mains: seq<Centroid>, min: real, max: real, total: real, v: real)
    requires Readable(mains, min, max, total)
    ensures Interpolation.Ladder(Bounds(mains, min, max), Cumulative(mains))
    ensures CdfOf(mains, min, max, total, v)
            == Interpolation.Cdf(Bounds(mains, min, max), Cumulative(mains), v)
  {
    hide Interpolation.Cdf, Interpolation.Ladder, Bounds, Cumulative;
    LadderOf(mains, min, max, total);
  }

  /** The upper bound of the segment of centroid i. */
  function UpperBound(mains: seq<Centroid>, max: real, i: nat): real
    requires i < |mains|
  {
    if i != |mains| - 1 then (mains[i + 1].mean + mains[i].mean) / 2.0 else max
  }

  lemma SegmentAt(mains: seq<Centroid>, min: real, max: real, i: nat)
    requires i < |mains|
    ensures Bounds(mains, min, max)[i + 1] == UpperBound(mains, max, i)
    ensures Cumulative(mains)[i + 1] == Cumulative(mains)[i] + mains[i].weight
  {
    hide Total;
    assert mains[..i + 1] == mains[..i] + [mains[i]];
    TotalOfAppend(WeightOf, mains[..i], mains[i]);
  }

  /** The search of Quantile stops inside the list. */
  method FindQuantile(mains: seq<Centroid>, min: real, max: real, mainWeight: real, quantile: real)
    returns (r: Option<real>)
    requires Readable(mains, min, max, mainWeight) && 0.0 <= quantile <= 1.0
    ensures r == Some(QuantileOf(mains, min, max, mainWeight, quantile))
  {
    hide *;
    ghost var bs, ws := Bounds(mains, min, max), Cumulative(mains);
    LadderOf(mains, min, max, mainWeight);
    QuantileOfLadder(mains, min, max, mainWeight, quantile);
    var q := Interpolation.Portion(quantile, mainWeight);
    var weightSoFar, lowerBound := 0.0, min;
    for i := 0 to |mains|
      invariant weightSoFar == ws[i] && lowerBound == bs[i]
      invariant i > 0 ==> ws[i] < q
    {
      var upperBound := UpperBound(mains, max, i);
      SegmentAt(mains, min, max, i);
      if q <= weightSoFar + mains[i].weight {
        Interpolation.QuantileInSegment(bs, ws, quantile, i);
        return Some(Interpolation.Along(q, weightSoFar, weightSoFar + mains[i].weight, lowerBound, upperBound));
      }
      weightSoFar := weightSoFar + mains[i].weight;
      lowerBound := upperBound;
    }
    assert false;
  }

  /** The same search as a function, from centroid i on. */
  function ReadFrom(mains: seq<Centroid>, max: real, q: real, i: nat, weightSoFar: real, lowerBound: real): Option<real>
    requires i <= |mains|
    decreases |mains| - i
  {
    if i == |mains| then None
    else if q <= weightSoFar + mains[i].weight && mains[i].weight > 0.0 then
      Some(Interpolation.Along(q, weightSoFar, weightSoFar + mains[i].weight, lowerBound, UpperBound(mains, max, i)))
    else ReadFrom(mains, max, q, i + 1, weightSoFar + mains[i].weight, UpperBound(mains, max, i))
  }

  function Part(quantile: real, total: real): real {
    quantile * total
  }

  function Reading(mains: seq<Centroid>, min: real, max: real, quantile: real): Option<real> {
    ReadFrom(mains, max, Part(quantile, Weight(mains)), 0, 0.0, min)
  }

  lemma {:induction false} ReadFromFinds(
    mains: seq<Centroid>, min: real, max: real, total: real, quantile: real, i: nat)
    requires Readable(mains, min, max, total) && 0.0 <= quantile <= 1.0 && i <= |mains|
    requires i > 0 ==> Cumulative(mains)[i] < Part(quantile, total)
    ensures ReadFrom(mains, max, Part(quantile, total), i, Cumulative(mains)[i], Bounds(mains, min, max)[i])
         == Some(QuantileOf(mains, min, max, total, quantile))
    decreases |mains| - i
  {
    hide Bounds, Cumulative, QuantileOf, Interpolation.Along, Interpolation.Quantile, UpperBound, Total;
    var bs, ws := Bounds(mains, min, max), Cumulative(mains);
    LadderOf(mains, min, max, total);
    QuantileOfLadder(mains, min, max, total, quantile);
    assert Interpolation.Portion(quantile, total) == Part(quantile, total);
    if i < |mains| {
      SegmentAt(mains, min, max, i);
      if Part(quantile, total) <= ws[i + 1] {
        Interpolation.QuantileInSegment(bs, ws, quantile, i);
      } else {
        ReadFromFinds(mains, min, max, total, quantile, i + 1);
      }
    }
  }

  lemma ReadingIsQuantile(mains: seq<Centroid>, min: real, max: real, quantile: real)
    requires Readable(mains, min, max, Weight(mains)) && 0.0 <= quantile <= 1.0
    ensures Reading(mains, min, max, quantile) == Some(QuantileOf(mains, min, max, Weight(mains), quantile))
  {
    hide Bounds, Cumulative, QuantileOf, Total, Part;
    LadderOf(mains, min, max, Weight(mains));
    ReadFromFinds(mains, min, max, Weight(mains), quantile, 0);
  }

  /** The search of CDF. */
  method FindCdf(mains: seq<Centroid>, min: real, max: real, mainWeight: real, value: real)
    returns (r: Option<real>)
    requires Readable(mains, min, max, mainWeight)
    ensures r == Some(CdfOf(mains, min, max, mainWeight, value))
  {
    hide *;
    ghost var bs, ws := Bounds(mains, min, max), Cumulative(mains);
    LadderOf(mains, min, max, mainWeight);
    CdfOfLadder(mains, min, max, mainWeight, value);
    Interpolation.CdfOutside(bs, ws, value);
    if value <= min {
      return Some(0.0);
    }
    if value >= max {
      return Some(1.0);
    }
    var weightSoFar, lowerBound := 0.0, min;
    for i := 0 to |mains|
      invariant weightSoFar == ws[i] && lowerBound == bs[i]
      invariant bs[i] <= value
    {
      var upperBound := UpperBound(mains, max, i);
      SegmentAt(mains, min, max, i);
      if value < upperBound {
        Interpolation.CdfInSegment(bs, ws, value, i);
        weightSoFar := Interpolation.Along(value, lowerBound, upperBound, weightSoFar, weightSoFar + mains[i].weight);
        return Some(Interpolation.Share(weightSoFar, mainWeight));
      }
      weightSoFar := weightSoFar + mains[i].weight;
      lowerBound := upperBound;
    }
    assert false;
  }

  lemma BoundsOrdered(mains: seq<Centroid>, min: real, max: real, i: nat, j: nat)
    requires mains != [] && SortedByMean(mains) && MeansWithin(mains, min, max)
    requires i < j <= |mains|
    ensures Bounds(mains, min, max)[i] <= Bounds(mains, min, max)[j]
  {
    if i > 0 && j < |mains| {
      assert mains[i - 1].mean <= mains[i].mean <= mains[j - 1].mean <= mains[j].mean;
    }
  }

  // ---- What the answers satisfy

  /** Answers stay in range and never decrease with the question. */
  lemma {:induction false} AnswersOrdered(mains: seq<Centroid>, min: real, max: real, total: real, p: real,
      q: real, v: real, w: real)
    requires Readable(mains, min, max, total) && 0.0 <= p <= q <= 1.0 && v <= w
    ensures min <= QuantileOf(mains, min, max, total, p) <= QuantileOf(mains, min, max, total, q) <= max
    ensures 0.0 <= CdfOf(mains, min, max, total, v) <= CdfOf(mains, min, max, total, w) <= 1.0
  {
    hide *;
    LadderOf(mains, min, max, total);
    QuantileOfLadder(mains, min, max, total, p);
    QuantileOfLadder(mains, min, max, total, q);
    CdfOfLadder(mains, min, max, total, v);
    CdfOfLadder(mains, min, max, total, w);
    var bs, ws := Bounds(mains, min, max), Cumulative(mains);
    Interpolation.QuantileSound(bs, ws, p, p);
    Interpolation.QuantileSound(bs, ws, p, q);
    Interpolation.CdfSound(bs, ws, v, w);
  }

  function BelowShare(mains: seq<Centroid>, total: real, i: nat): real
    requires i <= |mains| && total > 0.0
  {
    Weight(mains[..i]) / total
  }

  lemma InnerBound(mains: seq<Centroid>, min: real, max: real, total: real, i: nat)
    requires 0 < i < |mains| && total > 0.0
    ensures Bounds(mains, min, max)[i] == (mains[i - 1].mean + mains[i].mean) / 2.0
    ensures Cumulative(mains)[i] == Weight(mains[..i])
    ensures 0.0 <= Weight(mains[..i]) <= total ==>
              BelowShare(mains, total, i) == Interpolation.Share(Weight(mains[..i]), total)
  {
    hide Total;
  }

  /** At the share of the weight below centroid i, the answer is as far from its mean as from the mean before. */
  lemma {:induction false} QuantileHalfway(mains: seq<Centroid>, min: real, max: real, total: real, i: nat)
    requires Readable(mains, min, max, total) && 0 < i < |mains|
    ensures total > 0.0 && 0.0 <= BelowShare(mains, total, i) <= 1.0
    ensures var v := QuantileOf(mains, min, max, total, BelowShare(mains, total, i));
            v - mains[i - 1].mean == mains[i].mean - v
  {
    hide *;
    LadderOf(mains, min, max, total);
    var bs, ws := Bounds(mains, min, max), Cumulative(mains);
    InnerBound(mains, min, max, total, i);
    Interpolation.QuantileAtBound(bs, ws, i);
    QuantileOfLadder(mains, min, max, total, Interpolation.Share(ws[i], total));
  }

  /** The ends of the range are the answers at 0 and 1; outside it the distribution is 0 and 1. */
  lemma {:induction false} AnswersAtEnds(mains: seq<Centroid>, min: real, max: real, total: real, v: real)
    requires Readable(mains, min, max, total)
    ensures QuantileOf(mains, min, max, total, 0.0) == min && QuantileOf(mains, min, max, total, 1.0) == max
    ensures v <= min ==> CdfOf(mains, min, max, total, v) == 0.0
    ensures min < v && v >= max ==> CdfOf(mains, min, max, total, v) == 1.0
  {
    hide *;
    LadderOf(mains, min, max, total);
    var bs, ws := Bounds(mains, min, max), Cumulative(mains);
    Interpolation.QuantileAtBound(bs, ws, 0);
    Interpolation.QuantileAtBound(bs, ws, |mains|);
    EndShares(total);
    QuantileOfLadder(mains, min, max, total, 0.0);
    QuantileOfLadder(mains, min, max, total, 1.0);
    CdfOfLadder(mains, min, max, total, v);
    Interpolation.CdfOutside(bs, ws, v);
  }

  lemma EndShares(total: real)
    requires total > 0.0
    ensures Interpolation.Share(0.0, total) == 0.0 && Interpolation.Share(total, total) == 1.0
  {
  }

  /** Over the weight of one centroid, equal steps of the quantile are equal steps of the answer. */
  lemma {:induction false} QuantileStraight(mains: seq<Centroid>, min: real, max: real, total: real, i: nat,
      p: real, q: real, f: real)
    requires Readable(mains, min, max, total) && i < |mains| && 0.0 <= p <= q <= 1.0 && 0.0 <= f <= 1.0
    requires Weight(mains[..i]) <= p * total && q * total <= Weight(mains[..i + 1])
    ensures 0.0 <= Interpolation.Between(p, q, f) <= 1.0
    ensures QuantileOf(mains, min, max, total, Interpolation.Between(p, q, f))
         == Interpolation.Between(QuantileOf(mains, min, max, total, p), QuantileOf(mains, min, max, total, q), f)
  {
    hide Total, Interpolation.Quantile, QuantileOf, Interpolation.Between;
    LadderOf(mains, min, max, total);
    var bs, ws := Bounds(mains, min, max), Cumulative(mains);
    Interpolation.QuantileStraight(bs, ws, i, p, q, f);
    QuantileOfLadder(mains, min, max, total, p);
    QuantileOfLadder(mains, min, max, total, q);
    QuantileOfLadder(mains, min, max, total, Interpolation.Between(p, q, f));
  }

  /** Halfway between two means, the distribution is the share of the weight below, unless bounds coincide there. */
  lemma {:induction false} CdfHalfway(mains: seq<Centroid>, min: real, max: real, total: real, i: nat)
    requires Readable(mains, min, max, total) && 0 < i < |mains|
    requires var v := (mains[i - 1].mean + mains[i].mean) / 2.0; min < v < UpperBound(mains, max, i)
    ensures total > 0.0
    ensures CdfOf(mains, min, max, total, (mains[i - 1].mean + mains[i].mean) / 2.0) == BelowShare(mains, total, i)
  {
    hide *;
    LadderOf(mains, min, max, total);
    var bs, ws := Bounds(mains, min, max), Cumulative(mains);
    InnerBound(mains, min, max, total, i);
    SegmentAt(mains, min, max, i);
    Interpolation.CdfAtBound(bs, ws, i);
    CdfOfLadder(mains, min, max, total, bs[i]);
  }

  /** A value looked up and read back is the value, in every nonempty digest. */
  lemma {:induction false} QuantileUndoesCdf(mains: seq<Centroid>, min: real, max: real, total: real, v: real)
    requires Readable(mains, min, max, total) && min <= v <= max
    ensures 0.0 <= CdfOf(mains, min, max, total, v) <= 1.0
    ensures QuantileOf(mains, min, max, total, CdfOf(mains, min, max, total, v)) == v
  {
    hide *;
    LadderOf(mains, min, max, total);
    CdfOfLadder(mains, min, max, total, v);
    var bs, ws := Bounds(mains, min, max), Cumulative(mains);
    Interpolation.CdfSound(bs, ws, v, v);
    QuantileOfLadder(mains, min, max, total, Interpolation.Cdf(bs, ws, v));
    Interpolation.QuantileOfCdf(bs, ws, v);
  }

  /** A quantile read and looked up again is never short of itself once past the minimum. */
  lemma {:induction false} CdfCoversQuantile(mains: seq<Centroid>, min: real, max: real, total: real, q: real)
    requires Readable(mains, min, max, total) && 0.0 <= q <= 1.0
    ensures QuantileOf(mains, min, max, total, q) > min ==>
              CdfOf(mains, min, max, total, QuantileOf(mains, min, max, total, q)) >= q
  {
    hide *;
    LadderOf(mains, min, max, total);
    QuantileOfLadder(mains, min, max, total, q);
    CdfOfLadder(mains, min, max, total, QuantileOf(mains, min, max, total, q));
    Interpolation.CdfOfQuantile(Bounds(mains, min, max), Cumulative(mains), q);
  }

  /** It is exact for every quantile if and only if no two segment bounds coincide. */
  lemma {:induction false} CdfUndoesQuantileIff(mains: seq<Centroid>, min: real, max: real, total: real)
    requires Readable(mains, min, max, total)
    ensures (forall q :: 0.0 <= q <= 1.0 ==>
               CdfOf(mains, min, max, total, QuantileOf(mains, min, max, total, q)) == q)
            <==> Interpolation.StrictlyIncreasing(Bounds(mains, min, max))
  {
    hide *;
    LadderOf(mains, min, max, total);
    var bs, ws := Bounds(mains, min, max), Cumulative(mains);
    forall q | 0.0 <= q <= 1.0
      ensures CdfOf(mains, min, max, total, QuantileOf(mains, min, max, total, q))
           == Interpolation.Cdf(bs, ws, Interpolation.Quantile(bs, ws, q))
    {
      QuantileOfLadder(mains, min, max, total, q);
      CdfOfLadder(mains, min, max, total, QuantileOf(mains, min, max, total, q));
    }
    Interpolation.InverseIffStrict(bs, ws);
  }
}
