/** A digest as a value: what is exported of it, what Quantile reads, and how adding and merging change it. */
module Digests {
  import opened Centroids
  import opened DigestMerge
  import opened DigestReading
  import opened DigestRuns
  import opened Options

  /** A merged digest, which is also what is encoded for the wire: the gob tuple. */
  datatype Encoded = Encoded(main: seq<Centroid>, compression: real, min: Option<real>, max: Option<real>)

  /** The digest of a new histogram. */
  const NO_DIGEST := Encoded([], 100.0, None, None)

  function Lower(min: Option<real>, value: real): Option<real> {
    if min.Some? && min.value <= value then min else Some(value)
  }

  function Upper(max: Option<real>, value: real): Option<real> {
    if max.Some? && max.value >= value then max else Some(value)
  }

  /** The lowest of an earlier minimum and the means of some centroids. */
  ghost predicate IsLowest(r: Option<real>, m: Option<real>, cs: seq<Centroid>) {
    && (r.Some? <==> m.Some? || cs != [])
    && (m.Some? ==> r.value <= m.value)
    && (forall i :: 0 <= i < |cs| ==> r.value <= cs[i].mean)
    && (r == m || exists i :: 0 <= i < |cs| && r == Some(cs[i].mean))
  }

  ghost predicate IsHighest(r: Option<real>, m: Option<real>, cs: seq<Centroid>) {
    && (r.Some? <==> m.Some? || cs != [])
    && (m.Some? ==> r.value >= m.value)
    && (forall i :: 0 <= i < |cs| ==> r.value >= cs[i].mean)
    && (r == m || exists i :: 0 <= i < |cs| && r == Some(cs[i].mean))
  }

  /** Centroids in order and in range, with a range exactly if there are any. */
  predicate Sane(d: Encoded) {
    && Positive(d.main) && SortedByMean(d.main)
    && (d.main == [] <==> d.min.None?) && (d.min.None? <==> d.max.None?)
    && (d.min.Some? ==> MeansWithin(d.main, d.min.value, d.max.value))
  }

  /** Every centroid is one of those added, or spanned at most one unit of k in a pass over some of them. */
  ghost predicate Made(arc: real -> real, d: Encoded, adds: seq<Centroid>) {
    forall i :: 0 <= i < |d.main| ==> Grown(Scale(arc, d.compression), d.main[i], adds)
  }

  /**
    What a digest to which centroids were added may have become by taking in one
    value. When its passes come, and how they break ties, is open.
   */
  ghost predicate Took(arc: real -> real, adds: seq<Centroid>, before: Encoded, value: real, weight: real,
                       after: Encoded)
  {
    && Sane(after) && after.compression == before.compression
    && Made(arc, after, adds + [Centroid(value, weight)])
    && Weight(after.main) == Weight(before.main) + weight
    && Moment(after.main) == Moment(before.main) + value * weight
    && after.min == Lower(before.min, value) && after.max == Upper(before.max, value)
  }

  /** What a digest may have become by merging the centroids of another in. */
  ghost predicate Joined(arc: real -> real, adds: seq<Centroid>, before: Encoded, other: Encoded, after: Encoded) {
    && Sane(after) && after.compression == before.compression
    && Made(arc, after, adds + other.main)
    && Weight(after.main) == Weight(before.main) + Weight(other.main)
    && Moment(after.main) == Moment(before.main) + Moment(other.main)
    && IsLowest(after.min, before.min, other.main) && IsHighest(after.max, before.max, other.main)
  }

  /** The answer of Quantile; none where the digest is empty. */
  function Read(d: Encoded, quantile: real): Option<real> {
    if d.min.Some? && d.max.Some? then Reading(d.main, d.min.value, d.max.value, quantile) else None
  }

  /** It is the reference quantile of the centroids. */
  lemma {:induction false} ReadIsQuantile(d: Encoded, quantile: real)
    requires Sane(d) && d.main != [] && 0.0 <= quantile <= 1.0
    ensures Readable(d.main, d.min.value, d.max.value, Weight(d.main))
    ensures Read(d, quantile) == Some(QuantileOf(d.main, d.min.value, d.max.value, Weight(d.main), quantile))
  {
    hide Reading, QuantileOf, Total;
    ReadingIsQuantile(d.main, d.min.value, d.max.value, quantile);
  }

  lemma ReadNothing(d: Encoded, quantile: real)
    requires Sane(d) && d.main == []
    ensures Read(d, quantile) == None
  {
  }

  /** Answers lie in the range, and larger quantiles have larger ones. */
  lemma {:induction false} ReadOrdered(d: Encoded, p: real, q: real)
    requires Sane(d) && d.main != [] && 0.0 <= p <= q <= 1.0
    ensures Read(d, p).Some? && Read(d, q).Some?
    ensures d.min.value <= Read(d, p).value <= Read(d, q).value <= d.max.value
  {
    hide Read, QuantileOf, CdfOf, Total, Readable;
    ReadIsQuantile(d, p);
    ReadIsQuantile(d, q);
    AnswersOrdered(d.main, d.min.value, d.max.value, Weight(d.main), p, q, 0.0, 0.0);
  }

  lemma ReadWithin(d: Encoded, q: real)
    requires Sane(d) && d.main != [] && 0.0 <= q <= 1.0
    ensures Read(d, q).Some? && d.min.value <= Read(d, q).value <= d.max.value
  {
    hide Read;
    ReadOrdered(d, q, q);
  }

  /** A digest of one value answers that value. */
  lemma ReadOne(x: real, weight: real, compression: real)
    requires weight > 0.0
    ensures var d := Encoded([Centroid(x, weight)], compression, Some(x), Some(x));
            Sane(d) && Weight(d.main) == weight && Read(d, 0.5) == Some(x)
  {
    var c := Centroid(x, weight);
    WeightOfOne(c);
    assert ReadFrom([c], x, 0.5 * weight, 0, 0.0, x) == Some(x);
  }

  lemma WeightOfOne(c: Centroid)
    ensures Weight([c]) == c.weight && Moment([c]) == MassOf(c)
  {
    hide Total, MassOf;
    TotalOfAppend(WeightOf, [], c);
    TotalOfAppend(MassOf, [], c);
    TotalOfEmpty(WeightOf);
    TotalOfEmpty(MassOf);
    assert [] + [c] == [c];
  }
}
