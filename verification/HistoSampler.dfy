/** A histogram with its digest, and that it does what the Samplers values say. */
module HistoSampler {
  import opened Options
  import opened Centroids
  import opened DigestMerge
  import opened DigestReading
  import opened DigestRuns
  import opened Digests
  import opened Floating
  import opened MergingDigest
  import opened Sums
  import Samplers

  class HistoSampler {
    const name: string
    const tags: seq<string>
    const value: MergingDigest
    var localWeight: real
    var localMin: Option<real>
    var localMax: Option<real>
    var localSum: real
    var localReciprocalSum: Option<real>
    ghost var imported: real
    ghost var samples: seq<Samplers.Observation>
    ghost var own: seq<Samplers.Observation>
    ghost var adds: seq<Centroid>

    /** The digest weighs what was sampled here plus what was merged in. */
    ghost predicate Valid()
      reads this, value, value.mainCentroids, value.tempCentroids
    {
      && value.Valid()
      && value.Count() == localWeight + imported == Sum(Samplers.ObservedWeight(), samples)
      && value.Sum() == Sum(Samplers.ObservedMoment(), samples)
      && Samplers.Rated(samples) && Samplers.Covered(Ends(), samples)
      && MadeOf(value.scale, value.State(), adds)
      && localWeight >= 0.0 && imported >= 0.0
    }

    /** The range of the digest, for which its centroids do not matter. */
    ghost function Ends(): Encoded
      reads this, value
    {
      Encoded([], 0.0, value.min, value.max)
    }

    /** This histogram, given a value of its digest. */
    ghost function AsValue(d: Encoded): Samplers.Histo
      reads this
    {
      Samplers.Histo(name, tags, d, imported, samples, own, adds, localWeight, localMin, localMax, localSum,
                     localReciprocalSum)
    }

    lemma AccountedAs(d: Encoded)
      requires Valid() && value.Views(d)
      ensures Samplers.Accounted(AsValue(d)) && Weight(d.main) == value.Count() && Moment(d.main) == value.Sum()
    {
      hide Sum, Total, Sane;
      value.ViewsAgree(d);
    }

    constructor (name: string, tags: seq<string>, arc: real -> real)
      requires Scale(arc, 100.0).Valid()
      ensures Valid() && value.Views(NO_DIGEST) && AsValue(NO_DIGEST) == Samplers.NewHisto(name, tags)
      ensures forall d :: value.Views(d) ==> d == NO_DIGEST
      ensures fresh(value) && fresh(value.mainCentroids) && fresh(value.tempCentroids)
    {
      this.name, this.tags := name, tags;
      value := new MergingDigest(Scale(arc, 100.0));
      localWeight, localMin, localMax, localSum, localReciprocalSum := 0.0, None, None, 0.0, Some(0.0);
      imported, samples, own, adds := 0.0, [], [], [];
      new;
      NothingMade(value.scale);
    }

    /**
      Any sample at any rate: the digest's guard decides. A panic leaves everything as
      it was. Nothing is said of the digest after a weight that is no finite number.
     */
    method Sample(sample: Float, rate: Float) returns (fate: Samplers.Fate)
      requires Valid()
      modifies this, value, value.mainCentroids, value.tempCentroids
      ensures fate == Samplers.AddFate(sample, Reciprocal(rate)) && (fate != Samplers.Spoiled ==> Valid())
      ensures fate == Samplers.Panicked ==>
                unchanged(this) && unchanged(value) && unchanged(value.mainCentroids) && unchanged(value.tempCentroids)
      ensures fate == Samplers.Taken ==> sample.Finite? && rate.Finite? && rate.value > 0.0
      ensures fate == Samplers.Taken ==>
                forall before, after :: old(value.Views(before)) && value.Views(after) ==>
                  && AsValue(after) == Samplers.SampleHisto(old(AsValue(before)), sample.value, rate.value, after)
                  && Took(value.scale.arc, old(adds), before, sample.value, Samplers.SampleWeight(rate.value), after)
    {
      hide Valid, MergingDigest.Views, Samplers.SampleHisto, Took, AsValue;
      Samplers.AddFateIff(sample, rate);
      var weight := Reciprocal(rate);
      if !sample.Finite? || AtMostZero(weight) {
        return Samplers.Panicked;
      }
      if !weight.Finite? {
        return Samplers.Spoiled;
      }
      SampleFinite(sample.value, rate.value);
      fate := Samplers.Taken;
    }

    /** Whatever the value of the digest before and after, this is the sampling of values, and the digest took it. */
    method SampleFinite(sample: real, rate: real)
      requires Valid() && rate > 0.0
      modifies this, value, value.mainCentroids, value.tempCentroids
      ensures Valid()
      ensures forall before, after :: old(value.Views(before)) && value.Views(after) ==>
                && AsValue(after) == Samplers.SampleHisto(old(AsValue(before)), sample, rate, after)
                && Took(value.scale.arc, old(adds), before, sample, Samplers.SampleWeight(rate), after)
      ensures value.scale == old(value.scale)
    {
      hide Sound, Sum, Total, Sane, Compress, Samplers.SampleHisto, MergingDigest.Views, Lower, Upper, Samplers.Covered;
      hide MadeOf, Made, Put, Scale.Valid;
      ghost var count, moment, compression := value.Count(), value.Sum(), value.scale.compression;
      ghost var min, max, weight := value.min, value.max, Samplers.SampleWeight(rate);
      assert weight > 0.0;
      forall before | value.Views(before)
        ensures Holds(before, count, moment, compression, min, max)
      {
        value.ViewsAgree(before);
      }
      AddTo(sample, 1.0 / rate);
      assert AsValue(NO_DIGEST) == old(AsValue(NO_DIGEST));
      Samplers.TookCovered(old(Ends()), samples, sample, rate, Ends());
      Tally(sample, rate);
      forall before, after
        ensures AsValue(after) == Samplers.SampleHisto(old(AsValue(before)), sample, rate, after)
      {
        DigestApart(old(AsValue(before)), sample, rate, after);
      }
      forall after | value.Views(after)
        ensures Holds(after, count + weight, moment + sample * weight, compression,
                      Lower(min, sample), Upper(max, sample))
      {
        value.ViewsAgree(after);
      }
      ViewsMade();
    }

    method AddTo(sample: real, weight: real)
      requires value.Valid() && MadeOf(value.scale, value.State(), adds) && weight > 0.0
      modifies value, value.mainCentroids, value.tempCentroids
      ensures value.Valid() && value.scale == old(value.scale)
      ensures MadeOf(value.scale, value.State(), adds + [Centroid(sample, weight)])
      ensures value.Count() == old(value.Count()) + weight && value.Sum() == old(value.Sum()) + sample * weight
      ensures value.min == Lower(old(value.min), sample) && value.max == Upper(old(value.max), sample)
    {
      hide Total, Compress, MadeOf, Put, Lower, Upper;
      assert value.scale.Valid();
      hide Sound;
      value.Add(sample, weight);
      PutMade(value.scale, old(value.tempCentroids.Length), old(value.State()), adds, Centroid(sample, weight),
              value.State());
    }

    /** Every value of the digest is made of what was added to it. */
    lemma ViewsMade()
      requires value.Valid() && MadeOf(value.scale, value.State(), adds)
      ensures forall d :: value.Views(d) ==> Made(value.scale.arc, d, adds)
    {
      hide MadeOf, Passed;
      forall d | value.Views(d)
        ensures Made(value.scale.arc, d, adds)
      {
        PassedMade(value.scale, value.State(), adds, d.main);
        MadeGrown(value.scale, d, adds);
      }
    }

    /** The sums over this instance's own samples. */
    method Tally(sample: real, rate: real)
      requires rate > 0.0
      modifies this
      ensures AsValue(NO_DIGEST) == Samplers.SampleHisto(old(AsValue(NO_DIGEST)), sample, rate, NO_DIGEST)
      ensures localWeight == old(localWeight) + Samplers.SampleWeight(rate) && imported == old(imported)
      ensures samples == old(samples) + [Samplers.Observation(sample, rate)]
      ensures adds == old(adds) + [Centroid(sample, Samplers.SampleWeight(rate))]
      ensures Sum(Samplers.ObservedWeight(), samples)
           == old(Sum(Samplers.ObservedWeight(), samples)) + Samplers.SampleWeight(rate)
      ensures Sum(Samplers.ObservedMoment(), samples)
           == old(Sum(Samplers.ObservedMoment(), samples)) + sample * Samplers.SampleWeight(rate)
    {
      hide Sum, Samplers.AddReciprocal, Lower, Upper;
      var weight := 1.0 / rate;
      localWeight := localWeight + weight;
      localMin := Lower(localMin, sample);
      localMax := Upper(localMax, sample);
      localSum := localSum + sample * weight;
      localReciprocalSum := Samplers.AddReciprocal(localReciprocalSum, sample, weight);
      ghost var x := Samplers.Observation(sample, rate);
      ObservedOneMore(samples, x);
      samples, own, adds := samples + [x], own + [x], adds + [Centroid(sample, weight)];
    }

    /** The payload of an export is the value of the digest, before and after. */
    method Export() returns (e: Encoded)
      requires Valid()
      modifies value, value.mainCentroids, value.tempCentroids
      ensures Valid() && old(value.Views(e)) && value.Views(e) && AsValue(e) == old(AsValue(e))
      ensures Samplers.Accounted(AsValue(e)) && Samplers.Weighed(Samplers.ExportHisto(AsValue(e)).value)
    {
      hide Sum, Total, Compress;
      e := value.GobEncode();
      PassedMade(value.scale, old(value.State()), adds, e.main);
      TotalOfEmpty(MassOf);
      assert Valid();
      AccountedAs(e);
      Samplers.ExportedWeighed(AsValue(e));
    }

    /** A pass that leaves a value of the digest leaves it made as before. */
    twostate lemma TakenOver(d: Encoded)
      requires old(value.Valid()) && old(value.Views(d)) && old(MadeOf(value.scale, value.State(), adds))
      requires value.Shape() && value.State() == Buffered(d.main, []) && value.scale == old(value.scale)
      requires adds == old(adds)
      ensures MadeOf(value.scale, value.State(), adds)
    {
      hide MadeOf, Passed;
      PassedMade(old(value.scale), old(value.State()), adds, d.main);
    }

    /** What the flush asks for each percentile and for the median is read off a value of the digest. */
    method Quantile(quantile: real) returns (r: Option<real>, ghost d: Encoded)
      requires Valid() && 0.0 <= quantile <= 1.0
      modifies value, value.mainCentroids, value.tempCentroids
      ensures Valid() && old(value.Views(d)) && value.Views(d) && AsValue(d) == old(AsValue(d))
      ensures r == Read(d, quantile)
    {
      hide Sum, Total, Compress, Read, QuantileOf, MergingDigest.Views, Readable;
      r, d := value.Quantile(quantile);
      TakenOver(d);
      assert Valid();
      value.ViewsAgree(d);
      hide Sound;
      if d.main != [] {
        ReadIsQuantile(d, quantile);
      } else {
        ReadNothing(d, quantile);
      }
    }

    /**
      Decodes another digest and merges it in, its mains in any order. The samples
      behind it are history: for any positive centroids they can be the centroids.
     */
    method Combine(e: Encoded, shuffled: seq<Centroid>, ghost theirs: seq<Samplers.Observation>)
      requires Valid() && Samplers.Weighed(Samplers.DigestValue(e, theirs))
      requires multiset(shuffled) == multiset(e.main)
      modifies this, value, value.mainCentroids, value.tempCentroids
      ensures Valid()
      ensures forall before, after :: old(value.Views(before)) && value.Views(after) ==>
                && AsValue(after)
                   == Samplers.CombineHisto(old(AsValue(before)), Samplers.DigestValue(e, theirs), after)
                && Joined(value.scale.arc, old(adds), before, e, after)
    {
      hide Sum, Total, Sane, Compress, MergingDigest.Views, IsLowest, IsHighest, Samplers.Covered, MadeOf, Made,
           Passed, Scale.Valid, Samplers.MeansBetween, Samplers.ObservedWeight, Samplers.ObservedMoment;
      ghost var count, moment, compression := value.Count(), value.Sum(), value.scale.compression;
      ghost var min, max := value.min, value.max;
      forall before | value.Views(before)
        ensures Holds(before, count, moment, compression, min, max)
      {
        value.ViewsAgree(before);
      }
      Import(e, shuffled);
      hide Sound;
      PositiveWeight(e.main);
      SumConcat(Samplers.ObservedWeight(), samples, theirs);
      SumConcat(Samplers.ObservedMoment(), samples, theirs);
      Samplers.JoinedCovered(old(Ends()), samples, e.main, theirs, Ends());
      MadePermuted(value.scale, value.State(), adds + shuffled, adds + e.main);
      imported, samples, adds := imported + Weight(e.main), samples + theirs, adds + e.main;
      ViewsMade();
      forall after | value.Views(after)
        ensures Holds(after, count + Weight(e.main), moment + Moment(e.main), compression, value.min, value.max)
      {
        value.ViewsAgree(after);
      }
    }

    method Decoded(e: Encoded) returns (other: MergingDigest)
      requires value.Valid()
      ensures fresh(other) && fresh(other.mainCentroids) && fresh(other.tempCentroids) && other.Shape()
      ensures other.Mains() == e.main && other.Temps() == [] && other.Sum() == Moment(e.main)
    {
      hide Total, Compress;
      other := new MergingDigest(value.scale);
      hide Sound;
      other.GobDecode(e);
    }

    method Import(e: Encoded, shuffled: seq<Centroid>)
      requires value.Valid() && Positive(e.main) && multiset(shuffled) == multiset(e.main)
      requires MadeOf(value.scale, value.State(), adds)
      modifies value, value.mainCentroids, value.tempCentroids
      ensures value.Valid() && value.scale == old(value.scale)
      ensures value.Count() == old(value.Count()) + Weight(e.main) && value.Sum() == old(value.Sum()) + Moment(e.main)
      ensures IsLowest(value.min, old(value.min), e.main) && IsHighest(value.max, old(value.max), e.main)
      ensures MadeOf(value.scale, value.State(), adds + shuffled)
    {
      hide Total, Compress, IsLowest, IsHighest, MadeOf, PutAll, Passed, Sane, Scale.Valid;
      var other := Decoded(e);
      TotalOfEmpty(WeightOf);
      value.Merge(other, shuffled);
      hide Sound;
      RangeOfPermutation(value.min, value.max, old(value.min), old(value.max), shuffled, e.main);
      PermutationPositive(e.main, shuffled);
      assert shuffled + [] == shuffled;
      RunMade(value.scale, value.tempCentroids.Length, old(value.State()), adds, shuffled, value.State());
    }
  }

  lemma ObservedOneMore(samples: seq<Samplers.Observation>, x: Samplers.Observation)
    requires x.rate > 0.0
    ensures Sum(Samplers.ObservedWeight(), samples + [x])
         == Sum(Samplers.ObservedWeight(), samples) + Samplers.SampleWeight(x.rate)
    ensures Sum(Samplers.ObservedMoment(), samples + [x])
         == Sum(Samplers.ObservedMoment(), samples) + x.value * Samplers.SampleWeight(x.rate)
  {
    hide Sum;
    SumConcat(Samplers.ObservedWeight(), samples, [x]);
    SumOne(Samplers.ObservedWeight(), x);
    SumConcat(Samplers.ObservedMoment(), samples, [x]);
    SumOne(Samplers.ObservedMoment(), x);
  }

  lemma MadeGrown(s: Scale, d: Encoded, adds: seq<Centroid>)
    requires MadeOf(s, Buffered(d.main, []), adds) && d.compression == s.compression
    ensures Made(s.arc, d, adds)
  {
    hide Grown;
  }

  /** What every value of one digest has in common. */
  ghost predicate Holds(d: Encoded, weight: real, moment: real, compression: real,
                        min: Option<real>, max: Option<real>)
  {
    && Sane(d) && Weight(d.main) == weight && Moment(d.main) == moment
    && d.compression == compression && d.min == min && d.max == max
  }

  /** The digest has no part in the other fields. */
  lemma DigestApart(h: Samplers.Histo, sample: real, rate: real, after: Encoded)
    requires rate > 0.0
    ensures Samplers.SampleHisto(h, sample, rate, after)
         == Samplers.SampleHisto(h.(digest := NO_DIGEST), sample, rate, NO_DIGEST).(digest := after)
  {
  }

  lemma RangeOfPermutation(low: Option<real>, high: Option<real>, min: Option<real>, max: Option<real>,
                           a: seq<Centroid>, b: seq<Centroid>)
    requires multiset(a) == multiset(b) && IsLowest(low, min, a + []) && IsHighest(high, max, a + [])
    ensures IsLowest(low, min, b) && IsHighest(high, max, b)
  {
    assert a + [] == a;
    forall i | 0 <= i < |b|
      ensures b[i] in a
    {
      assert b[i] in multiset(b);
    }
    forall i | 0 <= i < |a|
      ensures a[i] in b
    {
      assert a[i] in multiset(a);
    }
  }
}
