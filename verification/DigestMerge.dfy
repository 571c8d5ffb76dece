/**
  The pure account of one merge pass of the t-digest: interleave two sorted
  centroid lists, then fold every centroid of the result into the output list.
  The in-place algorithm of MergingDigest is proved to compute exactly this.
 */
module DigestMerge {
  import opened Centroids

  /**
    The index estimate: compression times a curve rising from 0 to 1.
    The source's curve is arcsine; nothing below depends on more than this.
   */
  datatype Scale = Scale(arc: real -> real, compression: real) {
    ghost predicate Valid() {
      && compression > 0.0
      && arc(0.0) == 0.0
      && arc(1.0) == 1.0
      && forall p, q :: 0.0 <= p <= q <= 1.0 ==> arc(p) <= arc(q)
    }

    function Index(quantile: real): real {
      compression * arc(quantile)
    }

    lemma Monotone(p: real, q: real)
      requires Valid()
      requires 0.0 <= p <= q <= 1.0
      ensures Index(p) <= Index(q)
    {
      assert compression * (arc(q) - arc(p)) >= 0.0;
    }
  }

  /** Output list, weight merged so far, index at which the last centroid starts. */
  datatype Progress = Progress(out: seq<Centroid>, merged: real, lastIndex: real)

  const START := Progress([], 0.0, 0.0)

  /** Welford's update of a centroid. */
  function Absorb(c: Centroid, next: Centroid): Centroid
    requires c.weight + next.weight != 0.0
  {
    var weight := c.weight + next.weight;
    Centroid(c.mean + (next.mean - c.mean) * next.weight / weight, weight)
  }

  function MergeOne(s: Scale, total: real, p: Progress, next: Centroid): Progress
    requires total > 0.0 && next.weight > 0.0 && Positive(p.out)
  {
    var nextIndex := s.Index((p.merged + next.weight) / total);
    if nextIndex - p.lastIndex > 1.0 || |p.out| == 0 then
      Progress(p.out + [next], p.merged + next.weight, s.Index(p.merged / total))
    else
      var last := |p.out| - 1;
      Progress(p.out[..last] + [Absorb(p.out[last], next)], p.merged + next.weight, p.lastIndex)
  }

  function MergeAll(s: Scale, total: real, p: Progress, items: seq<Centroid>): Progress
    requires total > 0.0 && Positive(items) && Positive(p.out)
    decreases |items|
  {
    if items == [] then p
    else MergeAll(s, total, MergeOne(s, total, p, items[0]), items[1..])
  }

  /** The textbook merge of two sorted lists; on equal means the temp comes first. */
  function Interleave(main: seq<Centroid>, temp: seq<Centroid>): seq<Centroid>
    decreases |main| + |temp|
  {
    if main == [] then temp
    else if temp == [] then main
    else if main[0].mean < temp[0].mean then [main[0]] + Interleave(main[1..], temp)
    else [temp[0]] + Interleave(main, temp[1..])
  }

  /** What one whole merge pass leaves behind. */
  function Compress(s: Scale, main: seq<Centroid>, temp: seq<Centroid>): seq<Centroid>
    requires Positive(main) && Positive(temp) && Weight(main) + Weight(temp) > 0.0
  {
    InterleavePositive(main, temp);
    MergeAll(s, Weight(main) + Weight(temp), START, Interleave(main, temp)).out
  }

  // ---- Interleaving

  lemma {:induction false} InterleavePositive(main: seq<Centroid>, temp: seq<Centroid>)
    requires Positive(main) && Positive(temp)
    ensures Positive(Interleave(main, temp))
    decreases |main| + |temp|
  {
    if main == [] || temp == [] {
    } else if main[0].mean < temp[0].mean {
      InterleavePositive(main[1..], temp);
    } else {
      InterleavePositive(main, temp[1..]);
    }
  }

  lemma {:induction false} InterleaveTotal(f: Centroid -> real, main: seq<Centroid>, temp: seq<Centroid>)
    ensures Total(f, Interleave(main, temp)) == Total(f, main) + Total(f, temp)
    decreases |main| + |temp|
  {
    if main == [] || temp == [] {
    } else if main[0].mean < temp[0].mean {
      InterleaveTotal(f, main[1..], temp);
      TotalOfCons(f, main[0], Interleave(main[1..], temp));
      TotalOfCons(f, main[0], main[1..]);
      assert main == [main[0]] + main[1..];
    } else {
      InterleaveTotal(f, main, temp[1..]);
      TotalOfCons(f, temp[0], Interleave(main, temp[1..]));
      TotalOfCons(f, temp[0], temp[1..]);
      assert temp == [temp[0]] + temp[1..];
    }
  }

  lemma {:induction false} InterleaveIsPermutation(main: seq<Centroid>, temp: seq<Centroid>)
    ensures multiset(Interleave(main, temp)) == multiset(main) + multiset(temp)
    decreases |main| + |temp|
  {
    if main == [] || temp == [] {
    } else if main[0].mean < temp[0].mean {
      InterleaveIsPermutation(main[1..], temp);
      assert main == [main[0]] + main[1..];
    } else {
      InterleaveIsPermutation(main, temp[1..]);
      assert temp == [temp[0]] + temp[1..];
    }
  }

  lemma {:induction false} InterleaveSorted(main: seq<Centroid>, temp: seq<Centroid>, lo: real, hi: real)
    requires SortedByMean(main) && SortedByMean(temp)
    requires MeansWithin(main, lo, hi) && MeansWithin(temp, lo, hi)
    ensures SortedByMean(Interleave(main, temp))
    ensures MeansWithin(Interleave(main, temp), lo, hi)
    decreases |main| + |temp|
  {
    if main == [] || temp == [] {
    } else if main[0].mean < temp[0].mean {
      InterleaveSorted(main[1..], temp, main[0].mean, hi);
    } else {
      InterleaveSorted(main, temp[1..], temp[0].mean, hi);
    }
  }

  lemma InterleaveOfNone()
    ensures Interleave([], []) == []
  {
  }

  lemma InterleaveTakesMain(main: seq<Centroid>, temp: seq<Centroid>)
    requires main != [] && (temp == [] || main[0].mean < temp[0].mean)
    ensures Interleave(main, temp) == [main[0]] + Interleave(main[1..], temp)
  {
  }

  lemma InterleaveTakesTemp(main: seq<Centroid>, temp: seq<Centroid>)
    requires temp != [] && (main == [] || main[0].mean >= temp[0].mean)
    ensures Interleave(main, temp) == [temp[0]] + Interleave(main, temp[1..])
  {
  }

  // ---- One step

  lemma MergeAllStep(s: Scale, total: real, p: Progress, items: seq<Centroid>)
    requires total > 0.0 && Positive(items) && Positive(p.out)
    ensures items == [] ==> MergeAll(s, total, p, items) == p
    ensures items != [] ==>
              && items[0].weight > 0.0 && Positive(items[1..])
              && Positive(MergeOne(s, total, p, items[0]).out)
              && MergeAll(s, total, p, items) == MergeAll(s, total, MergeOne(s, total, p, items[0]), items[1..])
  {
  }

  lemma QuotientAtMost(d: real, w: real, x: real)
    requires w > 0.0 && d <= x * w
    ensures d / w <= x
  {
    assert (x - d / w) * w == x * w - d;
  }

  /** The Welford update keeps weight and moment, and stays between the two means. */
  lemma AbsorbConserves(c: Centroid, next: Centroid)
    requires c.weight > 0.0 && next.weight > 0.0
    ensures Absorb(c, next).weight == c.weight + next.weight
    ensures MassOf(Absorb(c, next)) == MassOf(c) + MassOf(next)
    ensures c.mean <= next.mean ==> c.mean <= Absorb(c, next).mean <= next.mean
  {
    var w := c.weight + next.weight;
    var d := (next.mean - c.mean) * next.weight;
    assert (c.mean + d / w) * w == c.mean * w + d;
    if c.mean <= next.mean {
      assert 0.0 <= d;
      assert (next.mean - c.mean) * w - d == (next.mean - c.mean) * c.weight >= 0.0;
      QuotientAtMost(d, w, next.mean - c.mean);
      assert d / w >= 0.0;
    }
  }

  /** A fold step adds exactly the weight and moment of the centroid it consumes. */
  lemma MergeOneTotal(f: Centroid -> real, s: Scale, total: real, p: Progress, next: Centroid)
    requires total > 0.0 && next.weight > 0.0 && Positive(p.out)
    requires |p.out| > 0 ==> f(Absorb(p.out[|p.out| - 1], next)) == f(p.out[|p.out| - 1]) + f(next)
    ensures Total(f, MergeOne(s, total, p, next).out) == Total(f, p.out) + f(next)
  {
    TotalOfAppend(f, p.out, next);
    if |p.out| > 0 {
      var last := |p.out| - 1;
      TotalOfAppend(f, p.out[..last], Absorb(p.out[last], next));
    }
  }

  lemma MergeOneConserves(s: Scale, total: real, p: Progress, next: Centroid)
    requires total > 0.0 && next.weight > 0.0 && Positive(p.out)
    ensures Positive(MergeOne(s, total, p, next).out)
    ensures Weight(MergeOne(s, total, p, next).out) == Weight(p.out) + next.weight
    ensures Moment(MergeOne(s, total, p, next).out) == Moment(p.out) + MassOf(next)
  {
    hide Total;
    if |p.out| > 0 {
      AbsorbConserves(p.out[|p.out| - 1], next);
    }
    MergeOneTotal(WeightOf, s, total, p, next);
    MergeOneTotal(MassOf, s, total, p, next);
  }

  // ---- A whole pass

  /** A pass that started from p has these items left to merge. */
  ghost predicate Pending(total: real, p: Progress, items: seq<Centroid>) {
    && total > 0.0
    && Positive(p.out) && Positive(items)
    && p.merged == Weight(p.out)
    && p.merged + Weight(items) == total
  }

  lemma PendingStep(s: Scale, total: real, p: Progress, items: seq<Centroid>)
    requires Pending(total, p, items) && items != []
    ensures Pending(total, MergeOne(s, total, p, items[0]), items[1..])
    ensures Moment(MergeOne(s, total, p, items[0]).out) + Moment(items[1..]) == Moment(p.out) + Moment(items)
  {
    MergeOneConserves(s, total, p, items[0]);
    assert items == [items[0]] + items[1..];
    TotalOfCons(WeightOf, items[0], items[1..]);
    TotalOfCons(MassOf, items[0], items[1..]);
  }

  lemma {:induction false} MergeAllConserves(s: Scale, total: real, p: Progress, items: seq<Centroid>)
    requires Pending(total, p, items)
    ensures Positive(MergeAll(s, total, p, items).out)
    ensures Weight(MergeAll(s, total, p, items).out) == total
    ensures Moment(MergeAll(s, total, p, items).out) == Moment(p.out) + Moment(items)
    decreases |items|
  {
    if items != [] {
      PendingStep(s, total, p, items);
      MergeAllConserves(s, total, MergeOne(s, total, p, items[0]), items[1..]);
    }
  }

  /** Output so far, then the items left, all in order and inside [lo, hi]. */
  ghost predicate Ordered(out: seq<Centroid>, items: seq<Centroid>, lo: real, hi: real) {
    && SortedByMean(out) && SortedByMean(items)
    && MeansWithin(out, lo, hi) && MeansWithin(items, lo, hi)
    && (out != [] && items != [] ==> out[|out| - 1].mean <= items[0].mean)
  }

  lemma OrderedStep(s: Scale, total: real, p: Progress, items: seq<Centroid>, lo: real, hi: real)
    requires total > 0.0 && Positive(p.out) && Positive(items) && items != []
    requires Ordered(p.out, items, lo, hi)
    ensures Ordered(MergeOne(s, total, p, items[0]).out, items[1..], lo, hi)
  {
    if |p.out| > 0 {
      AbsorbConserves(p.out[|p.out| - 1], items[0]);
    }
  }

  lemma {:induction false} MergeAllOrdered(
    s: Scale, total: real, p: Progress, items: seq<Centroid>, lo: real, hi: real)
    requires total > 0.0 && Positive(p.out) && Positive(items)
    requires Ordered(p.out, items, lo, hi)
    ensures SortedByMean(MergeAll(s, total, p, items).out)
    ensures MeansWithin(MergeAll(s, total, p, items).out, lo, hi)
    decreases |items|
  {
    if items != [] {
      OrderedStep(s, total, p, items, lo, hi);
      MergeOneConserves(s, total, p, items[0]);
      MergeAllOrdered(s, total, MergeOne(s, total, p, items[0]), items[1..], lo, hi);
    }
  }

  // ---- The size argument

  /** The index reached once a given weight out of the total has been merged. */
  function Position(s: Scale, total: real): real -> real
    requires total > 0.0
  {
    w => s.Index(w / total)
  }

  /** The position at which each prefix of a list ends, the empty prefix included. */
  function Ends(k: real -> real, cs: seq<Centroid>): (ends: seq<real>)
    ensures |ends| == |cs| + 1
    ensures ends[|cs|] == k(Weight(cs))
  {
    if cs == [] then [k(0.0)] else Ends(k, cs[..|cs| - 1]) + [k(Weight(cs))]
  }

  /** No centroid is wider than one unit, unless nothing was merged into it. */
  ghost predicate Narrow(ends: seq<real>, cs: seq<Centroid>, inputs: seq<Centroid>)
    requires |ends| == |cs| + 1
  {
    forall i :: 0 <= i < |cs| ==> cs[i] in inputs || ends[i + 1] - ends[i] <= 1.0
  }

  /** No two neighbours could have been one. */
  ghost predicate Crowded(ends: seq<real>) {
    forall i, j :: 0 <= i < j < |ends| && j == i + 2 ==> ends[j] - ends[i] > 1.0
  }

  ghost predicate Tight(k: real -> real, cs: seq<Centroid>, inputs: seq<Centroid>) {
    Narrow(Ends(k, cs), cs, inputs) && Crowded(Ends(k, cs))
  }

  /** lastIndex is where the last output centroid begins. */
  ghost predicate Anchored(k: real -> real, p: Progress) {
    p.lastIndex == if p.out == [] then 0.0 else Ends(k, p.out)[|p.out| - 1]
  }

  /** Quantile positions along a pass never decrease. */
  lemma PositionGrows(s: Scale, total: real, a: real, b: real)
    requires s.Valid() && total > 0.0 && 0.0 <= a <= b <= total
    ensures Position(s, total)(a) <= Position(s, total)(b)
  {
    QuotientAtMost(b, total, 1.0);
    QuotientAtMost(a, total, b / total);
    assert a / total >= 0.0;
    s.Monotone(a / total, b / total);
  }

  lemma EndsOfAppend(k: real -> real, cs: seq<Centroid>, c: Centroid)
    ensures Ends(k, cs + [c]) == Ends(k, cs) + [k(Weight(cs) + c.weight)]
  {
    TotalOfAppend(WeightOf, cs, c);
    assert (cs + [c])[..|cs|] == cs;
  }

  lemma CrowdedAppend(ends: seq<real>, e: real)
    requires Crowded(ends)
    requires |ends| >= 2 ==> e - ends[|ends| - 2] > 1.0
    ensures Crowded(ends + [e])
  {
  }

  lemma NarrowAppend(ends: seq<real>, cs: seq<Centroid>, e: real, c: Centroid, inputs: seq<Centroid>)
    requires |ends| == |cs| + 1 && Narrow(ends, cs, inputs)
    requires c in inputs || e - ends[|cs|] <= 1.0
    ensures Narrow(ends + [e], cs + [c], inputs)
  {
  }

  lemma TightAppend(k: real -> real, out: seq<Centroid>, next: Centroid, inputs: seq<Centroid>)
    requires Tight(k, out, inputs)
    requires next in inputs || k(Weight(out) + next.weight) - k(Weight(out)) <= 1.0
    requires |out| > 0 ==> k(Weight(out) + next.weight) - Ends(k, out)[|out| - 1] > 1.0
    ensures Tight(k, out + [next], inputs)
    ensures Ends(k, out + [next])[|out|] == k(Weight(out))
  {
    var e := k(Weight(out) + next.weight);
    EndsOfAppend(k, out, next);
    CrowdedAppend(Ends(k, out), e);
    NarrowAppend(Ends(k, out), out, e, next, inputs);
  }

  lemma CrowdedPrefix(ends: seq<real>, e: real)
    requires Crowded(ends + [e])
    ensures Crowded(ends)
    ensures |ends| >= 2 ==> e - ends[|ends| - 2] > 1.0
  {
    var all := ends + [e];
    assert forall i :: 0 <= i < |ends| ==> all[i] == ends[i];
    if |ends| >= 2 {
      assert all[|ends|] - all[|ends| - 2] > 1.0;
    }
  }

  lemma NarrowPrefix(ends: seq<real>, cs: seq<Centroid>, e: real, c: Centroid, inputs: seq<Centroid>)
    requires |ends| == |cs| + 1 && Narrow(ends + [e], cs + [c], inputs)
    ensures Narrow(ends, cs, inputs)
  {
    var all := ends + [e];
    forall i | 0 <= i < |cs|
      ensures cs[i] in inputs || ends[i + 1] - ends[i] <= 1.0
    {
      assert (cs + [c])[i] == cs[i];
      assert all[i + 1] == ends[i + 1] && all[i] == ends[i];
    }
  }

  lemma TightPrefix(k: real -> real, front: seq<Centroid>, c: Centroid, inputs: seq<Centroid>)
    requires Tight(k, front + [c], inputs)
    ensures Tight(k, front, inputs)
    ensures Ends(k, front + [c])[|front|] == k(Weight(front))
    ensures |front| > 0 ==> k(Weight(front) + c.weight) - Ends(k, front)[|front| - 1] > 1.0
  {
    var e := k(Weight(front) + c.weight);
    EndsOfAppend(k, front, c);
    CrowdedPrefix(Ends(k, front), e);
    NarrowPrefix(Ends(k, front), front, e, c, inputs);
  }

  lemma TightAbsorb(k: real -> real, front: seq<Centroid>, c: Centroid, c': Centroid, inputs: seq<Centroid>)
    requires Tight(k, front + [c], inputs)
    requires k(Weight(front) + c.weight) <= k(Weight(front) + c'.weight)
    requires k(Weight(front) + c'.weight) - Ends(k, front + [c])[|front|] <= 1.0
    ensures Tight(k, front + [c'], inputs)
    ensures Ends(k, front + [c'])[|front|] == Ends(k, front + [c])[|front|]
  {
    TightPrefix(k, front, c, inputs);
    TightAppend(k, front, c', inputs);
  }

  lemma PendingPosition(s: Scale, total: real, p: Progress, items: seq<Centroid>)
    requires s.Valid() && Pending(total, p, items) && items != []
    ensures Position(s, total)(p.merged) <= Position(s, total)(p.merged + items[0].weight)
  {
    assert items == [items[0]] + items[1..];
    TotalOfCons(WeightOf, items[0], items[1..]);
    PositiveWeight(items[1..]);
    PositiveWeight(p.out);
    PositionGrows(s, total, p.merged, p.merged + items[0].weight);
  }

  lemma TightStep(s: Scale, total: real, p: Progress, items: seq<Centroid>, inputs: seq<Centroid>)
    requires s.Valid() && Pending(total, p, items) && items != [] && items[0] in inputs
    requires Tight(Position(s, total), p.out, inputs) && Anchored(Position(s, total), p)
    ensures Tight(Position(s, total), MergeOne(s, total, p, items[0]).out, inputs)
    ensures Anchored(Position(s, total), MergeOne(s, total, p, items[0]))
  {
    hide Tight, Ends, Total;
    var k, next := Position(s, total), items[0];
    if k(p.merged + next.weight) - p.lastIndex > 1.0 || |p.out| == 0 {
      TightAppend(k, p.out, next, inputs);
    } else {
      var front, c := p.out[..|p.out| - 1], p.out[|p.out| - 1];
      assert p.out == front + [c];
      TotalOfAppend(WeightOf, front, c);
      PendingPosition(s, total, p, items);
      TightAbsorb(k, front, c, Absorb(c, next), inputs);
    }
  }

  lemma {:induction false} MergeAllTight(
    s: Scale, total: real, p: Progress, items: seq<Centroid>, inputs: seq<Centroid>)
    requires s.Valid() && Pending(total, p, items)
    requires forall i :: 0 <= i < |items| ==> items[i] in inputs
    requires Tight(Position(s, total), p.out, inputs) && Anchored(Position(s, total), p)
    ensures Tight(Position(s, total), MergeAll(s, total, p, items).out, inputs)
    decreases |items|
  {
    if items != [] {
      TightStep(s, total, p, items, inputs);
      PendingStep(s, total, p, items);
      MergeAllTight(s, total, MergeOne(s, total, p, items[0]), items[1..], inputs);
    }
  }

  /** Each pair of neighbours uses up more than one unit of the index. */
  lemma {:induction false} PairsSpan(ends: seq<real>, pairs: nat)
    requires Crowded(ends) && 2 * pairs < |ends| && ends[0] == 0.0
    ensures ends[2 * pairs] >= pairs as real
    ensures pairs > 0 ==> ends[2 * pairs] > pairs as real
  {
    if pairs > 0 {
      PairsSpan(ends, pairs - 1);
      assert ends[2 * (pairs - 1)] == ends[2 * pairs - 2];
    }
  }

  lemma {:induction false} EndsAt(k: real -> real, cs: seq<Centroid>, i: nat)
    requires i <= |cs|
    ensures Ends(k, cs)[i] == k(Weight(cs[..i]))
  {
    if i == |cs| {
      assert cs[..i] == cs;
    } else {
      EndsAt(k, cs[..|cs| - 1], i);
      assert cs[..|cs| - 1][..i] == cs[..i];
    }
  }

  lemma PositionAtEnds(s: Scale, total: real)
    requires s.Valid() && total > 0.0
    ensures Position(s, total)(0.0) == 0.0
    ensures Position(s, total)(total) == s.compression
  {
    assert 0.0 / total == 0.0 && total / total == 1.0;
  }

  lemma EndsBounded(s: Scale, total: real, cs: seq<Centroid>, i: nat)
    requires s.Valid() && Positive(cs) && total > 0.0 && Weight(cs) == total && i <= |cs|
    ensures Ends(Position(s, total), cs)[i] <= s.compression
    ensures i == 0 ==> Ends(Position(s, total), cs)[i] == 0.0
  {
    hide Ends, Total, Position;
    PositionAtEnds(s, total);
    EndsAt(Position(s, total), cs, i);
    PrefixWeight(cs, i, |cs|);
    assert cs[..|cs|] == cs && cs[..0] == [];
    PositionGrows(s, total, Weight(cs[..i]), total);
    TotalOfEmpty(WeightOf);
  }

  lemma {:induction false} SizeBound(s: Scale, total: real, cs: seq<Centroid>, inputs: seq<Centroid>)
    requires s.Valid() && Positive(cs) && total > 0.0 && Weight(cs) == total
    requires Tight(Position(s, total), cs, inputs)
    ensures |cs| as real < 2.0 * s.compression + 1.0
  {
    hide Ends, Total, Narrow, Crowded;
    var pairs := |cs| / 2;
    EndsBounded(s, total, cs, 0);
    EndsBounded(s, total, cs, 2 * pairs);
    PairsSpan(Ends(Position(s, total), cs), pairs);
  }

  // ---- What one merge pass guarantees

  /**
    For any two sorted lists of positive-weight centroids the pass conserves
    weight and moment, leaves a sorted list inside the range of the input,
    with no centroid wider than one index unit unless it came in that way,
    no mergeable neighbours, and fewer than 2 * compression + 1 centroids.
   */
  lemma {:induction false} CompressSound(s: Scale, main: seq<Centroid>, temp: seq<Centroid>, lo: real, hi: real)
    requires s.Valid() && Positive(main) && Positive(temp) && Weight(main) + Weight(temp) > 0.0
    requires SortedByMean(main) && SortedByMean(temp)
    requires MeansWithin(main, lo, hi) && MeansWithin(temp, lo, hi)
    ensures Positive(Compress(s, main, temp))
    ensures Weight(Compress(s, main, temp)) == Weight(main) + Weight(temp)
    ensures Moment(Compress(s, main, temp)) == Moment(main) + Moment(temp)
    ensures SortedByMean(Compress(s, main, temp))
    ensures MeansWithin(Compress(s, main, temp), lo, hi)
    ensures Tight(Position(s, Weight(main) + Weight(temp)), Compress(s, main, temp), main + temp)
    ensures |Compress(s, main, temp)| as real < 2.0 * s.compression + 1.0
  {
    var total, items := Weight(main) + Weight(temp), Interleave(main, temp);
    InterleavePositive(main, temp);
    InterleaveTotal(WeightOf, main, temp);
    InterleaveTotal(MassOf, main, temp);
    InterleaveSorted(main, temp, lo, hi);
    InterleaveIsPermutation(main, temp);
    MergeAllConserves(s, total, START, items);
    MergeAllOrdered(s, total, START, items, lo, hi);
    forall i | 0 <= i < |items|
      ensures items[i] in main + temp
    {
      assert items[i] in multiset(items);
    }
    MergeAllTight(s, total, START, items, main + temp);
    SizeBound(s, total, Compress(s, main, temp), main + temp);
  }
}
