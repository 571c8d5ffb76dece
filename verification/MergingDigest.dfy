/** The merging t-digest as the source keeps it: two arrays and running totals. */
module MergingDigest {
  import opened Centroids
  import opened DigestMerge
  import opened Options
  import opened DigestReading
  import opened DigestRuns
  import opened Digests

  /** Capacity of the temp buffer; the polynomial peaks at compression 925. */
  function TempBuffer(compression: real): (size: nat)
    ensures 14 <= size <= 178
  {
    var atLeast := if compression > 20.0 then compression else 20.0;
    var c := if atLeast < 925.0 then atLeast else 925.0;
    TempBufferRange(c);
    (7.5 + 0.37 * c - 0.0002 * c * c).Floor
  }

  lemma Nonnegative(x: real, y: real)
    requires x >= 0.0 && y >= 0.0
    ensures x * y >= 0.0
  {
  }

  lemma {:induction false} TempBufferRange(c: real)
    requires 20.0 <= c <= 925.0
    ensures 14.0 <= 7.5 + 0.37 * c - 0.0002 * c * c < 179.0
  {
    Nonnegative(c - 20.0, 0.37 - 0.0002 * (c + 20.0));
    Nonnegative(925.0 - c, 0.37 - 0.0002 * (c + 925.0));
  }

  // ---- The sort of the temp buffer

  function Insert(c: Centroid, cs: seq<Centroid>): seq<Centroid> {
    if cs == [] || c.mean <= cs[0].mean then [c] + cs else [cs[0]] + Insert(c, cs[1..])
  }

  lemma {:induction false} InsertKeeps(c: Centroid, cs: seq<Centroid>)
    ensures multiset(Insert(c, cs)) == multiset(cs) + multiset{c}
  {
    if !(cs == [] || c.mean <= cs[0].mean) {
      InsertKeeps(c, cs[1..]);
      assert cs == [cs[0]] + cs[1..];
    }
  }

  lemma {:induction false} InsertSorts(c: Centroid, cs: seq<Centroid>, lo: real, hi: real)
    requires SortedByMean(cs) && MeansWithin(cs, lo, hi) && lo <= c.mean <= hi
    ensures SortedByMean(Insert(c, cs)) && MeansWithin(Insert(c, cs), lo, hi)
  {
    if !(cs == [] || c.mean <= cs[0].mean) {
      InsertSorts(c, cs[1..], cs[0].mean, hi);
    }
  }

  lemma RangeOf(c: Centroid, cs: seq<Centroid>) returns (lo: real, hi: real)
    requires SortedByMean(cs)
    ensures MeansWithin(cs, lo, hi) && lo <= c.mean <= hi
  {
    lo, hi := c.mean, c.mean;
    if cs != [] {
      lo := if cs[0].mean < lo then cs[0].mean else lo;
      hi := if cs[|cs| - 1].mean > hi then cs[|cs| - 1].mean else hi;
    }
  }

  method Sort(cs: seq<Centroid>) returns (sorted: seq<Centroid>)
    ensures SortedByMean(sorted) && multiset(sorted) == multiset(cs)
  {
    sorted := [];
    for i := 0 to |cs|
      invariant SortedByMean(sorted) && multiset(sorted) == multiset(cs[..i])
    {
      ghost var lo, hi := RangeOf(cs[i], sorted);
      InsertSorts(cs[i], sorted, lo, hi);
      InsertKeeps(cs[i], sorted);
      sorted := Insert(cs[i], sorted);
      assert cs[..i + 1] == cs[..i] + [cs[i]];
    }
    assert cs[..|cs|] == cs;
  }

  method AddWeights(cs: seq<Centroid>) returns (weight: real)
    ensures weight == Weight(cs)
  {
    hide Total;
    TotalOfEmpty(WeightOf);
    weight := 0.0;
    for i := 0 to |cs|
      invariant weight == Weight(cs[..i])
    {
      assert cs[..i + 1] == cs[..i] + [cs[i]];
      TotalOfAppend(WeightOf, cs[..i], cs[i]);
      weight := weight + cs[i].weight;
    }
    assert cs[..|cs|] == cs;
  }

  class MergingDigest {
    var scale: Scale
    var mainCentroids: array<Centroid>
    var mainLen: nat
    var mainWeight: real
    var tempCentroids: array<Centroid>
    var tempLen: nat
    var tempWeight: real
    var min: Option<real>
    var max: Option<real>

    ghost predicate Shape()
      reads this
    {
      && mainCentroids != tempCentroids
      && mainLen <= mainCentroids.Length
      && tempLen <= tempCentroids.Length
      && tempCentroids.Length == TempBuffer(scale.compression)
    }

    ghost function Mains(): seq<Centroid>
      reads this, mainCentroids
      requires mainLen <= mainCentroids.Length
    {
      mainCentroids[..mainLen]
    }

    ghost function Temps(): seq<Centroid>
      reads this, tempCentroids
      requires tempLen <= tempCentroids.Length
    {
      tempCentroids[..tempLen]
    }

    /** What every run of Add, Merge, merge passes and gob round trips keeps. */
    ghost predicate Valid()
      reads this, mainCentroids, tempCentroids
    {
      && Shape()
      && Sound(scale, Mains(), Temps(), mainWeight, tempWeight, min, max)
    }

    /** The digest as a value: what merging the temps, in some sorted order, would leave. */
    ghost predicate Views(e: Encoded)
      reads this, mainCentroids, tempCentroids
      requires Shape()
    {
      && e.compression == scale.compression && e.min == min && e.max == max
      && Passed(scale, State(), e.main)
    }

    ghost function State(): Buffered
      reads this, mainCentroids, tempCentroids
      requires Shape()
    {
      Buffered(Mains(), Temps())
    }

    /** Whatever the order, the value is sane and has the weight, the moment and the range of the digest. */
    lemma {:induction false} ViewsAgree(e: Encoded)
      requires Valid() && Views(e)
      ensures Sane(e) && Weight(e.main) == Count() && Moment(e.main) == Sum()
      ensures e.compression == scale.compression && e.min == min && e.max == max
    {
      hide Compress, Total, MassOf;
      TotalOfEmpty(WeightOf);
      TotalOfEmpty(MassOf);
      if Temps() != [] {
        var order :| Sorts(State(), order) && e.main == Compress(scale, Mains(), order);
        PermutationKeeps(Temps(), order, min.value, max.value);
        CompressSound(scale, Mains(), order, min.value, max.value);
        PositiveWeight(e.main);
        assert Weight(e.main) > 0.0;
      }
    }

    function Count(): real
      reads this
    {
      mainWeight + tempWeight
    }

    ghost function Sum(): real
      reads this, mainCentroids, tempCentroids
      requires Shape()
    {
      Moment(Mains()) + Moment(Temps())
    }

    constructor (scale: Scale)
      requires scale.Valid()
      ensures Valid() && fresh(mainCentroids) && fresh(tempCentroids)
      ensures this.scale == scale && Mains() == [] && Temps() == []
      ensures Count() == 0.0 && min == None && max == None
    {
      var none := Centroid(0.0, 0.0);
      this.scale := scale;
      mainCentroids := new Centroid[0](i => none);
      tempCentroids := new Centroid[TempBuffer(scale.compression)](i => none);
      mainLen, tempLen, mainWeight, tempWeight, min, max := 0, 0, 0.0, 0.0, None, None;
    }

    /** Appending to a full slice moves it to a larger array first. */
    method Grow()
      requires Shape()
      modifies this`mainCentroids
      ensures Shape() && Mains() == old(Mains()) && mainLen < mainCentroids.Length
      ensures fresh(mainCentroids) || mainCentroids == old(mainCentroids)
      ensures old(mainLen < mainCentroids.Length) ==> mainCentroids == old(mainCentroids)
    {
      if mainLen == mainCentroids.Length {
        var none := Centroid(0.0, 0.0);
        var bigger := new Centroid[2 * mainLen + 1](i => none);
        for i := 0 to mainLen
          invariant mainCentroids == old(mainCentroids)
          invariant forall j :: 0 <= j < i ==> bigger[j] == mainCentroids[j]
        {
          bigger[i] := mainCentroids[i];
        }
        mainCentroids := bigger;
      }
    }

    /** Merges a single centroid into the list, or appends it; growing the array when full. */
    method MergeInto(beforeWeight: real, totalWeight: real, beforeIndex: real, next: Centroid)
      returns (index: real)
      requires Shape() && totalWeight > 0.0 && next.weight > 0.0 && Positive(Mains())
      modifies this`mainCentroids, this`mainLen, mainCentroids
      ensures Shape() && old(mainLen) <= mainLen <= old(mainLen) + 1
      ensures Progress(Mains(), beforeWeight + next.weight, index)
              == MergeOne(scale, totalWeight, Progress(old(Mains()), beforeWeight, beforeIndex), next)
      ensures fresh(mainCentroids) || mainCentroids == old(mainCentroids)
      ensures old(mainLen < mainCentroids.Length) ==> mainCentroids == old(mainCentroids)
      ensures forall j :: mainLen <= j < old(mainCentroids).Length ==>
                            old(mainCentroids)[j] == old(mainCentroids[j])
    {
      var nextIndex := scale.Index((beforeWeight + next.weight) / totalWeight);
      if nextIndex - beforeIndex > 1.0 || mainLen == 0 {
        Grow();
        mainCentroids[mainLen] := next;
        mainLen := mainLen + 1;
        assert Mains() == old(Mains()) + [next];
        index := scale.Index(beforeWeight / totalWeight);
      } else {
        var last := mainLen - 1;
        // the order matters: the weight is updated before the mean
        var c := mainCentroids[last];
        c := c.(weight := c.weight + next.weight);
        c := c.(mean := c.mean + (next.mean - c.mean) * next.weight / c.weight);
        assert c == Absorb(mainCentroids[last], next);
        mainCentroids[last] := c;
        assert Mains() == old(Mains())[..last] + [c];
        index := beforeIndex;
      }
    }

    /** The parked centroids move up one place and c joins them at the end. */
    method Rotate(end: nat, c: Centroid)
      requires 0 < end <= tempCentroids.Length
      modifies tempCentroids
      ensures forall j :: 0 <= j < end - 1 ==> tempCentroids[j] == old(tempCentroids[j + 1])
      ensures tempCentroids[end - 1] == c
      ensures forall j :: end <= j < tempCentroids.Length ==> tempCentroids[j] == old(tempCentroids[j])
    {
      for i := 0 to end - 1
        invariant forall j :: 0 <= j < i ==> tempCentroids[j] == old(tempCentroids[j + 1])
        invariant forall j :: i <= j < tempCentroids.Length ==> tempCentroids[j] == old(tempCentroids[j])
      {
        tempCentroids[i] := tempCentroids[i + 1];
      }
      tempCentroids[end - 1] := c;
    }

    /**
      Where the in-place merge stands. The mains still to be read are the ones
      parked in tempCentroids[swapped..swappedEnd], then source[actual..actualEnd];
      the temps still to be read are tempCentroids[tempIndex..tempLen]. Output grows
      over the mains already read, leaving room; parking over the temps already read.
     */
    ghost predicate Merging(
      source: array<Centroid>, actual: nat, actualEnd: nat, swapped: nat, swappedEnd: nat, tempIndex: nat,
      room: nat, mains: seq<Centroid>, temps: seq<Centroid>)
      reads this, source, tempCentroids
    {
      && Shape()
      && source != tempCentroids
      && actual <= actualEnd <= source.Length
      && swapped <= swappedEnd <= tempIndex <= tempLen
      && (actual < actualEnd ==> mainCentroids == source && mainLen + room <= actual && swapped == 0)
      && tempCentroids[swapped..swappedEnd] + source[actual..actualEnd] == mains
      && tempCentroids[tempIndex..tempLen] == temps
    }

    /** Consumes the first remaining main, keeping the others safe from the output. */
    method PassMain(source: array<Centroid>, actual: nat, actualEnd: nat, swapped: nat, swappedEnd: nat,
                    ghost tempIndex: nat, ghost mains: seq<Centroid>, ghost temps: seq<Centroid>)
      returns (actual': nat, swapped': nat)
      requires Merging(source, actual, actualEnd, swapped, swappedEnd, tempIndex, 0, mains, temps)
      requires mains != []
      modifies tempCentroids
      ensures Merging(source, actual', actualEnd, swapped', swappedEnd, tempIndex, 1, mains[1..], temps)
      ensures actual' + swapped' == actual + swapped + 1
    {
      actual', swapped' := actual, swapped;
      if actual != actualEnd {
        if swapped != swappedEnd {
          Rotate(swappedEnd, source[actual]);
        }
        actual' := actual + 1;
      } else {
        swapped' := swapped + 1;
      }
      ghost var parked, unread := tempCentroids[swapped'..swappedEnd], source[actual'..actualEnd];
      forall i | 0 <= i < |mains| - 1
        ensures (parked + unread)[i] == mains[i + 1]
      {
        assert mains[i + 1] == old(tempCentroids[swapped..swappedEnd] + source[actual..actualEnd])[i + 1];
      }
      assert parked + unread == mains[1..];
    }

    /** Before a temp is merged, the next main is parked so that it is not overwritten. */
    method PassTemp(source: array<Centroid>, actual: nat, actualEnd: nat, swapped: nat, swappedEnd: nat,
                    tempIndex: nat, ghost mains: seq<Centroid>, ghost temps: seq<Centroid>)
      returns (actual': nat, swappedEnd': nat)
      requires Merging(source, actual, actualEnd, swapped, swappedEnd, tempIndex, 0, mains, temps)
      requires temps != []
      modifies tempCentroids
      ensures Merging(source, actual', actualEnd, swapped, swappedEnd', tempIndex + 1, 1, mains, temps[1..])
      ensures actual <= actual'
    {
      actual', swappedEnd' := actual, swappedEnd;
      if actual != actualEnd {
        tempCentroids[swappedEnd] := source[actual];
        swappedEnd' := swappedEnd + 1;
        actual' := actual + 1;
      }
      assert tempCentroids[tempIndex + 1..tempLen] == temps[1..];
      assert tempCentroids[swapped..swappedEnd'] + source[actual'..actualEnd] == mains;
    }

    /** Sorts the temps in place; nothing is known of ties. */
    method SortTemps()
      requires Shape()
      modifies tempCentroids
      ensures SortedByMean(Temps()) && multiset(Temps()) == multiset(old(Temps()))
    {
      var sorted := Sort(tempCentroids[..tempLen]);
      assert |sorted| == |multiset(sorted)| == |multiset(old(Temps()))| == tempLen;
      for i := 0 to tempLen
        invariant tempCentroids[..i] == sorted[..i]
      {
        tempCentroids[i] := sorted[i];
      }
      assert Temps() == sorted;
    }

    /** The front of what is left to merge, as the loop below reads it off the arrays. */
    lemma MergingFront(
      source: array<Centroid>, actual: nat, actualEnd: nat, swapped: nat, swappedEnd: nat, tempIndex: nat,
      mains: seq<Centroid>, temps: seq<Centroid>)
      requires Merging(source, actual, actualEnd, swapped, swappedEnd, tempIndex, 0, mains, temps)
      ensures Shape() && actual <= actualEnd <= source.Length && swapped <= swappedEnd <= tempIndex <= tempLen
      ensures (actualEnd - actual) + (swappedEnd - swapped) == |mains| && tempLen - tempIndex == |temps|
      ensures swapped != swappedEnd ==> mains[0] == tempCentroids[swapped]
      ensures swapped == swappedEnd && actual != actualEnd ==> mains[0] == source[actual]
      ensures tempIndex < tempLen ==> temps[0] == tempCentroids[tempIndex]
    {
    }

    /** Reads the lesser of the two fronts, a temp on equal means, and makes way for the output. */
    method TakeNext(source: array<Centroid>, actual: nat, actualEnd: nat, swapped: nat, swappedEnd: nat,
                    tempIndex: nat, ghost mains: seq<Centroid>, ghost temps: seq<Centroid>)
      returns (next: Centroid, actual': nat, swapped': nat, swappedEnd': nat, tempIndex': nat,
               ghost mains': seq<Centroid>, ghost temps': seq<Centroid>)
      requires Merging(source, actual, actualEnd, swapped, swappedEnd, tempIndex, 0, mains, temps)
      requires mains != [] || temps != []
      modifies tempCentroids
      ensures Merging(source, actual', actualEnd, swapped', swappedEnd', tempIndex', 1, mains', temps')
      ensures Interleave(mains, temps) == [next] + Interleave(mains', temps')
      ensures |mains'| + |temps'| < |mains| + |temps|
    {
      hide Interleave, Merging;
      MergingFront(source, actual, actualEnd, swapped, swappedEnd, tempIndex, mains, temps);
      actual', swapped', swappedEnd', tempIndex', mains', temps' :=
        actual, swapped, swappedEnd, tempIndex, mains, temps;
      var nextTemp := if tempIndex < tempLen then Some(tempCentroids[tempIndex]) else None;
      var nextMain := if swapped != swappedEnd then Some(tempCentroids[swapped])
                      else if actual != actualEnd then Some(source[actual]) else None;
      if nextMain.Some? && (nextTemp.None? || nextMain.value.mean < nextTemp.value.mean) {
        next := nextMain.value;
        InterleaveTakesMain(mains, temps);
        actual', swapped' := PassMain(source, actual, actualEnd, swapped, swappedEnd, tempIndex, mains, temps);
        mains' := mains[1..];
      } else {
        next := nextTemp.value;
        InterleaveTakesTemp(mains, temps);
        actual', swappedEnd' := PassTemp(source, actual, actualEnd, swapped, swappedEnd, tempIndex, mains, temps);
        tempIndex', temps' := tempIndex + 1, temps[1..];
      }
    }

    /** MergeInto writes only over mains that have been read. */
    method MergeBehind(
      ghost source: array<Centroid>, ghost actual: nat, ghost actualEnd: nat,
      ghost swapped: nat, ghost swappedEnd: nat, ghost tempIndex: nat,
      ghost mains: seq<Centroid>, ghost temps: seq<Centroid>,
      beforeWeight: real, totalWeight: real, beforeIndex: real, next: Centroid)
      returns (index: real)
      requires Merging(source, actual, actualEnd, swapped, swappedEnd, tempIndex, 1, mains, temps)
      requires Shape() && totalWeight > 0.0 && next.weight > 0.0 && Positive(Mains())
      modifies this`mainCentroids, this`mainLen, mainCentroids
      ensures Merging(source, actual, actualEnd, swapped, swappedEnd, tempIndex, 0, mains, temps)
      ensures Shape() && (fresh(mainCentroids) || mainCentroids == old(mainCentroids))
      ensures Progress(Mains(), beforeWeight + next.weight, index)
              == MergeOne(scale, totalWeight, Progress(old(Mains()), beforeWeight, beforeIndex), next)
    {
      hide MergeOne;
      index := MergeInto(beforeWeight, totalWeight, beforeIndex, next);
    }

    /** The loop: merges the front of what is left until nothing is. */
    method MergeFronts(source: array<Centroid>, actualEnd: nat, totalWeight: real)
      requires Shape() && mainLen == 0 && source == mainCentroids && actualEnd <= source.Length
      requires Merging(source, 0, actualEnd, 0, 0, 0, 0, source[..actualEnd], Temps()) && totalWeight > 0.0
      requires Positive(source[..actualEnd]) && Positive(Temps())
      requires Positive(Interleave(source[..actualEnd], Temps()))
      modifies this`mainCentroids, this`mainLen, mainCentroids, tempCentroids
      ensures Shape()
      ensures fresh(mainCentroids) || mainCentroids == old(mainCentroids)
      ensures Mains() == MergeAll(scale, totalWeight, START, Interleave(old(source[..actualEnd]), old(Temps()))).out
    {
      hide MergeAll, MergeOne, Interleave, Weight, TempBuffer, Merging;
      assert Positive(Mains());
      hide Positive;
      var actual: nat, swapped: nat, swappedEnd: nat, tempIndex: nat := 0, 0, 0, 0;
      var mergedWeight, lastMergedIndex := 0.0, 0.0;
      ghost var mains, temps := source[..actualEnd], Temps();
      MergingFront(source, actual, actualEnd, swapped, swappedEnd, tempIndex, mains, temps);
      ghost var curve, items, progress := scale, Interleave(mains, temps), START;
      ghost var result := MergeAll(curve, totalWeight, progress, items);
      while (actualEnd - actual) + (swappedEnd - swapped) != 0 || tempIndex < tempLen
        invariant Merging(source, actual, actualEnd, swapped, swappedEnd, tempIndex, 0, mains, temps)
        invariant (actualEnd - actual) + (swappedEnd - swapped) == |mains| && tempLen - tempIndex == |temps|
        invariant Shape() && source == old(mainCentroids) && curve == scale
        invariant fresh(mainCentroids) || mainCentroids == source
        invariant progress == Progress(Mains(), mergedWeight, lastMergedIndex) && items == Interleave(mains, temps)
        invariant Positive(progress.out) && Positive(items)
        invariant MergeAll(curve, totalWeight, progress, items) == result
        decreases |mains| + |temps|
      {
        var next;
        next, actual, swapped, swappedEnd, tempIndex, mains, temps :=
          TakeNext(source, actual, actualEnd, swapped, swappedEnd, tempIndex, mains, temps);
        assert items[0] == next && items[1..] == Interleave(mains, temps);
        MergeAllStep(curve, totalWeight, progress, items);
        lastMergedIndex := MergeBehind(
          source, actual, actualEnd, swapped, swappedEnd, tempIndex, mains, temps,
          mergedWeight, totalWeight, lastMergedIndex, next);
        mergedWeight := mergedWeight + next.weight;
        items, progress := items[1..], MergeOne(curve, totalWeight, progress, items[0]);
        MergingFront(source, actual, actualEnd, swapped, swappedEnd, tempIndex, mains, temps);
      }
      InterleaveOfNone();
      MergeAllStep(curve, totalWeight, progress, []);
    }

    /** Combines mainCentroids and the sorted temps in place into mainCentroids. */
    method MergeSorted()
      requires Shape() && Positive(Mains()) && Positive(Temps())
      requires mainWeight == Weight(Mains()) && tempWeight == Weight(Temps())
      requires mainWeight + tempWeight > 0.0
      modifies this`mainCentroids, this`mainLen, this`mainWeight, this`tempLen, this`tempWeight
      modifies mainCentroids, tempCentroids
      ensures Shape()
      ensures fresh(mainCentroids) || mainCentroids == old(mainCentroids)
      ensures Mains() == Compress(scale, old(Mains()), old(Temps())) && Temps() == []
      ensures mainWeight == old(mainWeight + tempWeight) && tempWeight == 0.0
    {
      hide MergeAll, Interleave, Weight, TempBuffer;
      InterleavePositive(Mains(), Temps());
      var actualEnd, totalWeight := mainLen, mainWeight + tempWeight;
      mainLen := 0;
      assert mainCentroids[..actualEnd] == old(Mains()) && Mains() == [];
      MergeFronts(mainCentroids, actualEnd, totalWeight);
      tempLen, tempWeight, mainWeight := 0, 0.0, totalWeight;
    }

    /**
      One merge pass, whatever the tie-breaking of the sort: the mains become
      Compress of the old mains and some sorted order of the old temps.
     */
    method MergeAllTemps() returns (ghost order: seq<Centroid>)
      requires Valid()
      modifies this`mainCentroids, this`mainLen, this`mainWeight, this`tempLen, this`tempWeight
      modifies mainCentroids, tempCentroids
      ensures Valid() && Temps() == []
      ensures fresh(mainCentroids) || mainCentroids == old(mainCentroids)
      ensures Count() == old(Count()) && Sum() == old(Sum())
      ensures old(Temps()) == [] ==> Mains() == old(Mains())
      ensures old(Temps()) != [] ==>
                && SortedByMean(order) && multiset(order) == multiset(old(Temps()))
                && Positive(order) && Weight(old(Mains())) + Weight(order) > 0.0
                && Mains() == Compress(scale, old(Mains()), order)
      ensures Passed(scale, old(State()), Mains())
    {
      if tempLen == 0 {
        return [];
      }
      hide Compress, Total, TempBuffer;
      SortTemps();
      order := Temps();
      SoundPass(scale, Mains(), old(Temps()), order, mainWeight, tempWeight, min, max);
      hide Sound, Positive, SortedByMean, Moment;
      MergeSorted();
      assert Sorts(old(State()), order);
    }

    /** Stores a value in the temp buffer, which has room for it. */
    method Store(value: real, weight: real)
      requires Valid() && weight > 0.0 && tempLen < tempCentroids.Length
      modifies this`min, this`max, this`tempLen, this`tempWeight, tempCentroids
      ensures Valid() && Mains() == old(Mains())
      ensures Temps() == old(Temps()) + [Centroid(value, weight)]
      ensures Count() == old(Count()) + weight && Sum() == old(Sum()) + MassOf(Centroid(value, weight))
      ensures min == Lower(old(min), value) && max == Upper(old(max), value)
    {
      hide Total, Sound, TempBuffer, MassOf;
      ghost var c, mains, temps := Centroid(value, weight), Mains(), Temps();
      SoundAdd(scale, mains, temps, mainWeight, tempWeight, min, max, value, weight);
      min := Lower(min, value);
      max := Upper(max, value);
      tempCentroids[tempLen] := Centroid(value, weight);
      tempLen := tempLen + 1;
      tempWeight := tempWeight + weight;
      assert Temps() == temps + [c];
      assert Mains() == mains;
    }

    /** Adds a value with a positive weight, merging first when the buffer is full. */
    method Add(value: real, weight: real)
      requires Valid() && weight > 0.0
      modifies this, mainCentroids, tempCentroids
      ensures Valid()
      ensures fresh(mainCentroids) || mainCentroids == old(mainCentroids)
      ensures tempCentroids == old(tempCentroids) && scale == old(scale)
      ensures Count() == old(Count()) + weight && Sum() == old(Sum()) + MassOf(Centroid(value, weight))
      ensures min == Lower(old(min), value) && max == Upper(old(max), value)
      ensures old(tempLen < tempCentroids.Length) ==>
                Mains() == old(Mains()) && Temps() == old(Temps()) + [Centroid(value, weight)]
      ensures old(tempLen == tempCentroids.Length) ==> Temps() == [Centroid(value, weight)]
      ensures Put(scale, old(tempCentroids.Length), old(State()), Centroid(value, weight), State())
    {
      hide Compress, Total, Sound, MassOf, Passed;
      if tempLen == tempCentroids.Length {
        var _ := MergeAllTemps();
      }
      Store(value, weight);
    }

    /**
      Adds every centroid of another digest: its mains in some shuffled order,
      then its temps. Only their means are passed on, not the other's extremes.
     */
    method Merge(other: MergingDigest, shuffled: seq<Centroid>)
      requires Valid() && other.Shape() && other != this
      requires {mainCentroids, tempCentroids} !! {other.mainCentroids, other.tempCentroids}
      requires Positive(other.Mains()) && Positive(other.Temps()) && multiset(shuffled) == multiset(other.Mains())
      modifies this, mainCentroids, tempCentroids
      ensures Valid() && other.Shape()
      ensures other.Mains() == old(other.Mains()) && other.Temps() == old(other.Temps())
      ensures old(other.Valid()) ==> other.Valid()
      ensures fresh(mainCentroids) || mainCentroids == old(mainCentroids)
      ensures tempCentroids == old(tempCentroids) && scale == old(scale)
      ensures Count() == old(Count()) + Weight(other.Mains()) + Weight(other.Temps())
      ensures other.Valid() ==> Count() == old(Count()) + other.Count()
      ensures Sum() == old(Sum()) + other.Sum()
      ensures IsLowest(min, old(min), shuffled + other.Temps())
      ensures IsHighest(max, old(max), shuffled + other.Temps())
      ensures PutAll(scale, old(tempCentroids.Length), old(State()), shuffled + other.Temps(), State())
    {
      hide Total, MassOf, TempBuffer, PutAll;
      ghost var mains, temps := other.Mains(), other.Temps();
      PermutationPositive(mains, shuffled);
      AddAll(shuffled);
      assert other.Mains() == mains && other.Temps() == temps;
      ghost var min1, max1, mid := min, max, State();
      AddAll(other.tempCentroids[..other.tempLen]);
      assert other.Mains() == mains && other.Temps() == temps;
      LowestTrans(min, min1, old(min), shuffled, temps);
      HighestTrans(max, max1, old(max), shuffled, temps);
      PutConcat(scale, tempCentroids.Length, old(State()), shuffled, mid, temps, State());
    }

    /** The loop both halves of a merge run. */
    method AddAll(cs: seq<Centroid>)
      requires Valid() && Positive(cs)
      modifies this, mainCentroids, tempCentroids
      ensures Valid()
      ensures fresh(mainCentroids) || mainCentroids == old(mainCentroids)
      ensures tempCentroids == old(tempCentroids) && scale == old(scale)
      ensures Count() == old(Count()) + Weight(cs) && Sum() == old(Sum()) + Moment(cs)
      ensures IsLowest(min, old(min), cs) && IsHighest(max, old(max), cs)
      ensures PutAll(scale, old(tempCentroids.Length), old(State()), cs, State())
    {
      hide Total, Sound, TempBuffer, MassOf, Lower, Upper, IsLowest, IsHighest, Put, PutAll;
      PutNone(scale, tempCentroids.Length, State());
      NothingLowers(min);
      NothingLifts(max);
      TotalOfEmpty(WeightOf);
      TotalOfEmpty(MassOf);
      for i := 0 to |cs|
        invariant Valid()
        invariant fresh(mainCentroids) || mainCentroids == old(mainCentroids)
        invariant tempCentroids == old(tempCentroids) && scale == old(scale)
        invariant Count() == old(Count()) + Weight(cs[..i]) && Sum() == old(Sum()) + Moment(cs[..i])
        invariant IsLowest(min, old(min), cs[..i]) && IsHighest(max, old(max), cs[..i])
        invariant PutAll(scale, tempCentroids.Length, old(State()), cs[..i], State())
      {
        ghost var mid := State();
        assert cs[..i + 1] == cs[..i] + [cs[i]];
        TotalOfAppend(WeightOf, cs[..i], cs[i]);
        TotalOfAppend(MassOf, cs[..i], cs[i]);
        LowestStep(min, old(min), cs[..i], cs[i]);
        HighestStep(max, old(max), cs[..i], cs[i]);
        Add(cs[i].mean, cs[i].weight);
        PutOneMore(scale, tempCentroids.Length, old(State()), cs[..i], mid, cs[i], State());
      }
      assert cs[..|cs|] == cs;
    }

    /** The value below which the given fraction of the weight lies; none if the digest is empty. */
    method Quantile(quantile: real) returns (r: Option<real>, ghost d: Encoded)
      requires Valid() && 0.0 <= quantile <= 1.0
      modifies this`mainCentroids, this`mainLen, this`mainWeight, this`tempLen, this`tempWeight
      modifies mainCentroids, tempCentroids
      ensures Valid() && Temps() == []
      ensures fresh(mainCentroids) || mainCentroids == old(mainCentroids)
      ensures Count() == old(Count()) && Sum() == old(Sum())
      ensures Mains() == [] ==> r == None
      ensures Mains() != [] ==>
                && Readable(Mains(), min.value, max.value, Count())
                && r == Some(QuantileOf(Mains(), min.value, max.value, Count(), quantile))
      ensures d == Encoded(Mains(), scale.compression, min, max) && old(Views(d)) && Views(d)
    {
      hide QuantileOf, CdfOf, Compress, Total;
      TotalOfEmpty(WeightOf);
      var _ := MergeAllTemps();
      d := Encoded(Mains(), scale.compression, min, max);
      if mainLen == 0 {
        return None, d;
      }
      r := FindQuantile(mainCentroids[..mainLen], min.value, max.value, mainWeight, quantile);
    }

    /** The fraction of the weight below a value; none if the digest is empty. */
    method Cdf(value: real) returns (r: Option<real>)
      requires Valid()
      modifies this`mainCentroids, this`mainLen, this`mainWeight, this`tempLen, this`tempWeight
      modifies mainCentroids, tempCentroids
      ensures Valid() && Temps() == []
      ensures fresh(mainCentroids) || mainCentroids == old(mainCentroids)
      ensures Count() == old(Count()) && Sum() == old(Sum())
      ensures Mains() == [] ==> r == None
      ensures Mains() != [] ==>
                && Readable(Mains(), min.value, max.value, Count())
                && r == Some(CdfOf(Mains(), min.value, max.value, Count(), value))
    {
      hide QuantileOf, CdfOf, Compress, Total;
      TotalOfEmpty(WeightOf);
      var _ := MergeAllTemps();
      if mainLen == 0 {
        return None;
      }
      r := FindCdf(mainCentroids[..mainLen], min.value, max.value, mainWeight, value);
    }

    /** Encodes the merged mains and the range; the temps are folded in first. */
    method GobEncode() returns (e: Encoded)
      requires Valid()
      modifies this`mainCentroids, this`mainLen, this`mainWeight, this`tempLen, this`tempWeight
      modifies mainCentroids, tempCentroids
      ensures Valid() && Temps() == []
      ensures fresh(mainCentroids) || mainCentroids == old(mainCentroids)
      ensures e == Encoded(Mains(), scale.compression, min, max)
      ensures Sound(scale, e.main, [], old(Count()), 0.0, e.min, e.max)
      ensures Moment(e.main) == old(Sum())
      ensures old(Views(e)) && Views(e)
    {
      hide Compress, Total;
      var _ := MergeAllTemps();
      TotalOfEmpty(WeightOf);
      TotalOfEmpty(MassOf);
      e := Encoded(mainCentroids[..mainLen], scale.compression, min, max);
    }

    /** Takes over an encoded digest, discarding whatever this one held. */
    method GobDecode(e: Encoded)
      requires Shape()
      modifies this, mainCentroids, tempCentroids
      ensures Shape() && fresh(mainCentroids)
      ensures fresh(tempCentroids) || tempCentroids == old(tempCentroids)
      ensures scale == Scale(old(scale).arc, e.compression) && min == e.min && max == e.max
      ensures Mains() == e.main && Temps() == []
      ensures Count() == Weight(e.main) && Sum() == Moment(e.main)
      ensures Sound(scale, e.main, [], Weight(e.main), 0.0, e.min, e.max) ==> Valid()
    {
      TotalOfEmpty(WeightOf);
      TotalOfEmpty(MassOf);
      var none := Centroid(0.0, 0.0);
      var decoded := new Centroid[|e.main|](i requires 0 <= i < |e.main| => e.main[i]);
      mainCentroids, mainLen := decoded, |e.main|;
      assert Mains() == e.main;
      scale := Scale(scale.arc, e.compression);
      min, max := e.min, e.max;
      mainWeight := AddWeights(mainCentroids[..mainLen]);
      tempWeight, tempLen := 0.0, 0;
      var tempSize := TempBuffer(e.compression);
      if tempCentroids.Length != tempSize {
        tempCentroids := new Centroid[tempSize](i => none);
      }
    }
  }

  /** The invariant on values: totals, order, range and size. */
  ghost predicate Sound(
    scale: Scale, mains: seq<Centroid>, temps: seq<Centroid>,
    mainWeight: real, tempWeight: real, min: Option<real>, max: Option<real>)
  {
    && scale.Valid()
    && Positive(mains) && Positive(temps)
    && mainWeight == Weight(mains) && tempWeight == Weight(temps)
    && SortedByMean(mains)
    && |mains| as real < 2.0 * scale.compression + 1.0
    && (mains == [] && temps == [] <==> min == None)
    && (min == None <==> max == None)
    && (min.Some? ==> MeansWithin(mains, min.value, max.value) && MeansWithin(temps, min.value, max.value))
  }

  lemma SoundAdd(
    scale: Scale, mains: seq<Centroid>, temps: seq<Centroid>,
    mainWeight: real, tempWeight: real, min: Option<real>, max: Option<real>, value: real, weight: real)
    requires Sound(scale, mains, temps, mainWeight, tempWeight, min, max) && weight > 0.0
    ensures Sound(scale, mains, temps + [Centroid(value, weight)],
                  mainWeight, tempWeight + weight, Lower(min, value), Upper(max, value))
    ensures Moment(temps + [Centroid(value, weight)]) == Moment(temps) + MassOf(Centroid(value, weight))
  {
    hide Total;
    TotalOfAppend(WeightOf, temps, Centroid(value, weight));
    TotalOfAppend(MassOf, temps, Centroid(value, weight));
  }

  lemma SoundPass(
    scale: Scale, mains: seq<Centroid>, temps: seq<Centroid>, order: seq<Centroid>,
    mainWeight: real, tempWeight: real, min: Option<real>, max: Option<real>)
    requires Sound(scale, mains, temps, mainWeight, tempWeight, min, max) && temps != []
    requires SortedByMean(order) && multiset(order) == multiset(temps)
    ensures Positive(mains) && Positive(order) && Weight(mains) + Weight(order) > 0.0
    ensures mainWeight == Weight(mains) && tempWeight == Weight(order)
    ensures Sound(scale, Compress(scale, mains, order), [], mainWeight + tempWeight, 0.0, min, max)
    ensures Moment(Compress(scale, mains, order)) == Moment(mains) + Moment(temps)
    ensures Moment([]) == 0.0
  {
    hide Compress, Total;
    PermutationKeeps(temps, order, min.value, max.value);
    PositiveWeight(mains);
    PositiveWeight(order);
    CompressSound(scale, mains, order, min.value, max.value);
    TotalOfEmpty(WeightOf);
    TotalOfEmpty(MassOf);
  }

  lemma PermutationKeeps(a: seq<Centroid>, b: seq<Centroid>, lo: real, hi: real)
    requires multiset(a) == multiset(b)
    requires Positive(a) && MeansWithin(a, lo, hi)
    ensures Positive(b) && MeansWithin(b, lo, hi)
    ensures Weight(a) == Weight(b) && Moment(a) == Moment(b)
    ensures |a| == |b|
  {
    TotalOfPermutation(WeightOf, a, b);
    TotalOfPermutation(MassOf, a, b);
    assert |a| == |multiset(a)| == |multiset(b)| == |b|;
    forall i | 0 <= i < |b|
      ensures b[i].weight > 0.0 && lo <= b[i].mean <= hi
    {
      assert b[i] in multiset(a);
      var j :| 0 <= j < |a| && a[j] == b[i];
    }
  }

  // ---- Ranges

  lemma NothingLowers(m: Option<real>)
    ensures IsLowest(m, m, [])
  {
  }

  lemma NothingLifts(m: Option<real>)
    ensures IsHighest(m, m, [])
  {
  }

  lemma LowestStep(r: Option<real>, m: Option<real>, cs: seq<Centroid>, c: Centroid)
    requires IsLowest(r, m, cs)
    ensures IsLowest(Lower(r, c.mean), m, cs + [c])
  {
    var all, r' := cs + [c], Lower(r, c.mean);
    if r' != m {
      if r' == r && exists i :: 0 <= i < |cs| && r == Some(cs[i].mean) {
        var i :| 0 <= i < |cs| && r == Some(cs[i].mean);
        assert all[i] == cs[i];
      } else {
        assert all[|cs|] == c;
      }
    }
  }

  lemma HighestStep(r: Option<real>, m: Option<real>, cs: seq<Centroid>, c: Centroid)
    requires IsHighest(r, m, cs)
    ensures IsHighest(Upper(r, c.mean), m, cs + [c])
  {
    var all, r' := cs + [c], Upper(r, c.mean);
    if r' != m {
      if r' == r && exists i :: 0 <= i < |cs| && r == Some(cs[i].mean) {
        var i :| 0 <= i < |cs| && r == Some(cs[i].mean);
        assert all[i] == cs[i];
      } else {
        assert all[|cs|] == c;
      }
    }
  }

  lemma LowestTrans(r: Option<real>, m': Option<real>, m: Option<real>, a: seq<Centroid>, b: seq<Centroid>)
    requires IsLowest(m', m, a) && IsLowest(r, m', b)
    ensures IsLowest(r, m, a + b)
  {
    var all := a + b;
    if r != m {
      if r == m' {
        var i :| 0 <= i < |a| && m' == Some(a[i].mean);
        assert all[i] == a[i];
      } else {
        var i :| 0 <= i < |b| && r == Some(b[i].mean);
        assert all[|a| + i] == b[i];
      }
    }
  }

  lemma HighestTrans(r: Option<real>, m': Option<real>, m: Option<real>, a: seq<Centroid>, b: seq<Centroid>)
    requires IsHighest(m', m, a) && IsHighest(r, m', b)
    ensures IsHighest(r, m, a + b)
  {
    var all := a + b;
    if r != m {
      if r == m' {
        var i :| 0 <= i < |a| && m' == Some(a[i].mean);
        assert all[i] == a[i];
      } else {
        var i :| 0 <= i < |b| && r == Some(b[i].mean);
        assert all[|a| + i] == b[i];
      }
    }
  }

  lemma PermutationPositive(a: seq<Centroid>, b: seq<Centroid>)
    requires multiset(a) == multiset(b) && Positive(a)
    ensures Positive(b) && Weight(a) == Weight(b) && Moment(a) == Moment(b)
  {
    TotalOfPermutation(WeightOf, a, b);
    TotalOfPermutation(MassOf, a, b);
    forall i | 0 <= i < |b|
      ensures b[i].weight > 0.0
    {
      assert b[i] in multiset(a);
      var j :| 0 <= j < |a| && a[j] == b[i];
    }
  }

  /**
    Merging keeps the other digest's minimum exactly when it was already
    covered or one of the other's centroids still sits on it.
   */
  lemma {:induction false} MergeKeepsMinimum(r: Option<real>, m: Option<real>, other: seq<Centroid>, otherMin: real)
    requires IsLowest(r, m, other) && other != []
    requires forall i :: 0 <= i < |other| ==> otherMin <= other[i].mean
    ensures r.value <= otherMin <==>
            (m.Some? && m.value <= otherMin) || exists i :: 0 <= i < |other| && other[i].mean == otherMin
  {
  }

  lemma {:induction false} MergeKeepsMaximum(r: Option<real>, m: Option<real>, other: seq<Centroid>, otherMax: real)
    requires IsHighest(r, m, other) && other != []
    requires forall i :: 0 <= i < |other| ==> other[i].mean <= otherMax
    ensures r.value >= otherMax <==>
            (m.Some? && m.value >= otherMax) || exists i :: 0 <= i < |other| && other[i].mean == otherMax
  {
  }

  // ---- A run in which a minimum is lost

  function Samples(rest: real): seq<Centroid> {
    [Centroid(4.0, 1.0), Centroid(6.0, 1.0), Centroid(100.0, rest)]
  }

  /** A share of the weight so small that it is within one unit of k of the left end. */
  ghost predicate Crowding(s: Scale, share: real) {
    s.Valid() && s.compression > 1.0 && 0.0 < share < 1.0 && s.Index(share) <= 1.0
  }

  /** The weight next to which two samples make up that share. */
  function Rest(share: real): real
    requires share > 0.0
  {
    2.0 / share - 2.0
  }

  lemma ShareOfRest(share: real)
    requires 0.0 < share < 1.0
    ensures Rest(share) > 0.0 && 2.0 / (2.0 + Rest(share)) == share
  {
    var total := 2.0 / share;
    assert total * share == 2.0;
    assert total > 2.0;
    assert 2.0 / total == share;
  }

  lemma SamplesWeigh(rest: real)
    ensures Weight([]) + Weight(Samples(rest)) == 2.0 + rest
  {
    hide Total;
    var cs := Samples(rest);
    TotalOfEmpty(WeightOf);
    TotalOfAppend(WeightOf, [], cs[0]);
    TotalOfAppend(WeightOf, [cs[0]], cs[1]);
    TotalOfAppend(WeightOf, [cs[0], cs[1]], cs[2]);
    assert [] + [cs[0]] == [cs[0]] && [cs[0]] + [cs[1]] == [cs[0], cs[1]] && [cs[0], cs[1]] + [cs[2]] == cs;
  }

  /** 4 and 6 meet in a centroid of mean 5. */
  lemma {:induction false} FrontMeets(s: Scale, share: real)
    requires Crowding(s, share)
    ensures Positive(Samples(Rest(share))) && Weight([]) + Weight(Samples(Rest(share))) > 0.0
    ensures Compress(s, [], Samples(Rest(share))) == [Centroid(5.0, 2.0), Centroid(100.0, Rest(share))]
  {
    hide Total, Scale.Index, Rest;
    ShareOfRest(share);
    var rest := Rest(share);
    SamplesWeigh(rest);
    var cs, total := Samples(rest), 2.0 + rest;
    var p1 := MergeOne(s, total, START, cs[0]);
    assert p1 == Progress([cs[0]], 1.0, s.Index(0.0 / total));
    EndsOfScale(s, total);
    var p2 := MergeOne(s, total, p1, cs[1]);
    assert Absorb(cs[0], cs[1]) == Centroid(5.0, 2.0);
    assert p2 == Progress([Centroid(5.0, 2.0)], 2.0, 0.0);
    var p3 := MergeOne(s, total, p2, cs[2]);
    assert p3.out == [Centroid(5.0, 2.0)] + [cs[2]];
    MergeAllStep(s, total, START, cs);
    assert cs[1..] == [cs[1], cs[2]] && cs[1..][1..] == [cs[2]];
    MergeAllStep(s, total, p1, [cs[1], cs[2]]);
    MergeAllStep(s, total, p2, [cs[2]]);
  }

  lemma EndsOfScale(s: Scale, total: real)
    requires s.Valid() && total > 0.0
    ensures s.Index(0.0 / total) == 0.0 && s.Index(total / total) == s.compression
  {
    assert 0.0 / total == 0.0 && total / total == 1.0;
  }

  /** There is only one way to sort them. */
  lemma SamplesSorted(order: seq<Centroid>, rest: real)
    requires SortedByMean(order) && multiset(order) == multiset(Samples(rest))
    ensures order == Samples(rest)
  {
    var cs := Samples(rest);
    assert |order| == |multiset(order)| == |multiset(cs)| == 3;
    assert order == [order[0], order[1], order[2]];
    assert multiset(order) == multiset{order[0], order[1], order[2]};
    assert multiset(cs) == multiset{cs[0], cs[1], cs[2]};
    assert cs[0] in multiset(order) && cs[1] in multiset(order) && cs[2] in multiset(order);
  }

  lemma SamplesSome(rest: real)
    ensures Samples(rest) != []
  {
  }

  lemma Known(d: MergingDigest)
    requires d.Valid()
    ensures Positive(d.Mains()) && Positive(d.Temps())
  {
  }

  lemma LowestIsFive(r: Option<real>, rest: real, cs: seq<Centroid>)
    requires cs == [Centroid(5.0, 2.0), Centroid(100.0, rest)] && IsLowest(r, None, cs)
    ensures r == Some(5.0)
  {
    assert cs[0].mean == 5.0;
  }

  /** One Add into an unfilled buffer. */
  method AddOne(d: MergingDigest, c: Centroid)
    requires d.Valid() && d.Mains() == [] && d.tempLen < 14 && c.weight > 0.0
    modifies d, d.mainCentroids, d.tempCentroids
    ensures d.Valid() && d.scale == old(d.scale) && d.Mains() == [] && d.Temps() == old(d.Temps()) + [c]
    ensures d.min == Lower(old(d.min), c.mean) && d.Count() == old(d.Count()) + c.weight
    ensures d.tempLen == old(d.tempLen) + 1
    ensures fresh(d.mainCentroids) || d.mainCentroids == old(d.mainCentroids)
    ensures d.tempCentroids == old(d.tempCentroids)
  {
    hide Compress, Total, Sound, MassOf, Lower, Upper;
    assert d.tempLen < d.tempCentroids.Length;
    d.Add(c.mean, c.weight);
    assert |d.Temps()| == d.tempLen;
  }

  method AddSamples(s: Scale, rest: real) returns (d: MergingDigest)
    requires s.Valid() && rest > 0.0
    ensures fresh(d) && fresh(d.mainCentroids) && fresh(d.tempCentroids) && d.Valid() && d.scale == s
    ensures d.Mains() == [] && d.Temps() == Samples(rest) && d.Count() == 2.0 + rest && d.min == Some(4.0)
  {
    hide Compress, Total, Sound, MassOf, TempBuffer, Positive;
    d := new MergingDigest(s);
    assert |d.Temps()| == d.tempLen;
    AddOne(d, Centroid(4.0, 1.0));
    AddOne(d, Centroid(6.0, 1.0));
    AddOne(d, Centroid(100.0, rest));
  }

  method MergeSamples(s: Scale, share: real) returns (d: MergingDigest)
    requires Crowding(s, share)
    ensures fresh(d) && fresh(d.mainCentroids) && fresh(d.tempCentroids) && d.Valid() && d.scale == s
    ensures d.Mains() == [Centroid(5.0, 2.0), Centroid(100.0, Rest(share))] && d.Temps() == []
    ensures d.min == Some(4.0)
  {
    hide Compress, Total, Sound, MassOf, Samples, Positive, SortedByMean, TempBuffer, Rest, Scale.Index;
    ShareOfRest(share);
    d := AddSamples(s, Rest(share));
    ghost var order := d.MergeAllTemps();
    SamplesSome(Rest(share));
    SamplesSorted(order, Rest(share));
    FrontMeets(s, share);
  }

  /** On a straight scale of compression 100, a share of one in a hundred is small enough. */
  lemma CrowdingHappens()
    ensures Crowding(Scale((p: real) => p, 100.0), 0.01)
  {
  }

  /** Add 4, 6 and a heavy 100, merge into a new digest: its minimum reads 5, though 4 was added. */
  method MergeLosesMinimum(s: Scale, share: real) returns (added: MergingDigest, merged: MergingDigest)
    requires Crowding(s, share)
    ensures added.Valid() && merged.Valid() && added.Count() == merged.Count()
    ensures added.min == Some(4.0) && merged.min == Some(5.0)
  {
    hide Compress, Total, Sound, MassOf, Positive, TempBuffer, IsLowest, IsHighest, Rest, Scale.Index;
    added := MergeSamples(s, share);
    Known(added);
    merged := new MergingDigest(s);
    ghost var mains := added.Mains();
    merged.Merge(added, added.mainCentroids[..added.mainLen]);
    assert mains + added.Temps() == mains;
    LowestIsFive(merged.min, Rest(share), mains);
  }
}
