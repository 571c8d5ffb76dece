/** A digest with its buffer, as a value: what runs of additions may leave, and of what its centroids are made. */
module DigestRuns {
  import opened Centroids
  import opened DigestMerge

  datatype Buffered = Buffered(mains: seq<Centroid>, temps: seq<Centroid>)

  const NOTHING := Buffered([], [])

  /** A sorted order of the temps, ready for a pass. */
  ghost predicate Sorts(b: Buffered, order: seq<Centroid>) {
    && SortedByMean(order) && multiset(order) == multiset(b.temps)
    && Positive(b.mains) && Positive(order) && Weight(b.mains) + Weight(order) > 0.0
  }

  /** What a pass may leave of the mains; the order of equal means is open. */
  ghost predicate Passed(s: Scale, b: Buffered, mains: seq<Centroid>) {
    if b.temps == [] then mains == b.mains
    else exists order :: Sorts(b, order) && mains == Compress(s, b.mains, order)
  }

  /** One addition: into the buffer while there is room, after a pass when there is none. */
  ghost predicate Put(s: Scale, size: nat, before: Buffered, c: Centroid, after: Buffered) {
    if |before.temps| < size then after == Buffered(before.mains, before.temps + [c])
    else Passed(s, before, after.mains) && after.temps == [c]
  }

  function AllButLast(cs: seq<Centroid>): (front: seq<Centroid>)
    requires cs != []
    ensures |front| == |cs| - 1
  {
    cs[..|cs| - 1]
  }

  function Last(cs: seq<Centroid>): Centroid
    requires cs != []
  {
    cs[|cs| - 1]
  }

  /** Additions one after the other. */
  ghost predicate PutAll(s: Scale, size: nat, before: Buffered, cs: seq<Centroid>, after: Buffered)
    decreases |cs|
  {
    if cs == [] then after == before
    else exists mid :: PutAll(s, size, before, AllButLast(cs), mid) && Put(s, size, mid, Last(cs), after)
  }

  lemma PutNone(s: Scale, size: nat, b: Buffered)
    ensures PutAll(s, size, b, [], b)
  {
  }

  lemma PutOneMore(s: Scale, size: nat, before: Buffered, cs: seq<Centroid>, mid: Buffered, c: Centroid,
                   after: Buffered)
    requires PutAll(s, size, before, cs, mid) && Put(s, size, mid, c, after)
    ensures PutAll(s, size, before, cs + [c], after)
  {
    hide Put;
    assert AllButLast(cs + [c]) == cs && Last(cs + [c]) == c;
  }

  lemma {:induction false} PutConcat(s: Scale, size: nat, before: Buffered, a: seq<Centroid>, mid: Buffered,
                                     b: seq<Centroid>, after: Buffered)
    requires PutAll(s, size, before, a, mid) && PutAll(s, size, mid, b, after)
    ensures PutAll(s, size, before, a + b, after)
    decreases |b|
  {
    hide Put;
    if b == [] {
      assert a + b == a;
    } else {
      var n := |b| - 1;
      var x :| PutAll(s, size, mid, AllButLast(b), x) && Put(s, size, x, Last(b), after);
      PutConcat(s, size, before, a, mid, b[..n], x);
      PutOneMore(s, size, before, a + b[..n], x, b[n], after);
      assert (a + b[..n]) + [b[n]] == a + b;
    }
  }

  // ---- What centroids are made of

  /** A centroid that, of this total, begins at left, spans at most one unit of k. */
  ghost predicate WithinUnit(s: Scale, c: Centroid, left: real, total: real) {
    && total > 0.0 && 0.0 <= left && left + c.weight <= total
    && Position(s, total)(left + c.weight) - Position(s, total)(left) <= 1.0
  }

  ghost predicate GrownAmong(s: Scale, c: Centroid, part: seq<Centroid>, left: real) {
    WithinUnit(s, c, left, Weight(part))
  }

  /** A centroid is one that was added, or was within one unit of k in a pass over what had been added by then. */
  ghost predicate Grown(s: Scale, c: Centroid, adds: seq<Centroid>) {
    c in adds || exists part, left :: multiset(part) <= multiset(adds) && GrownAmong(s, c, part, left)
  }

  lemma GrownMore(s: Scale, c: Centroid, adds: seq<Centroid>, more: seq<Centroid>)
    requires Grown(s, c, adds) && multiset(adds) <= multiset(more)
    ensures Grown(s, c, more)
  {
    hide GrownAmong;
    if c in adds {
      assert c in multiset(adds);
    }
  }

  /** What runs of additions keep: the whole weight, temps as they were added, mains grown of what was added. */
  ghost predicate MadeOf(s: Scale, b: Buffered, adds: seq<Centroid>) {
    && Positive(b.mains) && Positive(b.temps)
    && Weight(b.mains) + Weight(b.temps) == Weight(adds)
    && (forall i :: 0 <= i < |b.temps| ==> b.temps[i] in adds)
    && (forall i :: 0 <= i < |b.mains| ==> Grown(s, b.mains[i], adds))
  }

  /** The order in which they were added does not matter. */
  lemma MadePermuted(s: Scale, b: Buffered, adds: seq<Centroid>, more: seq<Centroid>)
    requires MadeOf(s, b, adds) && multiset(adds) == multiset(more)
    ensures MadeOf(s, b, more)
  {
    hide Total, Grown;
    TotalOfPermutation(WeightOf, adds, more);
    forall i | 0 <= i < |b.temps|
      ensures b.temps[i] in more
    {
      assert b.temps[i] in multiset(adds);
    }
    forall i | 0 <= i < |b.mains|
      ensures Grown(s, b.mains[i], more)
    {
      GrownMore(s, b.mains[i], adds, more);
    }
  }

  lemma NothingMade(s: Scale)
    ensures MadeOf(s, NOTHING, [])
  {
    TotalOfEmpty(WeightOf);
  }

  lemma CompressTight(s: Scale, main: seq<Centroid>, temp: seq<Centroid>)
    requires s.Valid() && Positive(main) && Positive(temp) && Weight(main) + Weight(temp) > 0.0
    ensures Positive(Compress(s, main, temp)) && Weight(Compress(s, main, temp)) == Weight(main) + Weight(temp)
    ensures Tight(Position(s, Weight(main) + Weight(temp)), Compress(s, main, temp), main + temp)
  {
    hide MergeAll, Interleave, Total, Position;
    var total, items := Weight(main) + Weight(temp), Interleave(main, temp);
    InterleavePositive(main, temp);
    InterleaveTotal(WeightOf, main, temp);
    InterleaveIsPermutation(main, temp);
    TotalOfEmpty(WeightOf);
    MergeAllConserves(s, total, START, items);
    forall i | 0 <= i < |items|
      ensures items[i] in main + temp
    {
      assert items[i] in multiset(items);
    }
    MergeAllTight(s, total, START, items, main + temp);
  }

  /** In the output of a pass, a centroid is an input or within one unit of k. */
  lemma {:induction false} CompressGrown(s: Scale, main: seq<Centroid>, temp: seq<Centroid>, i: nat)
    requires s.Valid() && Positive(main) && Positive(temp) && Weight(main) + Weight(temp) > 0.0
    requires i < |Compress(s, main, temp)|
    ensures var out, total := Compress(s, main, temp), Weight(main) + Weight(temp);
            out[i] in main || out[i] in temp || WithinUnit(s, out[i], Weight(out[..i]), total)
  {
    hide Compress, Total, Position, Crowded, Ends;
    var out, total := Compress(s, main, temp), Weight(main) + Weight(temp);
    CompressTight(s, main, temp);
    EndsAt(Position(s, total), out, i);
    EndsAt(Position(s, total), out, i + 1);
    assert out[..i + 1] == out[..i] + [out[i]];
    TotalOfAppend(WeightOf, out[..i], out[i]);
    PrefixWeight(out, 0, i);
    PrefixWeight(out, i + 1, |out|);
    assert out[..|out|] == out && out[..0] == [];
    TotalOfEmpty(WeightOf);
  }

  lemma SortsKeep(s: Scale, b: Buffered, order: seq<Centroid>)
    requires Sorts(b, order)
    ensures Weight(order) == Weight(b.temps)
    ensures forall i :: 0 <= i < |order| ==> order[i] in b.temps
  {
    hide Total;
    TotalOfPermutation(WeightOf, order, b.temps);
    forall i | 0 <= i < |order|
      ensures order[i] in b.temps
    {
      assert order[i] in multiset(order);
    }
  }

  /** A pass keeps it. */
  lemma {:induction false} PassedMade(s: Scale, b: Buffered, adds: seq<Centroid>, mains: seq<Centroid>)
    requires s.Valid() && MadeOf(s, b, adds) && Passed(s, b, mains)
    ensures MadeOf(s, Buffered(mains, []), adds)
  {
    hide Compress, Total, WithinUnit;
    TotalOfEmpty(WeightOf);
    if b.temps != [] {
      var order :| Sorts(b, order) && mains == Compress(s, b.mains, order);
      SortsKeep(s, b, order);
      CompressTight(s, b.mains, order);
      forall i | 0 <= i < |mains|
        ensures Grown(s, mains[i], adds)
      {
        CompressGrown(s, b.mains, order, i);
        if mains[i] in b.mains {
        } else if mains[i] in order {
        } else {
          assert multiset(adds) <= multiset(adds) && GrownAmong(s, mains[i], adds, Weight(mains[..i]));
        }
      }
    }
  }

  lemma {:induction false} PutMade(s: Scale, size: nat, before: Buffered, adds: seq<Centroid>, c: Centroid,
      after: Buffered)
    requires s.Valid() && MadeOf(s, before, adds) && c.weight > 0.0 && Put(s, size, before, c, after)
    ensures MadeOf(s, after, adds + [c])
  {
    hide Total, Grown, Passed;
    var mains := after.mains;
    TotalOfAppend(WeightOf, adds, c);
    TotalOfAppend(WeightOf, before.temps, c);
    TotalOfAppend(WeightOf, [], c);
    TotalOfEmpty(WeightOf);
    assert [] + [c] == [c];
    if |before.temps| >= size {
      PassedMade(s, before, adds, mains);
    }
    forall i | 0 <= i < |mains|
      ensures Grown(s, mains[i], adds + [c])
    {
      GrownMore(s, mains[i], adds, adds + [c]);
    }
  }

  /**
    Over every run of additions, whatever the sorts do: each main is one of the
    centroids added, or spanned at most one unit of k in a pass over some of them.
   */
  lemma {:induction false} RunMade(s: Scale, size: nat, before: Buffered, adds: seq<Centroid>, cs: seq<Centroid>,
                                   after: Buffered)
    requires s.Valid() && MadeOf(s, before, adds) && Positive(cs) && PutAll(s, size, before, cs, after)
    ensures MadeOf(s, after, adds + cs)
    decreases |cs|
  {
    hide MadeOf, Put;
    if cs == [] {
      assert adds + cs == adds;
    } else {
      var n := |cs| - 1;
      var mid :| PutAll(s, size, before, AllButLast(cs), mid) && Put(s, size, mid, Last(cs), after);
      RunMade(s, size, before, adds, cs[..n], mid);
      PutMade(s, size, mid, adds + cs[..n], cs[n], after);
      assert (adds + cs[..n]) + [cs[n]] == adds + cs;
    }
  }
}
