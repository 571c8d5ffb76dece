/** Centroids and the two sums every digest operation must conserve. */
module Centroids {

  /** A cluster of samples: their mean, and how much weight it stands for. */
  datatype Centroid = Centroid(mean: real, weight: real)

  predicate Positive(cs: seq<Centroid>) {
    forall i :: 0 <= i < |cs| ==> cs[i].weight > 0.0
  }

  predicate SortedByMean(cs: seq<Centroid>) {
    forall i, j :: 0 <= i < j < |cs| ==> cs[i].mean <= cs[j].mean
  }

  predicate MeansWithin(cs: seq<Centroid>, lo: real, hi: real) {
    forall i :: 0 <= i < |cs| ==> lo <= cs[i].mean <= hi
  }

  function WeightOf(c: Centroid): real { c.weight }

  function MassOf(c: Centroid): real { c.mean * c.weight }

  /** Sum of a measure over a list of centroids. */
  function Total(f: Centroid -> real, cs: seq<Centroid>): real {
    if cs == [] then 0.0 else Total(f, cs[..|cs| - 1]) + f(cs[|cs| - 1])
  }

  /** Total weight of a list of centroids. */
  function Weight(cs: seq<Centroid>): real { Total(WeightOf, cs) }

  /** Total of mean times weight, i.e. the sum of the samples behind the list. */
  function Moment(cs: seq<Centroid>): real { Total(MassOf, cs) }

  lemma TotalOfEmpty(f: Centroid -> real)
    ensures Total(f, []) == 0.0
  {
  }

  lemma TotalOfAppend(f: Centroid -> real, cs: seq<Centroid>, c: Centroid)
    ensures Total(f, cs + [c]) == Total(f, cs) + f(c)
  {
    assert (cs + [c])[..|cs|] == cs;
  }

  lemma {:induction false} TotalOfConcat(f: Centroid -> real, a: seq<Centroid>, b: seq<Centroid>)
    ensures Total(f, a + b) == Total(f, a) + Total(f, b)
  {
    if b == [] {
      assert a + b == a;
    } else {
      var last := |b| - 1;
      TotalOfConcat(f, a, b[..last]);
      TotalOfAppend(f, a + b[..last], b[last]);
      assert a + b == (a + b[..last]) + [b[last]];
    }
  }

  lemma TotalOfCons(f: Centroid -> real, c: Centroid, cs: seq<Centroid>)
    ensures Total(f, [c] + cs) == f(c) + Total(f, cs)
  {
    TotalOfConcat(f, [c], cs);
    TotalOfAppend(f, [], c);
    assert [] + [c] == [c];
  }

  lemma RemovalOf<T>(s: seq<T>, i: nat)
    requires i < |s|
    ensures multiset(s[..i] + s[i + 1..]) == multiset(s) - multiset{s[i]}
  {
    assert s == s[..i] + [s[i]] + s[i + 1..];
  }

  /** Taking one centroid out of a list, wherever it sits. */
  lemma TotalOfRemoval(f: Centroid -> real, cs: seq<Centroid>, i: nat)
    requires i < |cs|
    ensures Total(f, cs) == f(cs[i]) + Total(f, cs[..i] + cs[i + 1..])
  {
    hide Total;
    var front, back := cs[..i], cs[i + 1..];
    assert cs == front + ([cs[i]] + back);
    TotalOfConcat(f, front, [cs[i]] + back);
    TotalOfCons(f, cs[i], back);
    TotalOfConcat(f, front, back);
  }

  lemma {:induction false} TotalOfPermutation(f: Centroid -> real, a: seq<Centroid>, b: seq<Centroid>)
    requires multiset(a) == multiset(b)
    ensures Total(f, a) == Total(f, b)
    decreases |a|
  {
    hide Total;
    if a == [] {
      assert |b| == |multiset(b)| == 0;
    } else {
      assert a[0] in multiset(b);
      var i :| 0 <= i < |b| && b[i] == a[0];
      RemovalOf(a, 0);
      RemovalOf(b, i);
      TotalOfRemoval(f, a, 0);
      TotalOfRemoval(f, b, i);
      TotalOfPermutation(f, a[..0] + a[1..], b[..i] + b[i + 1..]);
    }
  }

  /** Weights of prefixes grow: this is what makes quantile positions ordered. */
  lemma {:induction false} PrefixWeight(cs: seq<Centroid>, i: nat, j: nat)
    requires Positive(cs)
    requires i <= j <= |cs|
    ensures 0.0 <= Weight(cs[..i]) <= Weight(cs[..j])
    ensures i < j ==> Weight(cs[..i]) < Weight(cs[..j])
    decreases j
  {
    if j > 0 {
      assert cs[..j][..j - 1] == cs[..j - 1];
      if i < j {
        PrefixWeight(cs, i, j - 1);
      } else {
        PrefixWeight(cs, i - 1, j - 1);
      }
    }
  }

  lemma PositiveWeight(cs: seq<Centroid>)
    requires Positive(cs)
    ensures Weight(cs) >= 0.0
    ensures cs != [] ==> Weight(cs) > 0.0
  {
    PrefixWeight(cs, 0, |cs|);
    assert cs[..|cs|] == cs;
  }
}
