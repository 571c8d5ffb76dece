/** Sums of a measure over a sequence, and what small edits do to them. */
module Sums {

  function Sum<T>(f: T -> real, s: seq<T>): real {
    if s == [] then 0.0 else f(s[0]) + Sum(f, s[1..])
  }

  lemma {:induction false} SumConcat<T>(f: T -> real, a: seq<T>, b: seq<T>)
    ensures Sum(f, a + b) == Sum(f, a) + Sum(f, b)
  {
    if a == [] {
      assert a + b == b;
    } else {
      assert (a + b)[1..] == a[1..] + b;
      SumConcat(f, a[1..], b);
    }
  }

  lemma {:induction false} SumUpdate<T>(f: T -> real, s: seq<T>, i: nat, x: T)
    requires i < |s|
    ensures Sum(f, s[i := x]) == Sum(f, s) - f(s[i]) + f(x)
  {
    if i == 0 {
      assert s[i := x][1..] == s[1..];
    } else {
      assert s[i := x][1..] == s[1..][i - 1 := x];
      SumUpdate(f, s[1..], i - 1, x);
    }
  }

  lemma SumRemove<T>(f: T -> real, s: seq<T>, i: nat)
    requires i < |s|
    ensures Sum(f, s[..i] + s[i + 1..]) == Sum(f, s) - f(s[i])
  {
    assert s == s[..i] + ([s[i]] + s[i + 1..]);
    SumConcat(f, s[..i], [s[i]] + s[i + 1..]);
    SumConcat(f, [s[i]], s[i + 1..]);
    SumConcat(f, s[..i], s[i + 1..]);
    assert Sum(f, [s[i]]) == f(s[i]) + Sum(f, [s[i]][1..]);
  }

  lemma {:induction false} SumZero<T>(f: T -> real, s: seq<T>)
    requires forall i :: 0 <= i < |s| ==> f(s[i]) == 0.0
    ensures Sum(f, s) == 0.0
  {
    if s != [] {
      SumZero(f, s[1..]);
    }
  }

  lemma {:induction false} SumSame<T>(f: T -> real, g: T -> real, s: seq<T>)
    requires forall i :: 0 <= i < |s| ==> f(s[i]) == g(s[i])
    ensures Sum(f, s) == Sum(g, s)
  {
    if s != [] {
      SumSame(f, g, s[1..]);
    }
  }

  lemma SumOne<T>(f: T -> real, x: T)
    ensures Sum(f, [x]) == f(x)
  {
    assert [x][1..] == [];
  }

  // ---- The same over the integers

  function ISum<T>(f: T -> int, s: seq<T>): int {
    if s == [] then 0 else f(s[0]) + ISum(f, s[1..])
  }

  lemma {:induction false} ISumConcat<T>(f: T -> int, a: seq<T>, b: seq<T>)
    ensures ISum(f, a + b) == ISum(f, a) + ISum(f, b)
  {
    if a == [] {
      assert a + b == b;
    } else {
      assert (a + b)[1..] == a[1..] + b;
      ISumConcat(f, a[1..], b);
    }
  }

  lemma {:induction false} ISumUpdate<T>(f: T -> int, s: seq<T>, i: nat, x: T)
    requires i < |s|
    ensures ISum(f, s[i := x]) == ISum(f, s) - f(s[i]) + f(x)
  {
    if i == 0 {
      assert s[i := x][1..] == s[1..];
    } else {
      assert s[i := x][1..] == s[1..][i - 1 := x];
      ISumUpdate(f, s[1..], i - 1, x);
    }
  }

  lemma ISumRemove<T>(f: T -> int, s: seq<T>, i: nat)
    requires i < |s|
    ensures ISum(f, s[..i] + s[i + 1..]) == ISum(f, s) - f(s[i])
  {
    assert s == s[..i] + ([s[i]] + s[i + 1..]);
    ISumConcat(f, s[..i], [s[i]] + s[i + 1..]);
    ISumConcat(f, [s[i]], s[i + 1..]);
    ISumConcat(f, s[..i], s[i + 1..]);
    assert ISum(f, [s[i]]) == f(s[i]) + ISum(f, [s[i]][1..]);
  }

  lemma {:induction false} ISumZero<T>(f: T -> int, s: seq<T>)
    requires forall i :: 0 <= i < |s| ==> f(s[i]) == 0
    ensures ISum(f, s) == 0
  {
    if s != [] {
      ISumZero(f, s[1..]);
    }
  }

  lemma ISumOne<T>(f: T -> int, x: T)
    ensures ISum(f, [x]) == f(x)
  {
    assert [x][1..] == [];
  }

  // ---- Walking a map

  /** One order in which the keys of a map may be visited. */
  ghost predicate Visits<K, V>(order: seq<K>, m: map<K, V>) {
    && (forall i :: 0 <= i < |order| ==> order[i] in m)
    && (forall i, j :: 0 <= i < j < |order| ==> order[i] != order[j])
    && (forall k :: k in m ==> k in order)
  }

  /** What a walk over some of a map's keys produces, piece after piece. */
  function Walk<K, V, R>(m: map<K, V>, order: seq<K>, f: (K, V) -> seq<R>): seq<R>
    requires forall i :: 0 <= i < |order| ==> order[i] in m
  {
    if order == [] then [] else f(order[0], m[order[0]]) + Walk(m, order[1..], f)
  }

  /** A measure that only sees the pieces of one key sums to that key's pieces. */
  lemma {:induction false} WalkSum<K, V, R>(m: map<K, V>, order: seq<K>, f: (K, V) -> seq<R>, g: R -> real, k: K)
    requires forall i :: 0 <= i < |order| ==> order[i] in m
    requires forall i, j :: 0 <= i < j < |order| ==> order[i] != order[j]
    requires forall x :: x in m && x != k ==> Sum(g, f(x, m[x])) == 0.0
    ensures Sum(g, Walk(m, order, f)) == if k in order then Sum(g, f(k, m[k])) else 0.0
    decreases |order|
  {
    if order != [] {
      SumConcat(g, f(order[0], m[order[0]]), Walk(m, order[1..], f));
      WalkSum(m, order[1..], f, g, k);
    }
  }

  lemma {:induction false} WalkISum<K, V, R>(m: map<K, V>, order: seq<K>, f: (K, V) -> seq<R>, g: R -> int, k: K)
    requires forall i :: 0 <= i < |order| ==> order[i] in m
    requires forall i, j :: 0 <= i < j < |order| ==> order[i] != order[j]
    requires forall x :: x in m && x != k ==> ISum(g, f(x, m[x])) == 0
    ensures ISum(g, Walk(m, order, f)) == if k in order then ISum(g, f(k, m[k])) else 0
    decreases |order|
  {
    if order != [] {
      ISumConcat(g, f(order[0], m[order[0]]), Walk(m, order[1..], f));
      WalkISum(m, order[1..], f, g, k);
    }
  }

  /** Every piece of a walk comes from some key. */
  lemma {:induction false} WalkMember<K, V, R>(m: map<K, V>, order: seq<K>, f: (K, V) -> seq<R>, r: R)
    requires forall i :: 0 <= i < |order| ==> order[i] in m
    requires r in Walk(m, order, f)
    ensures exists k :: k in m && r in f(k, m[k])
    decreases |order|
  {
    if r in f(order[0], m[order[0]]) {
    } else {
      WalkMember(m, order[1..], f, r);
    }
  }

  /** Appending the next piece: what is there and what is left still make the whole. */
  lemma Advance<R>(out: seq<R>, piece: seq<R>, left: seq<R>, whole: seq<R>)
    requires out + (piece + left) == whole
    ensures (out + piece) + left == whole
  {
    assert (out + piece) + left == out + (piece + left);
  }

  /** The loops of the flusher: append the pieces of each entry in turn. */
  method AppendWalk<K, V, R>(m: map<K, V>, order: seq<K>, f: (K, V) -> seq<R>, soFar: seq<R>) returns (all: seq<R>)
    requires forall i :: 0 <= i < |order| ==> order[i] in m
    ensures all == soFar + Walk(m, order, f)
  {
    all := soFar;
    assert order[0..] == order;
    for i := 0 to |order|
      invariant all + Walk(m, order[i..], f) == soFar + Walk(m, order, f)
    {
      var piece := f(order[i], m[order[i]]);
      assert order[i..][0] == order[i] && order[i..][1..] == order[i + 1..];
      assert all + (piece + Walk(m, order[i + 1..], f)) == (all + piece) + Walk(m, order[i + 1..], f);
      all := all + piece;
    }
  }
}
