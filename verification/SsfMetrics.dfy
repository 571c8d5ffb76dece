/** Metrics that come in as SSF samples. */
module SsfMetrics {
  import opened Floating
  import opened Options
  import opened Text
  import opened Samplers
  import opened Tags
  import opened Worker
  import opened Sums
  import opened DogStatsD

  /** The fields of an SSFSample that are read, as text and numbers. */
  datatype Sample = Sample(
    metric: int, name: string, value: Float, message: string, status: int, sampleRate: Float, tags: map<string, string>)

  function SsfKind(metric: int): Option<Kind> {
    match metric
    case 0 => Some(Counters)
    case 1 => Some(Gauges)
    case 2 => Some(Histograms)
    case 3 => Some(Sets)
    case 4 => Some(Statuses)
    case _ => None
  }

  function SsfValue(kind: Kind, x: Sample): Value {
    if kind.Sets? then Member(x.message) else if kind.Statuses? then Status(x.status) else Number(x.value)
  }

  /** The tags as they come up in one iteration over the map, the scope tags left out. */
  function Plain(tags: map<string, string>, order: seq<string>): seq<string>
    requires forall i :: 0 <= i < |order| ==> order[i] in tags
  {
    if order == [] then []
    else
      var n := |order| - 1;
      Plain(tags, order[..n]) + (if IsScopeTag(order[n]) then [] else [order[n] + ":" + tags[order[n]]])
  }

  /** The scope tag that comes up last. */
  function LastScope(order: seq<string>): Scope {
    if order == [] then MixedScope
    else
      var n := |order| - 1;
      if order[n] == LOCAL_ONLY then LocalOnly
      else if order[n] == GLOBAL_ONLY then GlobalOnly
      else LastScope(order[..n])
  }

  function SsfMetricOf(x: Sample, order: seq<string>): Result<UDPMetric>
    requires forall i :: 0 <= i < |order| ==> order[i] in x.tags
  {
    match SsfKind(x.metric)
    case None => Failure(BadType)
    case Some(kind) =>
      var tags := SortStrings(Plain(x.tags, order));
      var key := MetricKey(x.name, kind, Join(tags, ","));
      Success(UDPMetric(key, KeyHash(key), SsfValue(kind, x), x.sampleRate, tags, LastScope(order), 0, "", ""))
  }

  /** The loop over the tag map, in the order the map happens to give. */
  method CollectTags(tags: map<string, string>, order: seq<string>) returns (plain: seq<string>, scope: Scope)
    requires forall i :: 0 <= i < |order| ==> order[i] in tags
    ensures plain == Plain(tags, order) && scope == LastScope(order)
  {
    hide LOCAL_ONLY, GLOBAL_ONLY;
    plain, scope := [], MixedScope;
    for i := 0 to |order|
      invariant plain == Plain(tags, order[..i]) && scope == LastScope(order[..i])
    {
      assert order[..i + 1][..i] == order[..i];
      if order[i] == LOCAL_ONLY {
        scope := LocalOnly;
      } else if order[i] == GLOBAL_ONLY {
        scope := GlobalOnly;
      } else {
        plain := plain + [order[i] + ":" + tags[order[i]]];
      }
    }
    assert order[..|order|] == order;
  }

  method ParseMetricSSF(x: Sample, order: seq<string>) returns (r: Result<UDPMetric>)
    requires Visits(order, x.tags)
    ensures r == SsfMetricOf(x, order)
  {
    hide Plain, LastScope, SortStrings, Join, AddString;
    var h := AddString(FNV_INIT, x.name);
    var kind := SsfKind(x.metric);
    if kind.None? {
      return Failure(BadType);
    }
    h := AddString(h, KindName(kind.value));
    var plain, scope := CollectTags(x.tags, order);
    var tags := SortStrings(plain);
    var joined := Join(tags, ",");
    h := AddString(h, joined);
    var key, value := MetricKey(x.name, kind.value, joined), SsfValue(kind.value, x);
    r := Success(UDPMetric(key, h, value, x.sampleRate, tags, scope, 0, "", ""));
  }

  /**
    What a sample comes out as. The types are numbered from 0; a set counts the
    message and a status check the status, every other type the value. The tags are
    all but the scope tags, each as key:value, in order.
   */
  lemma {:induction false} SsfMeans(x: Sample, order: seq<string>)
    requires Visits(order, x.tags)
    ensures SsfMetricOf(x, order).Success? <==> 0 <= x.metric < 5
    ensures SsfMetricOf(x, order).Success? ==>
              var m := SsfMetricOf(x, order).value;
              && m.key == MetricKey(x.name, [Counters, Gauges, Histograms, Sets, Statuses][x.metric], Join(m.tags, ","))
              && m.digest == KeyHash(m.key)
              && m.value == (if x.metric == 3 then Member(x.message)
                             else if x.metric == 4 then Status(x.status) else Number(x.value))
              && m.sampleRate == x.sampleRate && m.timestamp == 0 && m.message == "" && m.hostName == ""
              && InOrder(m.tags) && (forall t :: multiset(m.tags)[t] == ISum(Makes(x.tags, t), order))
              && ("veneurlocalonly" !in x.tags && "veneurglobalonly" !in x.tags ==> m.scope == MixedScope)
              && ("veneurlocalonly" in x.tags && "veneurglobalonly" !in x.tags ==> m.scope == LocalOnly)
              && ("veneurlocalonly" !in x.tags && "veneurglobalonly" in x.tags ==> m.scope == GlobalOnly)
              && ("veneurlocalonly" in x.tags && "veneurglobalonly" in x.tags ==> m.scope != MixedScope)
  {
    hide Plain, LastScope, SortStrings, Join, KeyHash, Makes, ISum, InOrder;
    var plain := Plain(x.tags, order);
    SortSorts(plain);
    LastScopeMeaning(order);
    forall t
      ensures multiset(plain)[t] == ISum(Makes(x.tags, t), order)
    {
      PlainCount(x.tags, order, t);
    }
  }

  /** Which samples a worker takes, by type, value and rate. */
  predicate SampleTaken(x: Sample) {
    match x.metric
    case 0 => Countable(x.value, x.sampleRate)
    case 2 => x.value.Finite? && x.sampleRate.Finite? && x.sampleRate.value > 0.0
    case _ => true
  }

  /** Which samples it panics over: histograms whose value is not finite, or whose rate is infinite or negative. */
  predicate SamplePanics(x: Sample) {
    x.metric == 2 &&
    (!x.value.Finite? || x.sampleRate.Infinite? || (x.sampleRate.Finite? && x.sampleRate.value < 0.0))
  }

  /** A metric from a sample has the hash of its key; whether a worker takes it or panics shows in the sample. */
  lemma {:induction false} SsfTakenIff(x: Sample, order: seq<string>)
    requires Visits(order, x.tags) && SsfMetricOf(x, order).Success?
    ensures var m := SsfMetricOf(x, order).value;
            && Consistent(m)
            && (FateOf(m) == Taken <==> SampleTaken(x))
            && (FateOf(m) == Panicked <==> SamplePanics(x))
  {
    hide Plain, LastScope, SortStrings, Join, KeyHash, AddFate, CountFate, Reciprocal, Countable;
    AddFateIff(x.value, x.sampleRate);
    CountFateIff(x.value, x.sampleRate);
  }

  /** A sample of one value and rate, without tags. */
  function Plainest(metric: int, value: Float, rate: Float): Sample {
    Sample(metric, "x", value, "", 0, rate, map[])
  }

  function FateOfSample(x: Sample): Fate
    requires x.tags == map[] && SsfKind(x.metric).Some?
  {
    FateOf(SsfMetricOf(x, []).value)
  }

  /** Histograms of NaN, of a negative rate and of a rate of NaN; a gauge and a counter that do not mind. */
  lemma {:induction false} SsfFates()
    ensures FateOfSample(Plainest(2, NaN, Finite(1.0))) == Panicked
    ensures FateOfSample(Plainest(2, Finite(1.0), Finite(-1.0))) == Panicked
    ensures FateOfSample(Plainest(2, Finite(1.0), NaN)) == Spoiled
    ensures FateOfSample(Plainest(1, NaN, Finite(-1.0))) == Taken
    ensures FateOfSample(Plainest(0, Finite(1.0), Finite(-1.0))) == Taken
  {
    hide SortStrings, Join, KeyHash, CountFate;
    CountFateIff(Finite(1.0), Finite(-1.0));
  }

  // ---- Iteration order

  /** Whether a key makes a tag. */
  function Makes(tags: map<string, string>, t: string): string -> int {
    (k: string) =>
      if k in tags && k != "veneurlocalonly" && k != "veneurglobalonly" && k + ":" + tags[k] == t then 1 else 0
  }

  /** How often a tag comes up does not depend on the order. */
  lemma {:induction false} PlainCount(tags: map<string, string>, order: seq<string>, t: string)
    requires forall i :: 0 <= i < |order| ==> order[i] in tags
    ensures multiset(Plain(tags, order))[t] == ISum(Makes(tags, t), order)
    decreases |order|
  {
    if order != [] {
      var n := |order| - 1;
      PlainCount(tags, order[..n], t);
      ISumConcat(Makes(tags, t), order[..n], [order[n]]);
      ISumOne(Makes(tags, t), order[n]);
      assert order == order[..n] + [order[n]];
    }
  }

  /** Two orders of the same keys give the same sums. */
  lemma {:induction false} SameSum(f: string -> int, a: seq<string>, b: seq<string>)
    requires forall i, j :: 0 <= i < j < |a| ==> a[i] != a[j]
    requires forall i, j :: 0 <= i < j < |b| ==> b[i] != b[j]
    requires forall x :: x in a <==> x in b
    ensures ISum(f, a) == ISum(f, b)
    decreases |a|
  {
    hide ISum;
    if a == [] {
      if b != [] {
        SomeMember(b);
        assert false;
      }
    } else {
      assert a[0] in b;
      var i :| 0 <= i < |b| && b[i] == a[0];
      var rest := b[..i] + b[i + 1..];
      ISumRemove(f, b, i);
      SameRest(a, b, i);
      SameSum(f, a[1..], rest);
      ISumConcat(f, [a[0]], a[1..]);
      ISumOne(f, a[0]);
      assert a == [a[0]] + a[1..];
    }
  }

  lemma SomeMember(s: seq<string>)
    requires s != []
    ensures exists x :: x in s
  {
    assert s[0] in s;
  }

  lemma SameRest(a: seq<string>, b: seq<string>, i: nat)
    requires a != [] && i < |b| && b[i] == a[0]
    requires forall i, j :: 0 <= i < j < |a| ==> a[i] != a[j]
    requires forall i, j :: 0 <= i < j < |b| ==> b[i] != b[j]
    requires forall x :: x in a <==> x in b
    ensures var rest := b[..i] + b[i + 1..];
            && (forall j, k :: 0 <= j < k < |rest| ==> rest[j] != rest[k])
            && (forall x :: x in a[1..] <==> x in rest)
  {
    var rest := b[..i] + b[i + 1..];
    assert a == [a[0]] + a[1..];
    assert b == b[..i] + [b[i]] + b[i + 1..];
    assert a[0] !in a[1..] && a[0] !in rest;
    forall x
      ensures x in a[1..] <==> x in rest
    {
      assert x in a <==> x == a[0] || x in a[1..];
      assert x in b <==> x == b[i] || x in rest;
    }
  }

  /** The tags of a sample come out the same whatever order the map is iterated in. */
  lemma {:induction false} PlainPermuted(tags: map<string, string>, a: seq<string>, b: seq<string>)
    requires Visits(a, tags) && Visits(b, tags)
    ensures SortStrings(Plain(tags, a)) == SortStrings(Plain(tags, b))
  {
    hide ISum, Plain, SortStrings;
    forall t
      ensures multiset(Plain(tags, a))[t] == multiset(Plain(tags, b))[t]
    {
      PlainCount(tags, a, t);
      PlainCount(tags, b, t);
      SameSum(Makes(tags, t), a, b);
    }
    SortPermuted(Plain(tags, a), Plain(tags, b));
  }

  lemma {:induction false} LastScopeMeaning(order: seq<string>)
    ensures LastScope(order) == MixedScope <==> (LOCAL_ONLY !in order && GLOBAL_ONLY !in order)
    ensures LastScope(order) == LocalOnly ==> LOCAL_ONLY in order
    ensures LastScope(order) == GlobalOnly ==> GLOBAL_ONLY in order
  {
    hide LOCAL_ONLY, GLOBAL_ONLY;
    if order != [] {
      var n := |order| - 1;
      LastScopeMeaning(order[..n]);
      assert order == order[..n] + [order[n]];
    }
  }

  /** Whether a sample always parses to the same metric. */
  ghost predicate Deterministic(x: Sample) {
    forall a, b :: Visits(a, x.tags) && Visits(b, x.tags) ==> SsfMetricOf(x, a) == SsfMetricOf(x, b)
  }

  /** With both scope tags present, the iteration order decides the scope. */
  lemma ScopeDepends(x: Sample)
    requires SsfKind(x.metric).Some? && LOCAL_ONLY in x.tags && GLOBAL_ONLY in x.tags
    ensures !Deterministic(x)
  {
    hide Plain, SortStrings, Join, KeyHash, LOCAL_ONLY, GLOBAL_ONLY;
    GlobalFirst();
    var others := SomeOrder(x.tags.Keys - {LOCAL_ONLY, GLOBAL_ONLY});
    var a, b := others + [GLOBAL_ONLY, LOCAL_ONLY], others + [LOCAL_ONLY, GLOBAL_ONLY];
    assert Visits(a, x.tags) && Visits(b, x.tags);
    assert a[|a| - 1] == LOCAL_ONLY && b[|b| - 1] == GLOBAL_ONLY;
    assert LastScope(a) != LastScope(b);
  }

  lemma SomeOrder(keys: set<string>) returns (order: seq<string>)
    ensures forall i :: 0 <= i < |order| ==> order[i] in keys
    ensures forall i, j :: 0 <= i < j < |order| ==> order[i] != order[j]
    ensures forall k :: k in keys ==> k in order
  {
    if keys == {} {
      order := [];
    } else {
      var k :| k in keys;
      var rest := SomeOrder(keys - {k});
      order := rest + [k];
    }
  }

  /** A sample of a known type parses deterministically if and only if it does not carry both scope tags. */
  lemma {:induction false} DeterministicIff(x: Sample)
    requires SsfKind(x.metric).Some?
    ensures Deterministic(x) <==> !(LOCAL_ONLY in x.tags && GLOBAL_ONLY in x.tags)
  {
    hide Plain, SortStrings, Join, KeyHash, LOCAL_ONLY, GLOBAL_ONLY, LastScope;
    if LOCAL_ONLY in x.tags && GLOBAL_ONLY in x.tags {
      ScopeDepends(x);
    } else {
      forall a, b | Visits(a, x.tags) && Visits(b, x.tags)
        ensures SsfMetricOf(x, a) == SsfMetricOf(x, b)
      {
        PlainPermuted(x.tags, a, b);
        LastScopeMeaning(a);
        LastScopeMeaning(b);
      }
    }
  }
}
