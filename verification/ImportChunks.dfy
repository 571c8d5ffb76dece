/** How imported metrics are handed to the workers: sorted by worker, one chunk for each. */
module ImportChunks {
  import opened Samplers
  import opened DatadogChunks

  predicate InOrder(s: seq<nat>) {
    forall i, j :: 0 <= i < j < |s| ==> s[i] <= s[j]
  }

  lemma Ascends(s: seq<nat>, i: nat, j: nat)
    requires InOrder(s) && i <= j
    ensures j < |s| ==> s[i] <= s[j]
  {
  }

  function Swapped<T>(s: seq<T>, i: nat, j: nat): (r: seq<T>)
    requires i < |s| && j < |s|
    ensures |r| == |s|
  {
    s[i := s[j]][j := s[i]]
  }

  lemma SwapKeeps<T>(s: seq<T>, i: nat, j: nat)
    requires i < j < |s|
    ensures multiset(Swapped(s, i, j)) == multiset(s)
  {
  }

  /** In order up to n, but for the one at j, which may belong further down. */
  predicate Sinking(s: seq<nat>, n: nat, j: nat) {
    j <= n < |s| && forall a, b :: 0 <= a < b <= n && b != j ==> s[a] <= s[b]
  }

  lemma SinkStart(s: seq<nat>, n: nat)
    requires n < |s| && InOrder(s[..n])
    ensures Sinking(s, n, n)
  {
    assert forall a :: 0 <= a < n ==> s[..n][a] == s[a];
  }

  lemma SinkStep(s: seq<nat>, n: nat, j: nat)
    requires Sinking(s, n, j) && j > 0 && s[j] < s[j - 1]
    ensures Sinking(Swapped(s, j - 1, j), n, j - 1)
  {
  }

  lemma SinkEnd(s: seq<nat>, n: nat, j: nat)
    requires Sinking(s, n, j) && (j == 0 || s[j - 1] <= s[j])
    ensures InOrder(s[..n + 1])
  {
    forall a, b | 0 <= a < b <= n
      ensures s[a] <= s[b]
    {
      if b == j && a < j - 1 {
        assert s[a] <= s[j - 1];
      }
    }
  }

  class SortableMetrics {
    var metrics: seq<JSONMetric>
    var workerIndices: seq<nat>
    const workers: nat

    /** Every metric has the index of the worker its hash picks. */
    predicate Valid()
      reads this
    {
      workers > 0 && |metrics| == |workerIndices|
      && forall i :: 0 <= i < |metrics| ==> workerIndices[i] == Route(metrics[i].key, workers)
    }

    constructor (metrics: seq<JSONMetric>, workers: nat)
      requires workers > 0
      ensures Valid() && this.metrics == metrics && this.workers == workers
    {
      var indices: seq<nat> := [];
      for i := 0 to |metrics|
        invariant |indices| == i && forall k :: 0 <= k < i ==> indices[k] == Route(metrics[k].key, workers)
      {
        indices := indices + [Route(metrics[i].key, workers)];
      }
      this.metrics, this.workers, workerIndices := metrics, workers, indices;
    }

    method Swap(i: nat, j: nat)
      requires Valid() && i < |metrics| && j < |metrics|
      modifies this
      ensures Valid() && metrics == Swapped(old(metrics), i, j) && workerIndices == Swapped(old(workerIndices), i, j)
    {
      metrics := metrics[i := metrics[j]][j := metrics[i]];
      workerIndices := workerIndices[i := workerIndices[j]][j := workerIndices[i]];
    }

    /** Moves the metric at n down to where it belongs among those before it. */
    method SinkDown(n: nat)
      requires Valid() && n < |metrics| && InOrder(workerIndices[..n])
      modifies this
      ensures Valid() && |metrics| == |old(metrics)| && multiset(metrics) == multiset(old(metrics))
      ensures InOrder(workerIndices[..n + 1])
    {
      hide Route, Swapped, Sinking, InOrder;
      var j := n;
      SinkStart(workerIndices, n);
      while j > 0 && workerIndices[j] < workerIndices[j - 1]
        invariant Valid() && 0 <= j <= n && |metrics| == |old(metrics)| && multiset(metrics) == multiset(old(metrics))
        invariant Sinking(workerIndices, n, j)
      {
        SwapKeeps(metrics, j - 1, j);
        SinkStep(workerIndices, n, j);
        Swap(j - 1, j);
        j := j - 1;
      }
      SinkEnd(workerIndices, n, j);
    }

    /** Any sort will do: the chunks only need the indices in order. */
    method Sort()
      requires Valid()
      modifies this
      ensures Valid() && multiset(metrics) == multiset(old(metrics)) && InOrder(workerIndices)
    {
      for n := 0 to |metrics|
        invariant Valid() && |metrics| == |old(metrics)| && multiset(metrics) == multiset(old(metrics))
        invariant InOrder(workerIndices[..n])
      {
        SinkDown(n);
      }
      assert workerIndices[..|metrics|] == workerIndices;
    }
  }

  /** The metrics that go to one worker. */
  function MetricsFor(metrics: seq<JSONMetric>, workers: nat, worker: nat): seq<JSONMetric>
    requires workers > 0
  {
    if metrics == [] then []
    else
      (if Route(metrics[0].key, workers) == worker then [metrics[0]] else [])
      + MetricsFor(metrics[1..], workers, worker)
  }

  lemma {:induction false} ForConcat(a: seq<JSONMetric>, b: seq<JSONMetric>, workers: nat, worker: nat)
    requires workers > 0
    ensures MetricsFor(a + b, workers, worker) == MetricsFor(a, workers, worker) + MetricsFor(b, workers, worker)
  {
    hide Route;
    if a == [] {
      assert a + b == b;
    } else {
      assert (a + b)[1..] == a[1..] + b;
      ForConcat(a[1..], b, workers, worker);
    }
  }

  lemma {:induction false} ForAllOrNone(metrics: seq<JSONMetric>, workers: nat, worker: nat, all: bool)
    requires workers > 0
    requires forall i :: 0 <= i < |metrics| ==> (Route(metrics[i].key, workers) == worker <==> all)
    ensures MetricsFor(metrics, workers, worker) == if all then metrics else []
  {
    hide Route;
    if metrics != [] {
      assert forall i :: 0 <= i < |metrics[1..]| ==> metrics[1..][i] == metrics[i + 1];
      ForAllOrNone(metrics[1..], workers, worker, all);
    }
  }

  class MetricsByWorker {
    const sjm: SortableMetrics
    var currentStart: nat
    var nextStart: nat

    ghost predicate Valid()
      reads this, sjm
    {
      && sjm.Valid() && InOrder(sjm.workerIndices)
      && nextStart <= |sjm.metrics|
      && (if nextStart == 0 then currentStart == 0 else AtRun())
    }

    /** It stands at all the metrics for one worker. */
    ghost predicate AtRun()
      reads this, sjm
      requires |sjm.workerIndices| == |sjm.metrics|
    {
      && currentStart < nextStart <= |sjm.metrics|
      && (forall i :: currentStart <= i < nextStart ==> sjm.workerIndices[i] == sjm.workerIndices[currentStart])
      && (currentStart > 0 ==> sjm.workerIndices[currentStart - 1] < sjm.workerIndices[currentStart])
      && (nextStart < |sjm.metrics| ==> sjm.workerIndices[nextStart] > sjm.workerIndices[currentStart])
    }

    constructor (metrics: seq<JSONMetric>, workers: nat)
      requires workers > 0
      ensures Valid() && fresh(sjm) && nextStart == 0 && currentStart == 0
      ensures sjm.workers == workers && multiset(sjm.metrics) == multiset(metrics)
    {
      var sortable := new SortableMetrics(metrics, workers);
      sortable.Sort();
      sjm, currentStart, nextStart := sortable, 0, 0;
    }

    /** Finds the end of the run of metrics for one worker. */
    method Next() returns (more: bool)
      requires Valid()
      modifies this
      ensures Valid()
      ensures more == (old(nextStart) < |sjm.metrics|)
      ensures !more ==> nextStart == old(nextStart) && currentStart == old(currentStart)
      ensures more ==> currentStart == old(nextStart) < nextStart && AtRun()
      ensures more && old(currentStart < nextStart) ==>
                sjm.workerIndices[currentStart] > sjm.workerIndices[old(currentStart)]
    {
      hide Route, InOrder;
      if |sjm.metrics| == nextStart {
        return false;
      }
      var i := nextStart;
      while i < |sjm.metrics| && sjm.workerIndices[i] == sjm.workerIndices[nextStart]
        invariant nextStart <= i <= |sjm.metrics|
        invariant forall k :: nextStart <= k < i ==> sjm.workerIndices[k] == sjm.workerIndices[nextStart]
      {
        i := i + 1;
      }
      Ascends(sjm.workerIndices, nextStart, i);
      currentStart := nextStart;
      nextStart := i;
      more := true;
    }

    /** All the metrics for a worker, of which there are some. */
    method Chunk() returns (chunk: seq<JSONMetric>, worker: nat)
      requires Valid() && currentStart < nextStart
      ensures chunk == sjm.metrics[currentStart..nextStart] && worker == sjm.workerIndices[currentStart]
      ensures chunk == MetricsFor(sjm.metrics, sjm.workers, worker) && chunk != []
    {
      chunk, worker := sjm.metrics[currentStart..nextStart], sjm.workerIndices[currentStart];
      RunOfWorker();
    }

    lemma RunOfWorker()
      requires Valid() && currentStart < nextStart
      ensures MetricsFor(sjm.metrics, sjm.workers, sjm.workerIndices[currentStart])
           == sjm.metrics[currentStart..nextStart]
    {
      hide Route, InOrder, MetricsFor;
      var indices, w := sjm.workerIndices, sjm.workerIndices[currentStart];
      forall i | 0 <= i < |indices|
        ensures indices[i] == w <==> currentStart <= i < nextStart
      {
        if i < currentStart {
          Ascends(indices, i, currentStart - 1);
        } else if i >= nextStart {
          Ascends(indices, nextStart, i);
        }
      }
      ForIsRun(sjm.metrics, sjm.workers, w, currentStart, nextStart);
    }
  }

  lemma ForIsRun(metrics: seq<JSONMetric>, workers: nat, worker: nat, start: nat, end: nat)
    requires workers > 0 && start <= end <= |metrics|
    requires forall i :: 0 <= i < |metrics| ==> (Route(metrics[i].key, workers) == worker <==> start <= i < end)
    ensures MetricsFor(metrics, workers, worker) == metrics[start..end]
  {
    hide Route, MetricsFor;
    var before, run, after := metrics[..start], metrics[start..end], metrics[end..];
    ForConcat(before + run, after, workers, worker);
    ForConcat(before, run, workers, worker);
    assert before + run + after == metrics;
    ForAllOrNone(before, workers, worker, false);
    ForAllOrNone(run, workers, worker, true);
    ForAllOrNone(after, workers, worker, false);
  }

  /** A chunk of metrics on its way to a worker. */
  datatype Delivery = Delivery(chunk: seq<JSONMetric>, worker: nat)

  function ChunksOf(ds: seq<Delivery>): seq<seq<JSONMetric>> {
    if ds == [] then [] else ChunksOf(ds[..|ds| - 1]) + [ds[|ds| - 1].chunk]
  }

  lemma OneMoreDelivery(ds: seq<Delivery>, d: Delivery)
    ensures Concat(ChunksOf(ds + [d])) == Concat(ChunksOf(ds)) + d.chunk
  {
    assert (ds + [d])[..|ds|] == ds;
    var cs := ChunksOf(ds);
    assert (cs + [d.chunk])[..|cs|] == cs;
  }

  /** Every chunk is nonempty and for one worker, and no worker gets two. */
  predicate Sorted(ds: seq<Delivery>, workers: nat) {
    && workers > 0
    && (forall i :: 0 <= i < |ds| ==> ds[i].chunk != [])
    && (forall i, j :: 0 <= i < |ds| && 0 <= j < |ds[i].chunk| ==> Route(ds[i].chunk[j].key, workers) == ds[i].worker)
    && (forall i, j :: 0 <= i < j < |ds| ==> ds[i].worker < ds[j].worker)
  }

  predicate Below(ds: seq<Delivery>, worker: nat) {
    forall i :: 0 <= i < |ds| ==> ds[i].worker < worker
  }

  lemma SortedGrows(ds: seq<Delivery>, d: Delivery, workers: nat)
    requires Sorted(ds, workers) && Below(ds, d.worker) && d.chunk != []
    requires forall j :: 0 <= j < |d.chunk| ==> Route(d.chunk[j].key, workers) == d.worker
    ensures Sorted(ds + [d], workers)
    ensures forall w :: w > d.worker ==> Below(ds + [d], w)
  {
    hide KeyHash;
  }

  method TakeRun(iter: MetricsByWorker) returns (d: Delivery)
    requires iter.Valid() && iter.AtRun()
    ensures d.chunk == iter.sjm.metrics[iter.currentStart..iter.nextStart] && d.chunk != []
    ensures d.worker == iter.sjm.workerIndices[iter.currentStart]
    ensures forall j :: 0 <= j < |d.chunk| ==> Route(d.chunk[j].key, iter.sjm.workers) == d.worker
  {
    hide Route, MetricsFor, InOrder;
    var chunk, worker := iter.Chunk();
    d := Delivery(chunk, worker);
    forall j | 0 <= j < |chunk|
      ensures Route(chunk[j].key, iter.sjm.workers) == worker
    {
      assert chunk[j] == iter.sjm.metrics[iter.currentStart + j];
      assert iter.sjm.workerIndices[iter.currentStart + j] == worker;
    }
  }

  /** What has been delivered when the iterator stands at a run, or at the end. */
  ghost predicate Midway(iter: MetricsByWorker, ds: seq<Delivery>, more: bool, all: seq<JSONMetric>, workers: nat)
    reads iter, iter.sjm
  {
    && iter.Valid() && iter.sjm.workers == workers && iter.sjm.metrics == all
    && Concat(ChunksOf(ds)) == (if more then all[..iter.currentStart] else all)
    && Sorted(ds, workers)
    && (more ==> iter.AtRun() && Below(ds, iter.sjm.workerIndices[iter.currentStart]))
  }

  method DeliverRun(iter: MetricsByWorker, ds: seq<Delivery>, workers: nat, ghost all: seq<JSONMetric>)
    returns (ds': seq<Delivery>, more: bool)
    requires Midway(iter, ds, true, all, workers)
    modifies iter
    ensures Midway(iter, ds', more, all, workers)
    ensures if more then iter.currentStart > old(iter.currentStart) else iter.currentStart == old(iter.currentStart)
  {
    hide Concat, ChunksOf, Sorted, Below, Route, InOrder;
    var d := TakeRun(iter);
    OneMoreDelivery(ds, d);
    SortedGrows(ds, d, workers);
    assert all[..iter.currentStart] + d.chunk == all[..iter.nextStart];
    ds' := ds + [d];
    ghost var end := iter.nextStart;
    more := iter.Next();
    assert !more ==> all[..end] == all;
  }

  /** ImportMetrics: all metrics are delivered, each once, to the worker it belongs to. */
  method ImportMetrics(metrics: seq<JSONMetric>, workers: nat) returns (ds: seq<Delivery>)
    requires workers > 0
    ensures multiset(Concat(ChunksOf(ds))) == multiset(metrics)
    ensures Sorted(ds, workers)
  {
    hide Concat, ChunksOf, Route, InOrder;
    var iter := new MetricsByWorker(metrics, workers);
    ghost var all := iter.sjm.metrics;
    ds := [];
    NoDeliveries();
    var more := iter.Next();
    while more
      invariant fresh(iter) && fresh(iter.sjm) && Midway(iter, ds, more, all, workers)
      decreases |all| - iter.currentStart, more
    {
      hide Midway;
      StartBounded(iter, ds, all, workers);
      ds, more := DeliverRun(iter, ds, workers, all);
    }
  }

  lemma StartBounded(iter: MetricsByWorker, ds: seq<Delivery>, all: seq<JSONMetric>, workers: nat)
    requires Midway(iter, ds, true, all, workers)
    ensures iter.currentStart < |all|
  {
    hide Sorted, Route, InOrder, Below;
  }

  lemma NoDeliveries()
    ensures Concat(ChunksOf([])) == []
  {
  }
}
