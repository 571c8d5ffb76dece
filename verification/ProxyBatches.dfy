/** The proxy sorts the metrics of a request into one batch per destination. */
module ProxyBatches {
  import opened Destinations
  import opened Options
  import opened Samplers
  import opened Sums

  datatype Metric = Metric(key: MetricKey, value: Payload)

  /** The hash ring: where a key goes, or None where the ring is empty. */
  type Ring = MetricKey -> Option<Destination>

  datatype ForwardError = NoDestination(metric: Metric) | ForwardFailed(destination: Destination, numMetrics: nat)

  function NumMetrics(): ForwardError -> int {
    (e: ForwardError) => if e.NoDestination? then 1 else e.numMetrics
  }

  predicate GoesTo(ring: Ring, x: Metric, d: Destination) {
    ring(x.key) == Some(d)
  }

  function BatchFor(ring: Ring, metrics: seq<Metric>, d: Destination): seq<Metric> {
    if metrics == [] then []
    else
      var n := |metrics| - 1;
      BatchFor(ring, metrics[..n], d) + (if GoesTo(ring, metrics[n], d) then [metrics[n]] else [])
  }

  function Undeliverable(ring: Ring, metrics: seq<Metric>): seq<Metric> {
    if metrics == [] then []
    else
      var n := |metrics| - 1;
      Undeliverable(ring, metrics[..n]) + (if ring(metrics[n].key).None? then [metrics[n]] else [])
  }

  function Errors(metrics: seq<Metric>): seq<ForwardError> {
    if metrics == [] then []
    else Errors(metrics[..|metrics| - 1]) + [NoDestination(metrics[|metrics| - 1])]
  }

  /** The map holds a batch for exactly the destinations some metric goes to. */
  ghost predicate Grouped(ring: Ring, metrics: seq<Metric>, dests: map<Destination, seq<Metric>>) {
    && (forall d :: d in dests ==> dests[d] == BatchFor(ring, metrics, d))
    && (forall d :: d in dests <==> BatchFor(ring, metrics, d) != [])
  }

  /** A metric joins the batch of its destination. */
  function Placed(ring: Ring, dests: map<Destination, seq<Metric>>, x: Metric): map<Destination, seq<Metric>> {
    match ring(x.key)
    case None => dests
    case Some(d) => dests[d := (if d in dests then dests[d] else []) + [x]]
  }

  lemma GroupNothing(ring: Ring)
    ensures Grouped(ring, [], map[]) && Errors(Undeliverable(ring, [])) == []
  {
  }

  lemma GroupStep(ring: Ring, metrics: seq<Metric>, dests: map<Destination, seq<Metric>>, x: Metric)
    requires Grouped(ring, metrics, dests)
    ensures Grouped(ring, metrics + [x], Placed(ring, dests, x))
  {
    assert (metrics + [x])[..|metrics|] == metrics;
    forall d
      ensures BatchFor(ring, metrics + [x], d) == BatchFor(ring, metrics, d) + (if GoesTo(ring, x, d) then [x] else [])
    {
    }
  }

  lemma UndeliverableStep(ring: Ring, metrics: seq<Metric>, x: Metric)
    ensures Errors(Undeliverable(ring, metrics + [x]))
         == Errors(Undeliverable(ring, metrics)) + (if ring(x.key).None? then [NoDestination(x)] else [])
  {
    assert (metrics + [x])[..|metrics|] == metrics;
    var u := Undeliverable(ring, metrics);
    assert (u + [x])[..|u|] == u;
    assert u + [] == u && Errors(u) + [] == Errors(u);
  }

  /** The first loop of sendMetrics. */
  method Group(ring: Ring, metrics: seq<Metric>) returns (dests: map<Destination, seq<Metric>>, errs: seq<ForwardError>)
    ensures Grouped(ring, metrics, dests)
    ensures errs == Errors(Undeliverable(ring, metrics))
  {
    hide *;
    dests, errs := map[], [];
    GroupNothing(ring);
    for i := 0 to |metrics|
      invariant Grouped(ring, metrics[..i], dests)
      invariant errs == Errors(Undeliverable(ring, metrics[..i]))
    {
      GroupStep(ring, metrics[..i], dests, metrics[i]);
      UndeliverableStep(ring, metrics[..i], metrics[i]);
      assert metrics[..i + 1] == metrics[..i] + [metrics[i]];
      dests, errs := PlaceOne(ring, dests, errs, metrics[i]);
    }
    assert metrics[..|metrics|] == metrics;
  }

  method PlaceOne(ring: Ring, before: map<Destination, seq<Metric>>, errsBefore: seq<ForwardError>, x: Metric)
    returns (dests: map<Destination, seq<Metric>>, errs: seq<ForwardError>)
    ensures dests == Placed(ring, before, x)
    ensures errs == errsBefore + (if ring(x.key).None? then [NoDestination(x)] else [])
  {
    dests, errs := before, errsBefore;
    match ring(x.key)
    case None =>
      errs := errs + [NoDestination(x)];
    case Some(d) =>
      if d !in dests {
        dests := dests[d := []];
      }
      dests := dests[d := dests[d] + [x]];
  }

  // ---- Every metric is in one batch or is one error, and only there

  function Measured(g: Metric -> int, ring: Ring, order: seq<Destination>): Metric -> int {
    (x: Metric) => if ring(x.key).Some? && ring(x.key).value in order then g(x) else 0
  }

  function BatchesIn(): (Destination, seq<Metric>) -> seq<Metric> {
    (d, batch) => batch
  }

  lemma {:induction false} ISumSnoc<T>(f: T -> int, s: seq<T>)
    requires s != []
    ensures ISum(f, s) == ISum(f, s[..|s| - 1]) + f(s[|s| - 1])
  {
    ISumConcat(f, s[..|s| - 1], [s[|s| - 1]]);
    ISumOne(f, s[|s| - 1]);
    assert s == s[..|s| - 1] + [s[|s| - 1]];
  }

  /** Taking one more destination into account adds that destination's batch. */
  lemma {:induction false} OneMore(g: Metric -> int, ring: Ring, metrics: seq<Metric>, d: Destination,
      order: seq<Destination>)
    requires d !in order
    ensures ISum(Measured(g, ring, [d] + order), metrics)
         == ISum(g, BatchFor(ring, metrics, d)) + ISum(Measured(g, ring, order), metrics)
    decreases |metrics|
  {
    if metrics != [] {
      var n := |metrics| - 1;
      OneMore(g, ring, metrics[..n], d, order);
      ISumSnoc(Measured(g, ring, [d] + order), metrics);
      ISumSnoc(Measured(g, ring, order), metrics);
      ISumConcat(g, BatchFor(ring, metrics[..n], d), if GoesTo(ring, metrics[n], d) then [metrics[n]] else []);
      ISumOne(g, metrics[n]);
    }
  }

  lemma {:induction false} BatchesMeasure(g: Metric -> int, ring: Ring, metrics: seq<Metric>,
                                          dests: map<Destination, seq<Metric>>, order: seq<Destination>)
    requires forall d :: d in dests ==> dests[d] == BatchFor(ring, metrics, d)
    requires forall i :: 0 <= i < |order| ==> order[i] in dests
    requires forall i, j :: 0 <= i < j < |order| ==> order[i] != order[j]
    ensures ISum(g, Walk(dests, order, BatchesIn())) == ISum(Measured(g, ring, order), metrics)
    decreases |order|
  {
    if order == [] {
      ISumZero(Measured(g, ring, order), metrics);
    } else {
      BatchesMeasure(g, ring, metrics, dests, order[1..]);
      OneMore(g, ring, metrics, order[0], order[1..]);
      ISumConcat(g, dests[order[0]], Walk(dests, order[1..], BatchesIn()));
      assert [order[0]] + order[1..] == order;
    }
  }

  lemma {:induction false} SplitOff(g: Metric -> int, ring: Ring, metrics: seq<Metric>, order: seq<Destination>)
    requires forall i :: 0 <= i < |metrics| && ring(metrics[i].key).Some? ==> ring(metrics[i].key).value in order
    ensures ISum(g, metrics) == ISum(Measured(g, ring, order), metrics) + ISum(g, Undeliverable(ring, metrics))
    decreases |metrics|
  {
    if metrics != [] {
      var n := |metrics| - 1;
      SplitOff(g, ring, metrics[..n], order);
      ISumSnoc(g, metrics);
      ISumSnoc(Measured(g, ring, order), metrics);
      ISumConcat(g, Undeliverable(ring, metrics[..n]), if ring(metrics[n].key).None? then [metrics[n]] else []);
      ISumOne(g, metrics[n]);
    }
  }

  lemma {:induction false} BatchHas(ring: Ring, metrics: seq<Metric>, i: nat, d: Destination)
    requires i < |metrics| && GoesTo(ring, metrics[i], d)
    ensures BatchFor(ring, metrics, d) != []
    decreases |metrics|
  {
    if i < |metrics| - 1 {
      BatchHas(ring, metrics[..|metrics| - 1], i, d);
    }
  }

  /** Under every measure of metrics, the batches and the undeliverable metrics make up the request. */
  lemma {:induction false} GroupingLosesNothing(g: Metric -> int, ring: Ring, metrics: seq<Metric>,
                             dests: map<Destination, seq<Metric>>, order: seq<Destination>)
    requires Grouped(ring, metrics, dests) && Visits(order, dests)
    ensures ISum(g, metrics) == ISum(g, Walk(dests, order, BatchesIn())) + ISum(g, Undeliverable(ring, metrics))
  {
    hide ISum, Walk, BatchFor;
    forall i | 0 <= i < |metrics| && ring(metrics[i].key).Some?
      ensures ring(metrics[i].key).value in order
    {
      BatchHas(ring, metrics, i, ring(metrics[i].key).value);
    }
    BatchesMeasure(g, ring, metrics, dests, order);
    SplitOff(g, ring, metrics, order);
  }
}
