/** What a local instance publishes and what it forwards are read from different data. */
module Separation {
  import opened Centroids
  import opened Digests
  import opened Options
  import opened Text
  import opened Samplers
  import opened Worker
  import opened Sums
  import opened Flusher
  import opened FlushLaws

  /** A histogram without the digest that is forwarded. */
  function Reported(h: Histo): Histo {
    h.(digest := NO_DIGEST, imported := 0.0, samples := [], adds := [])
  }

  predicate SameReports(m: map<MetricKey, Histo>, n: map<MetricKey, Histo>) {
    m.Keys == n.Keys && forall k :: k in m ==> Reported(m[k]) == Reported(n[k])
  }

  /** Two workers that differ only in what is forwarded: global counters and gauges, sets, digests. */
  predicate SameLocally(a: WorkerMetrics, b: WorkerMetrics) {
    && a.counters == b.counters && a.gauges == b.gauges
    && a.localHistograms == b.localHistograms && a.localSets == b.localSets && a.localTimers == b.localTimers
    && a.localStatusChecks == b.localStatusChecks
    && SameReports(a.histograms, b.histograms) && SameReports(a.timers, b.timers)
  }

  /** The part of the orders that the published maps are walked in. */
  predicate SameWalks(o: Orders, p: Orders) {
    && o.counters == p.counters && o.gauges == p.gauges && o.histograms == p.histograms && o.timers == p.timers
    && o.localHistograms == p.localHistograms && o.localSets == p.localSets && o.localTimers == p.localTimers
    && o.localStatusChecks == p.localStatusChecks
  }

  predicate SameExports(m: map<MetricKey, Histo>, n: map<MetricKey, Histo>) {
    m.Keys == n.Keys && forall k :: k in m ==> ExportHisto(m[k]) == ExportHisto(n[k])
  }

  /** Two workers that differ only in what is published. */
  predicate SameGlobally(a: WorkerMetrics, b: WorkerMetrics) {
    && a.globalCounters == b.globalCounters && a.globalGauges == b.globalGauges && a.sets == b.sets
    && SameExports(a.histograms, b.histograms) && SameExports(a.timers, b.timers)
  }

  predicate SameRounds(o: Orders, p: Orders) {
    && o.globalCounters == p.globalCounters && o.globalGauges == p.globalGauges && o.sets == p.sets
    && o.histograms == p.histograms && o.timers == p.timers
  }

  lemma {:induction false} WalkSame<V, R>(m: map<MetricKey, V>, n: map<MetricKey, V>, order: seq<MetricKey>,
      f: (MetricKey, V) -> seq<R>)
    requires forall i :: 0 <= i < |order| ==> order[i] in m && order[i] in n
    requires forall k :: k in m && k in n ==> f(k, m[k]) == f(k, n[k])
    ensures Walk(m, order, f) == Walk(n, order, f)
    decreases |order|
  {
    if order != [] {
      WalkSame(m, n, order[1..], f);
    }
  }

  lemma ReportsWalk(m: map<MetricKey, Histo>, n: map<MetricKey, Histo>, order: seq<MetricKey>,
      aggregates: set<Aggregate>)
    requires Visits(order, m) && Visits(order, n) && SameReports(m, n) && Median !in aggregates
    ensures Walk(m, order, HistoPoints([], aggregates, false)) == Walk(n, order, HistoPoints([], aggregates, false))
  {
    hide Walk, AggregatePoints;
    forall k | k in m && k in n
      ensures HistoPoints([], aggregates, false)(k, m[k]) == HistoPoints([], aggregates, false)(k, n[k])
    {
      SamePoints(k, m[k], n[k], aggregates);
    }
    WalkSame(m, n, order, HistoPoints([], aggregates, false));
  }

  lemma SamePoints(k: MetricKey, h: Histo, g: Histo, aggregates: set<Aggregate>)
    requires Reported(h) == Reported(g) && Median !in aggregates
    ensures AggregatePoints(k, h, aggregates) == AggregatePoints(k, g, aggregates)
  {
    assert h.localMax == Reported(g).localMax && h.localMin == Reported(g).localMin;
    assert h.localSum == Reported(g).localSum && h.localWeight == Reported(g).localWeight;
    assert h.localReciprocalSum == Reported(g).localReciprocalSum;
  }

  /** Nothing that is forwarded shows in what a local instance publishes, medians apart. */
  lemma {:induction false} PublishedSeparately(a: WorkerMetrics, b: WorkerMetrics, cfg: Config, o: Orders, p: Orders)
    requires cfg.isLocal && Median !in cfg.aggregates
    requires OrdersOf(o, a) && OrdersOf(p, b) && SameWalks(o, p) && SameLocally(a, b)
    ensures Published(a, cfg, o) == Published(b, cfg, p)
  {
    hide Walk, Visits, HistoPoints, SameReports;
    OrdersInside(o, a);
    OrdersInside(p, b);
    ReportsWalk(a.histograms, b.histograms, o.histograms, cfg.aggregates);
    ReportsWalk(a.timers, b.timers, o.timers, cfg.aggregates);
  }

  /** Nothing that is published shows in what is forwarded. */
  lemma {:induction false} ForwardedSeparately(a: WorkerMetrics, b: WorkerMetrics, o: Orders, p: Orders)
    requires OrdersOf(o, a) && OrdersOf(p, b) && SameRounds(o, p) && SameGlobally(a, b)
    ensures Forwarded(a, o) == Forwarded(b, p)
  {
    hide Walk, Visits, Join;
    OrdersInside(o, a);
    OrdersInside(p, b);
    WalkSame(a.histograms, b.histograms, o.histograms, Exporting(ExportHisto));
    WalkSame(a.timers, b.timers, o.timers, Exporting(ExportTimer));
  }

  /** Published points as a sink gets them, without the history. */
  function Outward(points: seq<Point>): seq<Point> {
    seq(|points|, i requires 0 <= i < |points| =>
      if points[i].MedianPoint? || points[i].PercentilePoint? then points[i].(samples := []) else points[i])
  }

  /** Of two workers in order that differ only in what is forwarded, the same is published. */
  ghost predicate Separate(cfg: Config) {
    forall a, b, o, p |
      Kept(a) && Kept(b) && OrdersOf(o, a) && OrdersOf(p, b) && SameWalks(o, p) && SameLocally(a, b) ::
      Outward(Published(a, cfg, o)) == Outward(Published(b, cfg, p))
  }

  const NAME := MetricKey("x", Histograms, "")
  const ORDERS := Orders([], [], [NAME], [], [], [], [], [], [], [], [])

  /** What a digest is after one sample of weight one. */
  function Single(x: real): Encoded {
    Encoded([Centroid(x, 1.0)], 100.0, Some(x), Some(x))
  }

  /** A histogram that took nothing here and one sample from another instance. */
  function Fed(x: real): Histo {
    CombineHisto(NewHisto("x", []), DigestValue(Single(x), [Observation(x, 1.0)]), Single(x))
  }

  function Holding(x: real): WorkerMetrics {
    EMPTY.(histograms := map[NAME := Fed(x)])
  }

  /** One such sample, as another instance forwards it. */
  function Sent(x: real): JSONMetric {
    JSONMetric(NAME, [], DigestValue(Single(x), [Observation(x, 1.0)]))
  }

  lemma OneSample(x: real)
    ensures var samples := [Observation(x, 1.0)];
            && Sum(ObservedWeight(), samples) == 1.0 && Sum(ObservedMoment(), samples) == x
            && Between(x, samples)
  {
    var s := Observation(x, 1.0);
    SumOne(ObservedWeight(), s);
    SumOne(ObservedMoment(), s);
    BetweenItself(s);
  }

  /** Importing it into a worker just flushed leads there. */
  lemma HoldingReached(arc: real -> real, x: real)
    ensures Sound(Sent(x)) && Combined(arc, EMPTY, Sent(x), Single(x))
    ensures Holding(x) == Imported(EMPTY, Sent(x), Single(x))
  {
    hide Centroids.Total, Read;
    ReadOne(x, 1.0, 100.0);
    OneSample(x);
    WeightOfOne(Centroid(x, 1.0));
    TotalOfEmpty(WeightOf);
    TotalOfEmpty(MassOf);
    assert IsLowest(Some(x), None, [Centroid(x, 1.0)]) && IsHighest(Some(x), None, [Centroid(x, 1.0)]) by {
      assert [Centroid(x, 1.0)][0].mean == x;
    }
    assert Holding(x).histograms == Imported(EMPTY, Sent(x), Single(x)).histograms;
  }

  lemma FedAccounted(x: real)
    ensures Accounted(Fed(x)) && Weight(Fed(x).digest.main) == 1.0
  {
    hide Between;
    WeightOfOne(Centroid(x, 1.0));
    OneSample(x);
    assert [] + [Observation(x, 1.0)] == [Observation(x, 1.0)];
  }

  lemma HoldingKept(x: real)
    ensures Kept(Holding(x)) && Weight(Fed(x).digest.main) == 1.0 && Read(Fed(x).digest, 0.5) == Some(x)
  {
    hide Read, Accounted, Tallied;
    ReadOne(x, 1.0, 100.0);
    FedAccounted(x);
    NewTallied("x", []);
    CombinedTallied(NewHisto("x", []), DigestValue(Single(x), [Observation(x, 1.0)]), Single(x));
  }

  /**
    A local median is read from the digest that is forwarded: of two workers with
    equal reports and equal weights, one publishes a median of 5, the other of 7.
   */
  lemma {:induction false} MedianLeaks(cfg: Config, arc: real -> real)
    requires cfg.isLocal && Median in cfg.aggregates
    ensures Kept(Holding(5.0)) && Kept(Holding(7.0)) && SameLocally(Holding(5.0), Holding(7.0))
    ensures forall x | x == 5.0 || x == 7.0 ::
              Combined(arc, EMPTY, Sent(x), Single(x)) && Holding(x) == Imported(EMPTY, Sent(x), Single(x))
    ensures Weight(Fed(5.0).digest.main) == Weight(Fed(7.0).digest.main)
    ensures OrdersOf(ORDERS, Holding(5.0)) && OrdersOf(ORDERS, Holding(7.0))
    ensures Outward(Published(Holding(5.0), cfg, ORDERS)) == [MedianPoint(NAME, Some(5.0), [])]
    ensures Outward(Published(Holding(7.0), cfg, ORDERS)) == [MedianPoint(NAME, Some(7.0), [])]
  {
    hide Published, OrdersOf, Kept, Weight, Combined, Imported;
    HoldingReached(arc, 5.0);
    HoldingReached(arc, 7.0);
    HoldingKept(5.0);
    HoldingKept(7.0);
    MedianOnly(5.0, cfg);
    MedianOnly(7.0, cfg);
  }

  lemma MedianOnly(x: real, cfg: Config)
    requires cfg.isLocal && Median in cfg.aggregates
    ensures OrdersOf(ORDERS, Holding(x))
    ensures Outward(Published(Holding(x), cfg, ORDERS)) == [MedianPoint(NAME, Some(x), [])]
  {
    hide Kept, Read, HarmonicOf, AverageOf, Weight;
    HoldingKept(x);
    assert OrdersOf(ORDERS, Holding(x)) by {
      assert ORDERS.histograms[0] == NAME;
    }
    var f := HistoPoints([], cfg.aggregates, false);
    assert f(NAME, Fed(x)) == [MedianPoint(NAME, Some(x), Fed(x).samples)];
    assert Walk(Holding(x).histograms, [NAME], f) == f(NAME, Fed(x)) + Walk(Holding(x).histograms, [NAME][1..], f);
  }

  /** The two outputs of a local instance are kept apart exactly when it reports no medians. */
  lemma {:induction false} SeparateIff(cfg: Config)
    requires cfg.isLocal
    ensures Separate(cfg) <==> Median !in cfg.aggregates
  {
    hide OrdersOf, Published, SameLocally, Kept, Weight, Holding, Outward;
    if Median in cfg.aggregates {
      MedianLeaks(cfg, p => p);
      assert [MedianPoint(NAME, Some(5.0), [])][0] != [MedianPoint(NAME, Some(7.0), [])][0];
    } else {
      forall a, b, o, p |
        Kept(a) && Kept(b) && OrdersOf(o, a) && OrdersOf(p, b) && SameWalks(o, p) && SameLocally(a, b)
        ensures Outward(Published(a, cfg, o)) == Outward(Published(b, cfg, p))
      {
        PublishedSeparately(a, b, cfg, o, p);
      }
    }
  }
}
