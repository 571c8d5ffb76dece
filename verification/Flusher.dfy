/** What a flush publishes and what it forwards. */
module Flusher {
  import opened Digests
  import opened Floating
  import opened Options
  import opened Integers
  import opened Samplers
  import opened Worker
  import opened Sums

  datatype Aggregate = Max | Min | Total | Average | Count | Median | HarmonicMean

  datatype Config = Config(isLocal: bool, percentiles: seq<real>, aggregates: set<Aggregate>)

  /**
    A published point, by the sampler it comes from. A median or percentile of an
    empty digest is None, for NaN. samples and seen are history: those behind the
    digest or the set that was asked; scoped says whether it is a local-only one.
   */
  datatype Point =
    | CounterPoint(key: MetricKey, count: Int64, global: bool)
    | GaugePoint(key: MetricKey, last: Float)
    | SetPoint(key: MetricKey, members: set<string>, seen: seq<string>, scoped: bool)
    | StatusPoint(key: MetricKey, check: StatusCheck)
    | MaxPoint(key: MetricKey, level: real)
    | MinPoint(key: MetricKey, level: real)
    | SumPoint(key: MetricKey, level: real)
    | AveragePoint(key: MetricKey, level: real)
    | CountPoint(key: MetricKey, weight: real)
    | MedianPoint(key: MetricKey, answer: Option<real>, samples: seq<Observation>)
    | HarmonicPoint(key: MetricKey, level: real)
    | PercentilePoint(key: MetricKey, percentile: real, answer: Option<real>, samples: seq<Observation>, scoped: bool)

  /** The orders in which one flush walks the maps. */
  datatype Orders = Orders(
    counters: seq<MetricKey>, gauges: seq<MetricKey>, histograms: seq<MetricKey>, sets: seq<MetricKey>,
    timers: seq<MetricKey>, globalCounters: seq<MetricKey>, globalGauges: seq<MetricKey>,
    localHistograms: seq<MetricKey>, localSets: seq<MetricKey>, localTimers: seq<MetricKey>,
    localStatusChecks: seq<MetricKey>)

  ghost predicate OrdersOf(o: Orders, wm: WorkerMetrics) {
    && Visits(o.counters, wm.counters) && Visits(o.gauges, wm.gauges) && Visits(o.histograms, wm.histograms)
    && Visits(o.sets, wm.sets) && Visits(o.timers, wm.timers) && Visits(o.globalCounters, wm.globalCounters)
    && Visits(o.globalGauges, wm.globalGauges) && Visits(o.localHistograms, wm.localHistograms)
    && Visits(o.localSets, wm.localSets) && Visits(o.localTimers, wm.localTimers)
    && Visits(o.localStatusChecks, wm.localStatusChecks)
  }

  // ---- Points of one sampler

  function CounterPoints(global: bool): (MetricKey, Counter) -> seq<Point> {
    (k, c: Counter) => [CounterPoint(k, c.value, global)]
  }

  function GaugePoints(): (MetricKey, Gauge) -> seq<Point> {
    (k, g: Gauge) => [GaugePoint(k, g.value)]
  }

  function SetPoints(scoped: bool): (MetricKey, MemberSet) -> seq<Point> {
    (k, s: MemberSet) => [SetPoint(k, s.members, s.seen, scoped)]
  }

  function StatusPoints(): (MetricKey, StatusCheck) -> seq<Point> {
    (k, s: StatusCheck) => [StatusPoint(k, s)]
  }

  function When(condition: bool, p: Point): seq<Point> {
    if condition then [p] else []
  }

  function PercentilePoints(k: MetricKey, h: Histo, percentiles: seq<real>, scoped: bool): seq<Point>
    decreases |percentiles|
  {
    if percentiles == [] then []
    else
      var p := percentiles[0];
      [PercentilePoint(k, p, Read(h.digest, p), h.samples, scoped)] + PercentilePoints(k, h, percentiles[1..], scoped)
  }

  function AverageOf(h: Histo): real {
    if h.localWeight != 0.0 then h.localSum / h.localWeight else 0.0
  }

  /** Weight over reciprocal sum; zero when that sum is infinite. */
  function HarmonicOf(h: Histo): real {
    if h.localReciprocalSum.Some? && h.localReciprocalSum.value != 0.0
    then h.localWeight / h.localReciprocalSum.value else 0.0
  }

  function AggregatePoints(k: MetricKey, h: Histo, aggregates: set<Aggregate>): seq<Point> {
    When(Max in aggregates && h.localMax.Some?, MaxPoint(k, if h.localMax.Some? then h.localMax.value else 0.0))
    + When(Min in aggregates && h.localMin.Some?, MinPoint(k, if h.localMin.Some? then h.localMin.value else 0.0))
    + When(Total in aggregates && h.localSum != 0.0, SumPoint(k, h.localSum))
    + When(Average in aggregates && h.localSum != 0.0 && h.localWeight != 0.0,
           AveragePoint(k, AverageOf(h)))
    + When(Count in aggregates && h.localWeight != 0.0, CountPoint(k, h.localWeight))
    + When(Median in aggregates, MedianPoint(k, Read(h.digest, 0.5), h.samples))
    + When(HarmonicMean in aggregates && h.localReciprocalSum != Some(0.0) && h.localWeight != 0.0,
           HarmonicPoint(k, HarmonicOf(h)))
  }

  function HistoPoints(percentiles: seq<real>, aggregates: set<Aggregate>, scoped: bool):
    (MetricKey, Histo) -> seq<Point>
  {
    (k, h: Histo) => AggregatePoints(k, h, aggregates) + PercentilePoints(k, h, percentiles, scoped)
  }

  // ---- A whole flush

  /** Percentiles of mixed digests are the global instance's business. */
  function MixedPercentiles(cfg: Config): seq<real> {
    if cfg.isLocal then [] else cfg.percentiles
  }

  ghost function Published(wm: WorkerMetrics, cfg: Config, o: Orders): seq<Point>
    requires OrdersOf(o, wm)
  {
    var mixed := HistoPoints(MixedPercentiles(cfg), cfg.aggregates, false);
    var scoped := HistoPoints(cfg.percentiles, cfg.aggregates, true);
    Walk(wm.counters, o.counters, CounterPoints(false))
    + (Walk(wm.gauges, o.gauges, GaugePoints())
    + (Walk(wm.histograms, o.histograms, mixed)
    + (Walk(wm.timers, o.timers, mixed)
    + (Walk(wm.localHistograms, o.localHistograms, scoped)
    + (Walk(wm.localSets, o.localSets, SetPoints(true))
    + (Walk(wm.localTimers, o.localTimers, scoped)
    + (Walk(wm.localStatusChecks, o.localStatusChecks, StatusPoints())
    + GlobalPoints(wm, cfg, o))))))))
  }

  /** Sets, global counters and global gauges are published where nothing is forwarded. */
  ghost function GlobalPoints(wm: WorkerMetrics, cfg: Config, o: Orders): seq<Point>
    requires OrdersOf(o, wm)
  {
    if cfg.isLocal then []
    else
      Walk(wm.sets, o.sets, SetPoints(false))
      + (Walk(wm.globalCounters, o.globalCounters, CounterPoints(true))
      + Walk(wm.globalGauges, o.globalGauges, GaugePoints()))
  }

  function Exporting<S>(encode: S -> JSONMetric): (MetricKey, S) -> seq<JSONMetric> {
    (k, s) => [encode(s)]
  }

  ghost function Forwarded(wm: WorkerMetrics, o: Orders): seq<JSONMetric>
    requires OrdersOf(o, wm)
  {
    Walk(wm.globalCounters, o.globalCounters, Exporting(ExportCounter))
    + (Walk(wm.globalGauges, o.globalGauges, Exporting(ExportGauge))
    + (Walk(wm.histograms, o.histograms, Exporting(ExportHisto))
    + (Walk(wm.sets, o.sets, Exporting(ExportSet))
    + Walk(wm.timers, o.timers, Exporting(ExportTimer)))))
  }

  /** generateInterMetrics for one worker: the list grows map by map. */
  method GenerateInterMetrics(wm: WorkerMetrics, cfg: Config, o: Orders) returns (all: seq<Point>)
    requires OrdersOf(o, wm)
    ensures all == Published(wm, cfg, o)
  {
    hide Walk, HistoPoints, CounterPoints, GaugePoints, SetPoints, StatusPoints, MixedPercentiles, Visits;
    var mixed := HistoPoints(MixedPercentiles(cfg), cfg.aggregates, false);
    var scoped := HistoPoints(cfg.percentiles, cfg.aggregates, true);
    ghost var whole := Published(wm, cfg, o);
    OrdersInside(o, wm);
    ghost var t9 := GlobalPoints(wm, cfg, o);
    ghost var t8 := Walk(wm.localStatusChecks, o.localStatusChecks, StatusPoints()) + t9;
    ghost var t7 := Walk(wm.localTimers, o.localTimers, scoped) + t8;
    ghost var t6 := Walk(wm.localSets, o.localSets, SetPoints(true)) + t7;
    ghost var t5 := Walk(wm.localHistograms, o.localHistograms, scoped) + t6;
    ghost var t4 := Walk(wm.timers, o.timers, mixed) + t5;
    ghost var t3 := Walk(wm.histograms, o.histograms, mixed) + t4;
    all := AppendWalk(wm.counters, o.counters, CounterPoints(false), []);
    Advance(all, Walk(wm.gauges, o.gauges, GaugePoints()), t3, whole);
    all := AppendWalk(wm.gauges, o.gauges, GaugePoints(), all);
    Advance(all, Walk(wm.histograms, o.histograms, mixed), t4, whole);
    all := AppendWalk(wm.histograms, o.histograms, mixed, all);
    Advance(all, Walk(wm.timers, o.timers, mixed), t5, whole);
    all := AppendWalk(wm.timers, o.timers, mixed, all);
    Advance(all, Walk(wm.localHistograms, o.localHistograms, scoped), t6, whole);
    all := AppendWalk(wm.localHistograms, o.localHistograms, scoped, all);
    Advance(all, Walk(wm.localSets, o.localSets, SetPoints(true)), t7, whole);
    all := AppendWalk(wm.localSets, o.localSets, SetPoints(true), all);
    Advance(all, Walk(wm.localTimers, o.localTimers, scoped), t8, whole);
    all := AppendWalk(wm.localTimers, o.localTimers, scoped, all);
    Advance(all, Walk(wm.localStatusChecks, o.localStatusChecks, StatusPoints()), t9, whole);
    all := AppendWalk(wm.localStatusChecks, o.localStatusChecks, StatusPoints(), all);
    if !cfg.isLocal {
      ghost var before := all;
      all := AppendWalk(wm.sets, o.sets, SetPoints(false), all);
      all := AppendWalk(wm.globalCounters, o.globalCounters, CounterPoints(true), all);
      all := AppendWalk(wm.globalGauges, o.globalGauges, GaugePoints(), all);
      assert all == before + t9;
    } else {
      assert all + t9 == all;
    }
  }

  lemma OrdersInside(o: Orders, wm: WorkerMetrics)
    requires OrdersOf(o, wm)
    ensures forall i :: 0 <= i < |o.counters| ==> o.counters[i] in wm.counters
    ensures forall i :: 0 <= i < |o.gauges| ==> o.gauges[i] in wm.gauges
    ensures forall i :: 0 <= i < |o.histograms| ==> o.histograms[i] in wm.histograms
    ensures forall i :: 0 <= i < |o.sets| ==> o.sets[i] in wm.sets
    ensures forall i :: 0 <= i < |o.timers| ==> o.timers[i] in wm.timers
    ensures forall i :: 0 <= i < |o.globalCounters| ==> o.globalCounters[i] in wm.globalCounters
    ensures forall i :: 0 <= i < |o.globalGauges| ==> o.globalGauges[i] in wm.globalGauges
    ensures forall i :: 0 <= i < |o.localHistograms| ==> o.localHistograms[i] in wm.localHistograms
    ensures forall i :: 0 <= i < |o.localSets| ==> o.localSets[i] in wm.localSets
    ensures forall i :: 0 <= i < |o.localTimers| ==> o.localTimers[i] in wm.localTimers
    ensures forall i :: 0 <= i < |o.localStatusChecks| ==> o.localStatusChecks[i] in wm.localStatusChecks
  {
  }

  /** flushForward for one worker. */
  method ExportForwarded(wm: WorkerMetrics, o: Orders) returns (all: seq<JSONMetric>)
    requires OrdersOf(o, wm)
    ensures all == Forwarded(wm, o)
  {
    hide Walk;
    all := AppendWalk(wm.globalCounters, o.globalCounters, Exporting(ExportCounter), []);
    all := AppendWalk(wm.globalGauges, o.globalGauges, Exporting(ExportGauge), all);
    all := AppendWalk(wm.histograms, o.histograms, Exporting(ExportHisto), all);
    all := AppendWalk(wm.sets, o.sets, Exporting(ExportSet), all);
    all := AppendWalk(wm.timers, o.timers, Exporting(ExportTimer), all);
  }
}
