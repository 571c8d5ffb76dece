/** What the aggregates that an instance publishes say of the samples it took. */
module Reports {
  import opened Options
  import opened Digests
  import opened Samplers
  import opened Sums
  import opened Worker
  import opened Flusher
  import opened FlushLaws
  import opened Quantities
  import opened HistoQuantities

  function Weighing(xs: seq<Observation>): real { Sum(ObservedWeight(), xs) }

  function Adding(xs: seq<Observation>): real { Sum(ObservedMoment(), xs) }

  function Inverting(xs: seq<Observation>): real { Sum(ObservedReciprocal(), xs) }

  /** The factor by which a total makes another; a report of means is one, whatever the order of the samples. */
  predicate Makes(level: real, total: real, other: real) {
    level * total == other
  }

  /** The aggregates there are of a histogram's own samples, and of its digest in the case of the median. */
  predicate Reports(h: Histo, aggregates: set<Aggregate>, p: Point) {
    match p
    case MaxPoint(_, level) => Max in aggregates && h.own != [] && IsExtreme(Some(level), h.own, -1.0)
    case MinPoint(_, level) => Min in aggregates && h.own != [] && IsExtreme(Some(level), h.own, 1.0)
    case SumPoint(_, level) => Total in aggregates && level == Adding(h.own) != 0.0
    case CountPoint(_, weight) => Count in aggregates && weight == Weighing(h.own) != 0.0
    case AveragePoint(_, level) =>
      && Average in aggregates && Adding(h.own) != 0.0 && Weighing(h.own) != 0.0
      && Makes(level, Weighing(h.own), Adding(h.own))
    case HarmonicPoint(_, level) =>
      && HarmonicMean in aggregates && Weighing(h.own) != 0.0
      && if HasZero(h.own) then level == 0.0
         else Inverting(h.own) != 0.0 && Makes(level, Inverting(h.own), Weighing(h.own))
    case MedianPoint(_, answer, samples) =>
      Median in aggregates && answer == Read(h.digest, 0.5) && samples == h.samples
    case _ => false
  }

  lemma QuotientMakes(level: real, total: real, other: real)
    requires total != 0.0
    ensures level == other / total <==> Makes(level, total, other)
  {
  }

  lemma ExtremeOnce(x: Option<real>, level: real, xs: seq<Observation>, sign: real)
    requires (sign == 1.0 || sign == -1.0) && IsExtreme(x, xs, sign) && xs != []
    ensures x.Some? && (level == x.value <==> IsExtreme(Some(level), xs, sign))
  {
  }

  /** A histogram publishes exactly these points: which ones there are, and what they say. */
  lemma {:induction false} AggregatesReport(k: MetricKey, h: Histo, aggregates: set<Aggregate>, p: Point)
    requires Tallied(h)
    ensures p in AggregatePoints(k, h, aggregates) <==> p.key == k && Reports(h, aggregates, p)
  {
    hide AggregatePoints, AverageOf, HarmonicOf, Read, IsExtreme, HasZero, Sum, Makes;
    PointsIssued(k, h, aggregates, p);
    LevelsReport(h, p);
  }

  lemma LevelsReport(h: Histo, p: Point)
    requires Tallied(h)
    ensures p.MaxPoint? ==>
              (h.localMax == Some(p.level) <==> h.own != [] && IsExtreme(Some(p.level), h.own, -1.0))
    ensures p.MinPoint? ==>
              (h.localMin == Some(p.level) <==> h.own != [] && IsExtreme(Some(p.level), h.own, 1.0))
    ensures p.AveragePoint? && h.localWeight != 0.0 ==>
              (p.level == AverageOf(h) <==> Makes(p.level, Weighing(h.own), Adding(h.own)))
    ensures p.HarmonicPoint? && h.localReciprocalSum != Some(0.0) ==>
              (p.level == HarmonicOf(h) <==> if HasZero(h.own) then p.level == 0.0
                                             else Makes(p.level, Inverting(h.own), Weighing(h.own)))
  {
    hide Sum, HasZero, Makes, Reports, IsExtreme;
    if h.own == [] {
      NoLevel(h);
    } else if p.MaxPoint? {
      ExtremeOnce(h.localMax, p.level, h.own, -1.0);
    } else if p.MinPoint? {
      ExtremeOnce(h.localMin, p.level, h.own, 1.0);
    }
    if p.AveragePoint? && h.localWeight != 0.0 {
      QuotientMakes(p.level, h.localWeight, h.localSum);
    }
    if p.HarmonicPoint? && h.localReciprocalSum.Some? && h.localReciprocalSum != Some(0.0) {
      QuotientMakes(p.level, h.localReciprocalSum.value, h.localWeight);
    }
  }

  lemma NoLevel(h: Histo)
    requires Tallied(h) && h.own == []
    ensures h.localMin == None && h.localMax == None
  {
    hide Sum, HasZero;
  }

  // ---- Over runs

  /** A point that reports on the histogram under its key. */
  predicate Reported(m: map<MetricKey, Histo>, aggregates: set<Aggregate>, p: Point) {
    p.key in m && Reports(m[p.key], aggregates, p)
  }

  lemma WalkReported(m: map<MetricKey, Histo>, kind: Kind, order: seq<MetricKey>, ps: seq<real>,
                     aggregates: set<Aggregate>, scoped: bool, p: Point)
    requires HistosNamed(m, kind) && Visits(order, m) && p in Walk(m, order, HistoPoints(ps, aggregates, scoped))
    ensures p.PercentilePoint? || Reported(m, aggregates, p)
  {
    hide Walk, HistoPoints, Accounted, Tallied, Reports, AggregatePoints, PercentilePoints;
    WalkMember(m, order, HistoPoints(ps, aggregates, scoped), p);
    var k :| k in m && p in HistoPoints(ps, aggregates, scoped)(k, m[k]);
    HistoPieces(ps, aggregates, scoped, k, m[k]);
    if p in PercentilePoints(k, m[k], ps, scoped) {
      PercentilePointIn(k, m[k], ps, scoped, p);
    } else {
      AggregatesReport(k, m[k], aggregates, p);
    }
  }

  lemma NoReport<V>(m: map<MetricKey, V>, order: seq<MetricKey>, f: (MetricKey, V) -> seq<Point>, p: Point)
    requires Visits(order, m) && p in Walk(m, order, f)
    requires forall k, r :: k in m && r in f(k, m[k]) ==> !IsHistoPoint(r)
    ensures !IsHistoPoint(p)
  {
    hide Walk;
    WalkMember(m, order, f, p);
  }

  lemma GlobalNoReport(wm: WorkerMetrics, cfg: Config, o: Orders, p: Point)
    requires OrdersOf(o, wm) && p in GlobalPoints(wm, cfg, o)
    ensures !IsHistoPoint(p)
  {
    hide Walk, Visits;
    OrdersInside(o, wm);
    if p in Walk(wm.sets, o.sets, SetPoints(false)) {
      NoReport(wm.sets, o.sets, SetPoints(false), p);
    } else if p in Walk(wm.globalCounters, o.globalCounters, CounterPoints(true)) {
      NoReport(wm.globalCounters, o.globalCounters, CounterPoints(true), p);
    } else {
      NoReport(wm.globalGauges, o.globalGauges, GaugePoints(), p);
    }
  }

  /** Every aggregate that a flush publishes reports on a histogram or timer it held. */
  lemma {:induction false} FlushReports(wm: WorkerMetrics, cfg: Config, o: Orders, p: Point)
    requires Kept(wm) && OrdersOf(o, wm) && p in Published(wm, cfg, o) && IsHistoPoint(p) && !p.PercentilePoint?
    ensures || Reported(wm.histograms, cfg.aggregates, p) || Reported(wm.timers, cfg.aggregates, p)
            || Reported(wm.localHistograms, cfg.aggregates, p) || Reported(wm.localTimers, cfg.aggregates, p)
  {
    hide Walk, HistoPoints, Visits, Reported, MixedPercentiles, GlobalPoints, HistosNamed, SetsNamed, CountersNamed,
         GaugesNamed;
    OrdersInside(o, wm);
    var mixed := MixedPercentiles(cfg);
    if p in Walk(wm.histograms, o.histograms, HistoPoints(mixed, cfg.aggregates, false)) {
      WalkReported(wm.histograms, Histograms, o.histograms, mixed, cfg.aggregates, false, p);
    } else if p in Walk(wm.timers, o.timers, HistoPoints(mixed, cfg.aggregates, false)) {
      WalkReported(wm.timers, Timers, o.timers, mixed, cfg.aggregates, false, p);
    } else if p in Walk(wm.localHistograms, o.localHistograms, HistoPoints(cfg.percentiles, cfg.aggregates, true)) {
      WalkReported(wm.localHistograms, Histograms, o.localHistograms, cfg.percentiles, cfg.aggregates, true, p);
    } else if p in Walk(wm.localTimers, o.localTimers, HistoPoints(cfg.percentiles, cfg.aggregates, true)) {
      WalkReported(wm.localTimers, Timers, o.localTimers, cfg.percentiles, cfg.aggregates, true, p);
    } else if p in Walk(wm.counters, o.counters, CounterPoints(false)) {
      NoReport(wm.counters, o.counters, CounterPoints(false), p);
    } else if p in Walk(wm.gauges, o.gauges, GaugePoints()) {
      NoReport(wm.gauges, o.gauges, GaugePoints(), p);
    } else if p in Walk(wm.localSets, o.localSets, SetPoints(true)) {
      NoReport(wm.localSets, o.localSets, SetPoints(true), p);
    } else if p in Walk(wm.localStatusChecks, o.localStatusChecks, StatusPoints()) {
      NoReport(wm.localStatusChecks, o.localStatusChecks, StatusPoints(), p);
    } else {
      GlobalNoReport(wm, cfg, o, p);
    }
  }
}
