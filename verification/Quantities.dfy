/** What a measure sees of a flush, and the counters that a network conserves. */
module Quantities {
  import opened Digests
  import opened Options
  import opened Text
  import opened Integers
  import opened Samplers
  import opened Worker
  import opened Sums
  import opened Flusher
  import opened FlushLaws
  import opened Network
  import opened Ledger

  // ---- Totals of a flush, walk by walk

  lemma PublishedSum(g: Point -> real, wm: WorkerMetrics, cfg: Config, o: Orders)
    requires OrdersOf(o, wm)
    ensures var mixed := HistoPoints(MixedPercentiles(cfg), cfg.aggregates, false);
            var scoped := HistoPoints(cfg.percentiles, cfg.aggregates, true);
            && Sum(g, Published(wm, cfg, o))
            == Sum(g, Walk(wm.counters, o.counters, CounterPoints(false)))
            + Sum(g, Walk(wm.gauges, o.gauges, GaugePoints()))
            + Sum(g, Walk(wm.histograms, o.histograms, mixed))
            + Sum(g, Walk(wm.timers, o.timers, mixed))
            + Sum(g, Walk(wm.localHistograms, o.localHistograms, scoped))
            + Sum(g, Walk(wm.localSets, o.localSets, SetPoints(true)))
            + Sum(g, Walk(wm.localTimers, o.localTimers, scoped))
            + Sum(g, Walk(wm.localStatusChecks, o.localStatusChecks, StatusPoints()))
            + Sum(g, GlobalPoints(wm, cfg, o))
  {
    hide Walk, HistoPoints, CounterPoints, GaugePoints, SetPoints, StatusPoints, MixedPercentiles, Sum, GlobalPoints;
    var mixed := HistoPoints(MixedPercentiles(cfg), cfg.aggregates, false);
    var scoped := HistoPoints(cfg.percentiles, cfg.aggregates, true);
    var t8 := GlobalPoints(wm, cfg, o);
    SumConcat(g, Walk(wm.localStatusChecks, o.localStatusChecks, StatusPoints()), t8);
    var t7 := Walk(wm.localStatusChecks, o.localStatusChecks, StatusPoints()) + t8;
    SumConcat(g, Walk(wm.localTimers, o.localTimers, scoped), t7);
    var t6 := Walk(wm.localTimers, o.localTimers, scoped) + t7;
    SumConcat(g, Walk(wm.localSets, o.localSets, SetPoints(true)), t6);
    var t5 := Walk(wm.localSets, o.localSets, SetPoints(true)) + t6;
    SumConcat(g, Walk(wm.localHistograms, o.localHistograms, scoped), t5);
    var t4 := Walk(wm.localHistograms, o.localHistograms, scoped) + t5;
    SumConcat(g, Walk(wm.timers, o.timers, mixed), t4);
    var t3 := Walk(wm.timers, o.timers, mixed) + t4;
    SumConcat(g, Walk(wm.histograms, o.histograms, mixed), t3);
    var t2 := Walk(wm.histograms, o.histograms, mixed) + t3;
    SumConcat(g, Walk(wm.gauges, o.gauges, GaugePoints()), t2);
    SumConcat(g, Walk(wm.counters, o.counters, CounterPoints(false)), Walk(wm.gauges, o.gauges, GaugePoints()) + t2);
  }

  lemma GlobalSum(g: Point -> real, wm: WorkerMetrics, cfg: Config, o: Orders)
    requires OrdersOf(o, wm)
    ensures Sum(g, GlobalPoints(wm, cfg, o)) == if cfg.isLocal then 0.0 else
              Sum(g, Walk(wm.sets, o.sets, SetPoints(false)))
              + Sum(g, Walk(wm.globalCounters, o.globalCounters, CounterPoints(true)))
              + Sum(g, Walk(wm.globalGauges, o.globalGauges, GaugePoints()))
  {
    hide Walk, CounterPoints, GaugePoints, SetPoints;
    if !cfg.isLocal {
      var t2 := Walk(wm.globalGauges, o.globalGauges, GaugePoints());
      SumConcat(g, Walk(wm.globalCounters, o.globalCounters, CounterPoints(true)), t2);
      SumConcat(g, Walk(wm.sets, o.sets, SetPoints(false)),
                Walk(wm.globalCounters, o.globalCounters, CounterPoints(true)) + t2);
    }
  }

  lemma ForwardedSum(g: JSONMetric -> real, wm: WorkerMetrics, o: Orders)
    requires OrdersOf(o, wm)
    ensures Sum(g, Forwarded(wm, o))
         == Sum(g, Walk(wm.globalCounters, o.globalCounters, Exporting(ExportCounter)))
            + Sum(g, Walk(wm.globalGauges, o.globalGauges, Exporting(ExportGauge)))
            + Sum(g, Walk(wm.histograms, o.histograms, Exporting(ExportHisto)))
            + Sum(g, Walk(wm.sets, o.sets, Exporting(ExportSet)))
            + Sum(g, Walk(wm.timers, o.timers, Exporting(ExportTimer)))
  {
    hide Walk, Exporting, Sum;
    var t4 := Walk(wm.timers, o.timers, Exporting(ExportTimer));
    SumConcat(g, Walk(wm.sets, o.sets, Exporting(ExportSet)), t4);
    var t3 := Walk(wm.sets, o.sets, Exporting(ExportSet)) + t4;
    SumConcat(g, Walk(wm.histograms, o.histograms, Exporting(ExportHisto)), t3);
    var t2 := Walk(wm.histograms, o.histograms, Exporting(ExportHisto)) + t3;
    SumConcat(g, Walk(wm.globalGauges, o.globalGauges, Exporting(ExportGauge)), t2);
    var t1 := Walk(wm.globalGauges, o.globalGauges, Exporting(ExportGauge)) + t2;
    SumConcat(g, Walk(wm.globalCounters, o.globalCounters, Exporting(ExportCounter)), t1);
  }

  /** A walk whose pieces a measure does not see. */
  lemma Unseen<V, R>(m: map<MetricKey, V>, order: seq<MetricKey>, f: (MetricKey, V) -> seq<R>, g: R -> real)
    requires Visits(order, m)
    requires forall k, r :: k in m && r in f(k, m[k]) ==> g(r) == 0.0
    ensures Sum(g, Walk(m, order, f)) == 0.0
  {
    hide Walk, Sum;
    var walk := Walk(m, order, f);
    forall i | 0 <= i < |walk|
      ensures g(walk[i]) == 0.0
    {
      WalkMember(m, order, f, walk[i]);
    }
    SumZero(g, walk);
  }

  /** A walk in which a measure sees one key only. */
  lemma Seen<V, R>(m: map<MetricKey, V>, order: seq<MetricKey>, f: (MetricKey, V) -> seq<R>, g: R -> real, k: MetricKey)
    requires Visits(order, m)
    requires forall x, r :: x in m && x != k && r in f(x, m[x]) ==> g(r) == 0.0
    ensures Sum(g, Walk(m, order, f)) == if k in m then Sum(g, f(k, m[k])) else 0.0
  {
    hide Walk, Sum;
    forall x | x in m && x != k
      ensures Sum(g, f(x, m[x])) == 0.0
    {
      SumZero(g, f(x, m[x]));
    }
    WalkSum(m, order, f, g, k);
  }

  lemma ExportsUnseen<S>(m: map<MetricKey, S>, order: seq<MetricKey>, encode: S -> JSONMetric, g: JSONMetric -> real)
    requires Visits(order, m) && forall k :: k in m ==> g(encode(m[k])) == 0.0
    ensures Sum(g, Walk(m, order, Exporting(encode))) == 0.0
  {
    hide Walk, Sum, Visits;
    Unseen(m, order, Exporting(encode), g);
  }

  lemma ExportsSeen<S>(m: map<MetricKey, S>, order: seq<MetricKey>, encode: S -> JSONMetric, g: JSONMetric -> real,
      k: MetricKey)
    requires Visits(order, m) && forall x :: x in m && x != k ==> g(encode(m[x])) == 0.0
    ensures Sum(g, Walk(m, order, Exporting(encode))) == if k in m then g(encode(m[k])) else 0.0
  {
    hide Walk, Sum, Visits;
    Seen(m, order, Exporting(encode), g, k);
    if k in m {
      SumOne(g, encode(m[k]));
    }
  }

  predicate IsHistoPoint(p: Point) {
    || p.MaxPoint? || p.MinPoint? || p.SumPoint? || p.AveragePoint? || p.CountPoint? || p.MedianPoint?
    || p.HarmonicPoint? || p.PercentilePoint?
  }

  lemma {:induction false} PercentilePointIn(k: MetricKey, h: Histo, ps: seq<real>, scoped: bool, p: Point)
    requires p in PercentilePoints(k, h, ps, scoped)
    ensures p.PercentilePoint? && p.key == k && p.scoped == scoped
    ensures p.answer == Read(h.digest, p.percentile) && p.samples == h.samples
    decreases |ps|
  {
    hide Read;
    if p != PercentilePoint(k, ps[0], Read(h.digest, ps[0]), h.samples, scoped) {
      PercentilePointIn(k, h, ps[1..], scoped, p);
    }
  }

  function Seven(a: seq<Point>, b: seq<Point>, c: seq<Point>, d: seq<Point>, e: seq<Point>, f: seq<Point>,
                 g: seq<Point>): seq<Point>
  {
    a + b + c + d + e + f + g
  }

  lemma InSeven(p: Point, a: seq<Point>, b: seq<Point>, c: seq<Point>, d: seq<Point>, e: seq<Point>, f: seq<Point>,
                g: seq<Point>)
    ensures p in Seven(a, b, c, d, e, f, g)
            <==> p in a || p in b || p in c || p in d || p in e || p in f || p in g
  {
  }

  lemma InWhen(condition: bool, q: Point, p: Point)
    ensures p in When(condition, q) <==> condition && p == q
  {
  }

  /** A point as the histogram's fields make it. */
  predicate Issued(k: MetricKey, h: Histo, aggregates: set<Aggregate>, p: Point) {
    || (Max in aggregates && h.localMax.Some? && p == MaxPoint(k, h.localMax.value))
    || (Min in aggregates && h.localMin.Some? && p == MinPoint(k, h.localMin.value))
    || (Total in aggregates && h.localSum != 0.0 && p == SumPoint(k, h.localSum))
    || (Average in aggregates && h.localSum != 0.0 && h.localWeight != 0.0 && p == AveragePoint(k, AverageOf(h)))
    || (Count in aggregates && h.localWeight != 0.0 && p == CountPoint(k, h.localWeight))
    || (Median in aggregates && p == MedianPoint(k, Read(h.digest, 0.5), h.samples))
    || (HarmonicMean in aggregates && h.localReciprocalSum != Some(0.0) && h.localWeight != 0.0
        && p == HarmonicPoint(k, HarmonicOf(h)))
  }

  lemma AggregatesAreSeven(k: MetricKey, h: Histo, aggregates: set<Aggregate>)
    ensures AggregatePoints(k, h, aggregates)
         == Seven(When(Max in aggregates && h.localMax.Some?,
                       MaxPoint(k, if h.localMax.Some? then h.localMax.value else 0.0)),
                  When(Min in aggregates && h.localMin.Some?,
                       MinPoint(k, if h.localMin.Some? then h.localMin.value else 0.0)),
                  When(Total in aggregates && h.localSum != 0.0, SumPoint(k, h.localSum)),
                  When(Average in aggregates && h.localSum != 0.0 && h.localWeight != 0.0,
                       AveragePoint(k, AverageOf(h))),
                  When(Count in aggregates && h.localWeight != 0.0, CountPoint(k, h.localWeight)),
                  When(Median in aggregates, MedianPoint(k, Read(h.digest, 0.5), h.samples)),
                  When(HarmonicMean in aggregates && h.localReciprocalSum != Some(0.0) && h.localWeight != 0.0,
                       HarmonicPoint(k, HarmonicOf(h))))
  {
    hide When, AverageOf, HarmonicOf, Read;
  }

  lemma InSevenWhen(p: Point, c1: bool, q1: Point, c2: bool, q2: Point, c3: bool, q3: Point, c4: bool, q4: Point,
                    c5: bool, q5: Point, c6: bool, q6: Point, c7: bool, q7: Point)
    ensures p in Seven(When(c1, q1), When(c2, q2), When(c3, q3), When(c4, q4), When(c5, q5), When(c6, q6), When(c7, q7))
            <==> || (c1 && p == q1) || (c2 && p == q2) || (c3 && p == q3) || (c4 && p == q4) || (c5 && p == q5)
                 || (c6 && p == q6) || (c7 && p == q7)
  {
    hide When, Seven;
    InSeven(p, When(c1, q1), When(c2, q2), When(c3, q3), When(c4, q4), When(c5, q5), When(c6, q6), When(c7, q7));
    InWhen(c1, q1, p);
    InWhen(c2, q2, p);
    InWhen(c3, q3, p);
    InWhen(c4, q4, p);
    InWhen(c5, q5, p);
    InWhen(c6, q6, p);
    InWhen(c7, q7, p);
  }

  lemma PointsIssued(k: MetricKey, h: Histo, aggregates: set<Aggregate>, p: Point)
    ensures p in AggregatePoints(k, h, aggregates) <==> Issued(k, h, aggregates, p)
  {
    hide When, AverageOf, HarmonicOf, Read, AggregatePoints, Seven;
    AggregatesAreSeven(k, h, aggregates);
    InSevenWhen(p,
      Max in aggregates && h.localMax.Some?, MaxPoint(k, if h.localMax.Some? then h.localMax.value else 0.0),
      Min in aggregates && h.localMin.Some?, MinPoint(k, if h.localMin.Some? then h.localMin.value else 0.0),
      Total in aggregates && h.localSum != 0.0, SumPoint(k, h.localSum),
      Average in aggregates && h.localSum != 0.0 && h.localWeight != 0.0, AveragePoint(k, AverageOf(h)),
      Count in aggregates && h.localWeight != 0.0, CountPoint(k, h.localWeight),
      Median in aggregates, MedianPoint(k, Read(h.digest, 0.5), h.samples),
      HarmonicMean in aggregates && h.localReciprocalSum != Some(0.0) && h.localWeight != 0.0,
      HarmonicPoint(k, HarmonicOf(h)));
  }

  lemma AggregatePointIn(k: MetricKey, h: Histo, aggregates: set<Aggregate>, p: Point)
    requires p in AggregatePoints(k, h, aggregates)
    ensures IsHistoPoint(p) && p.key == k && !p.PercentilePoint?
    ensures p.MedianPoint? ==> p == MedianPoint(k, Read(h.digest, 0.5), h.samples)
  {
    hide AverageOf, HarmonicOf, Read, AggregatePoints;
    PointsIssued(k, h, aggregates, p);
  }

  lemma HistoPointIn(ps: seq<real>, aggregates: set<Aggregate>, scoped: bool, k: MetricKey, h: Histo, p: Point)
    requires p in HistoPoints(ps, aggregates, scoped)(k, h)
    ensures IsHistoPoint(p) && p.key == k
  {
    hide PercentilePoints, AggregatePoints;
    if p in PercentilePoints(k, h, ps, scoped) {
      PercentilePointIn(k, h, ps, scoped, p);
    } else {
      AggregatePointIn(k, h, aggregates, p);
    }
  }

  /** Counter points come from the two counter maps, the global ones only where nothing is forwarded. */
  lemma CountersShown(g: Point -> real, wm: WorkerMetrics, cfg: Config, o: Orders)
    requires OrdersOf(o, wm) && forall p: Point :: !p.CounterPoint? ==> g(p) == 0.0
    ensures Sum(g, Published(wm, cfg, o))
         == Sum(g, Walk(wm.counters, o.counters, CounterPoints(false)))
            + if cfg.isLocal then 0.0 else Sum(g, Walk(wm.globalCounters, o.globalCounters, CounterPoints(true)))
  {
    hide Walk, Visits, Sum, HistoPoints, MixedPercentiles, CounterPoints, Published, GlobalPoints;
    OrdersInside(o, wm);
    PublishedSum(g, wm, cfg, o);
    GlobalSum(g, wm, cfg, o);
    HistosUnseen(wm.histograms, o.histograms, MixedPercentiles(cfg), cfg.aggregates, false, g);
    HistosUnseen(wm.timers, o.timers, MixedPercentiles(cfg), cfg.aggregates, false, g);
    HistosUnseen(wm.localHistograms, o.localHistograms, cfg.percentiles, cfg.aggregates, true, g);
    HistosUnseen(wm.localTimers, o.localTimers, cfg.percentiles, cfg.aggregates, true, g);
    OthersUnseen(g, wm, o);
  }

  lemma HistosUnseen(m: map<MetricKey, Histo>, order: seq<MetricKey>, ps: seq<real>, aggregates: set<Aggregate>,
                     scoped: bool, g: Point -> real)
    requires Visits(order, m) && forall p: Point :: IsHistoPoint(p) ==> g(p) == 0.0
    ensures Sum(g, Walk(m, order, HistoPoints(ps, aggregates, scoped))) == 0.0
  {
    hide Walk, Sum, HistoPoints;
    forall k, p | k in m && p in HistoPoints(ps, aggregates, scoped)(k, m[k])
      ensures g(p) == 0.0
    {
      HistoPointIn(ps, aggregates, scoped, k, m[k], p);
    }
    Unseen(m, order, HistoPoints(ps, aggregates, scoped), g);
  }

  lemma OthersUnseen(g: Point -> real, wm: WorkerMetrics, o: Orders)
    requires OrdersOf(o, wm)
    requires forall p: Point :: p.GaugePoint? || p.SetPoint? || p.StatusPoint? ==> g(p) == 0.0
    ensures Sum(g, Walk(wm.gauges, o.gauges, GaugePoints())) == 0.0
    ensures Sum(g, Walk(wm.globalGauges, o.globalGauges, GaugePoints())) == 0.0
    ensures Sum(g, Walk(wm.localSets, o.localSets, SetPoints(true))) == 0.0
    ensures Sum(g, Walk(wm.sets, o.sets, SetPoints(false))) == 0.0
    ensures Sum(g, Walk(wm.localStatusChecks, o.localStatusChecks, StatusPoints())) == 0.0
  {
    hide Walk, Sum;
    Unseen(wm.gauges, o.gauges, GaugePoints(), g);
    Unseen(wm.globalGauges, o.globalGauges, GaugePoints(), g);
    Unseen(wm.localSets, o.localSets, SetPoints(true), g);
    Unseen(wm.sets, o.sets, SetPoints(false), g);
    Unseen(wm.localStatusChecks, o.localStatusChecks, StatusPoints(), g);
  }

  /** Histogram points come from the four histogram maps. */
  lemma HistosShown(g: Point -> real, wm: WorkerMetrics, cfg: Config, o: Orders)
    requires OrdersOf(o, wm) && forall p: Point :: !IsHistoPoint(p) ==> g(p) == 0.0
    ensures var mixed := HistoPoints(MixedPercentiles(cfg), cfg.aggregates, false);
            var scoped := HistoPoints(cfg.percentiles, cfg.aggregates, true);
            && Sum(g, Published(wm, cfg, o))
            == Sum(g, Walk(wm.histograms, o.histograms, mixed))
            + Sum(g, Walk(wm.timers, o.timers, mixed))
            + Sum(g, Walk(wm.localHistograms, o.localHistograms, scoped))
            + Sum(g, Walk(wm.localTimers, o.localTimers, scoped))
  {
    hide Walk, Visits, Sum, HistoPoints, MixedPercentiles, Published, GlobalPoints;
    OrdersInside(o, wm);
    PublishedSum(g, wm, cfg, o);
    GlobalSum(g, wm, cfg, o);
    OthersUnseen(g, wm, o);
    Unseen(wm.counters, o.counters, CounterPoints(false), g);
    Unseen(wm.globalCounters, o.globalCounters, CounterPoints(true), g);
  }

  // ---- Counters

  function CounterAt(m: map<MetricKey, Counter>, k: MetricKey): int {
    if k in m then m[k].value else 0
  }

  function CounterSampled(k: MetricKey, global: bool): UDPMetric -> real {
    (m: UDPMetric) =>
      if m.key == k && k.kind.Counters? && m.scope.GlobalOnly? == global && m.value.Number?
      then CounterDelta(m.value.number, m.sampleRate) as real else 0.0
  }

  function CounterHeld(k: MetricKey, global: bool): WorkerMetrics -> real {
    (wm: WorkerMetrics) => CounterAt(if global then wm.globalCounters else wm.counters, k) as real
  }

  function CounterCarried(k: MetricKey, global: bool): JSONMetric -> real {
    (j: JSONMetric) =>
      if global && j.key == k && k.kind.Counters? && j.value.CounterValue? then j.value.count as real else 0.0
  }

  function CounterShown(k: MetricKey, global: bool): Point -> real {
    (p: Point) => if p.CounterPoint? && p.key == k && p.global == global then p.count as real else 0.0
  }

  /** The counter of one key, either the global-only one or the other, in 64-bit arithmetic. */
  function CounterQuantity(k: MetricKey, global: bool): Quantity {
    Quantity(i => CounterSampled(k, global), i => CounterHeld(k, global), CounterCarried(k, global),
             i => CounterShown(k, global), Modulo(TWO64))
  }

  lemma WrapMultiple(x: int)
    ensures Multiple(x as real - Wrap(x) as real, TWO64)
  {
    var n := (x - Wrap(x)) / TWO64;
    assert x - Wrap(x) == n * TWO64;
    assert x as real - Wrap(x) as real == (n * TWO64) as real;
  }

  lemma ProcessedCounters(wm: WorkerMetrics, m: UDPMetric, e: Encoded)
    ensures var c := m.key.kind.Counters?;
            && Processed(wm, m, e).counters
            == Updated(wm.counters, c && !m.scope.GlobalOnly?, m.key, CounterAfter(wm.counters, m))
            && Processed(wm, m, e).globalCounters
            == Updated(wm.globalCounters, c && m.scope.GlobalOnly?, m.key, CounterAfter(wm.globalCounters, m))
  {
  }

  lemma ImportedCounters(wm: WorkerMetrics, j: JSONMetric, e: Encoded)
    ensures Imported(wm, j, e).counters == wm.counters
    ensures Imported(wm, j, e).globalCounters
         == Updated(wm.globalCounters, j.key.kind.Counters?, j.key,
                    CombineCounter(At(wm.globalCounters, j.key, Counter(j.key.name, j.tags, 0)), j.value))
  {
  }

  lemma {:induction false} CounterSampling(k: MetricKey, global: bool, wm: WorkerMetrics, m: UDPMetric,
      e: Encoded)
    requires WellFormed(m)
    ensures Related(Modulo(TWO64), CounterHeld(k, global)(wm) + CounterSampled(k, global)(m),
                    CounterHeld(k, global)(Processed(wm, m, e)))
  {
    hide Wrap, CounterDelta, Processed, Multiple, WellFormed;
    ProcessedCounters(wm, m, e);
    var counters := if global then wm.globalCounters else wm.counters;
    if m.key == k && k.kind.Counters? && m.scope.GlobalOnly? == global && m.value.Number? {
      WrapMultiple(CounterAt(counters, k) + CounterDelta(m.value.number, m.sampleRate));
    } else {
      RelatedSelf(Modulo(TWO64), CounterAt(counters, k) as real);
    }
  }

  lemma {:induction false} CounterImport(k: MetricKey, global: bool, wm: WorkerMetrics, j: JSONMetric,
      e: Encoded)
    requires Sound(j)
    ensures Related(Modulo(TWO64), CounterHeld(k, global)(wm) + CounterCarried(k, global)(j),
                    CounterHeld(k, global)(Imported(wm, j, e)))
  {
    hide Join, Wrap, Imported, Multiple;
    ImportedCounters(wm, j, e);
    var counters := if global then wm.globalCounters else wm.counters;
    if global && j.key == k && k.kind.Counters? {
      WrapMultiple(CounterAt(counters, k) + j.value.count);
    } else {
      RelatedSelf(Modulo(TWO64), CounterAt(counters, k) as real);
    }
  }

  lemma CounterWalk(k: MetricKey, global: bool, from: bool, m: map<MetricKey, Counter>, order: seq<MetricKey>)
    requires Visits(order, m)
    ensures Sum(CounterShown(k, global), Walk(m, order, CounterPoints(from)))
         == if from == global then CounterAt(m, k) as real else 0.0
  {
    hide Walk, Sum;
    var g := CounterShown(k, global);
    if from == global {
      Seen(m, order, CounterPoints(from), g, k);
      if k in m {
        SumOne(g, CounterPoint(k, m[k].value, from));
      }
    } else {
      Unseen(m, order, CounterPoints(from), g);
    }
  }

  lemma CounterCarriedWalks(k: MetricKey, global: bool, wm: WorkerMetrics, o: Orders)
    requires Kept(wm) && OrdersOf(o, wm)
    ensures Sum(CounterCarried(k, global), Forwarded(wm, o))
         == if global then CounterAt(wm.globalCounters, k) as real else 0.0
  {
    hide Walk, Sum, Join, Visits, Forwarded, CountersNamed, GaugesNamed, SetsNamed, HistosNamed;
    OrdersInside(o, wm);
    var g := CounterCarried(k, global);
    ForwardedSum(g, wm, o);
    ExportsUnseen(wm.globalGauges, o.globalGauges, ExportGauge, g);
    ExportsUnseen(wm.histograms, o.histograms, ExportHisto, g);
    ExportsUnseen(wm.sets, o.sets, ExportSet, g);
    ExportsUnseen(wm.timers, o.timers, ExportTimer, g);
    CounterCarriedWalk(k, global, wm.globalCounters, o.globalCounters);
  }

  lemma CounterCarriedWalk(k: MetricKey, global: bool, m: map<MetricKey, Counter>, order: seq<MetricKey>)
    requires CountersNamed(m) && Visits(order, m)
    ensures Sum(CounterCarried(k, global), Walk(m, order, Exporting(ExportCounter)))
         == if global then CounterAt(m, k) as real else 0.0
  {
    hide Walk, Sum, Join, Visits;
    var g := CounterCarried(k, global);
    assert forall x :: x in m ==> ExportCounter(m[x]).key == x;
    if global {
      ExportsSeen(m, order, ExportCounter, g, k);
    } else {
      ExportsUnseen(m, order, ExportCounter, g);
    }
  }

  /**
    A flush publishes every counter that is not global-only, and the global-only
    ones where there is no parent; it forwards the global-only ones and no other.
   */
  lemma {:induction false} CounterFlush(k: MetricKey, global: bool, x: Instance, i: nat, wm: WorkerMetrics, o: Orders)
    requires Kept(wm) && OrdersOf(o, wm)
    ensures Sum(CounterShown(k, global), Published(wm, ConfigOf(x), o))
         == if global && x.parents != [] then 0.0 else CounterHeld(k, global)(wm)
    ensures Sum(CounterCarried(k, global), Forwarded(wm, o)) == if global then CounterHeld(k, global)(wm) else 0.0
    ensures Flushed(x, CounterQuantity(k, global), i, wm, o) == CounterHeld(k, global)(wm)
  {
    hide Walk, Sum, Visits, Forwarded, Published, Kept, CounterPoints;
    OrdersInside(o, wm);
    CountersShown(CounterShown(k, global), wm, ConfigOf(x), o);
    CounterWalk(k, global, false, wm.counters, o.counters);
    CounterWalk(k, global, true, wm.globalCounters, o.globalCounters);
    CounterCarriedWalks(k, global, wm, o);
  }
}
