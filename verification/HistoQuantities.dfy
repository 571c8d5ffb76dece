/** The samples behind digests, and the weight and sum that each instance reports of its own. */
module HistoQuantities {
  import opened Centroids
  import opened Digests
  import opened Options
  import opened Text
  import opened Samplers
  import opened Worker
  import opened Sums
  import opened Flusher
  import opened FlushLaws
  import opened Network
  import opened Ledger
  import opened Quantities

  predicate OfHistos(k: MetricKey) {
    k.kind.Histograms? || k.kind.Timers?
  }

  /** What a measure of histograms sees at a key. */
  function SeenAt(m: map<MetricKey, Histo>, k: MetricKey, measure: Histo -> real): real {
    if k in m then measure(m[k]) else 0.0
  }

  lemma ProcessedHistos(wm: WorkerMetrics, m: UDPMetric, e: Encoded)
    ensures var h, t, local, p := m.key.kind.Histograms?, m.key.kind.Timers?, m.scope.LocalOnly?, Processed(wm, m, e);
            && p.histograms == Updated(wm.histograms, h && !local, m.key, HistoAfter(wm.histograms, m, e))
            && p.timers == Updated(wm.timers, t && !local, m.key, HistoAfter(wm.timers, m, e))
            && p.localHistograms == Updated(wm.localHistograms, h && local, m.key, HistoAfter(wm.localHistograms, m, e))
            && p.localTimers == Updated(wm.localTimers, t && local, m.key, HistoAfter(wm.localTimers, m, e))
  {
  }

  lemma ImportedHistos(wm: WorkerMetrics, j: JSONMetric, e: Encoded)
    ensures var h, t, histo := j.key.kind.Histograms?, j.key.kind.Timers?, NewHisto(j.key.name, j.tags);
            var p := Imported(wm, j, e);
            && p.histograms
               == Updated(wm.histograms, h, j.key, CombineHisto(At(wm.histograms, j.key, histo), j.value, e))
            && p.timers == Updated(wm.timers, t, j.key, CombineHisto(At(wm.timers, j.key, histo), j.value, e))
            && p.localHistograms == wm.localHistograms && p.localTimers == wm.localTimers
  {
  }

  // ---- What a measure of points sees of one histogram

  function IfShown(g: Point -> real, condition: bool, p: Point): real {
    if condition then g(p) else 0.0
  }

  lemma WhenSum(g: Point -> real, condition: bool, p: Point)
    ensures Sum(g, When(condition, p)) == IfShown(g, condition, p)
  {
    if condition {
      SumOne(g, p);
    }
  }

  lemma WhenUnseen(g: Point -> real, condition: bool, p: Point)
    requires g(p) == 0.0
    ensures Sum(g, When(condition, p)) == 0.0
  {
    WhenSum(g, condition, p);
  }

  lemma SumOfSeven(g: Point -> real, a: seq<Point>, b: seq<Point>, c: seq<Point>, d: seq<Point>, e: seq<Point>,
                   f: seq<Point>, h: seq<Point>)
    ensures Sum(g, a + b + c + d + e + f + h)
         == Sum(g, a) + Sum(g, b) + Sum(g, c) + Sum(g, d) + Sum(g, e) + Sum(g, f) + Sum(g, h)
  {
    hide Sum;
    SumConcat(g, a, b);
    SumConcat(g, a + b, c);
    SumConcat(g, a + b + c, d);
    SumConcat(g, a + b + c + d, e);
    SumConcat(g, a + b + c + d + e, f);
    SumConcat(g, a + b + c + d + e + f, h);
  }

  /** Of the aggregates, a measure that does not see the others sees the sum and the count. */
  lemma AggregateSum(g: Point -> real, k: MetricKey, h: Histo, aggregates: set<Aggregate>)
    requires forall p: Point ::
               p.MaxPoint? || p.MinPoint? || p.AveragePoint? || p.MedianPoint? || p.HarmonicPoint? ==> g(p) == 0.0
    ensures Sum(g, AggregatePoints(k, h, aggregates))
         == IfShown(g, Total in aggregates && h.localSum != 0.0, SumPoint(k, h.localSum))
            + IfShown(g, Count in aggregates && h.localWeight != 0.0, CountPoint(k, h.localWeight))
  {
    hide Sum, When, IfShown, AverageOf, HarmonicOf, Read;
    var max := MaxPoint(k, if h.localMax.Some? then h.localMax.value else 0.0);
    var min := MinPoint(k, if h.localMin.Some? then h.localMin.value else 0.0);
    var average, median, harmonic :=
      AveragePoint(k, AverageOf(h)), MedianPoint(k, Read(h.digest, 0.5), h.samples), HarmonicPoint(k, HarmonicOf(h));
    WhenUnseen(g, Max in aggregates && h.localMax.Some?, max);
    WhenUnseen(g, Min in aggregates && h.localMin.Some?, min);
    WhenSum(g, Total in aggregates && h.localSum != 0.0, SumPoint(k, h.localSum));
    WhenUnseen(g, Average in aggregates && h.localSum != 0.0 && h.localWeight != 0.0, average);
    WhenSum(g, Count in aggregates && h.localWeight != 0.0, CountPoint(k, h.localWeight));
    WhenUnseen(g, Median in aggregates, median);
    WhenUnseen(g, HarmonicMean in aggregates && h.localReciprocalSum != Some(0.0) && h.localWeight != 0.0, harmonic);
    SumOfSeven(g, When(Max in aggregates && h.localMax.Some?, max), When(Min in aggregates && h.localMin.Some?, min),
               When(Total in aggregates && h.localSum != 0.0, SumPoint(k, h.localSum)),
               When(Average in aggregates && h.localSum != 0.0 && h.localWeight != 0.0, average),
               When(Count in aggregates && h.localWeight != 0.0, CountPoint(k, h.localWeight)),
               When(Median in aggregates, median),
               When(HarmonicMean in aggregates && h.localReciprocalSum != Some(0.0) && h.localWeight != 0.0, harmonic));
  }

  /** A measure that sees only the points of one key sees one histogram in a walk. */
  lemma HistoWalk(g: Point -> real, m: map<MetricKey, Histo>, order: seq<MetricKey>,
                  ps: seq<real>, aggregates: set<Aggregate>, scoped: bool, k: MetricKey)
    requires Visits(order, m) && forall p: Point :: p.key != k ==> g(p) == 0.0
    ensures Sum(g, Walk(m, order, HistoPoints(ps, aggregates, scoped)))
         == if k !in m then 0.0
            else Sum(g, AggregatePoints(k, m[k], aggregates)) + Sum(g, PercentilePoints(k, m[k], ps, scoped))
  {
    hide Walk, Sum, HistoPoints, AggregatePoints, PercentilePoints, Visits;
    forall x, p | x in m && x != k && p in HistoPoints(ps, aggregates, scoped)(x, m[x])
      ensures g(p) == 0.0
    {
      HistoPointIn(ps, aggregates, scoped, x, m[x], p);
    }
    Seen(m, order, HistoPoints(ps, aggregates, scoped), g, k);
    if k in m {
      HistoPieces(ps, aggregates, scoped, k, m[k]);
      SumConcat(g, AggregatePoints(k, m[k], aggregates), PercentilePoints(k, m[k], ps, scoped));
    }
  }

  lemma HistoPieces(ps: seq<real>, aggregates: set<Aggregate>, scoped: bool, k: MetricKey, h: Histo)
    ensures HistoPoints(ps, aggregates, scoped)(k, h)
         == AggregatePoints(k, h, aggregates) + PercentilePoints(k, h, ps, scoped)
  {
  }

  lemma PercentilesUnseen(g: Point -> real, k: MetricKey, h: Histo, ps: seq<real>, scoped: bool)
    requires forall p: Point :: p.PercentilePoint? && p.scoped == scoped ==> g(p) == 0.0
    ensures Sum(g, PercentilePoints(k, h, ps, scoped)) == 0.0
  {
    hide PercentilePoints, Sum;
    var points := PercentilePoints(k, h, ps, scoped);
    forall i | 0 <= i < |points|
      ensures g(points[i]) == 0.0
    {
      PercentilePointIn(k, h, ps, scoped, points[i]);
    }
    SumZero(g, points);
  }

  // ---- The samples behind digests

  /** A measure of samples, over those behind a histogram. */
  function Behind(g: Observation -> real): Histo -> real {
    (h: Histo) => Sum(g, h.samples)
  }

  function DigestSampled(k: MetricKey, g: Observation -> real): UDPMetric -> real {
    (m: UDPMetric) =>
      if m.key == k && OfHistos(k) && !m.scope.LocalOnly? then Measured(g, m) else 0.0
  }

  /** What a measure sees of one sample. */
  function Measured(g: Observation -> real, m: UDPMetric): real {
    if Addable(m) then g(Observation(m.value.number.value, m.sampleRate.value)) else 0.0
  }

  function DigestHeld(k: MetricKey, g: Observation -> real): WorkerMetrics -> real {
    (wm: WorkerMetrics) => SeenAt(wm.histograms, k, Behind(g)) + SeenAt(wm.timers, k, Behind(g))
  }

  function DigestCarried(k: MetricKey, g: Observation -> real): JSONMetric -> real {
    (j: JSONMetric) => if j.key == k && OfHistos(k) && j.value.DigestValue? then Sum(g, j.value.samples) else 0.0
  }

  function DigestShown(k: MetricKey, percentile: real, g: Observation -> real): Point -> real {
    (p: Point) =>
      if p.PercentilePoint? && p.key == k && p.percentile == percentile && !p.scoped then Sum(g, p.samples) else 0.0
  }

  /** Under a measure of samples, what is behind one percentile of one mixed histogram or timer. */
  function DigestQuantity(k: MetricKey, percentile: real, g: Observation -> real, mode: Mode): Quantity {
    Quantity(i => DigestSampled(k, g), i => DigestHeld(k, g), DigestCarried(k, g), i => DigestShown(k, percentile, g),
             mode)
  }

  lemma SampledBehind(m: map<MetricKey, Histo>, x: UDPMetric, e: Encoded, g: Observation -> real)
    ensures Behind(g)(HistoAfter(m, x, e)) == SeenAt(m, x.key, Behind(g)) + Measured(g, x)
  {
    hide Sum, SampleWeight, AddReciprocal;
    SumZero(g, []);
    if Addable(x) {
      var h, s := At(m, x.key, NewHisto(x.key.name, x.tags)), Observation(x.value.number.value, x.sampleRate.value);
      SumConcat(g, h.samples, [s]);
      SumOne(g, s);
    }
  }

  lemma CombinedBehind(m: map<MetricKey, Histo>, j: JSONMetric, e: Encoded, g: Observation -> real)
    requires j.value.DigestValue?
    ensures Behind(g)(CombineHisto(At(m, j.key, NewHisto(j.key.name, j.tags)), j.value, e))
         == SeenAt(m, j.key, Behind(g)) + Sum(g, j.value.samples)
  {
    hide Sum, Weight;
    SumConcat(g, At(m, j.key, NewHisto(j.key.name, j.tags)).samples, j.value.samples);
    SumZero(g, []);
  }

  lemma {:induction false} DigestSampling(k: MetricKey, g: Observation -> real, wm: WorkerMetrics,
                                          m: UDPMetric, e: Encoded)
    requires WellFormed(m)
    ensures DigestHeld(k, g)(Processed(wm, m, e)) == DigestHeld(k, g)(wm) + DigestSampled(k, g)(m)
  {
    hide WellFormed, Processed, HistoAfter, Behind, Measured;
    ProcessedHistos(wm, m, e);
    SampledBehind(wm.histograms, m, e, g);
    SampledBehind(wm.timers, m, e, g);
  }

  lemma {:induction false} DigestImport(k: MetricKey, g: Observation -> real, wm: WorkerMetrics,
                                        j: JSONMetric, e: Encoded)
    requires Sound(j)
    ensures DigestHeld(k, g)(Imported(wm, j, e)) == DigestHeld(k, g)(wm) + DigestCarried(k, g)(j)
  {
    hide Join, Imported, CombineHisto, Behind, Sum, Weight;
    ImportedHistos(wm, j, e);
    if OfHistos(j.key) {
      CombinedBehind(wm.histograms, j, e, g);
      CombinedBehind(wm.timers, j, e, g);
    }
  }

  function Times(percentile: real, ps: seq<real>): nat {
    if ps == [] then 0 else (if ps[0] == percentile then 1 else 0) + Times(percentile, ps[1..])
  }

  lemma {:induction false} PercentileSum(k: MetricKey, percentile: real, g: Observation -> real, h: Histo,
                                         ps: seq<real>)
    ensures Sum(DigestShown(k, percentile, g), PercentilePoints(k, h, ps, false))
         == Times(percentile, ps) as real * Sum(g, h.samples)
    decreases |ps|
  {
    hide Read;
    if ps != [] {
      var f, rest := DigestShown(k, percentile, g), PercentilePoints(k, h, ps[1..], false);
      var first := PercentilePoint(k, ps[0], Read(h.digest, ps[0]), h.samples, false);
      assert PercentilePoints(k, h, ps, false) == [first] + rest;
      PercentileSum(k, percentile, g, h, ps[1..]);
      SumFirst(f, first, rest);
      OneMoreTime(Times(percentile, ps[1..]), Sum(g, h.samples));
    }
  }

  lemma SumFirst(f: Point -> real, first: Point, rest: seq<Point>)
    ensures Sum(f, [first] + rest) == f(first) + Sum(f, rest)
  {
    SumConcat(f, [first], rest);
    SumOne(f, first);
  }

  lemma OneMoreTime(n: nat, x: real)
    ensures (1 + n) as real * x == x + n as real * x
  {
  }

  lemma DigestWalk(k: MetricKey, percentile: real, g: Observation -> real, m: map<MetricKey, Histo>,
                   order: seq<MetricKey>, ps: seq<real>, aggregates: set<Aggregate>, scoped: bool)
    requires Visits(order, m)
    ensures Sum(DigestShown(k, percentile, g), Walk(m, order, HistoPoints(ps, aggregates, scoped)))
         == if scoped then 0.0 else Times(percentile, ps) as real * SeenAt(m, k, Behind(g))
  {
    hide Walk, Sum, HistoPoints, AggregatePoints, PercentilePoints, Visits, Times;
    var f := DigestShown(k, percentile, g);
    HistoWalk(f, m, order, ps, aggregates, scoped, k);
    if k in m {
      AggregateSum(f, k, m[k], aggregates);
      if scoped {
        PercentilesUnseen(f, k, m[k], ps, scoped);
      } else {
        PercentileSum(k, percentile, g, m[k], ps);
      }
    }
  }

  /** As often as the percentile is listed, everything behind the digest is shown, by a global instance only. */
  lemma {:induction false} DigestShows(k: MetricKey, percentile: real, g: Observation -> real, x: Instance,
                                       wm: WorkerMetrics, o: Orders)
    requires OrdersOf(o, wm)
    ensures Sum(DigestShown(k, percentile, g), Published(wm, ConfigOf(x), o))
         == if x.parents == [] then Times(percentile, x.percentiles) as real * DigestHeld(k, g)(wm) else 0.0
  {
    hide Walk, Sum, HistoPoints, Published, Visits, Behind;
    OrdersInside(o, wm);
    var cfg := ConfigOf(x);
    var times := Times(percentile, MixedPercentiles(cfg)) as real;
    HistosShown(DigestShown(k, percentile, g), wm, cfg, o);
    DigestWalk(k, percentile, g, wm.histograms, o.histograms, MixedPercentiles(cfg), cfg.aggregates, false);
    DigestWalk(k, percentile, g, wm.timers, o.timers, MixedPercentiles(cfg), cfg.aggregates, false);
    DigestWalk(k, percentile, g, wm.localHistograms, o.localHistograms, cfg.percentiles, cfg.aggregates, true);
    DigestWalk(k, percentile, g, wm.localTimers, o.localTimers, cfg.percentiles, cfg.aggregates, true);
    Distributed(times, SeenAt(wm.histograms, k, Behind(g)), SeenAt(wm.timers, k, Behind(g)));
  }

  lemma Distributed(n: real, x: real, y: real)
    ensures n * x + n * y == n * (x + y)
  {
  }

  lemma HistoCarriedWalk(k: MetricKey, g: Observation -> real, kind: Kind, m: map<MetricKey, Histo>,
                         order: seq<MetricKey>, encode: Histo -> JSONMetric)
    requires HistosNamed(m, kind) && Visits(order, m) && (kind.Histograms? || kind.Timers?)
    requires forall h: Histo :: encode(h) == ExportHisto(h).(key := ExportHisto(h).key.(kind := kind))
    ensures Sum(DigestCarried(k, g), Walk(m, order, Exporting(encode))) == SeenAt(m, k, Behind(g))
  {
    hide Walk, Sum, Visits, Join, Accounted, Tallied;
    assert forall x :: x in m ==> encode(m[x]).key == x;
    ExportsSeen(m, order, encode, DigestCarried(k, g), k);
  }

  /** Everything behind the mixed digests is carried by what is forwarded, once. */
  lemma {:induction false} DigestCarries(k: MetricKey, g: Observation -> real, wm: WorkerMetrics, o: Orders)
    requires Kept(wm) && OrdersOf(o, wm)
    ensures Sum(DigestCarried(k, g), Forwarded(wm, o)) == DigestHeld(k, g)(wm)
  {
    hide Walk, Sum, Visits, Join, Forwarded, CountersNamed, GaugesNamed, SetsNamed, HistosNamed;
    OrdersInside(o, wm);
    var f := DigestCarried(k, g);
    ForwardedSum(f, wm, o);
    ExportsUnseen(wm.globalCounters, o.globalCounters, ExportCounter, f);
    ExportsUnseen(wm.globalGauges, o.globalGauges, ExportGauge, f);
    ExportsUnseen(wm.sets, o.sets, ExportSet, f);
    HistoCarriedWalk(k, g, Histograms, wm.histograms, o.histograms, ExportHisto);
    HistoCarriedWalk(k, g, Timers, wm.timers, o.timers, ExportTimer);
  }

  ghost predicate NonNegative<T(!new)>(g: T -> real) {
    forall x: T :: g(x) >= 0.0
  }

  lemma {:induction false} SumNonNegative<T(!new)>(g: T -> real, xs: seq<T>)
    requires NonNegative(g)
    ensures Sum(g, xs) >= 0.0
  {
    if xs != [] {
      SumNonNegative(g, xs[1..]);
    }
  }

  lemma DigestNonNegative(k: MetricKey, g: Observation -> real, wm: WorkerMetrics)
    requires NonNegative(g)
    ensures DigestHeld(k, g)(wm) >= 0.0
  {
    hide Sum, NonNegative;
    if k in wm.histograms {
      SumNonNegative(g, wm.histograms[k].samples);
    }
    if k in wm.timers {
      SumNonNegative(g, wm.timers[k].samples);
    }
  }

  lemma {:induction false} DigestFlush(k: MetricKey, percentile: real, g: Observation -> real, mode: Mode, x: Instance,
                                       i: nat, wm: WorkerMetrics, o: Orders)
    requires Kept(wm) && OrdersOf(o, wm)
    requires x.parents == [] ==>
               || Times(percentile, x.percentiles) == 1
               || (mode.AtLeast? && Times(percentile, x.percentiles) == 0 && NonNegative(g))
    ensures Related(mode, DigestHeld(k, g)(wm), Flushed(x, DigestQuantity(k, percentile, g, mode), i, wm, o))
  {
    hide Sum, Forwarded, Published, Kept, DigestShown, DigestCarried, DigestHeld, Multiple, Times, NonNegative;
    DigestShows(k, percentile, g, x, wm, o);
    DigestCarries(k, g, wm, o);
    RelatedSelf(mode, DigestHeld(k, g)(wm));
    if x.parents == [] && Times(percentile, x.percentiles) == 0 {
      DigestNonNegative(k, g, wm);
    }
  }

  // ---- What each instance reports of its own samples

  /** The local weight for Count, the local sum otherwise. */
  function Local(which: Aggregate): Histo -> real {
    (h: Histo) => if which.Count? then h.localWeight else h.localSum
  }

  function LocalAdded(k: MetricKey, which: Aggregate, m: UDPMetric): real {
    if m.key == k && OfHistos(k) && Addable(m) then
      var weight := SampleWeight(m.sampleRate.value);
      if which.Count? then weight else m.value.number.value * weight
    else 0.0
  }

  function LocalSampled(at: nat, k: MetricKey, which: Aggregate): nat -> UDPMetric -> real {
    (i: nat) => (m: UDPMetric) => if i == at then LocalAdded(k, which, m) else 0.0
  }

  function LocalTotal(k: MetricKey, which: Aggregate, wm: WorkerMetrics): real {
    SeenAt(wm.histograms, k, Local(which)) + SeenAt(wm.timers, k, Local(which))
    + SeenAt(wm.localHistograms, k, Local(which)) + SeenAt(wm.localTimers, k, Local(which))
  }

  function LocalHeld(at: nat, k: MetricKey, which: Aggregate): nat -> WorkerMetrics -> real {
    (i: nat) => (wm: WorkerMetrics) => if i == at then LocalTotal(k, which, wm) else 0.0
  }

  function LocalShown(at: nat, k: MetricKey, which: Aggregate): nat -> Point -> real {
    (i: nat) => (p: Point) =>
      if i == at && p.key == k && which.Count? && p.CountPoint? then p.weight
      else if i == at && p.key == k && !which.Count? && p.SumPoint? then p.level
      else 0.0
  }

  /** The weight, or the sum, that one instance samples itself under one key. */
  function LocalQuantity(at: nat, k: MetricKey, which: Aggregate): Quantity {
    Quantity(LocalSampled(at, k, which), LocalHeld(at, k, which), j => 0.0, LocalShown(at, k, which), Exactly)
  }

  lemma LocalSampling(k: MetricKey, which: Aggregate, wm: WorkerMetrics, m: UDPMetric, e: Encoded)
    requires WellFormed(m)
    ensures LocalTotal(k, which, Processed(wm, m, e)) == LocalTotal(k, which, wm) + LocalAdded(k, which, m)
  {
    hide WellFormed, Processed, HistoAfter, Local;
    ProcessedHistos(wm, m, e);
    HistoAdds(wm.histograms, m, e, which);
    HistoAdds(wm.timers, m, e, which);
    HistoAdds(wm.localHistograms, m, e, which);
    HistoAdds(wm.localTimers, m, e, which);
  }

  lemma HistoAdds(m: map<MetricKey, Histo>, x: UDPMetric, e: Encoded, which: Aggregate)
    ensures OfHistos(x.key) ==>
              Local(which)(HistoAfter(m, x, e)) == SeenAt(m, x.key, Local(which)) + LocalAdded(x.key, which, x)
  {
    hide SampleWeight, AddReciprocal;
  }

  lemma LocalImport(k: MetricKey, which: Aggregate, wm: WorkerMetrics, j: JSONMetric, e: Encoded)
    ensures LocalTotal(k, which, Imported(wm, j, e)) == LocalTotal(k, which, wm)
  {
    hide Join, Imported, CombineHisto, Local;
    ImportedHistos(wm, j, e);
    HistoKeeps(wm.histograms, j, e, which);
    HistoKeeps(wm.timers, j, e, which);
  }

  lemma HistoKeeps(m: map<MetricKey, Histo>, j: JSONMetric, e: Encoded, which: Aggregate)
    ensures Local(which)(CombineHisto(At(m, j.key, NewHisto(j.key.name, j.tags)), j.value, e))
         == SeenAt(m, j.key, Local(which))
  {
  }

  lemma LocalWalk(at: nat, k: MetricKey, which: Aggregate, m: map<MetricKey, Histo>, order: seq<MetricKey>,
                  ps: seq<real>, aggregates: set<Aggregate>, scoped: bool)
    requires Visits(order, m) && (which.Count? || which.Total?) && which in aggregates
    ensures Sum(LocalShown(at, k, which)(at), Walk(m, order, HistoPoints(ps, aggregates, scoped)))
         == SeenAt(m, k, Local(which))
  {
    hide Walk, Sum, HistoPoints, AggregatePoints, PercentilePoints, Visits;
    var g := LocalShown(at, k, which)(at);
    HistoWalk(g, m, order, ps, aggregates, scoped, k);
    if k in m {
      AggregateSum(g, k, m[k], aggregates);
      PercentilesUnseen(g, k, m[k], ps, scoped);
    }
  }

  lemma LocalShows(at: nat, k: MetricKey, which: Aggregate, cfg: Config, wm: WorkerMetrics, o: Orders)
    requires OrdersOf(o, wm) && (which.Count? || which.Total?) && which in cfg.aggregates
    ensures Sum(LocalShown(at, k, which)(at), Published(wm, cfg, o)) == LocalTotal(k, which, wm)
  {
    hide Walk, Sum, HistoPoints, Published, Visits, MixedPercentiles, Local;
    OrdersInside(o, wm);
    HistosShown(LocalShown(at, k, which)(at), wm, cfg, o);
    LocalWalk(at, k, which, wm.histograms, o.histograms, MixedPercentiles(cfg), cfg.aggregates, false);
    LocalWalk(at, k, which, wm.timers, o.timers, MixedPercentiles(cfg), cfg.aggregates, false);
    LocalWalk(at, k, which, wm.localHistograms, o.localHistograms, cfg.percentiles, cfg.aggregates, true);
    LocalWalk(at, k, which, wm.localTimers, o.localTimers, cfg.percentiles, cfg.aggregates, true);
  }

  lemma {:induction false} LocalFlush(at: nat, k: MetricKey, which: Aggregate, x: Instance, i: nat,
      wm: WorkerMetrics, o: Orders)
    requires OrdersOf(o, wm) && (which.Count? || which.Total?) && (i == at ==> which in x.aggregates)
    ensures i == at ==> Sum(LocalShown(at, k, which)(i), Published(wm, ConfigOf(x), o)) == LocalTotal(k, which, wm)
    ensures Flushed(x, LocalQuantity(at, k, which), i, wm, o) == LocalHeld(at, k, which)(i)(wm)
  {
    hide Sum, Published, OrdersOf, Forwarded, LocalTotal;
    var q := LocalQuantity(at, k, which);
    SumZero(q.carried, Forwarded(wm, o));
    if i == at {
      LocalShows(at, k, which, ConfigOf(x), wm, o);
    } else {
      SumZero(q.shown(i), Published(wm, ConfigOf(x), o));
    }
  }
}
