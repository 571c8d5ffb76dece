/** The samples behind sets, which a network conserves like those behind digests. */
module MemberQuantities {
  import opened Digests
  import opened Text
  import opened Samplers
  import opened Worker
  import opened Sums
  import opened Flusher
  import opened FlushLaws
  import opened Network
  import opened Ledger
  import opened Quantities

  /** What a measure of samples sees of the set under a key. */
  function SeenUnder(m: map<MetricKey, MemberSet>, k: MetricKey, g: string -> real): real {
    if k in m then Sum(g, m[k].seen) else 0.0
  }

  function MemberSampled(k: MetricKey, local: bool, g: string -> real): UDPMetric -> real {
    (m: UDPMetric) =>
      if m.key == k && k.kind.Sets? && m.scope.LocalOnly? == local && m.value.Member? then g(m.value.member) else 0.0
  }

  function MemberHeld(k: MetricKey, local: bool, g: string -> real): WorkerMetrics -> real {
    (wm: WorkerMetrics) => SeenUnder(if local then wm.localSets else wm.sets, k, g)
  }

  function MemberCarried(k: MetricKey, local: bool, g: string -> real): JSONMetric -> real {
    (j: JSONMetric) =>
      if !local && j.key == k && k.kind.Sets? && j.value.Members? then Sum(g, j.value.seen) else 0.0
  }

  function MemberShown(k: MetricKey, local: bool, g: string -> real): Point -> real {
    (p: Point) => if p.SetPoint? && p.key == k && p.scoped == local then Sum(g, p.seen) else 0.0
  }

  /** Under a measure of samples, what is behind the set of one key, either the local-only one or the other. */
  function MemberQuantity(k: MetricKey, local: bool, g: string -> real): Quantity {
    Quantity(i => MemberSampled(k, local, g), i => MemberHeld(k, local, g), MemberCarried(k, local, g),
             i => MemberShown(k, local, g), Exactly)
  }

  lemma ProcessedSets(wm: WorkerMetrics, m: UDPMetric, e: Encoded)
    ensures var s, local, p := m.key.kind.Sets?, m.scope.LocalOnly?, Processed(wm, m, e);
            && p.sets == Updated(wm.sets, s && !local, m.key, SetAfter(wm.sets, m))
            && p.localSets == Updated(wm.localSets, s && local, m.key, SetAfter(wm.localSets, m))
  {
  }

  lemma ImportedSets(wm: WorkerMetrics, j: JSONMetric, e: Encoded)
    ensures Imported(wm, j, e).localSets == wm.localSets
    ensures Imported(wm, j, e).sets
         == Updated(wm.sets, j.key.kind.Sets?, j.key,
                    CombineSet(At(wm.sets, j.key, NewSet(j.key.name, j.tags)), j.value))
  {
  }

  lemma SampledUnder(m: map<MetricKey, MemberSet>, x: UDPMetric, g: string -> real)
    requires x.value.Member?
    ensures Sum(g, SetAfter(m, x).seen) == SeenUnder(m, x.key, g) + g(x.value.member)
  {
    hide Sum;
    SumZero(g, []);
    SumConcat(g, At(m, x.key, NewSet(x.key.name, x.tags)).seen, [x.value.member]);
    SumOne(g, x.value.member);
  }

  lemma {:induction false} MemberSampling(k: MetricKey, local: bool, g: string -> real, wm: WorkerMetrics,
      m: UDPMetric, e: Encoded)
    requires WellFormed(m)
    ensures MemberHeld(k, local, g)(Processed(wm, m, e)) == MemberHeld(k, local, g)(wm) + MemberSampled(k, local, g)(m)
  {
    hide WellFormed, Processed, SetAfter, Sum;
    ProcessedSets(wm, m, e);
    WellFormedAddable(m);
    if m.key.kind.Sets? {
      SampledUnder(wm.sets, m, g);
      SampledUnder(wm.localSets, m, g);
    }
  }

  lemma {:induction false} MemberImport(k: MetricKey, local: bool, g: string -> real, wm: WorkerMetrics,
      j: JSONMetric, e: Encoded)
    requires Sound(j)
    ensures MemberHeld(k, local, g)(Imported(wm, j, e)) == MemberHeld(k, local, g)(wm) + MemberCarried(k, local, g)(j)
  {
    hide Join, Imported, Sum, Recalls, Weighed;
    ImportedSets(wm, j, e);
    if j.key.kind.Sets? {
      SumZero(g, []);
      SumConcat(g, At(wm.sets, j.key, NewSet(j.key.name, j.tags)).seen, j.value.seen);
    }
  }

  /** Set points come from the two set maps, the mixed ones only where nothing is forwarded. */
  lemma SetsShown(g: Point -> real, wm: WorkerMetrics, cfg: Config, o: Orders)
    requires OrdersOf(o, wm) && forall p: Point :: !p.SetPoint? ==> g(p) == 0.0
    ensures Sum(g, Published(wm, cfg, o))
         == Sum(g, Walk(wm.localSets, o.localSets, SetPoints(true)))
            + if cfg.isLocal then 0.0 else Sum(g, Walk(wm.sets, o.sets, SetPoints(false)))
  {
    hide Walk, Visits, Sum, HistoPoints, MixedPercentiles, SetPoints, Published, GlobalPoints;
    OrdersInside(o, wm);
    PublishedSum(g, wm, cfg, o);
    GlobalSum(g, wm, cfg, o);
    HistosUnseen(wm.histograms, o.histograms, MixedPercentiles(cfg), cfg.aggregates, false, g);
    HistosUnseen(wm.timers, o.timers, MixedPercentiles(cfg), cfg.aggregates, false, g);
    HistosUnseen(wm.localHistograms, o.localHistograms, cfg.percentiles, cfg.aggregates, true, g);
    HistosUnseen(wm.localTimers, o.localTimers, cfg.percentiles, cfg.aggregates, true, g);
    Unseen(wm.counters, o.counters, CounterPoints(false), g);
    Unseen(wm.globalCounters, o.globalCounters, CounterPoints(true), g);
    Unseen(wm.gauges, o.gauges, GaugePoints(), g);
    Unseen(wm.globalGauges, o.globalGauges, GaugePoints(), g);
    Unseen(wm.localStatusChecks, o.localStatusChecks, StatusPoints(), g);
  }

  lemma SetWalk(k: MetricKey, local: bool, g: string -> real, from: bool, m: map<MetricKey, MemberSet>,
                order: seq<MetricKey>)
    requires Visits(order, m)
    ensures Sum(MemberShown(k, local, g), Walk(m, order, SetPoints(from)))
         == if from == local then SeenUnder(m, k, g) else 0.0
  {
    hide Walk, Sum;
    var f := MemberShown(k, local, g);
    if from == local {
      Seen(m, order, SetPoints(from), f, k);
      if k in m {
        SumOne(f, SetPoint(k, m[k].members, m[k].seen, from));
      }
    } else {
      Unseen(m, order, SetPoints(from), f);
    }
  }

  lemma SetCarriedWalk(k: MetricKey, local: bool, g: string -> real, m: map<MetricKey, MemberSet>,
                       order: seq<MetricKey>)
    requires SetsNamed(m) && Visits(order, m)
    ensures Sum(MemberCarried(k, local, g), Walk(m, order, Exporting(ExportSet)))
         == if local then 0.0 else SeenUnder(m, k, g)
  {
    hide Walk, Sum, Join, Visits, Recalls;
    var f := MemberCarried(k, local, g);
    assert forall x :: x in m ==> ExportSet(m[x]).key == x;
    if local {
      ExportsUnseen(m, order, ExportSet, f);
    } else {
      ExportsSeen(m, order, ExportSet, f, k);
    }
  }

  lemma MemberCarries(k: MetricKey, local: bool, g: string -> real, wm: WorkerMetrics, o: Orders)
    requires Kept(wm) && OrdersOf(o, wm)
    ensures Sum(MemberCarried(k, local, g), Forwarded(wm, o)) == if local then 0.0 else MemberHeld(k, local, g)(wm)
  {
    hide Walk, Sum, Visits, Join, Forwarded, CountersNamed, GaugesNamed, SetsNamed, HistosNamed;
    OrdersInside(o, wm);
    var f := MemberCarried(k, local, g);
    ForwardedSum(f, wm, o);
    ExportsUnseen(wm.globalCounters, o.globalCounters, ExportCounter, f);
    ExportsUnseen(wm.globalGauges, o.globalGauges, ExportGauge, f);
    ExportsUnseen(wm.histograms, o.histograms, ExportHisto, f);
    ExportsUnseen(wm.timers, o.timers, ExportTimer, f);
    SetCarriedWalk(k, local, g, wm.sets, o.sets);
  }

  /** A flush publishes the local-only sets; the others it publishes without a parent and forwards with one. */
  lemma {:induction false} MemberFlush(k: MetricKey, local: bool, g: string -> real, x: Instance, i: nat,
      wm: WorkerMetrics, o: Orders)
    requires Kept(wm) && OrdersOf(o, wm)
    ensures Sum(MemberShown(k, local, g), Published(wm, ConfigOf(x), o))
         == if !local && x.parents != [] then 0.0 else MemberHeld(k, local, g)(wm)
    ensures Sum(MemberCarried(k, local, g), Forwarded(wm, o)) == if local then 0.0 else MemberHeld(k, local, g)(wm)
    ensures Flushed(x, MemberQuantity(k, local, g), i, wm, o) == MemberHeld(k, local, g)(wm)
  {
    hide Walk, Sum, Visits, Forwarded, Published, Kept, SetPoints;
    OrdersInside(o, wm);
    SetsShown(MemberShown(k, local, g), wm, ConfigOf(x), o);
    SetWalk(k, local, g, true, wm.localSets, o.localSets);
    SetWalk(k, local, g, false, wm.sets, o.sets);
    MemberCarries(k, local, g, wm, o);
  }
}
