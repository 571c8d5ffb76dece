/** What the published sets, medians and percentiles have to do with the samples, in every run. */
module Answers {
  import opened Digests
  import opened Samplers
  import opened Sums
  import opened Worker
  import opened Flusher
  import opened FlushLaws
  import opened Network
  import opened Quantities

  predicate IsAnswer(p: Point) {
    p.MedianPoint? || (p.PercentilePoint? && 0.0 <= p.percentile <= 1.0)
  }

  /**
    There is an answer if and only if there are samples behind it, and it lies between
    two of them; the members of a set are the samples behind it.
   */
  predicate Honest(p: Point) {
    && (IsAnswer(p) ==>
          (p.answer.Some? <==> p.samples != []) && (p.answer.Some? ==> Between(p.answer.value, p.samples)))
    && (p.SetPoint? ==> p.members == set x | x in p.seen)
  }

  lemma HistoHonest(ps: seq<real>, aggregates: set<Aggregate>, scoped: bool, k: MetricKey, h: Histo, p: Point)
    requires Accounted(h) && p in HistoPoints(ps, aggregates, scoped)(k, h)
    ensures Honest(p)
  {
    hide PercentilePoints, AggregatePoints, Accounted, Read, Between;
    if p in PercentilePoints(k, h, ps, scoped) {
      PercentilePointIn(k, h, ps, scoped, p);
      if IsAnswer(p) {
        AnswerBetween(h, p.percentile);
      }
    } else {
      AggregatePointIn(k, h, aggregates, p);
      AnswerBetween(h, 0.5);
    }
  }

  lemma HistosHonest(m: map<MetricKey, Histo>, kind: Kind, order: seq<MetricKey>, ps: seq<real>,
                     aggregates: set<Aggregate>, scoped: bool, p: Point)
    requires HistosNamed(m, kind) && Visits(order, m) && p in Walk(m, order, HistoPoints(ps, aggregates, scoped))
    ensures Honest(p)
  {
    hide Walk, HistoPoints, Accounted, Tallied, Honest;
    WalkMember(m, order, HistoPoints(ps, aggregates, scoped), p);
    var k :| k in m && p in HistoPoints(ps, aggregates, scoped)(k, m[k]);
    HistoHonest(ps, aggregates, scoped, k, m[k], p);
  }

  lemma SetsHonest(m: map<MetricKey, MemberSet>, order: seq<MetricKey>, scoped: bool, p: Point)
    requires SetsNamed(m) && Visits(order, m) && p in Walk(m, order, SetPoints(scoped))
    ensures Honest(p)
  {
    hide Walk, Named;
    WalkMember(m, order, SetPoints(scoped), p);
    var k :| k in m && p in SetPoints(scoped)(k, m[k]);
    assert Recalls(m[k].members, m[k].seen);
  }

  lemma OthersHonest<V>(m: map<MetricKey, V>, order: seq<MetricKey>, f: (MetricKey, V) -> seq<Point>, p: Point)
    requires Visits(order, m) && p in Walk(m, order, f)
    requires forall k, r :: k in m && r in f(k, m[k]) ==> !r.MedianPoint? && !r.PercentilePoint? && !r.SetPoint?
    ensures Honest(p)
  {
    hide Walk;
    WalkMember(m, order, f, p);
  }

  lemma GlobalHonest(wm: WorkerMetrics, cfg: Config, o: Orders, p: Point)
    requires OrdersOf(o, wm) && SetsNamed(wm.sets) && p in GlobalPoints(wm, cfg, o)
    ensures Honest(p)
  {
    hide Walk, Visits, Honest, SetsNamed;
    OrdersInside(o, wm);
    if p in Walk(wm.sets, o.sets, SetPoints(false)) {
      SetsHonest(wm.sets, o.sets, false, p);
    } else if p in Walk(wm.globalCounters, o.globalCounters, CounterPoints(true)) {
      OthersHonest(wm.globalCounters, o.globalCounters, CounterPoints(true), p);
    } else {
      OthersHonest(wm.globalGauges, o.globalGauges, GaugePoints(), p);
    }
  }

  /** What a flush publishes answers honestly. */
  lemma {:induction false} FlushHonest(wm: WorkerMetrics, cfg: Config, o: Orders, p: Point)
    requires Kept(wm) && OrdersOf(o, wm) && p in Published(wm, cfg, o)
    ensures Honest(p)
  {
    hide Walk, HistoPoints, Visits, Honest, HistosNamed, MixedPercentiles, CountersNamed, GaugesNamed, SetsNamed,
         GlobalPoints;
    OrdersInside(o, wm);
    var mixed := MixedPercentiles(cfg);
    if p in Walk(wm.histograms, o.histograms, HistoPoints(mixed, cfg.aggregates, false)) {
      HistosHonest(wm.histograms, Histograms, o.histograms, mixed, cfg.aggregates, false, p);
    } else if p in Walk(wm.timers, o.timers, HistoPoints(mixed, cfg.aggregates, false)) {
      HistosHonest(wm.timers, Timers, o.timers, mixed, cfg.aggregates, false, p);
    } else if p in Walk(wm.localHistograms, o.localHistograms, HistoPoints(cfg.percentiles, cfg.aggregates, true)) {
      HistosHonest(wm.localHistograms, Histograms, o.localHistograms, cfg.percentiles, cfg.aggregates, true, p);
    } else if p in Walk(wm.localTimers, o.localTimers, HistoPoints(cfg.percentiles, cfg.aggregates, true)) {
      HistosHonest(wm.localTimers, Timers, o.localTimers, cfg.percentiles, cfg.aggregates, true, p);
    } else if p in Walk(wm.counters, o.counters, CounterPoints(false)) {
      OthersHonest(wm.counters, o.counters, CounterPoints(false), p);
    } else if p in Walk(wm.gauges, o.gauges, GaugePoints()) {
      OthersHonest(wm.gauges, o.gauges, GaugePoints(), p);
    } else if p in Walk(wm.localSets, o.localSets, SetPoints(true)) {
      SetsHonest(wm.localSets, o.localSets, true, p);
    } else if p in Walk(wm.localStatusChecks, o.localStatusChecks, StatusPoints()) {
      OthersHonest(wm.localStatusChecks, o.localStatusChecks, StatusPoints(), p);
    } else {
      GlobalHonest(wm, cfg, o, p);
    }
  }

  /**
    In every run, every median and every percentile ever published lies between
    the least and the greatest of the samples behind it, wherever these were taken,
    and every set ever published consists of the members sampled.
   */
  lemma {:induction false} AnswersBetweenSamples(net: Topology, states: seq<System>, steps: seq<Step>, t: nat,
      n: nat, p: Point)
    requires Run(net, states, steps) && t < |states|
    requires n < |states[t].published| && p in states[t].published[n].points
    ensures Honest(p)
    decreases t
  {
    hide Invariant, Enabled, Shaped, Honest, Published, Forwarded, OrdersOf, Kept, Processed, Imported;
    if t > 0 {
      var s := states[t - 1];
      assert Leads(net, s, steps[t - 1], states[t]);
      if n < |s.published| {
        PublishedStays(net, s, steps[t - 1], n);
        AnswersBetweenSamples(net, states, steps, t - 1, n, p);
      } else {
        RunInvariant(net, states, steps, t - 1);
        NewlyPublished(net, s, steps[t - 1], n, p);
      }
    }
  }

  lemma PublishedStays(net: Topology, s: System, step: Step, n: nat)
    requires Shaped(net, s) && Enabled(net, s, step) && n < |s.published|
    ensures n < |After(net, s, step).published| && After(net, s, step).published[n] == s.published[n]
  {
    hide Published, Forwarded, OrdersOf, Processed, Imported, Sampled, Combined, WellFormed;
  }

  lemma NewlyPublished(net: Topology, s: System, step: Step, n: nat, p: Point)
    requires Invariant(net, s) && Enabled(net, s, step) && n >= |s.published|
    requires n < |After(net, s, step).published| && p in After(net, s, step).published[n].points
    ensures Honest(p)
  {
    hide Published, Forwarded, OrdersOf, Processed, Imported, Sampled, Combined, WellFormed, Honest, Homed, Kept, Sound;
    match step
    case Flush(i, w, o) => FlushHonest(s.workers[i][w], ConfigOf(net[i]), o, p);
    case _ =>
  }
}
