/** Gauges and status checks: the last sample counts, in every run. */
module Levels {
  import opened Digests
  import opened Options
  import opened Text
  import opened Floating
  import opened Samplers
  import opened Sums
  import opened Worker
  import opened Flusher
  import opened FlushLaws
  import opened Network
  import opened Quantities

  /** Whether a sample goes to an instance's own gauge or status check under a key. */
  predicate Belongs(x: Sampling, i: nat, k: MetricKey) {
    x.instance == i && x.metric.key == k && (k.kind.Gauges? ==> !x.metric.scope.GlobalOnly?)
  }

  /** The last of the samples that did. */
  function LastSampled(sampled: seq<Sampling>, i: nat, k: MetricKey): Option<UDPMetric> {
    if sampled == [] then None
    else
      var n := |sampled| - 1;
      if Belongs(sampled[n], i, k) then Some(sampled[n].metric) else LastSampled(sampled[..n], i, k)
  }

  /** A gauge has the level of the last sample, a status check its status, message and host. */
  predicate Latest(wm: WorkerMetrics, sampled: seq<Sampling>, i: nat, k: MetricKey) {
    var last := LastSampled(sampled, i, k);
    && (k in wm.gauges ==> last.Some? && last.value.value == Number(wm.gauges[k].value))
    && (k in wm.localStatusChecks ==>
          var check := wm.localStatusChecks[k];
          && last.Some? && last.value.value == Status(check.value)
          && last.value.message == check.message && last.value.hostName == check.hostName)
  }

  /** A global gauge has a level that was sampled, here or elsewhere, under that key and as global. */
  ghost predicate Taken(sampled: seq<Sampling>, k: MetricKey, level: Float) {
    exists x :: x in sampled && x.metric.key == k && x.metric.scope.GlobalOnly? && x.metric.value == Number(level)
  }

  ghost predicate GlobalsTaken(wm: WorkerMetrics, sampled: seq<Sampling>) {
    forall k :: k in wm.globalGauges ==> Taken(sampled, k, wm.globalGauges[k].value)
  }

  ghost predicate WorkerLevelled(wm: WorkerMetrics, sampled: seq<Sampling>, i: nat) {
    (forall k :: Latest(wm, sampled, i, k)) && GlobalsTaken(wm, sampled)
  }

  ghost predicate WorkersLevelled(s: System) {
    forall i: nat, w: nat :: i < |s.workers| && w < |s.workers[i]| ==>
      WorkerLevelled(s.workers[i][w], s.sampled, i)
  }

  /** Gauges under way have been sampled; status checks are never under way. */
  ghost predicate Travels(j: JSONMetric, sampled: seq<Sampling>) {
    !j.key.kind.Statuses? && (j.key.kind.Gauges? ==> j.value.GaugeValue? && Taken(sampled, j.key, j.value.level))
  }

  ghost predicate FlightTaken(s: System) {
    forall n :: 0 <= n < |s.flight| ==> Travels(s.flight[n].metric, s.sampled)
  }

  ghost predicate Levelled(s: System) {
    WorkersLevelled(s) && FlightTaken(s)
  }

  // ---- One more sample

  lemma LastOneMore(sampled: seq<Sampling>, x: Sampling, i: nat, k: MetricKey)
    ensures LastSampled(sampled + [x], i, k) == if Belongs(x, i, k) then Some(x.metric) else LastSampled(sampled, i, k)
  {
    hide Belongs;
    assert (sampled + [x])[..|sampled|] == sampled;
  }

  lemma TakenStill(sampled: seq<Sampling>, x: Sampling, k: MetricKey, level: Float)
    requires Taken(sampled, k, level)
    ensures Taken(sampled + [x], k, level)
  {
    var y :| y in sampled && y.metric.key == k && y.metric.scope.GlobalOnly? && y.metric.value == Number(level);
    assert y in sampled + [x];
  }

  lemma TakenNow(sampled: seq<Sampling>, x: Sampling)
    requires x.metric.scope.GlobalOnly? && x.metric.value.Number?
    ensures Taken(sampled + [x], x.metric.key, x.metric.value.number)
  {
    assert (sampled + [x])[|sampled|] == x;
  }

  lemma ProcessedLevels(wm: WorkerMetrics, m: UDPMetric, e: Encoded)
    ensures var g, global, p := m.key.kind.Gauges?, m.scope.GlobalOnly?, Processed(wm, m, e);
            && p.gauges == Updated(wm.gauges, g && !global, m.key, GaugeAfter(wm.gauges, m))
            && p.globalGauges == Updated(wm.globalGauges, g && global, m.key, GaugeAfter(wm.globalGauges, m))
            && p.localStatusChecks
               == Updated(wm.localStatusChecks, m.key.kind.Statuses?, m.key, StatusAfter(wm.localStatusChecks, m))
  {
  }

  lemma ImportedLevels(wm: WorkerMetrics, j: JSONMetric, e: Encoded)
    requires !j.key.kind.Statuses?
    ensures var p := Imported(wm, j, e);
            && p.gauges == wm.gauges && p.localStatusChecks == wm.localStatusChecks
            && p.globalGauges == Updated(wm.globalGauges, j.key.kind.Gauges?, j.key,
                 CombineGauge(At(wm.globalGauges, j.key, Gauge(j.key.name, j.tags, Finite(0.0))), j.value))
  {
  }

  /** The worker that takes the sample. */
  lemma SampledLatest(wm: WorkerMetrics, m: UDPMetric, e: Encoded, sampled: seq<Sampling>, i: nat, k: MetricKey)
    requires Kept(wm) && WellFormed(m) && Latest(wm, sampled, i, k)
    ensures Latest(Processed(wm, m, e), sampled + [Sampling(i, m)], i, k)
  {
    hide Processed, WellFormed, HistosNamed, SetsNamed, CountersNamed, LastSampled, Join;
    ProcessedLevels(wm, m, e);
    WellFormedAddable(m);
    LastOneMore(sampled, Sampling(i, m), i, k);
  }

  /** Any other worker, which holds no entry under that key if it is of the same instance. */
  lemma OtherLatest(wm: WorkerMetrics, x: Sampling, sampled: seq<Sampling>, i: nat, k: MetricKey)
    requires Latest(wm, sampled, i, k) && (x.instance == i ==> !Holds(wm, x.metric.key))
    ensures Latest(wm, sampled + [x], i, k)
  {
    hide LastSampled;
    LastOneMore(sampled, x, i, k);
  }

  lemma SampledTaken(wm: WorkerMetrics, m: UDPMetric, e: Encoded, sampled: seq<Sampling>, i: nat)
    requires WellFormed(m) && GlobalsTaken(wm, sampled)
    ensures GlobalsTaken(Processed(wm, m, e), sampled + [Sampling(i, m)])
  {
    hide Processed, WellFormed, Taken;
    var x := Sampling(i, m);
    ProcessedLevels(wm, m, e);
    WellFormedAddable(m);
    forall k | k in Processed(wm, m, e).globalGauges
      ensures Taken(sampled + [x], k, Processed(wm, m, e).globalGauges[k].value)
    {
      if k == m.key && m.key.kind.Gauges? && m.scope.GlobalOnly? {
        TakenNow(sampled, x);
      } else {
        TakenStill(sampled, x, k, wm.globalGauges[k].value);
      }
    }
  }

  lemma OtherTaken(wm: WorkerMetrics, x: Sampling, sampled: seq<Sampling>)
    requires GlobalsTaken(wm, sampled)
    ensures GlobalsTaken(wm, sampled + [x])
  {
    hide Taken;
    forall k | k in wm.globalGauges
      ensures Taken(sampled + [x], k, wm.globalGauges[k].value)
    {
      TakenStill(sampled, x, k, wm.globalGauges[k].value);
    }
  }

  lemma FlightStill(s: System, x: Sampling)
    requires FlightTaken(s)
    ensures FlightTaken(s.(sampled := s.sampled + [x]))
  {
    hide Taken;
    forall n | 0 <= n < |s.flight|
      ensures Travels(s.flight[n].metric, s.sampled + [x])
    {
      var j := s.flight[n].metric;
      if j.key.kind.Gauges? {
        TakenStill(s.sampled, x, j.key, j.value.level);
      }
    }
  }

  lemma TakerLevelled(wm: WorkerMetrics, m: UDPMetric, e: Encoded, sampled: seq<Sampling>, i: nat)
    requires Kept(wm) && WellFormed(m) && WorkerLevelled(wm, sampled, i)
    ensures WorkerLevelled(Processed(wm, m, e), sampled + [Sampling(i, m)], i)
  {
    hide Latest, GlobalsTaken, Kept, WellFormed, Processed;
    forall k
      ensures Latest(Processed(wm, m, e), sampled + [Sampling(i, m)], i, k)
    {
      SampledLatest(wm, m, e, sampled, i, k);
    }
    SampledTaken(wm, m, e, sampled, i);
  }

  lemma OtherLevelled(wm: WorkerMetrics, x: Sampling, sampled: seq<Sampling>, i: nat)
    requires WorkerLevelled(wm, sampled, i) && (x.instance == i ==> !Holds(wm, x.metric.key))
    ensures WorkerLevelled(wm, sampled + [x], i)
  {
    hide Latest, GlobalsTaken, Holds;
    forall k
      ensures Latest(wm, sampled + [x], i, k)
    {
      OtherLatest(wm, x, sampled, i, k);
    }
    OtherTaken(wm, x, sampled);
  }

  lemma SampleLevelled(net: Topology, s: System, i: nat, m: UDPMetric, e: Encoded)
    requires Invariant(net, s) && Levelled(s) && Enabled(net, s, Sample(i, m, e))
    ensures Levelled(AfterSample(net, s, i, m, e))
  {
    hide WorkerLevelled, Kept, Processed, FateOf, Sampled, Holds, FlightSound, KeyHash, FlightTaken;
    var x, home := Sampling(i, m), Home(m, net[i]);
    var t := AfterSample(net, s, i, m, e);
    assert home == Route(m.key, net[i].workers);
    PutShape(s.workers, i, home, Processed(s.workers[i][home], m, e));
    forall n: nat, w: nat | n < |t.workers| && w < |t.workers[n]|
      ensures WorkerLevelled(t.workers[n][w], t.sampled, n)
    {
      var wm := s.workers[n][w];
      if n == i && w == home {
        TakerLevelled(wm, m, e, s.sampled, i);
      } else {
        OtherLevelled(wm, x, s.sampled, n);
      }
    }
    FlightStill(s, x);
    FlightSame(s.(sampled := t.sampled), t);
  }

  lemma FlightSame(s: System, t: System)
    requires FlightTaken(s) && t.flight == s.flight && t.sampled == s.sampled
    ensures FlightTaken(t)
  {
    hide Travels;
  }

  // ---- The other steps

  lemma ImportedTaken(wm: WorkerMetrics, j: JSONMetric, e: Encoded, sampled: seq<Sampling>)
    requires GlobalsTaken(wm, sampled) && Travels(j, sampled)
    ensures GlobalsTaken(Imported(wm, j, e), sampled)
  {
    hide Imported, Taken;
    ImportedLevels(wm, j, e);
  }

  lemma ImporterLevelled(wm: WorkerMetrics, j: JSONMetric, e: Encoded, sampled: seq<Sampling>, i: nat)
    requires WorkerLevelled(wm, sampled, i) && Travels(j, sampled)
    ensures WorkerLevelled(Imported(wm, j, e), sampled, i)
  {
    hide Imported, LastSampled, GlobalsTaken, Taken;
    ImportedLevels(wm, j, e);
    ImportedTaken(wm, j, e, sampled);
    forall k
      ensures Latest(Imported(wm, j, e), sampled, i, k)
    {
      assert Latest(wm, sampled, i, k);
    }
  }

  lemma DeliverLevelled(net: Topology, s: System, n: nat, d: nat, e: Encoded)
    requires Invariant(net, s) && Levelled(s) && Enabled(net, s, Deliver(n, d, e))
    ensures Levelled(AfterDeliver(net, s, n, d, e))
  {
    hide WorkerLevelled, Travels, Kept, Homed, Imported, Combined, FlightSound, KeyHash;
    var j, t := s.flight[n].metric, AfterDeliver(net, s, n, d, e);
    var home := Route(j.key, net[d].workers);
    assert Travels(j, s.sampled);
    forall i: nat, w: nat | i < |t.workers| && w < |t.workers[i]|
      ensures WorkerLevelled(t.workers[i][w], t.sampled, i)
    {
      if i == d && w == home {
        ImporterLevelled(s.workers[i][w], j, e, s.sampled, i);
      }
    }
  }

  lemma ForwardedTravels(wm: WorkerMetrics, o: Orders, sampled: seq<Sampling>, j: JSONMetric)
    requires Kept(wm) && GlobalsTaken(wm, sampled) && OrdersOf(o, wm) && j in Forwarded(wm, o)
    ensures Travels(j, sampled)
  {
    hide Kept, OrdersOf, Forwarded, Taken, Sound;
    ForwardedSound(wm, o, j);
  }

  lemma FlushLevelled(net: Topology, s: System, i: nat, w: nat, o: Orders)
    requires Invariant(net, s) && Levelled(s) && Enabled(net, s, Flush(i, w, o))
    ensures Levelled(AfterFlush(net, s, i, w, o))
  {
    hide Latest, GlobalsTaken, Kept, Homed, Forwarded, Published, OrdersOf, Posted, Travels, FlightSound;
    var wm, t := s.workers[i][w], AfterFlush(net, s, i, w, o);
    var js := Forwarded(wm, o);
    PostedAt(i, js);
    assert WorkerLevelled(wm, s.sampled, i);
    forall n | 0 <= n < |js|
      ensures Travels(js[n], s.sampled)
    {
      ForwardedTravels(wm, o, s.sampled, js[n]);
    }
    forall n: nat, x: nat | n < |t.workers| && x < |t.workers[n]|
      ensures WorkerLevelled(t.workers[n][x], t.sampled, n)
    {
      EmptyLevelled(s.sampled, n);
      assert WorkerLevelled(s.workers[n][x], s.sampled, n);
    }
  }

  lemma EmptyLevelled(sampled: seq<Sampling>, i: nat)
    ensures WorkerLevelled(EMPTY, sampled, i)
  {
  }

  lemma StepLevelled(net: Topology, s: System, step: Step)
    requires Invariant(net, s) && Levelled(s) && Enabled(net, s, step)
    ensures Levelled(After(net, s, step))
  {
    hide AfterSample, AfterFlush, AfterDeliver, WorkerLevelled, Travels, Invariant;
    match step
    case Sample(i, m, e) => SampleLevelled(net, s, i, m, e);
    case Flush(i, w, o) => FlushLevelled(net, s, i, w, o);
    case Deliver(n, d, e) => DeliverLevelled(net, s, n, d, e);
    case Drop(n) =>
  }

  lemma StartLevelled(net: Topology)
    requires ValidTopology(net)
    ensures Levelled(Start(net))
  {
    hide WorkerLevelled, IdleFrom, Idle;
    var workers := IdleFrom(net);
    IdleFromAt(net, 0);
    forall i: nat, w: nat | i < |workers| && w < |workers[i]|
      ensures WorkerLevelled(workers[i][w], [], i)
    {
      IdleFromAt(net, i);
      IdleAt(net[i].workers, w);
      EmptyLevelled([], i);
    }
  }

  /**
    In every reachable state, every gauge an instance holds for itself has the level of
    the last sample it took under that key, and every status check the status, message
    and host; every global gauge, held or under way, has a level that was sampled.
   */
  lemma {:induction false} LastSampleCounts(net: Topology, states: seq<System>, steps: seq<Step>, t: nat)
    requires Run(net, states, steps) && t < |states|
    ensures Levelled(states[t])
  {
    hide Invariant, After, Enabled, Shaped, Start, Levelled;
    if t == 0 {
      StartLevelled(net);
    } else {
      LastSampleCounts(net, states, steps, t - 1);
      RunInvariant(net, states, steps, t - 1);
      assert Leads(net, states[t - 1], steps[t - 1], states[t]);
      StepLevelled(net, states[t - 1], steps[t - 1]);
    }
  }

  // ---- What is published

  /** What a flush shows of gauges and status checks is what the worker held. */
  predicate ShowsHeld(wm: WorkerMetrics, isLocal: bool, p: Point) {
    && (p.GaugePoint? ==>
          || (p.key in wm.gauges && p.last == wm.gauges[p.key].value)
          || (!isLocal && p.key in wm.globalGauges && p.last == wm.globalGauges[p.key].value))
    && (p.StatusPoint? ==> p.key in wm.localStatusChecks && p.check == wm.localStatusChecks[p.key])
  }

  /** Walks whose points are of other samplers. */
  lemma OthersShow<V>(m: map<MetricKey, V>, order: seq<MetricKey>, f: (MetricKey, V) -> seq<Point>, wm: WorkerMetrics,
                      isLocal: bool, p: Point)
    requires Visits(order, m) && p in Walk(m, order, f)
    requires forall k, r :: k in m && r in f(k, m[k]) ==> !r.GaugePoint? && !r.StatusPoint?
    ensures ShowsHeld(wm, isLocal, p)
  {
    hide Walk;
    WalkMember(m, order, f, p);
  }

  lemma HistosShow(m: map<MetricKey, Histo>, order: seq<MetricKey>, ps: seq<real>, aggregates: set<Aggregate>,
                   scoped: bool, wm: WorkerMetrics, isLocal: bool, p: Point)
    requires Visits(order, m) && p in Walk(m, order, HistoPoints(ps, aggregates, scoped))
    ensures ShowsHeld(wm, isLocal, p)
  {
    hide Walk, HistoPoints;
    WalkMember(m, order, HistoPoints(ps, aggregates, scoped), p);
    var k :| k in m && p in HistoPoints(ps, aggregates, scoped)(k, m[k]);
    HistoPointIn(ps, aggregates, scoped, k, m[k], p);
  }

  lemma GlobalShows(wm: WorkerMetrics, cfg: Config, o: Orders, p: Point)
    requires OrdersOf(o, wm) && p in GlobalPoints(wm, cfg, o)
    ensures ShowsHeld(wm, cfg.isLocal, p)
  {
    hide Walk, Visits;
    OrdersInside(o, wm);
    if p in Walk(wm.sets, o.sets, SetPoints(false)) {
      OthersShow(wm.sets, o.sets, SetPoints(false), wm, cfg.isLocal, p);
    } else if p in Walk(wm.globalCounters, o.globalCounters, CounterPoints(true)) {
      OthersShow(wm.globalCounters, o.globalCounters, CounterPoints(true), wm, cfg.isLocal, p);
    } else {
      WalkMember(wm.globalGauges, o.globalGauges, GaugePoints(), p);
    }
  }

  lemma FlushShows(wm: WorkerMetrics, cfg: Config, o: Orders, p: Point)
    requires OrdersOf(o, wm) && p in Published(wm, cfg, o)
    ensures ShowsHeld(wm, cfg.isLocal, p)
  {
    hide Walk, HistoPoints, Visits, ShowsHeld, MixedPercentiles, GlobalPoints;
    OrdersInside(o, wm);
    var mixed := MixedPercentiles(cfg);
    if p in Walk(wm.histograms, o.histograms, HistoPoints(mixed, cfg.aggregates, false)) {
      HistosShow(wm.histograms, o.histograms, mixed, cfg.aggregates, false, wm, cfg.isLocal, p);
    } else if p in Walk(wm.timers, o.timers, HistoPoints(mixed, cfg.aggregates, false)) {
      HistosShow(wm.timers, o.timers, mixed, cfg.aggregates, false, wm, cfg.isLocal, p);
    } else if p in Walk(wm.localHistograms, o.localHistograms, HistoPoints(cfg.percentiles, cfg.aggregates, true)) {
      HistosShow(wm.localHistograms, o.localHistograms, cfg.percentiles, cfg.aggregates, true, wm, cfg.isLocal, p);
    } else if p in Walk(wm.localTimers, o.localTimers, HistoPoints(cfg.percentiles, cfg.aggregates, true)) {
      HistosShow(wm.localTimers, o.localTimers, cfg.percentiles, cfg.aggregates, true, wm, cfg.isLocal, p);
    } else if p in Walk(wm.counters, o.counters, CounterPoints(false)) {
      OthersShow(wm.counters, o.counters, CounterPoints(false), wm, cfg.isLocal, p);
    } else if p in Walk(wm.gauges, o.gauges, GaugePoints()) {
      GaugeShown(wm, cfg.isLocal, o.gauges, p);
    } else if p in Walk(wm.localSets, o.localSets, SetPoints(true)) {
      OthersShow(wm.localSets, o.localSets, SetPoints(true), wm, cfg.isLocal, p);
    } else if p in Walk(wm.localStatusChecks, o.localStatusChecks, StatusPoints()) {
      StatusShown(wm, cfg.isLocal, o.localStatusChecks, p);
    } else {
      GlobalShows(wm, cfg, o, p);
    }
  }

  lemma GaugeShown(wm: WorkerMetrics, isLocal: bool, order: seq<MetricKey>, p: Point)
    requires Visits(order, wm.gauges) && p in Walk(wm.gauges, order, GaugePoints())
    ensures ShowsHeld(wm, isLocal, p)
  {
    hide Walk;
    WalkMember(wm.gauges, order, GaugePoints(), p);
  }

  lemma StatusShown(wm: WorkerMetrics, isLocal: bool, order: seq<MetricKey>, p: Point)
    requires Visits(order, wm.localStatusChecks) && p in Walk(wm.localStatusChecks, order, StatusPoints())
    ensures ShowsHeld(wm, isLocal, p)
  {
    hide Walk;
    WalkMember(wm.localStatusChecks, order, StatusPoints(), p);
  }

  /**
    In every run, a flush publishes gauges at the level last sampled there; an instance
    without parents also publishes global ones, at a level sampled somewhere. Status
    checks are published as last sampled.
   */
  lemma {:induction false} FlushShowsLast(net: Topology, states: seq<System>, steps: seq<Step>, t: nat, i: nat, w: nat,
      o: Orders, p: Point)
    requires Run(net, states, steps) && t < |steps| && steps[t] == Flush(i, w, o)
    requires |states[t + 1].published| > 0 && p in states[t + 1].published[|states[t + 1].published| - 1].points
    ensures var sampled := states[t].sampled;
            var last := LastSampled(sampled, i, p.key);
            && (p.GaugePoint? ==>
                  || (last.Some? && last.value.value == Number(p.last))
                  || (net[i].parents == [] && Taken(sampled, p.key, p.last)))
            && (p.StatusPoint? ==>
                  && last.Some? && last.value.value == Status(p.check.value)
                  && last.value.message == p.check.message && last.value.hostName == p.check.hostName)
  {
    hide Invariant, Published, Forwarded, OrdersOf, Taken, LastSampled, Processed, Imported, Sampled, Combined, Posted;
    var s := states[t];
    assert Leads(net, s, steps[t], states[t + 1]);
    LastSampleCounts(net, states, steps, t);
    var wm := s.workers[i][w];
    assert WorkerLevelled(wm, s.sampled, i);
    assert Latest(wm, s.sampled, i, p.key);
    FlushShows(wm, ConfigOf(net[i]), o, p);
  }
}
