/**
  A network of instances: clients sample into them, workers flush at any time,
  forwarded metrics travel one by one and arrive in any order or never.
 */
module Network {
  import opened Digests
  import opened Samplers
  import opened Worker
  import opened Flusher
  import opened FlushLaws

  /** With parents an instance forwards to one of them per metric; without, it is global. arc is its digests' scale. */
  datatype Instance = Instance(
    workers: nat, parents: seq<nat>, percentiles: seq<real>, aggregates: set<Aggregate>, arc: real -> real)

  type Topology = seq<Instance>

  predicate ValidTopology(net: Topology) {
    forall i :: 0 <= i < |net| ==>
      net[i].workers > 0 && forall p :: p in net[i].parents ==> p < |net|
  }

  function ConfigOf(x: Instance): Config {
    Config(x.parents != [], x.percentiles, x.aggregates)
  }

  datatype Message = Message(source: nat, metric: JSONMetric)

  datatype Sampling = Sampling(instance: nat, metric: UDPMetric)

  datatype Publication = Publication(instance: nat, points: seq<Point>)

  /** The workers' maps, the metrics under way, and everything that ever happened. */
  datatype System = System(
    workers: seq<seq<WorkerMetrics>>, flight: seq<Message>,
    sampled: seq<Sampling>, dropped: seq<JSONMetric>, published: seq<Publication>)

  /** A sample or a delivery comes with the digest it leaves, any that adding or merging may leave. */
  datatype Step =
    | Sample(instance: nat, metric: UDPMetric, digest: Encoded)
    | Flush(instance: nat, worker: nat, orders: Orders)
    | Deliver(message: nat, instance: nat, digest: Encoded)
    | Drop(message: nat)

  function Idle(n: nat): seq<WorkerMetrics> {
    if n == 0 then [] else [EMPTY] + Idle(n - 1)
  }

  function IdleFrom(net: Topology): seq<seq<WorkerMetrics>> {
    if net == [] then [] else [Idle(net[0].workers)] + IdleFrom(net[1..])
  }

  function Start(net: Topology): System {
    System(IdleFrom(net), [], [], [], [])
  }

  /** The worker that a metric's digest picks. */
  function Home(m: UDPMetric, x: Instance): nat
    requires x.workers > 0
  {
    m.digest as nat % x.workers
  }

  ghost predicate Enabled(net: Topology, s: System, step: Step) {
    match step
    case Sample(i, m, e) =>
      && i < |net| && i < |s.workers| && WellFormed(m)
      && net[i].workers > 0 && Home(m, net[i]) < |s.workers[i]|
      && Sampled(net[i].arc, s.workers[i][Home(m, net[i])], m, e)
    case Flush(i, w, o) => i < |net| && i < |s.workers| && w < |s.workers[i]| && OrdersOf(o, s.workers[i][w])
    case Deliver(n, d, e) =>
      && n < |s.flight| && s.flight[n].source < |net| && d in net[s.flight[n].source].parents
      && d < |net| && d < |s.workers| && net[d].workers > 0
      && Route(s.flight[n].metric.key, net[d].workers) < |s.workers[d]|
      && Combined(net[d].arc, s.workers[d][Route(s.flight[n].metric.key, net[d].workers)], s.flight[n].metric, e)
    case Drop(n) => n < |s.flight|
  }

  function Posted(source: nat, js: seq<JSONMetric>): seq<Message> {
    if js == [] then [] else [Message(source, js[0])] + Posted(source, js[1..])
  }

  function Without<T>(s: seq<T>, n: nat): seq<T>
    requires n < |s|
  {
    s[..n] + s[n + 1..]
  }

  ghost predicate Shaped(net: Topology, s: System) {
    && ValidTopology(net)
    && |s.workers| == |net|
    && (forall i :: 0 <= i < |net| ==> |s.workers[i]| == net[i].workers)
    && (forall n :: 0 <= n < |s.flight| ==> s.flight[n].source < |net|)
  }

  function Put(workers: seq<seq<WorkerMetrics>>, i: nat, w: nat, wm: WorkerMetrics): seq<seq<WorkerMetrics>>
    requires i < |workers| && w < |workers[i]|
  {
    workers[i := workers[i][w := wm]]
  }

  /** A sample goes to the worker its digest picks. */
  ghost function AfterSample(net: Topology, s: System, i: nat, m: UDPMetric, e: Encoded): System
    requires Shaped(net, s) && Enabled(net, s, Sample(i, m, e))
  {
    var w := Home(m, net[i]);
    s.(workers := Put(s.workers, i, w, Processed(s.workers[i][w], m, e)), sampled := s.sampled + [Sampling(i, m)])
  }

  /** A flushed worker starts over; its maps are published, and forwarded where there is a parent. */
  ghost function AfterFlush(net: Topology, s: System, i: nat, w: nat, o: Orders): System
    requires Shaped(net, s) && Enabled(net, s, Flush(i, w, o))
  {
    var wm := s.workers[i][w];
    s.(workers := Put(s.workers, i, w, EMPTY),
       flight := if net[i].parents != [] then s.flight + Posted(i, Forwarded(wm, o)) else s.flight,
       published := s.published + [Publication(i, Published(wm, ConfigOf(net[i]), o))])
  }

  /** An arriving metric goes to the worker the hash of its name, type and tags picks. */
  ghost function AfterDeliver(net: Topology, s: System, n: nat, d: nat, e: Encoded): System
    requires Shaped(net, s) && Enabled(net, s, Deliver(n, d, e))
  {
    var j := s.flight[n].metric;
    var w := Route(j.key, net[d].workers);
    s.(workers := Put(s.workers, d, w, Imported(s.workers[d][w], j, e)), flight := Without(s.flight, n))
  }

  function AfterDrop(s: System, n: nat): System
    requires n < |s.flight|
  {
    s.(flight := Without(s.flight, n), dropped := s.dropped + [s.flight[n].metric])
  }

  ghost function After(net: Topology, s: System, step: Step): System
    requires Shaped(net, s) && Enabled(net, s, step)
  {
    match step
    case Sample(i, m, e) => AfterSample(net, s, i, m, e)
    case Flush(i, w, o) => AfterFlush(net, s, i, w, o)
    case Deliver(n, d, e) => AfterDeliver(net, s, n, d, e)
    case Drop(n) => AfterDrop(s, n)
  }

  // ---- What every step keeps

  predicate Holds(wm: WorkerMetrics, k: MetricKey) {
    || k in wm.counters || k in wm.gauges || k in wm.histograms || k in wm.sets || k in wm.timers
    || k in wm.globalCounters || k in wm.globalGauges || k in wm.localHistograms || k in wm.localSets
    || k in wm.localTimers || k in wm.localStatusChecks
  }

  /** A worker holds only keys that its instance routes to it. */
  ghost predicate Homed(wm: WorkerMetrics, w: nat, workers: nat) {
    workers > 0 && forall k :: Holds(wm, k) ==> Route(k, workers) == w
  }

  ghost predicate WorkersKept(net: Topology, workers: seq<seq<WorkerMetrics>>) {
    forall i, w :: 0 <= i < |workers| && 0 <= w < |workers[i]| && i < |net| ==>
      Kept(workers[i][w]) && Homed(workers[i][w], w, net[i].workers)
  }

  ghost predicate FlightSound(flight: seq<Message>) {
    forall n :: 0 <= n < |flight| ==> Sound(flight[n].metric)
  }

  ghost predicate Invariant(net: Topology, s: System) {
    Shaped(net, s) && WorkersKept(net, s.workers) && FlightSound(s.flight)
  }

  lemma {:induction false} IdleAt(n: nat, w: nat)
    ensures |Idle(n)| == n
    ensures w < n ==> Idle(n)[w] == EMPTY
  {
    if n > 0 {
      IdleAt(n - 1, if w > 0 then w - 1 else 0);
    }
  }

  lemma {:induction false} IdleFromAt(net: Topology, i: nat)
    ensures |IdleFrom(net)| == |net|
    ensures i < |net| ==> IdleFrom(net)[i] == Idle(net[i].workers)
  {
    if net != [] {
      IdleFromAt(net[1..], if i > 0 then i - 1 else 0);
    }
  }

  lemma IdleEverywhere(net: Topology, i: nat, w: nat)
    requires i < |net| && w < net[i].workers
    ensures |IdleFrom(net)| == |net| && |IdleFrom(net)[i]| == net[i].workers && IdleFrom(net)[i][w] == EMPTY
  {
    IdleFromAt(net, i);
    IdleAt(net[i].workers, w);
  }

  lemma StartInvariant(net: Topology)
    requires ValidTopology(net)
    ensures Invariant(net, Start(net))
  {
    hide Idle, IdleFrom, KeyHash;
    var workers := IdleFrom(net);
    IdleFromAt(net, 0);
    forall i | 0 <= i < |net|
      ensures |workers[i]| == net[i].workers
    {
      IdleEverywhere(net, i, 0);
    }
    forall i, w | 0 <= i < |net| && 0 <= w < |workers[i]|
      ensures workers[i][w] == EMPTY
    {
      IdleEverywhere(net, i, w);
    }
    assert Kept(EMPTY);
    assert forall k :: !Holds(EMPTY, k);
  }

  lemma ProcessedHolds(wm: WorkerMetrics, m: UDPMetric, e: Encoded, k: MetricKey)
    requires !Holds(wm, k) && k != m.key
    ensures !Holds(Processed(wm, m, e), k)
  {
    hide CounterAfter, GaugeAfter, HistoAfter, SetAfter, StatusAfter, At;
  }

  lemma ImportedHolds(wm: WorkerMetrics, j: JSONMetric, e: Encoded, k: MetricKey)
    requires !Holds(wm, k) && k != j.key
    ensures !Holds(Imported(wm, j, e), k)
  {
    hide CombineCounter, CombineGauge, CombineSet, CombineHisto, NewHisto, At;
  }

  lemma EmptyKept(w: nat, workers: nat)
    requires workers > 0
    ensures Kept(EMPTY) && Homed(EMPTY, w, workers)
  {
    assert forall k :: !Holds(EMPTY, k);
  }

  lemma PutShape(workers: seq<seq<WorkerMetrics>>, i: nat, w: nat, wm: WorkerMetrics)
    requires i < |workers| && w < |workers[i]|
    ensures |Put(workers, i, w, wm)| == |workers|
    ensures forall n :: 0 <= n < |workers| ==> |Put(workers, i, w, wm)[n]| == |workers[n]|
  {
  }

  lemma PutKept(net: Topology, workers: seq<seq<WorkerMetrics>>, i: nat, w: nat, wm: WorkerMetrics)
    requires WorkersKept(net, workers) && i < |workers| && w < |workers[i]| && i < |net|
    requires Kept(wm) && Homed(wm, w, net[i].workers)
    ensures WorkersKept(net, Put(workers, i, w, wm))
  {
    hide Kept, Homed;
  }

  lemma {:induction false} PostedAt(source: nat, js: seq<JSONMetric>)
    ensures |Posted(source, js)| == |js|
    ensures forall n :: 0 <= n < |js| ==> Posted(source, js)[n] == Message(source, js[n])
  {
    if js != [] {
      PostedAt(source, js[1..]);
    }
  }

  lemma SampleKeeps(net: Topology, s: System, i: nat, m: UDPMetric, e: Encoded)
    requires Invariant(net, s) && Enabled(net, s, Sample(i, m, e))
    ensures Invariant(net, AfterSample(net, s, i, m, e))
  {
    hide Kept, Processed, Holds, KeyHash, FlightSound, Sampled;
    var w := Home(m, net[i]);
    assert w == Route(m.key, net[i].workers);
    var held := s.workers[i][w];
    ProcessedKept(net[i].arc, held, m, e);
    forall k | Holds(Processed(held, m, e), k)
      ensures Route(k, net[i].workers) == w
    {
      if !Holds(held, k) && k != m.key {
        ProcessedHolds(held, m, e, k);
      }
    }
    PutKept(net, s.workers, i, w, Processed(held, m, e));
  }

  lemma DeliverKeeps(net: Topology, s: System, n: nat, d: nat, e: Encoded)
    requires Invariant(net, s) && Enabled(net, s, Deliver(n, d, e))
    ensures Invariant(net, AfterDeliver(net, s, n, d, e))
  {
    hide Kept, Imported, Holds, KeyHash, Sound, Combined;
    var j := s.flight[n].metric;
    var w := Route(j.key, net[d].workers);
    var held := s.workers[d][w];
    ImportedKept(net[d].arc, held, j, e);
    forall k | Holds(Imported(held, j, e), k)
      ensures Route(k, net[d].workers) == w
    {
      if !Holds(held, k) && k != j.key {
        ImportedHolds(held, j, e, k);
      }
    }
    PutKept(net, s.workers, d, w, Imported(held, j, e));
  }

  lemma FlushKeeps(net: Topology, s: System, i: nat, w: nat, o: Orders)
    requires Invariant(net, s) && Enabled(net, s, Flush(i, w, o))
    ensures Invariant(net, AfterFlush(net, s, i, w, o))
  {
    hide Forwarded, Published, OrdersOf, Sound, Posted, Kept, Homed, Put;
    var wm := s.workers[i][w];
    var js := Forwarded(wm, o);
    EmptyKept(w, net[i].workers);
    PutShape(s.workers, i, w, EMPTY);
    PutKept(net, s.workers, i, w, EMPTY);
    PostedAt(i, js);
    forall n | 0 <= n < |js|
      ensures Sound(js[n])
    {
      ForwardedSound(wm, o, js[n]);
    }
  }

  /** Every step keeps every worker's maps in order and every key at home. */
  lemma {:induction false} StepKeeps(net: Topology, s: System, step: Step)
    requires Invariant(net, s) && Enabled(net, s, step)
    ensures Invariant(net, After(net, s, step))
  {
    hide WorkersKept, AfterSample, AfterFlush, AfterDeliver, Sound, OrdersOf;
    match step
    case Sample(i, m, e) => SampleKeeps(net, s, i, m, e);
    case Flush(i, w, o) => FlushKeeps(net, s, i, w, o);
    case Deliver(n, d, e) => DeliverKeeps(net, s, n, d, e);
    case Drop(n) =>
  }

  // ---- Runs

  /** The states a run of steps goes through, from the start. */
  ghost predicate Run(net: Topology, states: seq<System>, steps: seq<Step>) {
    && ValidTopology(net)
    && |states| == |steps| + 1
    && states[0] == Start(net)
    && forall t :: 0 <= t < |steps| ==> Leads(net, states[t], steps[t], states[t + 1])
  }

  ghost predicate Leads(net: Topology, s: System, step: Step, next: System) {
    Shaped(net, s) && Enabled(net, s, step) && next == After(net, s, step)
  }

  lemma {:induction false} RunInvariant(net: Topology, states: seq<System>, steps: seq<Step>, t: nat)
    requires Run(net, states, steps) && t < |states|
    ensures Invariant(net, states[t])
  {
    hide Invariant, After, Enabled, Shaped, Start;
    if t == 0 {
      StartInvariant(net);
    } else {
      RunInvariant(net, states, steps, t - 1);
      assert Leads(net, states[t - 1], steps[t - 1], states[t]);
      StepKeeps(net, states[t - 1], steps[t - 1]);
    }
  }

  /** In no reachable state do two workers of an instance hold the same key. */
  lemma {:induction false} OneWorkerPerKey(net: Topology, states: seq<System>, steps: seq<Step>, t: nat, i: nat,
      w: nat, x: nat, k: MetricKey)
    requires Run(net, states, steps) && t < |states| && i < |states[t].workers|
    requires w < |states[t].workers[i]| && x < |states[t].workers[i]|
    requires Holds(states[t].workers[i][w], k) && Holds(states[t].workers[i][x], k)
    ensures w == x
  {
    hide Run, Holds, Kept, KeyHash;
    RunInvariant(net, states, steps, t);
  }
}
