/**
  Conservation over runs: whatever every single step conserves, in the sense of
  Lawful, is conserved by every run of every network.
 */
module Ledger {
  import opened Digests
  import opened Samplers
  import opened Worker
  import opened Sums
  import opened Flusher
  import opened FlushLaws
  import opened Network

  /** How two totals are compared: equal, equal up to a multiple of a unit, or the first at least the second. */
  datatype Mode = Exactly | Modulo(unit: int) | AtLeast

  ghost predicate Multiple(x: real, unit: int) {
    exists n: int :: x == (n * unit) as real
  }

  ghost predicate Related(mode: Mode, a: real, b: real) {
    match mode
    case Exactly => a == b
    case Modulo(unit) => Multiple(a - b, unit)
    case AtLeast => a >= b
  }

  lemma MultipleAdd(x: real, y: real, unit: int)
    requires Multiple(x, unit) && Multiple(y, unit)
    ensures Multiple(x + y, unit)
  {
    var m: int :| x == (m * unit) as real;
    var n: int :| y == (n * unit) as real;
    assert x + y == ((m + n) * unit) as real;
  }

  lemma RelatedSelf(mode: Mode, a: real)
    ensures Related(mode, a, a)
  {
    if mode.Modulo? {
      assert a - a == (0 * mode.unit) as real;
    }
  }

  lemma RelatedAdd(mode: Mode, a: real, b: real, c: real, d: real)
    requires Related(mode, a, b) && Related(mode, c, d)
    ensures Related(mode, a + c, b + d)
  {
    if mode.Modulo? {
      MultipleAdd(a - b, c - d, mode.unit);
      assert (a - b) + (c - d) == (a + c) - (b + d);
    }
  }

  /**
    A quantity, as it is sampled at an instance, held by a worker of it, carried
    by a forwarded metric, and shown by a published point.
   */
  datatype Quantity = Quantity(
    sampled: nat -> UDPMetric -> real,
    held: nat -> WorkerMetrics -> real,
    carried: JSONMetric -> real,
    shown: nat -> Point -> real,
    mode: Mode)

  ghost predicate SamplingLaw(net: Topology, q: Quantity) {
    forall i: nat, wm, m, e :: i < |net| && WellFormed(m) && Kept(wm) ==>
      Related(q.mode, q.held(i)(wm) + q.sampled(i)(m), q.held(i)(Processed(wm, m, e)))
  }

  ghost predicate ImportLaw(net: Topology, q: Quantity) {
    forall i: nat, wm, j, e :: i < |net| && Sound(j) && Kept(wm) ==>
      Related(q.mode, q.held(i)(wm) + q.carried(j), q.held(i)(Imported(wm, j, e)))
  }

  /** What a flush of these maps gets out of the worker. */
  ghost function Flushed(x: Instance, q: Quantity, i: nat, wm: WorkerMetrics, o: Orders): real
    requires OrdersOf(o, wm)
  {
    Sum(q.shown(i), Published(wm, ConfigOf(x), o)) + (if x.parents != [] then Sum(q.carried, Forwarded(wm, o)) else 0.0)
  }

  ghost predicate FlushLaw(net: Topology, q: Quantity) {
    forall i: nat, wm, o :: i < |net| && Kept(wm) && OrdersOf(o, wm) ==>
      Related(q.mode, q.held(i)(wm), Flushed(net[i], q, i, wm, o))
  }

  ghost predicate Lawful(net: Topology, q: Quantity) {
    && (forall i: nat :: i < |net| ==> q.held(i)(EMPTY) == 0.0)
    && SamplingLaw(net, q) && ImportLaw(net, q) && FlushLaw(net, q)
  }

  // ---- Totals over a system

  function HeldFrom(q: Quantity, workers: seq<seq<WorkerMetrics>>, i: nat): real
    requires i <= |workers|
    decreases |workers| - i
  {
    if i == |workers| then 0.0 else Sum(q.held(i), workers[i]) + HeldFrom(q, workers, i + 1)
  }

  function SampledIn(q: Quantity): Sampling -> real {
    (x: Sampling) => q.sampled(x.instance)(x.metric)
  }

  function CarriedIn(q: Quantity): Message -> real {
    (x: Message) => q.carried(x.metric)
  }

  function ShownIn(q: Quantity): Publication -> real {
    (x: Publication) => Sum(q.shown(x.instance), x.points)
  }

  function Inputs(q: Quantity, s: System): real {
    Sum(SampledIn(q), s.sampled)
  }

  /** Held, under way, dropped and published. */
  function Outputs(q: Quantity, s: System): real {
    HeldFrom(q, s.workers, 0) + Sum(CarriedIn(q), s.flight) + Sum(q.carried, s.dropped) + Sum(ShownIn(q), s.published)
  }

  ghost predicate Balanced(q: Quantity, s: System) {
    Related(q.mode, Inputs(q, s), Outputs(q, s))
  }

  // ---- What the steps do to the totals

  lemma {:induction false} HeldPut(q: Quantity, workers: seq<seq<WorkerMetrics>>, i: nat, w: nat,
      wm: WorkerMetrics, n: nat)
    requires i < |workers| && w < |workers[i]| && n <= |workers|
    ensures HeldFrom(q, Put(workers, i, w, wm), n)
         == HeldFrom(q, workers, n) + (if n <= i then q.held(i)(wm) - q.held(i)(workers[i][w]) else 0.0)
    decreases |workers| - n
  {
    if n < |workers| {
      HeldPut(q, workers, i, w, wm, n + 1);
      if n == i {
        SumUpdate(q.held(i), workers[i], w, wm);
      }
    }
  }

  lemma {:induction false} HeldIdle(q: Quantity, net: Topology, i: nat)
    requires i <= |net|
    requires forall n: nat :: n < |net| ==> q.held(n)(EMPTY) == 0.0
    requires |IdleFrom(net)| == |net|
    ensures HeldFrom(q, IdleFrom(net), i) == 0.0
    decreases |net| - i
  {
    if i < |net| {
      IdleFromAt(net, i);
      var ws := IdleFrom(net)[i];
      forall w | 0 <= w < |ws|
        ensures q.held(i)(ws[w]) == 0.0
      {
        IdleAt(net[i].workers, w);
      }
      SumZero(q.held(i), ws);
      HeldIdle(q, net, i + 1);
    }
  }

  lemma {:induction false} CarriedPosted(q: Quantity, source: nat, js: seq<JSONMetric>)
    ensures Sum(CarriedIn(q), Posted(source, js)) == Sum(q.carried, js)
  {
    if js != [] {
      var rest := Posted(source, js[1..]);
      assert ([Message(source, js[0])] + rest)[1..] == rest;
      CarriedPosted(q, source, js[1..]);
    }
  }

  lemma StartBalanced(net: Topology, q: Quantity)
    requires ValidTopology(net) && Lawful(net, q)
    ensures Balanced(q, Start(net))
  {
    hide Lawful, IdleFrom, Related, HeldFrom;
    assert forall i: nat :: i < |net| ==> q.held(i)(EMPTY) == 0.0 by {
      LawfulEmpty(net, q);
    }
    IdleFromAt(net, 0);
    HeldIdle(q, net, 0);
    RelatedSelf(q.mode, 0.0);
  }

  lemma LawfulEmpty(net: Topology, q: Quantity)
    requires Lawful(net, q)
    ensures forall i: nat :: i < |net| ==> q.held(i)(EMPTY) == 0.0
  {
  }

  lemma Grown(q: Quantity, s: System, t: System, gained: real, moved: real)
    requires Balanced(q, s) && Related(q.mode, gained, moved)
    requires Inputs(q, t) == Inputs(q, s) + gained && Outputs(q, t) == Outputs(q, s) + moved
    ensures Balanced(q, t)
  {
    hide Related, Inputs, Outputs;
    RelatedAdd(q.mode, Inputs(q, s), Outputs(q, s), gained, moved);
  }

  lemma Shifted(mode: Mode, a: real, b: real, c: real)
    requires Related(mode, a + b, c)
    ensures Related(mode, b, c - a) && Related(mode, 0.0, c - a - b)
  {
    if mode.Modulo? {
      assert (a + b) - c == b - (c - a);
      assert (a + b) - c == 0.0 - (c - a - b);
    }
  }

  lemma SampleBalanced(net: Topology, q: Quantity, s: System, i: nat, m: UDPMetric, e: Encoded)
    requires Lawful(net, q) && Invariant(net, s) && Balanced(q, s) && Enabled(net, s, Sample(i, m, e))
    ensures Balanced(q, AfterSample(net, s, i, m, e))
  {
    hide Related, HeldFrom, Sum, Kept, Homed, Processed, WellFormed, Balanced, FlightSound, Sampled, ImportLaw,
         FlushLaw, Put;
    var w := Home(m, net[i]);
    var wm := s.workers[i][w];
    HeldPut(q, s.workers, i, w, Processed(wm, m, e), 0);
    SumConcat(SampledIn(q), s.sampled, [Sampling(i, m)]);
    SumOne(SampledIn(q), Sampling(i, m));
    Shifted(q.mode, q.held(i)(wm), q.sampled(i)(m), q.held(i)(Processed(wm, m, e)));
    Grown(q, s, AfterSample(net, s, i, m, e), q.sampled(i)(m), q.held(i)(Processed(wm, m, e)) - q.held(i)(wm));
  }

  lemma DeliverBalanced(net: Topology, q: Quantity, s: System, n: nat, d: nat, e: Encoded)
    requires Lawful(net, q) && Invariant(net, s) && Balanced(q, s) && Enabled(net, s, Deliver(n, d, e))
    ensures Balanced(q, AfterDeliver(net, s, n, d, e))
  {
    hide Related, HeldFrom, Sum, Kept, Homed, Imported, Sound, Balanced, SamplingLaw, Combined, FlushLaw, Put, KeyHash;
    var j := s.flight[n].metric;
    var w := Route(j.key, net[d].workers);
    var wm := s.workers[d][w];
    HeldPut(q, s.workers, d, w, Imported(wm, j, e), 0);
    SumRemove(CarriedIn(q), s.flight, n);
    Shifted(q.mode, q.held(d)(wm), q.carried(j), q.held(d)(Imported(wm, j, e)));
    Grown(q, s, AfterDeliver(net, s, n, d, e), 0.0, q.held(d)(Imported(wm, j, e)) - q.held(d)(wm) - q.carried(j));
  }

  lemma FlushBalanced(net: Topology, q: Quantity, s: System, i: nat, w: nat, o: Orders)
    requires Lawful(net, q) && Invariant(net, s) && Balanced(q, s) && Enabled(net, s, Flush(i, w, o))
    ensures Balanced(q, AfterFlush(net, s, i, w, o))
  {
    hide Related, HeldFrom, Sum, Kept, Homed, Sound, Balanced, SamplingLaw, ImportLaw, Put, Posted, Forwarded,
         Published, OrdersOf;
    var wm := s.workers[i][w];
    var p := Publication(i, Published(wm, ConfigOf(net[i]), o));
    HeldPut(q, s.workers, i, w, EMPTY, 0);
    SumConcat(ShownIn(q), s.published, [p]);
    SumOne(ShownIn(q), p);
    SumConcat(CarriedIn(q), s.flight, Posted(i, Forwarded(wm, o)));
    CarriedPosted(q, i, Forwarded(wm, o));
    var out := Flushed(net[i], q, i, wm, o);
    assert Related(q.mode, q.held(i)(wm) + 0.0, out);
    Shifted(q.mode, q.held(i)(wm), 0.0, out);
    Grown(q, s, AfterFlush(net, s, i, w, o), 0.0, out - q.held(i)(wm));
  }

  lemma DropBalanced(q: Quantity, s: System, n: nat)
    requires Balanced(q, s) && n < |s.flight|
    ensures Balanced(q, AfterDrop(s, n))
  {
    hide Related, HeldFrom, Sum, Balanced;
    var j := s.flight[n].metric;
    SumRemove(CarriedIn(q), s.flight, n);
    SumConcat(q.carried, s.dropped, [j]);
    SumOne(q.carried, j);
    RelatedSelf(q.mode, 0.0);
    Grown(q, s, AfterDrop(s, n), 0.0, 0.0);
  }

  lemma StepBalanced(net: Topology, q: Quantity, s: System, step: Step)
    requires Lawful(net, q) && Invariant(net, s) && Balanced(q, s) && Enabled(net, s, step)
    ensures Balanced(q, After(net, s, step))
  {
    hide Lawful, Balanced, WorkersKept, FlightSound, AfterSample, AfterFlush, AfterDeliver, AfterDrop, OrdersOf;
    match step
    case Sample(i, m, e) => SampleBalanced(net, q, s, i, m, e);
    case Flush(i, w, o) => FlushBalanced(net, q, s, i, w, o);
    case Deliver(n, d, e) => DeliverBalanced(net, q, s, n, d, e);
    case Drop(n) => DropBalanced(q, s, n);
  }

  /** In every state of every run, what was sampled is held, under way, dropped or published. */
  lemma {:induction false} Conservation(net: Topology, q: Quantity, states: seq<System>, steps: seq<Step>, t: nat)
    requires Lawful(net, q) && Run(net, states, steps) && t < |states|
    ensures Balanced(q, states[t])
  {
    hide Lawful, Balanced, Invariant, After, Enabled, Shaped, Start;
    if t == 0 {
      StartBalanced(net, q);
    } else {
      Conservation(net, q, states, steps, t - 1);
      RunInvariant(net, states, steps, t - 1);
      assert Leads(net, states[t - 1], steps[t - 1], states[t]);
      StepBalanced(net, q, states[t - 1], steps[t - 1]);
    }
  }
}
