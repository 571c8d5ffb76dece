/** Theorems about every run of every network of instances. */
module Conserved {
  import opened Floating
  import opened Integers
  import opened Samplers
  import opened Sums
  import opened Worker
  import opened Flusher
  import opened FlushLaws
  import opened Network
  import opened Ledger
  import opened Quantities
  import opened HistoQuantities
  import opened MemberQuantities

  lemma CountersLawful(net: Topology, k: MetricKey, global: bool)
    ensures Lawful(net, CounterQuantity(k, global))
  {
    hide Processed, Imported, Kept, Sound, WellFormed, Flushed, OrdersOf, Related, Multiple;
    var q := CounterQuantity(k, global);
    forall i: nat, wm, m, e | i < |net| && WellFormed(m) && Kept(wm)
      ensures Related(q.mode, q.held(i)(wm) + q.sampled(i)(m), q.held(i)(Processed(wm, m, e)))
    {
      CounterSampling(k, global, wm, m, e);
    }
    forall i: nat, wm, j, e | i < |net| && Sound(j) && Kept(wm)
      ensures Related(q.mode, q.held(i)(wm) + q.carried(j), q.held(i)(Imported(wm, j, e)))
    {
      CounterImport(k, global, wm, j, e);
    }
    forall i: nat, wm, o | i < |net| && Kept(wm) && OrdersOf(o, wm)
      ensures Related(q.mode, q.held(i)(wm), Flushed(net[i], q, i, wm, o))
    {
      CounterFlush(k, global, net[i], i, wm, o);
      RelatedSelf(q.mode, q.held(i)(wm));
    }
  }

  /**
    For every key, the global-only counter total sampled anywhere is, modulo 2^64,
    held + under way + dropped + published; likewise for the other counters.
   */
  lemma {:induction false} CountersConserved(net: Topology, states: seq<System>, steps: seq<Step>, t: nat,
      k: MetricKey, global: bool)
    requires Run(net, states, steps) && t < |states|
    ensures Balanced(CounterQuantity(k, global), states[t])
  {
    hide *;
    CountersLawful(net, k, global);
    Conservation(net, CounterQuantity(k, global), states, steps, t);
  }

  /** A sample of a whole number at the rate of one in n, both fitting 64 bits. */
  ghost predicate Counts(m: UDPMetric, v: int, n: int) {
    && -(TWO63 as int) <= v < TWO63 && 1 <= n < TWO63
    && m.value == Number(Finite(v as real)) && m.sampleRate == Finite(1.0 / n as real)
  }

  ghost predicate CountsWhole(m: UDPMetric) {
    exists v, n :: Counts(m, v, n)
  }

  /** What such samples of one counter stand for: the value over the rate. */
  function StandsFor(k: MetricKey, global: bool): Sampling -> real {
    (x: Sampling) =>
      if && x.metric.key == k && k.kind.Counters? && x.metric.scope.GlobalOnly? == global
         && Addable(x.metric) then x.metric.value.number.value / x.metric.sampleRate.value
      else 0.0
  }

  lemma CountsStandFor(k: MetricKey, global: bool, x: Sampling)
    requires x.metric.key == k && k.kind.Counters? && x.metric.scope.GlobalOnly? == global ==> CountsWhole(x.metric)
    ensures SampledIn(CounterQuantity(k, global))(x) == StandsFor(k, global)(x)
  {
    hide CounterDelta;
    if x.metric.key == k && k.kind.Counters? && x.metric.scope.GlobalOnly? == global {
      var v, n :| Counts(x.metric, v, n);
      RateStandsFor(v, n);
      assert v as real / (1.0 / n as real) == v as real * n as real;
    }
  }

  /**
    In every run whose samples of a counter are whole numbers at rates of one in n:
    the values times n add up, modulo 2^64, to held + under way + dropped + published.
   */
  lemma {:induction false} CountsConserved(net: Topology, states: seq<System>, steps: seq<Step>, t: nat,
      k: MetricKey, global: bool)
    requires Run(net, states, steps) && t < |states|
    requires forall i :: 0 <= i < |states[t].sampled| ==>
               var m := states[t].sampled[i].metric;
               m.key == k && k.kind.Counters? && m.scope.GlobalOnly? == global ==> CountsWhole(m)
    ensures Related(Modulo(TWO64), Sum(StandsFor(k, global), states[t].sampled),
                    Outputs(CounterQuantity(k, global), states[t]))
  {
    hide Run, StandsFor, SampledIn, Outputs, Sum, CountsWhole, Related, CounterQuantity;
    CountersConserved(net, states, steps, t, k, global);
    var samples := states[t].sampled;
    forall i | 0 <= i < |samples|
      ensures SampledIn(CounterQuantity(k, global))(samples[i]) == StandsFor(k, global)(samples[i])
    {
      CountsStandFor(k, global, samples[i]);
    }
    SumSame(SampledIn(CounterQuantity(k, global)), StandsFor(k, global), samples);
    assert CounterQuantity(k, global).mode == Modulo(TWO64) by {
      CounterMode(k, global);
    }
  }

  lemma CounterMode(k: MetricKey, global: bool)
    ensures CounterQuantity(k, global).mode == Modulo(TWO64)
  {
  }

  /** Every global instance publishes this percentile: once, or at most once. */
  predicate Listed(net: Topology, percentile: real, mode: Mode) {
    forall i :: 0 <= i < |net| && net[i].parents == [] ==>
      Times(percentile, net[i].percentiles) == 1 || (mode.AtLeast? && Times(percentile, net[i].percentiles) == 0)
  }

  lemma DigestsLawful(net: Topology, k: MetricKey, percentile: real, g: Observation -> real, mode: Mode)
    requires Listed(net, percentile, mode) && (mode.AtLeast? ==> NonNegative(g))
    ensures Lawful(net, DigestQuantity(k, percentile, g, mode))
  {
    hide Processed, Imported, Kept, Sound, WellFormed, Flushed, OrdersOf, Related, Multiple, DigestSampled,
         DigestCarried, DigestHeld, NonNegative;
    var q := DigestQuantity(k, percentile, g, mode);
    forall i: nat, wm, m, e | i < |net| && WellFormed(m) && Kept(wm)
      ensures Related(q.mode, q.held(i)(wm) + q.sampled(i)(m), q.held(i)(Processed(wm, m, e)))
    {
      DigestSampling(k, g, wm, m, e);
      RelatedSelf(mode, q.held(i)(wm) + q.sampled(i)(m));
    }
    forall i: nat, wm, j, e | i < |net| && Sound(j) && Kept(wm)
      ensures Related(q.mode, q.held(i)(wm) + q.carried(j), q.held(i)(Imported(wm, j, e)))
    {
      DigestImport(k, g, wm, j, e);
      RelatedSelf(mode, q.held(i)(wm) + q.carried(j));
    }
    forall i: nat, wm, o | i < |net| && Kept(wm) && OrdersOf(o, wm)
      ensures Related(q.mode, q.held(i)(wm), Flushed(net[i], q, i, wm, o))
    {
      DigestFlush(k, percentile, g, mode, net[i], i, wm, o);
    }
    DigestEmpty(k, g);
  }

  lemma DigestEmpty(k: MetricKey, g: Observation -> real)
    ensures DigestHeld(k, g)(EMPTY) == 0.0
  {
  }

  /**
    Every mixed sample is in exactly one place: behind a held digest, a digest
    under way, a dropped one, or one published value of the percentile. Whatever
    is measured of samples is conserved: their number, weight, sum, or how many
    have a given value and rate.
   */
  lemma {:induction false} SamplesConserved(net: Topology, states: seq<System>, steps: seq<Step>, t: nat,
      k: MetricKey, percentile: real, g: Observation -> real)
    requires Run(net, states, steps) && t < |states| && Listed(net, percentile, Exactly)
    ensures Balanced(DigestQuantity(k, percentile, g, Exactly), states[t])
  {
    hide *;
    DigestsLawful(net, k, percentile, g, Exactly);
    Conservation(net, DigestQuantity(k, percentile, g, Exactly), states, steps, t);
  }

  lemma MembersLawful(net: Topology, k: MetricKey, local: bool, g: string -> real)
    ensures Lawful(net, MemberQuantity(k, local, g))
  {
    hide Processed, Imported, Kept, Sound, WellFormed, Flushed, OrdersOf, MemberSampled, MemberCarried, Sum;
    var q := MemberQuantity(k, local, g);
    forall i: nat, wm, m, e | i < |net| && WellFormed(m) && Kept(wm)
      ensures Related(q.mode, q.held(i)(wm) + q.sampled(i)(m), q.held(i)(Processed(wm, m, e)))
    {
      MemberSampling(k, local, g, wm, m, e);
    }
    forall i: nat, wm, j, e | i < |net| && Sound(j) && Kept(wm)
      ensures Related(q.mode, q.held(i)(wm) + q.carried(j), q.held(i)(Imported(wm, j, e)))
    {
      MemberImport(k, local, g, wm, j, e);
    }
    forall i: nat, wm, o | i < |net| && Kept(wm) && OrdersOf(o, wm)
      ensures Related(q.mode, q.held(i)(wm), Flushed(net[i], q, i, wm, o))
    {
      MemberFlush(k, local, g, net[i], i, wm, o);
    }
  }

  /**
    Every sample of a set is behind exactly one set: one held, under way, dropped or
    published. Whatever is measured of the samples is conserved, such as how often
    a given member was sampled.
   */
  lemma {:induction false} MembersConserved(net: Topology, states: seq<System>, steps: seq<Step>, t: nat,
      k: MetricKey, local: bool, g: string -> real)
    requires Run(net, states, steps) && t < |states|
    ensures Balanced(MemberQuantity(k, local, g), states[t])
  {
    hide *;
    MembersLawful(net, k, local, g);
    Conservation(net, MemberQuantity(k, local, g), states, steps, t);
  }

  function Occurrences(x: Observation): Observation -> real {
    (y: Observation) => if y == x then 1.0 else 0.0
  }

  lemma DigestTotalsNonNegative(k: MetricKey, percentile: real, g: Observation -> real, s: System)
    requires NonNegative(g)
    ensures var q := DigestQuantity(k, percentile, g, AtLeast);
            HeldFrom(q, s.workers, 0) >= 0.0 && Sum(CarriedIn(q), s.flight) >= 0.0 && Sum(q.carried, s.dropped) >= 0.0
  {
    hide Sum, DigestHeld;
    var q := DigestQuantity(k, percentile, g, AtLeast);
    forall j: JSONMetric
      ensures q.carried(j) >= 0.0
    {
      if j.value.DigestValue? {
        SumNonNegative(g, j.value.samples);
      }
    }
    assert forall m: Message :: CarriedIn(q)(m) == q.carried(m.metric);
    SumNonNegative(CarriedIn(q), s.flight);
    SumNonNegative(q.carried, s.dropped);
    HeldNonNegative(k, percentile, g, s.workers, 0);
  }

  lemma {:induction false} HeldNonNegative(k: MetricKey, percentile: real, g: Observation -> real,
      workers: seq<seq<WorkerMetrics>>, i: nat)
    requires NonNegative(g) && i <= |workers|
    ensures HeldFrom(DigestQuantity(k, percentile, g, AtLeast), workers, i) >= 0.0
    decreases |workers| - i
  {
    hide Sum, DigestHeld;
    if i < |workers| {
      HeldNonNegative(k, percentile, g, workers, i + 1);
      forall wm: WorkerMetrics
        ensures DigestHeld(k, g)(wm) >= 0.0
      {
        DigestNonNegative(k, g, wm);
      }
      SumNonNegative(DigestHeld(k, g), workers[i]);
    }
  }

  /**
    No sample is behind two published values of a percentile, even where some
    instances do not list it: of the samples with a given value and rate, at most
    as many are behind published values as were taken.
   */
  lemma {:induction false} PercentilesCountOnce(net: Topology, states: seq<System>, steps: seq<Step>, t: nat,
      k: MetricKey, percentile: real, x: Observation)
    requires Run(net, states, steps) && t < |states| && Listed(net, percentile, AtLeast)
    ensures var q := DigestQuantity(k, percentile, Occurrences(x), AtLeast);
            Balanced(q, states[t]) && Sum(ShownIn(q), states[t].published) <= Inputs(q, states[t])
  {
    hide Run, DigestHeld, DigestSampled, DigestCarried, DigestShown, Sum, Listed, Inputs, HeldFrom;
    var g := Occurrences(x);
    DigestsLawful(net, k, percentile, g, AtLeast);
    Conservation(net, DigestQuantity(k, percentile, g, AtLeast), states, steps, t);
    DigestTotalsNonNegative(k, percentile, g, states[t]);
  }

  lemma LocalLawful(net: Topology, at: nat, k: MetricKey, which: Aggregate)
    requires at < |net| && (which.Count? || which.Total?) && which in net[at].aggregates
    ensures Lawful(net, LocalQuantity(at, k, which))
  {
    hide Processed, Imported, Kept, Sound, WellFormed, Flushed, OrdersOf, LocalTotal, LocalAdded;
    var q := LocalQuantity(at, k, which);
    forall i: nat, wm, m, e | i < |net| && WellFormed(m) && Kept(wm)
      ensures Related(q.mode, q.held(i)(wm) + q.sampled(i)(m), q.held(i)(Processed(wm, m, e)))
    {
      LocalSampling(k, which, wm, m, e);
    }
    forall i: nat, wm, j, e | i < |net| && Sound(j) && Kept(wm)
      ensures Related(q.mode, q.held(i)(wm) + q.carried(j), q.held(i)(Imported(wm, j, e)))
    {
      LocalImport(k, which, wm, j, e);
    }
    forall i: nat, wm, o | i < |net| && Kept(wm) && OrdersOf(o, wm)
      ensures Related(q.mode, q.held(i)(wm), Flushed(net[i], q, i, wm, o))
    {
      LocalFlush(at, k, which, net[i], i, wm, o);
    }
    LocalEmpty(k, which);
  }

  lemma LocalEmpty(k: MetricKey, which: Aggregate)
    ensures LocalTotal(k, which, EMPTY) == 0.0
  {
  }

  /** At each instance the count (or sum) points and what is still held make up the weight (or sum) sampled there. */
  lemma {:induction false} LocalReportsConserved(net: Topology, states: seq<System>, steps: seq<Step>, t: nat,
      at: nat, k: MetricKey, which: Aggregate)
    requires Run(net, states, steps) && t < |states|
    requires at < |net| && (which.Count? || which.Total?) && which in net[at].aggregates
    ensures Balanced(LocalQuantity(at, k, which), states[t])
  {
    hide *;
    LocalLawful(net, at, k, which);
    Conservation(net, LocalQuantity(at, k, which), states, steps, t);
  }

  /** In every reachable state every digest weighs what was sampled here plus what was imported. */
  lemma {:induction false} DigestsAccounted(net: Topology, states: seq<System>, steps: seq<Step>, t: nat, i: nat,
      w: nat, k: MetricKey)
    requires Run(net, states, steps) && t < |states| && i < |states[t].workers| && w < |states[t].workers[i]|
    ensures var wm := states[t].workers[i][w];
            && (k in wm.histograms ==> Accounted(wm.histograms[k]))
            && (k in wm.timers ==> Accounted(wm.timers[k]))
            && (k in wm.localHistograms ==> Accounted(wm.localHistograms[k]))
            && (k in wm.localTimers ==> Accounted(wm.localTimers[k]))
  {
    hide Run, Accounted, Tallied, Homed;
    RunInvariant(net, states, steps, t);
    assert Kept(states[t].workers[i][w]);
  }
}
