/** A worker's maps and the three things that happen to them: sampling, importing, flushing. */
module Worker {
  import opened Digests
  import opened Floating
  import opened Text
  import opened Samplers

  datatype Value = Number(number: Float) | Member(member: string) | Status(status: int)

  datatype UDPMetric = UDPMetric(
    key: MetricKey, digest: bv32, value: Value, sampleRate: Float,
    tags: seq<string>, scope: Scope, timestamp: int, message: string, hostName: string)

  datatype WorkerMetrics = WorkerMetrics(
    counters: map<MetricKey, Counter>,
    gauges: map<MetricKey, Gauge>,
    histograms: map<MetricKey, Histo>,
    sets: map<MetricKey, MemberSet>,
    timers: map<MetricKey, Histo>,
    globalCounters: map<MetricKey, Counter>,
    globalGauges: map<MetricKey, Gauge>,
    localHistograms: map<MetricKey, Histo>,
    localSets: map<MetricKey, MemberSet>,
    localTimers: map<MetricKey, Histo>,
    localStatusChecks: map<MetricKey, StatusCheck>)

  const EMPTY := WorkerMetrics(map[], map[], map[], map[], map[], map[], map[], map[], map[], map[], map[])

  /** The key is that of the tags, and the digest its hash. */
  predicate Consistent(m: UDPMetric) {
    m.key.joinedTags == Join(m.tags, ",") && m.digest == KeyHash(m.key)
  }

  /**
    What sampling a metric comes to. A value that is not of the metric's type fails
    a type assertion; gauges, sets and status checks do not look at the rate, and
    gauges take any number; a metric of no known type is only logged.
   */
  function FateOf(m: UDPMetric): Fate {
    match m.key.kind
    case Counters => if m.value.Number? then CountFate(m.value.number, m.sampleRate) else Panicked
    case Gauges => if m.value.Number? then Taken else Panicked
    case Histograms => if m.value.Number? then AddFate(m.value.number, Reciprocal(m.sampleRate)) else Panicked
    case Sets => if m.value.Member? then Taken else Panicked
    case Timers => if m.value.Number? then AddFate(m.value.number, Reciprocal(m.sampleRate)) else Panicked
    case Statuses => if m.value.Status? then Taken else Panicked
    case Other(_) => Taken
  }

  /** What a worker may be handed: anything that neither makes it panic nor spoils a digest. */
  predicate WellFormed(m: UDPMetric) {
    Consistent(m) && (FateOf(m).Taken? || FateOf(m).Open?)
  }

  /** A finite value at a finite positive rate. */
  predicate Addable(m: UDPMetric) {
    && m.value.Number? && m.value.number.Finite?
    && m.sampleRate.Finite? && m.sampleRate.value > 0.0
  }

  /** Which metrics a worker takes, by type, value and rate. */
  predicate Takes(m: UDPMetric) {
    match m.key.kind
    case Counters => m.value.Number? && Countable(m.value.number, m.sampleRate)
    case Gauges => m.value.Number?
    case Histograms => Addable(m)
    case Sets => m.value.Member?
    case Timers => Addable(m)
    case Statuses => m.value.Status?
    case Other(_) => true
  }

  lemma {:induction false} TakenIff(m: UDPMetric)
    ensures FateOf(m) == Taken <==> Takes(m)
  {
    hide AddFate, CountFate, Reciprocal, Countable;
    if m.value.Number? {
      AddFateIff(m.value.number, m.sampleRate);
      CountFateIff(m.value.number, m.sampleRate);
    }
  }

  lemma WellFormedAddable(m: UDPMetric)
    requires WellFormed(m)
    ensures m.key.kind.Histograms? || m.key.kind.Timers? ==> Addable(m)
    ensures m.key.kind.Counters? || m.key.kind.Gauges? ==> m.value.Number?
    ensures (m.key.kind.Sets? ==> m.value.Member?) && (m.key.kind.Statuses? ==> m.value.Status?)
  {
    hide Consistent, AddFate, Reciprocal, CountFate;
    if m.value.Number? {
      AddFateIff(m.value.number, m.sampleRate);
    }
  }

  // ---- Specification

  /** The entry under a key, or a new one. */
  function At<S>(m: map<MetricKey, S>, k: MetricKey, initial: S): S {
    if k in m then m[k] else initial
  }

  lemma UpdateTwice<S>(m: map<MetricKey, S>, k: MetricKey, a: S, b: S)
    ensures m[k := a][k := b] == m[k := b]
  {
  }

  /** What an entry of one map becomes when it is the one the metric belongs to. */
  function Updated<S>(m: map<MetricKey, S>, chosen: bool, k: MetricKey, entry: S): map<MetricKey, S> {
    if chosen then m[k := entry] else m
  }

  /** The map a metric of this key and scope belongs to gets an entry if it has none. */
  function Upserted(wm: WorkerMetrics, k: MetricKey, scope: Scope, tags: seq<string>): WorkerMetrics {
    var counter, gauge := Counter(k.name, tags, 0), Gauge(k.name, tags, Finite(0.0));
    var members, histo := NewSet(k.name, tags), NewHisto(k.name, tags);
    var global, local := scope.GlobalOnly?, scope.LocalOnly?;
    WorkerMetrics(
      counters := Updated(wm.counters, k.kind.Counters? && !global, k, At(wm.counters, k, counter)),
      gauges := Updated(wm.gauges, k.kind.Gauges? && !global, k, At(wm.gauges, k, gauge)),
      histograms := Updated(wm.histograms, k.kind.Histograms? && !local, k, At(wm.histograms, k, histo)),
      sets := Updated(wm.sets, k.kind.Sets? && !local, k, At(wm.sets, k, members)),
      timers := Updated(wm.timers, k.kind.Timers? && !local, k, At(wm.timers, k, histo)),
      globalCounters := Updated(wm.globalCounters, k.kind.Counters? && global, k, At(wm.globalCounters, k, counter)),
      globalGauges := Updated(wm.globalGauges, k.kind.Gauges? && global, k, At(wm.globalGauges, k, gauge)),
      localHistograms := Updated(wm.localHistograms, k.kind.Histograms? && local, k, At(wm.localHistograms, k, histo)),
      localSets := Updated(wm.localSets, k.kind.Sets? && local, k, At(wm.localSets, k, members)),
      localTimers := Updated(wm.localTimers, k.kind.Timers? && local, k, At(wm.localTimers, k, histo)),
      localStatusChecks := Updated(wm.localStatusChecks, k.kind.Statuses?, k,
                                   At(wm.localStatusChecks, k, StatusCheck(k.name, tags, 0, "", ""))))
  }

  /** Whether the map a metric of this key and scope belongs to has an entry for it. */
  predicate Present(wm: WorkerMetrics, k: MetricKey, scope: Scope) {
    match k.kind
    case Counters => if scope.GlobalOnly? then k in wm.globalCounters else k in wm.counters
    case Gauges => if scope.GlobalOnly? then k in wm.globalGauges else k in wm.gauges
    case Histograms => if scope.LocalOnly? then k in wm.localHistograms else k in wm.histograms
    case Sets => if scope.LocalOnly? then k in wm.localSets else k in wm.sets
    case Timers => if scope.LocalOnly? then k in wm.localTimers else k in wm.timers
    case Statuses => k in wm.localStatusChecks
    case Other(_) => false
  }

  function CounterAfter(m: map<MetricKey, Counter>, x: UDPMetric): Counter {
    var c := At(m, x.key, Counter(x.key.name, x.tags, 0));
    if x.value.Number? then SampleCounter(c, x.value.number, x.sampleRate) else c
  }

  function GaugeAfter(m: map<MetricKey, Gauge>, x: UDPMetric): Gauge {
    var g := At(m, x.key, Gauge(x.key.name, x.tags, Finite(0.0)));
    if x.value.Number? then g.(value := x.value.number) else g
  }

  function HistoAfter(m: map<MetricKey, Histo>, x: UDPMetric, digest: Encoded): Histo {
    var h := At(m, x.key, NewHisto(x.key.name, x.tags));
    if Addable(x) then SampleHisto(h, x.value.number.value, x.sampleRate.value, digest) else h
  }

  /** The histogram or timer that a metric belongs to. */
  function HistoFor(wm: WorkerMetrics, k: MetricKey, scope: Scope, tags: seq<string>): Histo {
    var histos :=
      if k.kind.Timers? then (if scope.LocalOnly? then wm.localTimers else wm.timers)
      else (if scope.LocalOnly? then wm.localHistograms else wm.histograms);
    At(histos, k, NewHisto(k.name, tags))
  }

  /** The digest a sample may leave in the histogram it belongs to, if it is one of a histogram. */
  ghost predicate Sampled(arc: real -> real, wm: WorkerMetrics, m: UDPMetric, digest: Encoded) {
    var h := HistoFor(wm, m.key, m.scope, m.tags);
    (m.key.kind.Histograms? || m.key.kind.Timers?) && Addable(m) ==>
      Took(arc, h.adds, h.digest, m.value.number.value, SampleWeight(m.sampleRate.value), digest)
  }

  /** The digest an imported digest may leave in the histogram it is merged into. */
  ghost predicate Combined(arc: real -> real, wm: WorkerMetrics, j: JSONMetric, digest: Encoded) {
    var h := HistoFor(wm, j.key, MixedScope, j.tags);
    (j.key.kind.Histograms? || j.key.kind.Timers?) && j.value.DigestValue? ==>
      Joined(arc, h.adds, h.digest, j.value.digest, digest)
  }

  function SetAfter(m: map<MetricKey, MemberSet>, x: UDPMetric): MemberSet {
    var s := At(m, x.key, NewSet(x.key.name, x.tags));
    if x.value.Member? then SampleSet(s, x.value.member) else s
  }

  function StatusAfter(m: map<MetricKey, StatusCheck>, x: UDPMetric): StatusCheck {
    var c := At(m, x.key, StatusCheck(x.key.name, x.tags, 0, "", ""));
    if x.value.Status? then c.(value := x.value.status, message := x.message, hostName := x.hostName) else c
  }

  /** Sampling in one step: the entry under the key, or a new one, takes the sample. */
  function Processed(wm: WorkerMetrics, m: UDPMetric, digest: Encoded): WorkerMetrics {
    var k, global, local := m.key, m.scope.GlobalOnly?, m.scope.LocalOnly?;
    WorkerMetrics(
      counters := Updated(wm.counters, k.kind.Counters? && !global, k, CounterAfter(wm.counters, m)),
      gauges := Updated(wm.gauges, k.kind.Gauges? && !global, k, GaugeAfter(wm.gauges, m)),
      histograms := Updated(wm.histograms, k.kind.Histograms? && !local, k, HistoAfter(wm.histograms, m, digest)),
      sets := Updated(wm.sets, k.kind.Sets? && !local, k, SetAfter(wm.sets, m)),
      timers := Updated(wm.timers, k.kind.Timers? && !local, k, HistoAfter(wm.timers, m, digest)),
      globalCounters := Updated(wm.globalCounters, k.kind.Counters? && global, k, CounterAfter(wm.globalCounters, m)),
      globalGauges := Updated(wm.globalGauges, k.kind.Gauges? && global, k, GaugeAfter(wm.globalGauges, m)),
      localHistograms := Updated(wm.localHistograms, k.kind.Histograms? && local, k,
                                 HistoAfter(wm.localHistograms, m, digest)),
      localSets := Updated(wm.localSets, k.kind.Sets? && local, k, SetAfter(wm.localSets, m)),
      localTimers := Updated(wm.localTimers, k.kind.Timers? && local, k, HistoAfter(wm.localTimers, m, digest)),
      localStatusChecks := Updated(wm.localStatusChecks, k.kind.Statuses?, k, StatusAfter(wm.localStatusChecks, m)))
  }

  /**
    Importing in one step. Counters and gauges are imported as global, everything
    else as mixed; an imported status check leaves an entry but no value.
   */
  function Imported(wm: WorkerMetrics, j: JSONMetric, digest: Encoded): WorkerMetrics {
    var k := j.key;
    var histo := NewHisto(k.name, j.tags);
    wm.(
      globalCounters := Updated(wm.globalCounters, k.kind.Counters?, k,
                                CombineCounter(At(wm.globalCounters, k, Counter(k.name, j.tags, 0)), j.value)),
      globalGauges := Updated(wm.globalGauges, k.kind.Gauges?, k,
                              CombineGauge(At(wm.globalGauges, k, Gauge(k.name, j.tags, Finite(0.0))), j.value)),
      sets := Updated(wm.sets, k.kind.Sets?, k, CombineSet(At(wm.sets, k, NewSet(k.name, j.tags)), j.value)),
      histograms := Updated(wm.histograms, k.kind.Histograms?, k,
                            CombineHisto(At(wm.histograms, k, histo), j.value, digest)),
      timers := Updated(wm.timers, k.kind.Timers?, k, CombineHisto(At(wm.timers, k, histo), j.value, digest)),
      localStatusChecks := Updated(wm.localStatusChecks, k.kind.Statuses?, k,
                                   At(wm.localStatusChecks, k, StatusCheck(k.name, j.tags, 0, "", ""))))
  }

  // ---- The running worker

  /** One map of Upsert: looks the key up and enters a new sampler if it is not there. */
  method Entered<S>(m: map<MetricKey, S>, k: MetricKey, sampler: S) returns (r: map<MetricKey, S>, present: bool)
    ensures r == m[k := At(m, k, sampler)]
    ensures present == (k in m) && (present ==> r == m)
  {
    present := k in m;
    r := m;
    if !present {
      r := r[k := sampler];
    }
  }

  class Worker {
    var wm: WorkerMetrics
    var processed: nat
    var imported: nat

    constructor ()
      ensures wm == EMPTY && processed == 0 && imported == 0
    {
      wm, processed, imported := EMPTY, 0, 0;
    }

    /** Makes sure the key has an entry; true if it had none. */
    method Upsert(k: MetricKey, scope: Scope, tags: seq<string>) returns (created: bool)
      modifies this`wm
      ensures wm == Upserted(old(wm), k, scope, tags)
      ensures created <==> !Present(old(wm), k, scope)
      ensures !created ==> wm == old(wm)
    {
      hide NewHisto, At;
      var present := false;
      if k.kind.Counters? {
        if scope.GlobalOnly? {
          var m, found := Entered(wm.globalCounters, k, Counter(k.name, tags, 0));
          wm, present := wm.(globalCounters := m), found;
        } else {
          var m, found := Entered(wm.counters, k, Counter(k.name, tags, 0));
          wm, present := wm.(counters := m), found;
        }
      } else if k.kind.Gauges? {
        if scope.GlobalOnly? {
          var m, found := Entered(wm.globalGauges, k, Gauge(k.name, tags, Finite(0.0)));
          wm, present := wm.(globalGauges := m), found;
        } else {
          var m, found := Entered(wm.gauges, k, Gauge(k.name, tags, Finite(0.0)));
          wm, present := wm.(gauges := m), found;
        }
      } else if k.kind.Histograms? {
        if scope.LocalOnly? {
          var m, found := Entered(wm.localHistograms, k, NewHisto(k.name, tags));
          wm, present := wm.(localHistograms := m), found;
        } else {
          var m, found := Entered(wm.histograms, k, NewHisto(k.name, tags));
          wm, present := wm.(histograms := m), found;
        }
      } else if k.kind.Sets? {
        if scope.LocalOnly? {
          var m, found := Entered(wm.localSets, k, NewSet(k.name, tags));
          wm, present := wm.(localSets := m), found;
        } else {
          var m, found := Entered(wm.sets, k, NewSet(k.name, tags));
          wm, present := wm.(sets := m), found;
        }
      } else if k.kind.Timers? {
        if scope.LocalOnly? {
          var m, found := Entered(wm.localTimers, k, NewHisto(k.name, tags));
          wm, present := wm.(localTimers := m), found;
        } else {
          var m, found := Entered(wm.timers, k, NewHisto(k.name, tags));
          wm, present := wm.(timers := m), found;
        }
      } else if k.kind.Statuses? {
        var m, found := Entered(wm.localStatusChecks, k, StatusCheck(k.name, tags, 0, "", ""));
        wm, present := wm.(localStatusChecks := m), found;
      }
      created := !present;
    }

    /** Samples a metric that came in from a client; digest is what that leaves in a histogram. */
    method ProcessMetric(m: UDPMetric, digest: Encoded, ghost arc: real -> real)
      requires WellFormed(m) && Sampled(arc, wm, m, digest)
      modifies this
      ensures wm == Processed(old(wm), m, digest)
      ensures processed == old(processed) + 1 && imported == old(imported)
    {
      hide SampleCounter, SampleHisto, SampleSet, NewHisto, Sampled, FateOf, Consistent;
      WellFormedAddable(m);
      processed := processed + 1;
      var k, rate := m.key, m.sampleRate;
      var _ := Upsert(k, m.scope, m.tags);
      if k.kind.Counters? {
        if m.scope.GlobalOnly? {
          var entry := SampleCounter(wm.globalCounters[k], m.value.number, rate);
          UpdateTwice(old(wm.globalCounters), k, wm.globalCounters[k], entry);
          wm := wm.(globalCounters := wm.globalCounters[k := entry]);
        } else {
          var entry := SampleCounter(wm.counters[k], m.value.number, rate);
          UpdateTwice(old(wm.counters), k, wm.counters[k], entry);
          wm := wm.(counters := wm.counters[k := entry]);
        }
      } else if k.kind.Gauges? {
        if m.scope.GlobalOnly? {
          var entry := wm.globalGauges[k].(value := m.value.number);
          UpdateTwice(old(wm.globalGauges), k, wm.globalGauges[k], entry);
          wm := wm.(globalGauges := wm.globalGauges[k := entry]);
        } else {
          var entry := wm.gauges[k].(value := m.value.number);
          UpdateTwice(old(wm.gauges), k, wm.gauges[k], entry);
          wm := wm.(gauges := wm.gauges[k := entry]);
        }
      } else if k.kind.Histograms? {
        if m.scope.LocalOnly? {
          var entry := SampleHisto(wm.localHistograms[k], m.value.number.value, rate.value, digest);
          UpdateTwice(old(wm.localHistograms), k, wm.localHistograms[k], entry);
          wm := wm.(localHistograms := wm.localHistograms[k := entry]);
        } else {
          var entry := SampleHisto(wm.histograms[k], m.value.number.value, rate.value, digest);
          UpdateTwice(old(wm.histograms), k, wm.histograms[k], entry);
          wm := wm.(histograms := wm.histograms[k := entry]);
        }
      } else if k.kind.Sets? {
        if m.scope.LocalOnly? {
          var entry := SampleSet(wm.localSets[k], m.value.member);
          UpdateTwice(old(wm.localSets), k, wm.localSets[k], entry);
          wm := wm.(localSets := wm.localSets[k := entry]);
        } else {
          var entry := SampleSet(wm.sets[k], m.value.member);
          UpdateTwice(old(wm.sets), k, wm.sets[k], entry);
          wm := wm.(sets := wm.sets[k := entry]);
        }
      } else if k.kind.Timers? {
        if m.scope.LocalOnly? {
          var entry := SampleHisto(wm.localTimers[k], m.value.number.value, rate.value, digest);
          UpdateTwice(old(wm.localTimers), k, wm.localTimers[k], entry);
          wm := wm.(localTimers := wm.localTimers[k := entry]);
        } else {
          var entry := SampleHisto(wm.timers[k], m.value.number.value, rate.value, digest);
          UpdateTwice(old(wm.timers), k, wm.timers[k], entry);
          wm := wm.(timers := wm.timers[k := entry]);
        }
      } else if k.kind.Statuses? {
        var entry := wm.localStatusChecks[k].(value := m.value.status, message := m.message, hostName := m.hostName);
        UpdateTwice(old(wm.localStatusChecks), k, wm.localStatusChecks[k], entry);
        wm := wm.(localStatusChecks := wm.localStatusChecks[k := entry]);
      }
    }

    /** Merges a metric that another instance forwarded; digest is what that leaves in a histogram. */
    method ImportMetric(j: JSONMetric, digest: Encoded, ghost arc: real -> real)
      requires Combined(arc, wm, j, digest)
      modifies this
      ensures wm == Imported(old(wm), j, digest)
      ensures imported == old(imported) + 1 && processed == old(processed)
    {
      hide CombineCounter, CombineGauge, CombineSet, CombineHisto, NewHisto, KeyHash, Join, Combined;
      imported := imported + 1;
      var k := j.key;
      if k.kind.Counters? || k.kind.Gauges? {
        var _ := Upsert(k, GlobalOnly, j.tags);
      } else {
        var _ := Upsert(k, MixedScope, j.tags);
      }
      if k.kind.Counters? {
        var entry := CombineCounter(wm.globalCounters[k], j.value);
        UpdateTwice(old(wm.globalCounters), k, wm.globalCounters[k], entry);
        wm := wm.(globalCounters := wm.globalCounters[k := entry]);
      } else if k.kind.Gauges? {
        var entry := CombineGauge(wm.globalGauges[k], j.value);
        UpdateTwice(old(wm.globalGauges), k, wm.globalGauges[k], entry);
        wm := wm.(globalGauges := wm.globalGauges[k := entry]);
      } else if k.kind.Sets? {
        var entry := CombineSet(wm.sets[k], j.value);
        UpdateTwice(old(wm.sets), k, wm.sets[k], entry);
        wm := wm.(sets := wm.sets[k := entry]);
      } else if k.kind.Histograms? {
        var entry := CombineHisto(wm.histograms[k], j.value, digest);
        UpdateTwice(old(wm.histograms), k, wm.histograms[k], entry);
        wm := wm.(histograms := wm.histograms[k := entry]);
      } else if k.kind.Timers? {
        var entry := CombineHisto(wm.timers[k], j.value, digest);
        UpdateTwice(old(wm.timers), k, wm.timers[k], entry);
        wm := wm.(timers := wm.timers[k := entry]);
      }
    }

    /** Hands the maps over and starts with new ones. */
    method Flush() returns (flushed: WorkerMetrics)
      modifies this
      ensures flushed == old(wm) && wm == EMPTY && processed == 0 && imported == 0
    {
      flushed := wm;
      wm, processed, imported := EMPTY, 0, 0;
    }
  }
}
