/** What sampling and importing keep of a worker's maps, and what this says of the metrics forwarded from them. */
module FlushLaws {
  import opened Centroids
  import opened Digests
  import opened Floating
  import opened Text
  import opened Samplers
  import opened Worker
  import opened Sums
  import opened Flusher

  // ---- Every sampler sits under the key its export rebuilds

  predicate Named(k: MetricKey, kind: Kind, name: string, tags: seq<string>) {
    k == MetricKey(name, kind, Join(tags, ","))
  }

  predicate CountersNamed(m: map<MetricKey, Counter>) {
    forall k :: k in m ==> Named(k, Counters, m[k].name, m[k].tags)
  }

  predicate GaugesNamed(m: map<MetricKey, Gauge>) {
    forall k :: k in m ==> Named(k, Gauges, m[k].name, m[k].tags)
  }

  predicate SetsNamed(m: map<MetricKey, MemberSet>) {
    forall k :: k in m ==> Named(k, Sets, m[k].name, m[k].tags) && Recalls(m[k].members, m[k].seen)
  }

  predicate HistosNamed(m: map<MetricKey, Histo>, kind: Kind) {
    forall k :: k in m ==> Named(k, kind, m[k].name, m[k].tags) && Accounted(m[k]) && Tallied(m[k])
  }

  /** Samplers are where their exports will look for them, and digests are accounted for. */
  predicate Kept(wm: WorkerMetrics) {
    && CountersNamed(wm.counters) && CountersNamed(wm.globalCounters)
    && GaugesNamed(wm.gauges) && GaugesNamed(wm.globalGauges)
    && SetsNamed(wm.sets) && SetsNamed(wm.localSets)
    && HistosNamed(wm.histograms, Histograms) && HistosNamed(wm.localHistograms, Histograms)
    && HistosNamed(wm.timers, Timers) && HistosNamed(wm.localTimers, Timers)
    && (forall k :: k in wm.localStatusChecks ==> k.kind.Statuses?)
  }

  /** A forwarded metric whose key, tags and payload agree. */
  predicate Sound(j: JSONMetric) {
    && j.key.joinedTags == Join(j.tags, ",")
    && (j.key.kind.Counters? ==> j.value.CounterValue?)
    && (j.key.kind.Gauges? ==> j.value.GaugeValue?)
    && (j.key.kind.Sets? ==> j.value.Members? && Recalls(j.value.members, j.value.seen))
    && (j.key.kind.Histograms? || j.key.kind.Timers? ==> Weighed(j.value))
  }

  lemma CounterPut(m: map<MetricKey, Counter>, k: MetricKey, tags: seq<string>, c: Counter)
    requires CountersNamed(m) && k.joinedTags == Join(tags, ",")
    requires var entry := At(m, k, Counter(k.name, tags, 0)); c.name == entry.name && c.tags == entry.tags
    ensures k.kind.Counters? ==> CountersNamed(m[k := c])
  {
    hide Join;
  }

  lemma GaugePut(m: map<MetricKey, Gauge>, k: MetricKey, tags: seq<string>, g: Gauge)
    requires GaugesNamed(m) && k.joinedTags == Join(tags, ",")
    requires var entry := At(m, k, Gauge(k.name, tags, Finite(0.0))); g.name == entry.name && g.tags == entry.tags
    ensures k.kind.Gauges? ==> GaugesNamed(m[k := g])
  {
    hide Join;
  }

  lemma SetPut(m: map<MetricKey, MemberSet>, k: MetricKey, tags: seq<string>, s: MemberSet)
    requires SetsNamed(m) && k.joinedTags == Join(tags, ",")
    requires var entry := At(m, k, NewSet(k.name, tags)); s.name == entry.name && s.tags == entry.tags
    requires var entry := At(m, k, NewSet(k.name, tags));
             Recalls(entry.members, entry.seen) ==> Recalls(s.members, s.seen)
    ensures k.kind.Sets? ==> SetsNamed(m[k := s])
  {
    hide Join;
  }

  /** Sets keep exactly the members sampled into them and those of the sets merged in. */
  lemma SampledRecalls(s: MemberSet, member: string)
    requires Recalls(s.members, s.seen)
    ensures Recalls(SampleSet(s, member).members, SampleSet(s, member).seen)
  {
  }

  lemma CombinedRecalls(s: MemberSet, v: Payload)
    requires Recalls(s.members, s.seen) && v.Members? && Recalls(v.members, v.seen)
    ensures Recalls(CombineSet(s, v).members, CombineSet(s, v).seen)
  {
  }

  lemma SetSampled(m: map<MetricKey, MemberSet>, x: UDPMetric)
    requires SetsNamed(m) && Consistent(x)
    ensures x.key.kind.Sets? ==> SetsNamed(m[x.key := SetAfter(m, x)])
  {
    hide Join, KeyHash, SetsNamed, At, Recalls;
    var s := At(m, x.key, NewSet(x.key.name, x.tags));
    if x.value.Member? && Recalls(s.members, s.seen) {
      SampledRecalls(s, x.value.member);
    }
    SetPut(m, x.key, x.tags, SetAfter(m, x));
  }

  lemma SetCombined(m: map<MetricKey, MemberSet>, j: JSONMetric)
    requires SetsNamed(m) && Sound(j)
    ensures j.key.kind.Sets? ==>
              SetsNamed(m[j.key := CombineSet(At(m, j.key, NewSet(j.key.name, j.tags)), j.value)])
  {
    hide Join, SetsNamed, At, Recalls, Weighed;
    if j.key.kind.Sets? {
      var s := At(m, j.key, NewSet(j.key.name, j.tags));
      if Recalls(s.members, s.seen) {
        CombinedRecalls(s, j.value);
      }
      SetPut(m, j.key, j.tags, CombineSet(s, j.value));
    }
  }

  lemma HistoPut(m: map<MetricKey, Histo>, kind: Kind, k: MetricKey, tags: seq<string>, h: Histo)
    requires HistosNamed(m, kind) && k.joinedTags == Join(tags, ",")
    requires var entry := At(m, k, NewHisto(k.name, tags)); h.name == entry.name && h.tags == entry.tags
    requires Accounted(At(m, k, NewHisto(k.name, tags))) ==> Accounted(h)
    requires Tallied(At(m, k, NewHisto(k.name, tags))) ==> Tallied(h)
    ensures k.kind == kind ==> HistosNamed(m[k := h], kind)
  {
    hide Join, Accounted, Tallied;
    NewAccounted(k.name, tags);
    NewTallied(k.name, tags);
  }

  lemma HistoSampled(arc: real -> real, m: map<MetricKey, Histo>, kind: Kind, x: UDPMetric, digest: Encoded)
    requires HistosNamed(m, kind) && Consistent(x) && (kind.Histograms? || kind.Timers?)
    requires x.key.kind == kind && Addable(x) ==>
               var h := At(m, x.key, NewHisto(x.key.name, x.tags));
               Took(arc, h.adds, h.digest, x.value.number.value, SampleWeight(x.sampleRate.value), digest)
    ensures x.key.kind == kind ==> HistosNamed(m[x.key := HistoAfter(m, x, digest)], kind)
  {
    hide Join, KeyHash, HistosNamed, At, NewHisto, Accounted, Tallied, Took, SampleWeight, AddReciprocal;
    if x.key.kind == kind {
      var h := At(m, x.key, NewHisto(x.key.name, x.tags));
      if Accounted(h) && Addable(x) {
        SampledAccounted(arc, h, x.value.number.value, x.sampleRate.value, digest);
      }
      if Tallied(h) && Addable(x) {
        SampledTallied(h, Observation(x.value.number.value, x.sampleRate.value), digest);
      }
      HistoPut(m, kind, x.key, x.tags, HistoAfter(m, x, digest));
    }
  }

  lemma HistoCombined(arc: real -> real, m: map<MetricKey, Histo>, kind: Kind, j: JSONMetric, digest: Encoded)
    requires HistosNamed(m, kind) && Sound(j) && (kind.Histograms? || kind.Timers?)
    requires j.key.kind == kind ==>
               var h := At(m, j.key, NewHisto(j.key.name, j.tags));
               Joined(arc, h.adds, h.digest, j.value.digest, digest)
    ensures j.key.kind == kind ==>
              HistosNamed(m[j.key := CombineHisto(At(m, j.key, NewHisto(j.key.name, j.tags)), j.value, digest)], kind)
  {
    hide Join, HistosNamed, At, NewHisto, Accounted, Tallied, Joined, Weight;
    if j.key.kind == kind {
      var h := At(m, j.key, NewHisto(j.key.name, j.tags));
      if Accounted(h) {
        CombinedAccounted(arc, h, j.value, digest);
      }
      CombinedTallied(h, j.value, digest);
      HistoPut(m, kind, j.key, j.tags, CombineHisto(h, j.value, digest));
    }
  }

  lemma CombinedTallied(h: Histo, v: Payload, digest: Encoded)
    ensures Tallied(h) ==> Tallied(CombineHisto(h, v, digest))
  {
  }

  lemma NewAccounted(name: string, tags: seq<string>)
    ensures Accounted(NewHisto(name, tags))
  {
    TotalOfEmpty(WeightOf);
  }

  lemma HistosProcessed(arc: real -> real, wm: WorkerMetrics, m: UDPMetric, digest: Encoded)
    requires Consistent(m) && Sampled(arc, wm, m, digest)
    requires HistosNamed(wm.histograms, Histograms) && HistosNamed(wm.localHistograms, Histograms)
    requires HistosNamed(wm.timers, Timers) && HistosNamed(wm.localTimers, Timers)
    ensures var h, t, local, k := m.key.kind.Histograms?, m.key.kind.Timers?, m.scope.LocalOnly?, m.key;
            && HistosNamed(Updated(wm.histograms, h && !local, k, HistoAfter(wm.histograms, m, digest)), Histograms)
            && HistosNamed(Updated(wm.localHistograms, h && local, k, HistoAfter(wm.localHistograms, m, digest)),
                           Histograms)
            && HistosNamed(Updated(wm.timers, t && !local, k, HistoAfter(wm.timers, m, digest)), Timers)
            && HistosNamed(Updated(wm.localTimers, t && local, k, HistoAfter(wm.localTimers, m, digest)), Timers)
  {
    hide Join, KeyHash, At, HistoAfter, NewHisto, HistosNamed, Took, SampleWeight;
    if m.scope.LocalOnly? {
      HistoSampled(arc, wm.localHistograms, Histograms, m, digest);
      HistoSampled(arc, wm.localTimers, Timers, m, digest);
    } else {
      HistoSampled(arc, wm.histograms, Histograms, m, digest);
      HistoSampled(arc, wm.timers, Timers, m, digest);
    }
  }

  /** Sampling keeps every sampler under the key its export rebuilds. */
  lemma {:induction false} ProcessedKept(arc: real -> real, wm: WorkerMetrics, m: UDPMetric, digest: Encoded)
    requires Kept(wm) && WellFormed(m) && Sampled(arc, wm, m, digest)
    ensures Kept(Processed(wm, m, digest))
  {
    hide Join, KeyHash, CounterDelta, Wrap, At, HistoAfter, NewHisto, StatusAfter, CountersNamed, GaugesNamed,
         SetsNamed, SetAfter, HistosNamed, Sampled;
    var k, tags := m.key, m.tags;
    CounterPut(wm.counters, k, tags, CounterAfter(wm.counters, m));
    CounterPut(wm.globalCounters, k, tags, CounterAfter(wm.globalCounters, m));
    GaugePut(wm.gauges, k, tags, GaugeAfter(wm.gauges, m));
    GaugePut(wm.globalGauges, k, tags, GaugeAfter(wm.globalGauges, m));
    SetSampled(wm.sets, m);
    SetSampled(wm.localSets, m);
    HistosProcessed(arc, wm, m, digest);
  }

  lemma HistosImported(arc: real -> real, wm: WorkerMetrics, j: JSONMetric, digest: Encoded)
    requires Sound(j) && Combined(arc, wm, j, digest)
    requires HistosNamed(wm.histograms, Histograms) && HistosNamed(wm.timers, Timers)
    ensures var h, t, k, histo := j.key.kind.Histograms?, j.key.kind.Timers?, j.key, NewHisto(j.key.name, j.tags);
            && HistosNamed(Updated(wm.histograms, h, k, CombineHisto(At(wm.histograms, k, histo), j.value, digest)),
                           Histograms)
            && HistosNamed(Updated(wm.timers, t, k, CombineHisto(At(wm.timers, k, histo), j.value, digest)), Timers)
  {
    hide Join, At, NewHisto, HistosNamed, Joined, CombineHisto, Weight;
    HistoCombined(arc, wm.histograms, Histograms, j, digest);
    HistoCombined(arc, wm.timers, Timers, j, digest);
  }

  /** So does importing. */
  lemma {:induction false} ImportedKept(arc: real -> real, wm: WorkerMetrics, j: JSONMetric, digest: Encoded)
    requires Kept(wm) && Sound(j) && Combined(arc, wm, j, digest)
    ensures Kept(Imported(wm, j, digest))
  {
    hide Join, Wrap, At, NewHisto, CountersNamed, GaugesNamed, SetsNamed, HistosNamed, CombineHisto, Combined,
         CombineSet, Weighed;
    var k, tags := j.key, j.tags;
    CounterPut(wm.globalCounters, k, tags, CombineCounter(At(wm.globalCounters, k, Counter(k.name, tags, 0)), j.value));
    GaugePut(wm.globalGauges, k, tags, CombineGauge(At(wm.globalGauges, k, Gauge(k.name, tags, Finite(0.0))), j.value));
    SetCombined(wm.sets, j);
    HistosImported(arc, wm, j, digest);
  }

  lemma ExportedFrom<S>(m: map<MetricKey, S>, order: seq<MetricKey>, encode: S -> JSONMetric, j: JSONMetric)
    requires Visits(order, m) && j in Walk(m, order, Exporting(encode))
    ensures exists k :: k in m && j == encode(m[k])
  {
    hide Walk;
    WalkMember(m, order, Exporting(encode), j);
    var k :| k in m && j in Exporting(encode)(k, m[k]);
    assert j == encode(m[k]);
  }

  /** The export of the entry that a worker holds for a metric's key. */
  predicate ExportsEntry(wm: WorkerMetrics, j: JSONMetric) {
    match j.key.kind
    case Counters => j.key in wm.globalCounters && j == ExportCounter(wm.globalCounters[j.key])
    case Gauges => j.key in wm.globalGauges && j == ExportGauge(wm.globalGauges[j.key])
    case Histograms => j.key in wm.histograms && j == ExportHisto(wm.histograms[j.key])
    case Sets => j.key in wm.sets && j == ExportSet(wm.sets[j.key])
    case Timers => j.key in wm.timers && j == ExportTimer(wm.timers[j.key])
    case _ => false
  }

  /** Everything that is forwarded is sound, and is the very entry that was held under its key. */
  lemma {:induction false} ForwardedSound(wm: WorkerMetrics, o: Flusher.Orders, j: JSONMetric)
    requires Kept(wm) && OrdersOf(o, wm) && j in Forwarded(wm, o)
    ensures Sound(j) && ExportsEntry(wm, j)
  {
    hide Walk, Join, Visits, Accounted, Tallied, Weighed, Recalls;
    OrdersInside(o, wm);
    if j in Walk(wm.globalCounters, o.globalCounters, Exporting(ExportCounter)) {
      ExportedFrom(wm.globalCounters, o.globalCounters, ExportCounter, j);
    } else if j in Walk(wm.globalGauges, o.globalGauges, Exporting(ExportGauge)) {
      ExportedFrom(wm.globalGauges, o.globalGauges, ExportGauge, j);
    } else if j in Walk(wm.histograms, o.histograms, Exporting(ExportHisto)) {
      ExportedFrom(wm.histograms, o.histograms, ExportHisto, j);
      ExportedWeighed(wm.histograms[j.key]);
    } else if j in Walk(wm.sets, o.sets, Exporting(ExportSet)) {
      ExportedFrom(wm.sets, o.sets, ExportSet, j);
    } else {
      ExportedFrom(wm.timers, o.timers, ExportTimer, j);
      ExportedWeighed(wm.timers[j.key]);
    }
  }
}
