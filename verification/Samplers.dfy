/** Metric keys and the samplers kept under them, as values. */
module Samplers {
  import opened Centroids
  import opened Digests
  import opened Floating
  import opened Integers
  import opened Options
  import opened Sums
  import opened Text

  /** The type of a metric; Other is for names that are none of the known ones. */
  datatype Kind = Counters | Gauges | Histograms | Sets | Timers | Statuses | Other(other: string)

  function KindName(kind: Kind): string {
    match kind
    case Counters => "counter"
    case Gauges => "gauge"
    case Histograms => "histogram"
    case Sets => "set"
    case Timers => "timer"
    case Statuses => "status"
    case Other(name) => name
  }

  datatype MetricKey = MetricKey(name: string, kind: Kind, joinedTags: string)

  datatype Scope = MixedScope | LocalOnly | GlobalOnly

  /** The hash by which a key is assigned to a worker. */
  function KeyHash(k: MetricKey): bv32 {
    AddString(AddString(AddString(FNV_INIT, k.name), KindName(k.kind)), k.joinedTags)
  }

  /** It is the hash of name, type and tags written out one after the other. */
  lemma {:induction false} KeyHashOfString(k: MetricKey)
    ensures KeyHash(k) == AddString(FNV_INIT, k.name + KindName(k.kind) + k.joinedTags)
  {
    hide AddString, KindName;
    AddConcat(FNV_INIT, k.name, KindName(k.kind));
    AddConcat(FNV_INIT, k.name + KindName(k.kind), k.joinedTags);
  }

  function Route(k: MetricKey, workers: nat): (w: nat)
    requires workers > 0
    ensures w < workers
  {
    KeyHash(k) as nat % workers
  }

  // ---- Fixed-width counters

  /** Two's complement arithmetic on 64 bits. */
  function Wrap(x: int): (y: Int64)
    ensures (y - x) % TWO64 == 0
  {
    var low := x % TWO64;
    if low < 0x8000_0000_0000_0000 then low else low - TWO64
  }

  // ---- Samplers

  datatype Counter = Counter(name: string, tags: seq<string>, value: Int64)

  datatype Gauge = Gauge(name: string, tags: seq<string>, value: Float)

  /** The cardinality sketch stands for the set of members. seen is history: all the samples, here and elsewhere. */
  datatype MemberSet = MemberSet(name: string, tags: seq<string>, members: set<string>, seen: seq<string>)

  /** One sample of a histogram or timer: its value and its rate. */
  datatype Observation = Observation(value: real, rate: real)

  /**
    A histogram or timer. The digest is the value that merging its buffer would
    leave. The reciprocal sum is None once a sample of zero has made it infinite.
    imported, samples, own and adds are history: the weight merged in from other
    instances, all the samples behind the digest, those of them taken here, and the
    centroids that were added to the digest, samples of its own and merged ones.
   */
  datatype Histo = Histo(
    name: string, tags: seq<string>, digest: Encoded, imported: real, samples: seq<Observation>,
    own: seq<Observation>, adds: seq<Centroid>,
    localWeight: real, localMin: Option<real>, localMax: Option<real>, localSum: real, localReciprocalSum: Option<real>)

  datatype StatusCheck = StatusCheck(name: string, tags: seq<string>, value: int, message: string, hostName: string)

  function CounterDelta(sample: Float, rate: Float): int {
    Convert(sample) * Convert(Reciprocal(rate))
  }

  function SampleCounter(c: Counter, sample: Float, rate: Float): Counter {
    c.(value := Wrap(c.value + CounterDelta(sample, rate)))
  }

  function SampleWeight(rate: real): real
    requires rate > 0.0
  {
    1.0 / rate
  }

  function ReciprocalOf(sample: real, weight: real): real
    requires sample != 0.0
  {
    1.0 / sample * weight
  }

  function AddReciprocal(sum: Option<real>, sample: real, weight: real): Option<real> {
    if sum.None? || sample == 0.0 then None else Some(sum.value + ReciprocalOf(sample, weight))
  }

  /** A sample, given the digest that adding it leaves. */
  function SampleHisto(h: Histo, sample: real, rate: real, digest: Encoded): Histo
    requires rate > 0.0
  {
    var weight := SampleWeight(rate);
    h.(digest := digest,
       samples := h.samples + [Observation(sample, rate)],
       own := h.own + [Observation(sample, rate)],
       adds := h.adds + [Centroid(sample, weight)],
       localWeight := h.localWeight + weight,
       localMin := Lower(h.localMin, sample),
       localMax := Upper(h.localMax, sample),
       localSum := h.localSum + sample * weight,
       localReciprocalSum := AddReciprocal(h.localReciprocalSum, sample, weight))
  }

  /** What the samples of a histogram weigh. */
  function ObservedWeight(): Observation -> real {
    (x: Observation) => if x.rate > 0.0 then SampleWeight(x.rate) else 0.0
  }

  /** What they add to the sum. */
  function ObservedMoment(): Observation -> real {
    (x: Observation) => x.value * ObservedWeight()(x)
  }

  // ---- What a sample stands for

  /** A whole value v at rate 1/n counts v times n; in a histogram a sample at rate 1/n weighs n. */
  lemma {:induction false} RateStandsFor(v: int, n: int)
    requires -(TWO63 as int) <= v < TWO63 && 1 <= n < TWO63
    ensures 1.0 / n as real > 0.0
    ensures CounterDelta(Finite(v as real), Finite(1.0 / n as real)) == v * n
    ensures SampleWeight(1.0 / n as real) == n as real
  {
    var rate := 1.0 / n as real;
    assert 1.0 / rate == n as real;
    TruncateNear(v as real);
    TruncateNear(n as real);
  }

  /**
    In general a counter adds less than value / rate: exactly that if and only if
    the value is zero, or both the value and the reciprocal of the rate are whole.
   */
  lemma {:induction false} CounterExactIff(value: real, rate: real)
    requires 0.0 < rate <= 1.0 && Countable(Finite(value), Finite(rate))
    ensures CounterDelta(Finite(value), Finite(rate)) as real == value / rate <==>
              value == 0.0 || (Whole(value) && Whole(1.0 / rate))
  {
    hide Convertible, Truncate, Countable, Whole;
    var times := 1.0 / rate;
    AtLeastOnce(rate);
    CountFateIff(Finite(value), Finite(rate));
    TruncateNear(value);
    TruncateNear(times);
    var a, b := Truncate(value), Truncate(times);
    assert CounterDelta(Finite(value), Finite(rate)) == a * b;
    assert value / rate == value * times;
    if value >= 0.0 {
      ProductExact(value, times, a, b);
    } else {
      ProductExact(-value, times, -a, b);
      assert (-a) as real * b as real == -(a as real * b as real) && -value * times == -(value * times);
    }
    assert (a * b) as real == a as real * b as real;
  }

  lemma AtLeastOnce(rate: real)
    requires 0.0 < rate <= 1.0
    ensures 1.0 / rate >= 1.0
  {
  }

  lemma ProductExact(x: real, y: real, a: int, b: int)
    requires x >= 0.0 && y >= 1.0 && 0 <= a && a as real <= x && b as real <= y < b as real + 1.0
    ensures a as real * b as real == x * y <==> x == 0.0 || (a as real == x && b as real == y)
  {
    assert b >= 1;
    var dx, dy := x - a as real, y - b as real;
    assert x * y - a as real * b as real == dx * b as real + x * dy;
    assert dx * b as real >= dx;
    if x > 0.0 && dy > 0.0 {
      assert x * dy > 0.0;
    }
  }

  // ---- Samples that cannot be taken

  /**
    What becomes of a sample. Open is taken, after a conversion to int64 that Go
    leaves to the implementation; Spoiled is taken too, but the digest's weight is
    no finite number from then on.
   */
  datatype Fate = Taken | Open | Spoiled | Panicked

  /** The guard of the digest's Add, and what gets past it. */
  function AddFate(value: Float, weight: Float): Fate {
    if !value.Finite? || AtMostZero(weight) then Panicked
    else if weight.Finite? then Taken else Spoiled
  }

  function CountFate(sample: Float, rate: Float): Fate {
    if Convertible(sample) && Convertible(Reciprocal(rate)) then Taken else Open
  }

  /**
    A histogram takes a finite value at a finite positive rate; it panics over a
    value that is not finite, and over a rate that is infinite or negative.
   */
  lemma {:induction false} AddFateIff(value: Float, rate: Float)
    ensures var fate := AddFate(value, Reciprocal(rate));
            && (fate == Taken <==> value.Finite? && rate.Finite? && rate.value > 0.0)
            && (fate == Panicked <==> !value.Finite? || rate.Infinite? || (rate.Finite? && rate.value < 0.0))
            && fate != Open
  {
  }

  /** The value fits 64 bits, and the rate is not so small that its reciprocal does not. */
  predicate Countable(sample: Float, rate: Float) {
    && sample.Finite? && -(TWO63 as real) - 1.0 < sample.value < TWO63 as real
    && (rate.Infinite?
        || (rate.Finite? && (rate.value * TWO63 as real > 1.0 || rate.value * (TWO63 + 1) as real < -1.0)))
  }

  /** A counter's conversions are defined for such values and rates, and it never panics. */
  lemma {:induction false} CountFateIff(sample: Float, rate: Float)
    ensures CountFate(sample, rate) == if Countable(sample, rate) then Taken else Open
  {
    hide Convertible;
    ReciprocalConvertibleIff(rate);
    if sample.Finite? {
      ConvertibleIff(sample.value);
    } else {
      NotConvertible(sample);
    }
  }

  lemma NotConvertible(x: Float)
    ensures Convertible(x) ==> x.Finite?
  {
  }

  // ---- What the local minimum and maximum mean

  function SampleAll(h: Histo, xs: seq<Observation>, digests: seq<Encoded>): Histo
    requires |digests| == |xs| && forall i :: 0 <= i < |xs| ==> xs[i].rate > 0.0
  {
    if xs == [] then h
    else
      var n := |xs| - 1;
      SampleHisto(SampleAll(h, xs[..n], digests[..n]), xs[n].value, xs[n].rate, digests[n])
  }

  predicate IsExtreme(x: Option<real>, xs: seq<Observation>, sign: real) {
    if xs == [] then x.None?
    else
      && x.Some?
      && (exists i :: 0 <= i < |xs| && xs[i].value == x.value)
      && (forall i :: 0 <= i < |xs| ==> sign * xs[i].value >= sign * x.value)
  }

  /** The minimum and maximum a histogram reports are those of the samples it took, in any order of them. */
  lemma {:induction false} SampledExtremes(name: string, tags: seq<string>, xs: seq<Observation>, digests: seq<Encoded>)
    requires |digests| == |xs| && forall i :: 0 <= i < |xs| ==> xs[i].rate > 0.0
    ensures var h := SampleAll(NewHisto(name, tags), xs, digests);
            IsExtreme(h.localMin, xs, 1.0) && IsExtreme(h.localMax, xs, -1.0) && h.samples == xs
  {
    hide SampleHisto, IsExtreme, Lower, Upper;
    if xs == [] {
      NoExtremes();
    } else {
      var n := |xs| - 1;
      SampledExtremes(name, tags, xs[..n], digests[..n]);
      var g := SampleAll(NewHisto(name, tags), xs[..n], digests[..n]);
      SampledFields(g, xs[n], digests[n]);
      LowestStep(g.localMin, xs);
      HighestStep(g.localMax, xs);
      assert xs[..n] + [xs[n]] == xs;
    }
  }

  // ---- What all the local fields mean

  /** What samples add to the reciprocal sum. */
  function ObservedReciprocal(): Observation -> real {
    (x: Observation) => if x.value != 0.0 then ReciprocalOf(x.value, ObservedWeight()(x)) else 0.0
  }

  predicate HasZero(xs: seq<Observation>) {
    exists i :: 0 <= i < |xs| && xs[i].value == 0.0
  }

  /** The local fields are those of the samples taken here, whatever is merged in from elsewhere. */
  predicate Tallied(h: Histo) {
    && IsExtreme(h.localMin, h.own, 1.0) && IsExtreme(h.localMax, h.own, -1.0)
    && h.localWeight == Sum(ObservedWeight(), h.own) && h.localSum == Sum(ObservedMoment(), h.own)
    && h.localReciprocalSum == if HasZero(h.own) then None else Some(Sum(ObservedReciprocal(), h.own))
  }

  lemma NewTallied(name: string, tags: seq<string>)
    ensures Tallied(NewHisto(name, tags))
  {
  }

  lemma ZeroOneMore(xs: seq<Observation>, x: Observation)
    ensures HasZero(xs + [x]) <==> HasZero(xs) || x.value == 0.0
  {
    var all := xs + [x];
    assert all[|xs|] == x && forall i :: 0 <= i < |xs| ==> all[i] == xs[i];
  }

  lemma ReciprocalOneMore(sum: Option<real>, xs: seq<Observation>, x: Observation)
    requires x.rate > 0.0 && sum == if HasZero(xs) then None else Some(Sum(ObservedReciprocal(), xs))
    ensures AddReciprocal(sum, x.value, SampleWeight(x.rate))
         == if HasZero(xs + [x]) then None else Some(Sum(ObservedReciprocal(), xs + [x]))
  {
    hide Sum, HasZero, SampleWeight, ReciprocalOf;
    ZeroOneMore(xs, x);
    SumConcat(ObservedReciprocal(), xs, [x]);
    SumOne(ObservedReciprocal(), x);
    if x.value != 0.0 {
      ReciprocalObserved(x);
    }
  }

  lemma ReciprocalObserved(x: Observation)
    requires x.rate > 0.0 && x.value != 0.0
    ensures ObservedReciprocal()(x) == ReciprocalOf(x.value, SampleWeight(x.rate))
  {
    assert ObservedWeight()(x) == SampleWeight(x.rate);
  }

  lemma {:induction false} SampledTallied(h: Histo, x: Observation, digest: Encoded)
    requires Tallied(h) && x.rate > 0.0
    ensures Tallied(SampleHisto(h, x.value, x.rate, digest))
  {
    hide Sum, IsExtreme, HasZero, SampleWeight, AddReciprocal, Lower, Upper;
    var xs := h.own + [x];
    assert xs[..|xs| - 1] == h.own;
    LowestStep(h.localMin, xs);
    HighestStep(h.localMax, xs);
    SumConcat(ObservedWeight(), h.own, [x]);
    SumOne(ObservedWeight(), x);
    SumConcat(ObservedMoment(), h.own, [x]);
    SumOne(ObservedMoment(), x);
    ReciprocalOneMore(h.localReciprocalSum, h.own, x);
  }

  lemma NoExtremes()
    ensures IsExtreme(None, [], 1.0) && IsExtreme(None, [], -1.0)
  {
  }

  lemma LowestStep(x: Option<real>, xs: seq<Observation>)
    requires xs != [] && IsExtreme(x, xs[..|xs| - 1], 1.0)
    ensures IsExtreme(Lower(x, xs[|xs| - 1].value), xs, 1.0)
  {
    hide IsExtreme;
    ExtremeStep(x, Lower(x, xs[|xs| - 1].value), xs, 1.0);
  }

  lemma HighestStep(x: Option<real>, xs: seq<Observation>)
    requires xs != [] && IsExtreme(x, xs[..|xs| - 1], -1.0)
    ensures IsExtreme(Upper(x, xs[|xs| - 1].value), xs, -1.0)
  {
    hide IsExtreme;
    ExtremeStep(x, Upper(x, xs[|xs| - 1].value), xs, -1.0);
  }

  lemma SampledFields(h: Histo, x: Observation, digest: Encoded)
    requires x.rate > 0.0
    ensures var g := SampleHisto(h, x.value, x.rate, digest);
            && g.samples == h.samples + [x]
            && g.localMin == Lower(h.localMin, x.value) && g.localMax == Upper(h.localMax, x.value)
  {
    hide SampleWeight, AddReciprocal;
  }

  lemma ExtremeStep(x: Option<real>, y: Option<real>, xs: seq<Observation>, sign: real)
    requires xs != [] && (sign == 1.0 || sign == -1.0) && IsExtreme(x, xs[..|xs| - 1], sign)
    requires var v := xs[|xs| - 1].value; y == if x.Some? && sign * x.value <= sign * v then x else Some(v)
    ensures IsExtreme(y, xs, sign)
  {
    var n := |xs| - 1;
    assert xs[n].value == xs[n].value;
    if n > 0 {
      var i :| 0 <= i < n && xs[..n][i].value == x.value;
      assert xs[i].value == x.value;
      assert forall j :: 0 <= j < n ==> xs[..n][j] == xs[j];
    }
  }

  function SampleSet(s: MemberSet, member: string): MemberSet {
    s.(members := s.members + {member}, seen := s.seen + [member])
  }

  function NewSet(name: string, tags: seq<string>): MemberSet {
    MemberSet(name, tags, {}, [])
  }

  /** The members are the ones that were seen. */
  predicate Recalls(members: set<string>, seen: seq<string>) {
    members == set x | x in seen
  }

  function NewHisto(name: string, tags: seq<string>): Histo {
    Histo(name, tags, NO_DIGEST, 0.0, [], [], [], 0.0, None, None, 0.0, Some(0.0))
  }

  // ---- What instances send each other

  /** A digest travels as its encoded tuple, a set as its sketch; the samples behind them are history. */
  datatype Payload =
    | CounterValue(count: Int64)
    | GaugeValue(level: Float)
    | Members(members: set<string>, seen: seq<string>)
    | DigestValue(digest: Encoded, samples: seq<Observation>)

  datatype JSONMetric = JSONMetric(key: MetricKey, tags: seq<string>, value: Payload)

  function ExportCounter(c: Counter): JSONMetric {
    JSONMetric(MetricKey(c.name, Counters, Join(c.tags, ",")), c.tags, CounterValue(c.value))
  }

  function ExportGauge(g: Gauge): JSONMetric {
    JSONMetric(MetricKey(g.name, Gauges, Join(g.tags, ",")), g.tags, GaugeValue(g.value))
  }

  function ExportSet(s: MemberSet): JSONMetric {
    JSONMetric(MetricKey(s.name, Sets, Join(s.tags, ",")), s.tags, Members(s.members, s.seen))
  }

  /** Histograms export as histograms; the flusher renames the timers among them. */
  function ExportHisto(h: Histo): JSONMetric {
    JSONMetric(MetricKey(h.name, Histograms, Join(h.tags, ",")), h.tags, DigestValue(h.digest, h.samples))
  }

  function ExportTimer(h: Histo): JSONMetric {
    var j := ExportHisto(h);
    j.(key := j.key.(kind := Timers))
  }

  /** Combining a payload of another type fails and changes nothing. */
  function CombineCounter(c: Counter, v: Payload): Counter {
    if v.CounterValue? then c.(value := Wrap(c.value + v.count)) else c
  }

  function CombineGauge(g: Gauge, v: Payload): Gauge {
    if v.GaugeValue? then g.(value := v.level) else g
  }

  function CombineSet(s: MemberSet, v: Payload): MemberSet {
    if v.Members? then s.(members := s.members + v.members, seen := s.seen + v.seen) else s
  }

  /** A merge, given the digest that it leaves. */
  function CombineHisto(h: Histo, v: Payload, digest: Encoded): Histo {
    if v.DigestValue? then
      h.(digest := digest, imported := h.imported + Weight(v.digest.main), samples := h.samples + v.samples,
         adds := h.adds + v.digest.main)
    else h
  }

  predicate Between(x: real, samples: seq<Observation>) {
    && (exists i :: 0 <= i < |samples| && samples[i].value <= x)
    && (exists i :: 0 <= i < |samples| && samples[i].value >= x)
  }

  /** The ends of a digest's range lie between samples. */
  predicate Covered(d: Encoded, samples: seq<Observation>) {
    (d.min.Some? ==> Between(d.min.value, samples)) && (d.max.Some? ==> Between(d.max.value, samples))
  }

  predicate MeansBetween(main: seq<Centroid>, samples: seq<Observation>) {
    forall i :: 0 <= i < |main| ==> Between(main[i].mean, samples)
  }

  predicate Rated(samples: seq<Observation>) {
    forall i :: 0 <= i < |samples| ==> samples[i].rate > 0.0
  }

  /**
    A digest is sane and holds the weight sampled here, the weight imported, and
    the weight, the sum and the range of its samples.
   */
  predicate Accounted(h: Histo) {
    && Sane(h.digest) && Rated(h.samples)
    && Weight(h.digest.main) == h.localWeight + h.imported == Sum(ObservedWeight(), h.samples)
    && Moment(h.digest.main) == Sum(ObservedMoment(), h.samples)
    && Covered(h.digest, h.samples)
    && h.localWeight >= 0.0 && h.imported >= 0.0
  }

  lemma BetweenMore(x: real, a: seq<Observation>, b: seq<Observation>)
    ensures Between(x, a) || Between(x, b) ==> Between(x, a + b)
  {
    var all := a + b;
    assert forall i :: 0 <= i < |a| ==> all[i] == a[i];
    assert forall i :: 0 <= i < |b| ==> all[|a| + i] == b[i];
  }

  lemma TookCovered(before: Encoded, samples: seq<Observation>, sample: real, rate: real, after: Encoded)
    requires Covered(before, samples)
    requires after.min == Lower(before.min, sample) && after.max == Upper(before.max, sample)
    ensures Covered(after, samples + [Observation(sample, rate)])
  {
    hide Between;
    var x := Observation(sample, rate);
    BetweenItself(x);
    BetweenMore(sample, samples, [x]);
    if before.min.Some? {
      BetweenMore(before.min.value, samples, [x]);
    }
    if before.max.Some? {
      BetweenMore(before.max.value, samples, [x]);
    }
  }

  lemma BetweenItself(x: Observation)
    ensures Between(x.value, [x])
  {
    assert [x][0] == x;
  }

  lemma JoinedCovered(before: Encoded, samples: seq<Observation>, other: seq<Centroid>, theirs: seq<Observation>,
                      after: Encoded)
    requires Covered(before, samples) && MeansBetween(other, theirs)
    requires IsLowest(after.min, before.min, other) && IsHighest(after.max, before.max, other)
    ensures Covered(after, samples + theirs)
  {
    hide Between;
    if before.min.Some? {
      BetweenMore(before.min.value, samples, theirs);
    }
    if before.max.Some? {
      BetweenMore(before.max.value, samples, theirs);
    }
    forall i | 0 <= i < |other|
      ensures Between(other[i].mean, samples + theirs)
    {
      BetweenMore(other[i].mean, samples, theirs);
    }
  }

  lemma {:induction false} SampledAccounted(arc: real -> real, h: Histo, sample: real, rate: real, digest: Encoded)
    requires Accounted(h) && rate > 0.0 && Took(arc, h.adds, h.digest, sample, SampleWeight(rate), digest)
    ensures Accounted(SampleHisto(h, sample, rate, digest))
  {
    hide Weight, Moment, Sane, Sum, AddReciprocal, Covered, Made;
    assert SampleWeight(rate) > 0.0;
    var x := Observation(sample, rate);
    SumConcat(ObservedWeight(), h.samples, [x]);
    SumOne(ObservedWeight(), x);
    SumConcat(ObservedMoment(), h.samples, [x]);
    SumOne(ObservedMoment(), x);
    TookCovered(h.digest, h.samples, sample, rate, digest);
  }

  /** A payload whose centroids are positive and weigh, sum up and range as its samples do. */
  predicate Weighed(v: Payload) {
    && v.DigestValue? && Positive(v.digest.main) && Rated(v.samples)
    && Weight(v.digest.main) == Sum(ObservedWeight(), v.samples)
    && Moment(v.digest.main) == Sum(ObservedMoment(), v.samples)
    && MeansBetween(v.digest.main, v.samples)
  }

  lemma {:induction false} CombinedAccounted(arc: real -> real, h: Histo, v: Payload, digest: Encoded)
    requires Accounted(h) && Weighed(v) && Joined(arc, h.adds, h.digest, v.digest, digest)
    ensures Accounted(CombineHisto(h, v, digest))
  {
    hide Moment, Sane, Sum, Total, Covered, MeansBetween, Made;
    PositiveWeight(v.digest.main);
    SumConcat(ObservedWeight(), h.samples, v.samples);
    SumConcat(ObservedMoment(), h.samples, v.samples);
    JoinedCovered(h.digest, h.samples, v.digest.main, v.samples, digest);
  }

  /** Centroids as samples of their own. */
  function AsSamples(cs: seq<Centroid>): seq<Observation>
    requires Positive(cs)
  {
    if cs == [] then []
    else
      var n := |cs| - 1;
      AsSamples(cs[..n]) + [Observation(cs[n].mean, 1.0 / cs[n].weight)]
  }

  /** There are samples behind any positive centroids. */
  lemma {:induction false} AnyPayloadWeighed(d: Encoded)
    requires Positive(d.main)
    ensures Weighed(DigestValue(d, AsSamples(d.main)))
    decreases |d.main|
  {
    hide Total, Sum, Between, MassOf;
    if d.main == [] {
      assert AsSamples([]) == [];
      NothingWeighs();
    } else {
      var n := |d.main| - 1;
      var front, c := d.main[..n], d.main[n];
      AnyPayloadWeighed(d.(main := front));
      AsOneSample(front, c);
      assert d.main == front + [c];
    }
  }

  lemma AsOneSample(front: seq<Centroid>, c: Centroid)
    requires Positive(front) && c.weight > 0.0 && Weighed(DigestValue(NO_DIGEST.(main := front), AsSamples(front)))
    ensures Positive(front + [c])
    ensures Weighed(DigestValue(NO_DIGEST.(main := front + [c]),
                                AsSamples(front) + [Observation(c.mean, 1.0 / c.weight)]))
  {
    hide Total, Sum, Between, AsSamples;
    var samples, x := AsSamples(front), Observation(c.mean, 1.0 / c.weight);
    TotalOfAppend(WeightOf, front, c);
    TotalOfAppend(MassOf, front, c);
    assert x.rate > 0.0 && SampleWeight(x.rate) == c.weight;
    SumConcat(ObservedWeight(), samples, [x]);
    SumOne(ObservedWeight(), x);
    SumConcat(ObservedMoment(), samples, [x]);
    SumOne(ObservedMoment(), x);
    BetweenItself(x);
    BetweenMore(c.mean, samples, [x]);
    forall i | 0 <= i < |front|
      ensures Between(front[i].mean, samples + [x])
    {
      BetweenMore(front[i].mean, samples, [x]);
    }
  }

  lemma {:induction false} RatedWeight(samples: seq<Observation>)
    requires Rated(samples)
    ensures Sum(ObservedWeight(), samples) >= 0.0
    ensures samples != [] ==> Sum(ObservedWeight(), samples) > 0.0
  {
    if samples != [] {
      assert SampleWeight(samples[0].rate) > 0.0;
      RatedWeight(samples[1..]);
    }
  }

  /**
    What an accounted digest answers: something if and only if there are samples
    behind it, and then a value between the least and the greatest of them.
   */
  lemma {:induction false} AnswerBetween(h: Histo, quantile: real)
    requires Accounted(h) && 0.0 <= quantile <= 1.0
    ensures Read(h.digest, quantile).Some? <==> h.samples != []
    ensures h.samples != [] ==> Between(Read(h.digest, quantile).value, h.samples)
  {
    hide Read, Total, Sum, Between, Rated;
    var d := h.digest;
    PositiveWeight(d.main);
    RatedWeight(h.samples);
    NothingWeighs();
    if d.main == [] {
      ReadNothing(d, quantile);
    } else {
      ReadWithin(d, quantile);
      BetweenEnds(d.min.value, Read(d, quantile).value, d.max.value, h.samples);
    }
  }

  lemma NothingWeighs()
    ensures Sum(ObservedWeight(), []) == Sum(ObservedMoment(), []) == 0.0 && Weight([]) == Moment([]) == 0.0
  {
    TotalOfEmpty(WeightOf);
    TotalOfEmpty(MassOf);
  }

  /** So what is exported of an accounted histogram does. */
  lemma {:induction false} ExportedWeighed(h: Histo)
    requires Accounted(h)
    ensures Weighed(ExportHisto(h).value)
  {
    hide Moment, Sum, Total, Between;
    forall i | 0 <= i < |h.digest.main|
      ensures Between(h.digest.main[i].mean, h.samples)
    {
      BetweenEnds(h.digest.min.value, h.digest.main[i].mean, h.digest.max.value, h.samples);
    }
  }

  lemma BetweenEnds(lo: real, x: real, hi: real, samples: seq<Observation>)
    requires lo <= x <= hi && Between(lo, samples) && Between(hi, samples)
    ensures Between(x, samples)
  {
  }
}
