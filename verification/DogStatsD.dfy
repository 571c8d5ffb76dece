/** Metrics in the DogStatsD datagram format. */
module DogStatsD {
  import opened Floating
  import opened Options
  import opened Text
  import opened SplitBytes
  import opened Samplers
  import opened Tags
  import opened Worker

  /** The two texts of an event whose lengths are written out. */
  datatype Field = TitleField | TextField

  /** What the error messages say, without the input they quote. */
  datatype ParseError =
    | NoColon | NoName | NoPipe | NoType | BadType | BadValue
    | EmptySection | UnknownSection | Repeated(marker: char) | BadRate | RateRange | BadDate
    | NoWrapper | NoComma | LengthNotInteger(of: Field) | LengthNotPositive(of: Field) | WrongLength(of: Field)
    | BadPriority | BadAlert
    | NoPrefix | NoNameSection | NoStatus | BadStatus | AfterMessage

  datatype Result<+T> = Success(value: T) | Failure(error: ParseError)

  /** Reading of floating-point numbers: None where it fails; a value must also be finite, a rate need not be. */
  datatype Floats = Floats(value: string -> Option<real>, rate: string -> Option<Float>)

  function KindOf(c: char): Option<Kind> {
    match c
    case 'c' => Some(Counters)
    case 'g' => Some(Gauges)
    case 'h' => Some(Histograms)
    case 'm' => Some(Timers)
    case 's' => Some(Sets)
    case _ => None
  }

  function ValueOf(kind: Kind, text: string, floats: Floats): Option<Value> {
    if kind.Sets? then Some(Member(text))
    else match floats.value(text)
      case None => None
      case Some(x) => Some(Number(Finite(x)))
  }

  // ---- The sections after the type

  datatype Sections = Sections(rate: Option<Float>, tags: Option<Scoped>)

  const NO_SECTIONS := Sections(None, None)

  /** Of the two range checks, NaN passes both. */
  function RateOf(text: string, floats: Floats): Result<Float> {
    match floats.rate(text)
    case None => Failure(BadRate)
    case Some(NaN) => Success(NaN)
    case Some(Infinite(_)) => Failure(RateRange)
    case Some(Finite(x)) => if x <= 0.0 || x > 1.0 then Failure(RateRange) else Success(Finite(x))
  }

  function AddSection(s: Sections, chunk: string, floats: Floats): Result<Sections> {
    if chunk == "" then Failure(EmptySection)
    else if chunk[0] == '@' then
      if s.rate.Some? then Failure(Repeated('@'))
      else match RateOf(chunk[1..], floats)
        case Failure(e) => Failure(e)
        case Success(x) => Success(s.(rate := Some(x)))
    else if chunk[0] == '#' then
      if s.tags.Some? then Failure(Repeated('#'))
      else Success(s.(tags := Some(TagsOf(Split(chunk[1..], ',')))))
    else Failure(UnknownSection)
  }

  function AddSections(s: Sections, chunks: seq<string>, floats: Floats): Result<Sections>
    decreases |chunks|
  {
    if chunks == [] then Success(s)
    else match AddSection(s, chunks[0], floats)
      case Failure(e) => Failure(e)
      case Success(t) => AddSections(t, chunks[1..], floats)
  }

  function TagsIn(s: Sections): Scoped {
    if s.tags.Some? then s.tags.value else Scoped([], MixedScope)
  }

  /** A metric's digest is the hash of its key: name, type and joined tags. */
  function MetricWith(name: string, kind: Kind, value: Value, s: Sections): UDPMetric {
    var key := MetricKey(name, kind, Join(TagsIn(s).tags, ","));
    UDPMetric(key, KeyHash(key), value, if s.rate.Some? then s.rate.value else Finite(1.0),
              TagsIn(s).tags, TagsIn(s).scope, 0, "", "")
  }

  datatype Head = Head(name: string, kind: Kind, value: Value)

  /** The part before the sections. */
  function HeadOf(chunks: seq<string>, floats: Floats): Result<Head>
    requires |chunks| > 0
  {
    match IndexByte(chunks[0], ':')
    case None => Failure(NoColon)
    case Some(i) =>
      if i == 0 then Failure(NoName)
      else if |chunks| == 1 then Failure(NoPipe)
      else if chunks[1] == "" then Failure(NoType)
      else match KindOf(chunks[1][0])
        case None => Failure(BadType)
        case Some(kind) =>
          match ValueOf(kind, chunks[0][i + 1..], floats)
          case None => Failure(BadValue)
          case Some(value) => Success(Head(chunks[0][..i], kind, value))
  }

  function Assembled(head: Result<Head>, s: Result<Sections>): Result<UDPMetric> {
    if head.Failure? then Failure(head.error)
    else if s.Failure? then Failure(s.error)
    else Success(MetricWith(head.value.name, head.value.kind, head.value.value, s.value))
  }

  function MetricFrom(chunks: seq<string>, floats: Floats): Result<UDPMetric>
    requires |chunks| > 0
  {
    Assembled(HeadOf(chunks, floats), AddSections(NO_SECTIONS, if |chunks| > 2 then chunks[2..] else [], floats))
  }

  function MetricOf(packet: string, floats: Floats): Result<UDPMetric> {
    MetricFrom(Split(packet, '|'), floats)
  }

  // ---- The parser

  /** One turn of the section loop: the running hash takes the tags in when they come. */
  method ReadSection(s: Sections, h: bv32, chunk: string, floats: Floats) returns (r: Result<Sections>, g: bv32)
    ensures r == AddSection(s, chunk, floats)
    ensures r.Success? ==>
              g == if s.tags.None? && r.value.tags.Some? then AddString(h, Join(r.value.tags.value.tags, ",")) else h
  {
    hide Split, SortStrings, TakeScope, Join, AddString;
    g := h;
    if chunk == "" {
      return Failure(EmptySection), h;
    }
    if chunk[0] == '@' {
      if s.rate.Some? {
        return Failure(Repeated('@')), h;
      }
      var rate := floats.rate(chunk[1..]);
      if rate.None? {
        return Failure(BadRate), h;
      }
      if rate.value.Infinite? || (rate.value.Finite? && (rate.value.value <= 0.0 || rate.value.value > 1.0)) {
        return Failure(RateRange), h;
      }
      r := Success(s.(rate := rate));
    } else if chunk[0] == '#' {
      if s.tags.Some? {
        return Failure(Repeated('#')), h;
      }
      var found := FindScope(SortStrings(Split(chunk[1..], ',')));
      r := Success(s.(tags := Some(found)));
      g := AddString(h, Join(found.tags, ","));
    } else {
      r := Failure(UnknownSection);
    }
  }

  /** The first two chunks: name and value, then the type. */
  method ReadHead(splitter: SplitBytes, floats: Floats) returns (r: Result<Head>)
    requires splitter.Rest() != []
    modifies splitter
    ensures r == HeadOf(old(splitter.Rest()), floats)
    ensures r.Success? ==> |old(splitter.Rest())| >= 2 && splitter.Rest() == old(splitter.Rest())[2..]
  {
    hide Split, IndexByte, KindOf, ValueOf, SplitBytes.Rest;
    ghost var chunks := splitter.Rest();
    var _ := splitter.Next();
    var first := splitter.currentChunk;
    assert first == chunks[0] && splitter.Rest() == chunks[1..];
    var colon := IndexByte(first, ':');
    if colon.None? {
      return Failure(NoColon);
    }
    if colon.value == 0 {
      return Failure(NoName);
    }
    var more := splitter.Next();
    if !more {
      return Failure(NoPipe);
    }
    assert splitter.currentChunk == chunks[1] && splitter.Rest() == chunks[2..];
    if splitter.currentChunk == "" {
      return Failure(NoType);
    }
    var kind := KindOf(splitter.currentChunk[0]);
    if kind.None? {
      return Failure(BadType);
    }
    var value := ValueOf(kind.value, first[colon.value + 1..], floats);
    if value.None? {
      return Failure(BadValue);
    }
    r := Success(Head(first[..colon.value], kind.value, value.value));
  }

  method ParseMetric(packet: string, floats: Floats) returns (r: Result<UDPMetric>)
    ensures r == MetricOf(packet, floats)
  {
    hide Split, HeadOf, AddSections, MetricWith;
    var splitter := new SplitBytes(packet, '|');
    ghost var chunks := splitter.Rest();
    var head := ReadHead(splitter, floats);
    if head.Failure? {
      return Failure(head.error);
    }
    assert (if |chunks| > 2 then chunks[2..] else []) == splitter.Rest();
    r := ReadSections(splitter, head.value.name, head.value.kind, head.value.value, floats);
  }

  method ReadSections(splitter: SplitBytes, name: string, kind: Kind, value: Value, floats: Floats)
    returns (r: Result<UDPMetric>)
    modifies splitter
    ensures r == match AddSections(NO_SECTIONS, old(splitter.Rest()), floats)
                 case Failure(e) => Failure(e)
                 case Success(s) => Success(MetricWith(name, kind, value, s))
  {
    hide Split, Join, AddString, AddSection;
    var h := AddString(AddString(FNV_INIT, name), KindName(kind));
    ghost var start := h;
    var s := NO_SECTIONS;
    ghost var all := AddSections(s, splitter.Rest(), floats);
    var more := splitter.Next();
    while more
      invariant all == AddSections(s, if more then [splitter.currentChunk] + splitter.Rest() else [], floats)
      invariant h == if s.tags.Some? then AddString(start, Join(s.tags.value.tags, ",")) else start
      decreases |splitter.Rest()|, more
    {
      var section, g := ReadSection(s, h, splitter.currentChunk, floats);
      if section.Failure? {
        return Failure(section.error);
      }
      TagsStay(s, splitter.currentChunk, floats);
      s, h := section.value, g;
      more := splitter.Next();
    }
    AddNothing(start);
    var tags := TagsIn(s);
    var key := MetricKey(name, kind, Join(tags.tags, ","));
    var rate := if s.rate.Some? then s.rate.value else Finite(1.0);
    r := Success(UDPMetric(key, h, value, rate, tags.tags, tags.scope, 0, "", ""));
  }

  lemma TagsStay(s: Sections, chunk: string, floats: Floats)
    ensures var r := AddSection(s, chunk, floats); r.Success? && s.tags.Some? ==> r.value.tags == s.tags
  {
  }

  lemma AddNothing(h: bv32)
    ensures AddString(h, Join([], ",")) == h
  {
  }

  // ---- What it returns

  /** How many sections start with a marker. */
  function Starting(chunks: seq<string>, marker: char): nat {
    if chunks == [] then 0
    else (if chunks[0] != "" && chunks[0][0] == marker then 1 else 0) + Starting(chunks[1..], marker)
  }

  predicate SectionLegal(chunk: string, floats: Floats) {
    chunk != "" && (chunk[0] == '#' || (chunk[0] == '@' && RateOf(chunk[1..], floats).Success?))
  }

  /** Tags or a legal rate, neither of them twice. */
  predicate SectionsLegal(chunks: seq<string>, floats: Floats) {
    && (forall i :: 0 <= i < |chunks| ==> SectionLegal(chunks[i], floats))
    && Starting(chunks, '@') <= 1 && Starting(chunks, '#') <= 1
  }

  function Known<T>(x: Option<T>): nat {
    if x.Some? then 1 else 0
  }

  lemma {:induction false} SectionsFrom(s: Sections, chunks: seq<string>, floats: Floats)
    ensures var r := AddSections(s, chunks, floats);
            && (r.Success? <==> && (forall i :: 0 <= i < |chunks| ==> SectionLegal(chunks[i], floats))
                                && Known(s.rate) + Starting(chunks, '@') <= 1
                                && Known(s.tags) + Starting(chunks, '#') <= 1)
            && (r.Success? ==> && Known(r.value.rate) == Known(s.rate) + Starting(chunks, '@')
                               && Known(r.value.tags) == Known(s.tags) + Starting(chunks, '#'))
    decreases |chunks|
  {
    hide RateOf, Split, SortStrings, TakeScope;
    if chunks != [] {
      var r := AddSection(s, chunks[0], floats);
      assert r.Success? ==> SectionLegal(chunks[0], floats);
      if r.Success? {
        SectionsFrom(r.value, chunks[1..], floats);
        assert forall i :: 0 < i < |chunks| ==> chunks[i] == chunks[1..][i - 1];
      }
    }
  }

  /** Sections are read if and only if they are legal, and what is found is what there was. */
  lemma {:induction false} SectionsRead(chunks: seq<string>, floats: Floats)
    ensures var r := AddSections(NO_SECTIONS, chunks, floats);
            && (r.Success? <==> SectionsLegal(chunks, floats))
            && (r.Success? ==> (r.value.rate.Some? <==> Starting(chunks, '@') == 1))
            && (r.Success? ==> (r.value.tags.Some? <==> Starting(chunks, '#') == 1))
  {
    hide AddSections, SectionLegal, Starting;
    SectionsFrom(NO_SECTIONS, chunks, floats);
  }

  /** The rate in the first section that has one; 1 if there is none. */
  function RateWritten(chunks: seq<string>, floats: Floats): Float {
    if chunks == [] then Finite(1.0)
    else if chunks[0] != "" && chunks[0][0] == '@' && floats.rate(chunks[0][1..]).Some? then
      floats.rate(chunks[0][1..]).value
    else RateWritten(chunks[1..], floats)
  }

  function RateIn(s: Sections): Float {
    if s.rate.Some? then s.rate.value else Finite(1.0)
  }

  predicate InRange(rate: Float) {
    rate.NaN? || (rate.Finite? && 0.0 < rate.value <= 1.0)
  }

  lemma {:induction false} RateFound(s: Sections, chunks: seq<string>, floats: Floats)
    requires InRange(RateIn(s))
    ensures var r := AddSections(s, chunks, floats);
            r.Success? ==>
              && RateIn(r.value) == (if s.rate.Some? then s.rate.value else RateWritten(chunks, floats))
              && InRange(RateIn(r.value))
    decreases |chunks|
  {
    hide Split, SortStrings, TakeScope;
    if chunks != [] {
      var r := AddSection(s, chunks[0], floats);
      if r.Success? {
        RateFound(r.value, chunks[1..], floats);
      }
    }
  }

  function SectionsOf(packet: string): seq<string> {
    var chunks := Split(packet, '|');
    if |chunks| > 2 then chunks[2..] else []
  }

  /**
    Whatever the packet, a metric that comes out has a name, the hash of its key, and
    the rate that was written, which is in (0, 1] or NaN. No worker panics over it.
    A worker takes it if and only if it is a gauge or a set, or a histogram or timer
    whose rate is not NaN, or a counter whose value and rate fit 64 bits.
   */
  lemma {:induction false} ParsedTakenIff(packet: string, floats: Floats)
    ensures var r, rate := MetricOf(packet, floats), RateWritten(SectionsOf(packet), floats);
            r.Success? ==>
              && r.value.key.name != "" && Consistent(r.value) && r.value.sampleRate == rate && InRange(rate)
              && var head := HeadOf(Split(packet, '|'), floats).value;
                 && r.value.key.kind == head.kind && r.value.value == head.value
                 && FateOf(r.value) != Panicked
                 && (FateOf(r.value) == Taken <==>
                       match head.kind
                       case Counters => head.value.Number? && Countable(head.value.number, rate)
                       case Gauges => true
                       case Sets => true
                       case _ => !rate.NaN?)
  {
    hide Split, Join, KeyHash, AddSections, AddFate, CountFate, Reciprocal, Countable, InRange, RateWritten;
    RateFound(NO_SECTIONS, SectionsOf(packet), floats) by {
      AlwaysInRange();
    }
    var r := MetricOf(packet, floats);
    if r.Success? && r.value.value.Number? {
      AddFateIff(r.value.value.number, r.value.sampleRate);
      CountFateIff(r.value.value.number, r.value.sampleRate);
      RangeMeans(r.value.sampleRate);
    }
  }

  lemma AlwaysInRange()
    ensures InRange(RateIn(NO_SECTIONS))
  {
  }

  lemma RangeMeans(rate: Float)
    ensures InRange(rate) ==> rate.NaN? || (rate.Finite? && 0.0 < rate.value)
  {
  }

  predicate Chunks(chunks: seq<string>) {
    |chunks| > 0 && forall i :: 0 <= i < |chunks| ==> Free(chunks[i], '|')
  }

  function Packet(chunks: seq<string>): string {
    Join(chunks, "|")
  }

  /** A packet of these chunks is read as these chunks. */
  lemma ChunksParse(head: seq<string>, sections: seq<string>, floats: Floats)
    requires |head| == 2 && Chunks(head + sections)
    ensures MetricOf(Packet(head + sections), floats)
         == Assembled(HeadOf(head, floats), AddSections(NO_SECTIONS, sections, floats))
  {
    hide Split, Join, Assembled, AddSections, KindOf, ValueOf, IndexByte;
    var chunks := head + sections;
    JoinSplits(chunks, '|');
    assert chunks[..2] == head && (if |chunks| > 2 then chunks[2..] else []) == sections;
  }

  function Then(first: Result<Sections>, chunks: seq<string>, floats: Floats): Result<Sections> {
    if first.Failure? then first else AddSections(first.value, chunks, floats)
  }

  /** Reading sections one list after the other. */
  lemma {:induction false} AddConcatenated(s: Sections, a: seq<string>, b: seq<string>, floats: Floats)
    ensures AddSections(s, a + b, floats) == Then(AddSections(s, a, floats), b, floats)
    decreases |a|
  {
    hide AddSection;
    if a == [] {
      assert a + b == b;
    } else {
      assert (a + b)[1..] == a[1..] + b;
      var r := AddSection(s, a[0], floats);
      if r.Success? {
        AddConcatenated(r.value, a[1..], b, floats);
      }
    }
  }

  lemma ThreeParts(before: seq<string>, middle: seq<string>, after: seq<string>, floats: Floats)
    ensures AddSections(NO_SECTIONS, before + middle + after, floats)
         == Then(Then(AddSections(NO_SECTIONS, before, floats), middle, floats), after, floats)
  {
    hide AddSections;
    AddConcatenated(NO_SECTIONS, before + middle, after, floats);
    AddConcatenated(NO_SECTIONS, before, middle, floats);
  }

  /** The order in which tags are written does not change what a packet means. */
  lemma {:induction false} TagOrderIrrelevant(head: seq<string>, before: seq<string>, a: string, b: string,
      after: seq<string>, floats: Floats)
    requires |head| == 2
    requires Chunks(head + (before + ["#" + a] + after)) && Chunks(head + (before + ["#" + b] + after))
    requires multiset(Split(a, ',')) == multiset(Split(b, ','))
    ensures MetricOf(Packet(head + (before + ["#" + a] + after)), floats)
         == MetricOf(Packet(head + (before + ["#" + b] + after)), floats)
  {
    hide Split, Packet, Chunks, HeadOf, Assembled, AddSections, MetricOf;
    ChunksParse(head, before + ["#" + a] + after, floats);
    ChunksParse(head, before + ["#" + b] + after, floats);
    ThreeParts(before, ["#" + a], after, floats);
    ThreeParts(before, ["#" + b], after, floats);
    var s := AddSections(NO_SECTIONS, before, floats);
    if s.Success? {
      SameTags(s.value, a, b, floats);
    }
  }

  lemma SameTags(s: Sections, a: string, b: string, floats: Floats)
    requires multiset(Split(a, ',')) == multiset(Split(b, ','))
    ensures AddSections(s, ["#" + a], floats) == AddSections(s, ["#" + b], floats)
  {
    hide Split, SortStrings, TakeScope;
    TagsPermuted(Split(a, ','), Split(b, ','));
    assert ("#" + a)[1..] == a && ("#" + b)[1..] == b;
  }

  /**
    Swapping a rate and a tag section that stand next to each other changes
    something if and only if the packet has had tags already and the rate is a
    second one or illegal; then both packets are refused, for different reasons.
   */
  lemma {:induction false} SectionOrderIrrelevant(head: seq<string>, before: seq<string>, a: string, b: string,
      after: seq<string>, floats: Floats)
    requires |head| == 2
    requires Chunks(head + (before + ["@" + a, "#" + b] + after))
    requires Chunks(head + (before + ["#" + b, "@" + a] + after))
    ensures var p := MetricOf(Packet(head + (before + ["@" + a, "#" + b] + after)), floats);
            var q := MetricOf(Packet(head + (before + ["#" + b, "@" + a] + after)), floats);
            && (p != q <==> && HeadOf(head, floats).Success? && SectionsLegal(before, floats)
                            && Starting(before, '#') == 1
                            && (Starting(before, '@') == 1 || RateOf(a, floats).Failure?))
            && (p != q ==> p.Failure? && q == Failure(Repeated('#')))
  {
    hide Split, Packet, Chunks, HeadOf, AddSections, MetricOf, SectionsLegal, Starting, RateOf;
    var x, y := ["@" + a, "#" + b], ["#" + b, "@" + a];
    ChunksParse(head, before + x + after, floats);
    ChunksParse(head, before + y + after, floats);
    ThreeParts(before, x, after, floats);
    ThreeParts(before, y, after, floats);
    SectionsRead(before, floats);
    var s := AddSections(NO_SECTIONS, before, floats);
    if s.Success? {
      Swap(s.value, a, b, floats);
    }
  }

  lemma Swap(s: Sections, a: string, b: string, floats: Floats)
    ensures var p, q := AddSections(s, ["@" + a, "#" + b], floats), AddSections(s, ["#" + b, "@" + a], floats);
            && (p != q <==> s.tags.Some? && (s.rate.Some? || RateOf(a, floats).Failure?))
            && (p != q ==> p.Failure? && q == Failure(Repeated('#')))
  {
    hide Split, SortStrings, TakeScope;
    var x, y := "@" + a, "#" + b;
    assert x[1..] == a && y[1..] == b;
    assert [x, y][1..] == [y] && [y, x][1..] == [x];
    var none: seq<string> := [];
    assert [y][1..] == none && [x][1..] == none;
  }

  /** Two such packets: one is refused for its rate, the other for its second tag section. */
  lemma {:induction false} SectionOrderMatters(floats: Floats)
    requires floats.value("1").Some? && floats.rate("2") == Some(Finite(2.0))
    ensures MetricOf("x:1|c|#t|@2|#u", floats) == Failure(RateRange)
    ensures MetricOf("x:1|c|#t|#u|@2", floats) == Failure(Repeated('#'))
  {
    hide Split, Packet, MetricOf, AddSections, HeadOf;
    var head, x, y := ["x:1", "c"], ["#t", "@2", "#u"], ["#t", "#u", "@2"];
    assert Packet(head + x) == "x:1|c|#t|@2|#u" && Packet(head + y) == "x:1|c|#t|#u|@2" by {
      Written(head + x);
      Written(head + y);
    }
    ChunksParse(head, x, floats);
    ChunksParse(head, y, floats);
    HeadOfOne('c', floats);
    SecondRefused(x, floats);
    SecondRefused(y, floats);
  }

  lemma WrittenFirst(chunks: seq<string>)
    requires chunks != []
    ensures Packet(chunks) == if |chunks| == 1 then chunks[0] else chunks[0] + "|" + Packet(chunks[1..])
  {
  }

  lemma Written(chunks: seq<string>)
    requires |chunks| == 5
    ensures Packet(chunks)
         == chunks[0] + "|" + (chunks[1] + "|" + (chunks[2] + "|" + (chunks[3] + "|" + chunks[4])))
  {
    hide Packet;
    WrittenFirst(chunks);
    WrittenFirst(chunks[1..]);
    WrittenFirst(chunks[2..]);
    WrittenFirst(chunks[3..]);
    WrittenFirst(chunks[4..]);
    assert chunks[1..][1..] == chunks[2..] && chunks[2..][1..] == chunks[3..] && chunks[3..][1..] == chunks[4..];
  }

  lemma HeadOfOne(letter: char, floats: Floats)
    requires floats.value("1").Some? && (letter == 'c' || letter == 'g' || letter == 'h')
    ensures HeadOf(["x:1", [letter]], floats)
         == Success(Head("x", KindOf(letter).value, Number(Finite(floats.value("1").value))))
  {
    assert "x:1"[1] == ':' && "x:1"[2..] == "1" && "x:1"[..1] == "x";
  }

  /** After a first tag section, a section that is refused. */
  lemma SecondRefused(chunks: seq<string>, floats: Floats)
    requires |chunks| > 1 && chunks[0] == "#t"
    requires chunks[1] == "#u" || (chunks[1] == "@2" && floats.rate("2") == Some(Finite(2.0)))
    ensures AddSections(NO_SECTIONS, chunks, floats) == Failure(if chunks[1] == "#u" then Repeated('#') else RateRange)
  {
    hide Split, SortStrings, TakeScope;
    assert "@2"[1..] == "2" && chunks[1..][0] == chunks[1];
  }

  /** A rate of NaN comes out; a gauge does not mind, a histogram's digest has no weight from then on. */
  lemma {:induction false} NaNComesOut(floats: Floats)
    requires floats.value("1").Some? && floats.rate("nan") == Some(NaN)
    ensures var r := MetricOf("x:1|h|@nan", floats);
            r.Success? && r.value.sampleRate == NaN && FateOf(r.value) == Spoiled
    ensures var r := MetricOf("x:1|g|@nan", floats);
            r.Success? && r.value.sampleRate == NaN && FateOf(r.value) == Taken
  {
    hide MetricOf;
    assert "x:1|" + ['h'] + "|@nan" == "x:1|h|@nan" && "x:1|" + ['g'] + "|@nan" == "x:1|g|@nan";
    NaNReads('h', floats);
    NaNReads('g', floats);
  }

  lemma NaNReads(letter: char, floats: Floats)
    requires floats.value("1").Some? && floats.rate("nan") == Some(NaN) && (letter == 'h' || letter == 'g')
    ensures var r := MetricOf("x:1|" + [letter] + "|@nan", floats);
            && r.Success? && r.value.sampleRate == NaN && r.value.key.kind == KindOf(letter).value
            && r.value.value == Number(Finite(floats.value("1").value))
  {
    hide Split, Packet, MetricOf, HeadOf, KeyHash;
    var head, x := ["x:1", [letter]], ["@nan"];
    assert Packet(head + x) == "x:1|" + [letter] + "|@nan" by {
      WrittenFirst(head + x);
      WrittenFirst((head + x)[1..]);
      WrittenFirst(x);
      assert (head + x)[1..][1..] == x;
    }
    ChunksParse(head, x, floats);
    HeadOfOne(letter, floats);
    var none: seq<string> := [];
    assert "@nan"[1..] == "nan" && x[1..] == none;
  }
}
