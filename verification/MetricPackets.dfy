/** Metric packets put together from their parts, and what they are read as. */
module MetricPackets {
  import opened Floating
  import opened Options
  import opened SplitBytes
  import opened Samplers
  import opened Tags
  import opened Text
  import opened Worker
  import opened DogStatsD
  import opened Emit

  /** The letters the datagram format has for the types. */
  predicate Stands(letter: char, kind: Kind) {
    || (letter == 'c' && kind == Counters)
    || (letter == 'g' && kind == Gauges)
    || (letter == 'h' && kind == Histograms)
    || (letter == 'm' && kind == Timers)
    || (letter == 's' && kind == Sets)
  }

  /** name:value|type, then the rate and the tags if there are any. */
  function MetricPacket(name: string, text: string, letter: char, rate: Option<string>, tags: Option<string>): string {
    Packet([name + ":" + text, [letter]] + (Optional("@", rate) + Optional("#", tags)))
  }

  predicate Plain(name: string, text: string, rate: Option<string>, tags: Option<string>) {
    name != "" && Free(name, ':') && Free(name, '|') && Free(text, '|') && WithoutPipe(rate) && WithoutPipe(tags)
  }

  lemma HeadReads(name: string, text: string, letter: char, kind: Kind, floats: Floats)
    requires name != "" && Free(name, ':') && Stands(letter, kind)
    ensures HeadOf([name + ":" + text, [letter]], floats)
         == if kind == Sets then Success(Head(name, kind, Member(text)))
            else if floats.value(text).None? then Failure(BadValue)
            else Success(Head(name, kind, Number(Finite(floats.value(text).value))))
  {
    hide IndexByte;
    var first := name + ":" + text;
    IndexAfter(name, ':', text);
    assert first[..|name|] == name && first[|name| + 1..] == text;
  }

  lemma RateReads(rate: Option<string>, floats: Floats)
    ensures AddSections(NO_SECTIONS, Optional("@", rate), floats)
         == if rate.None? then Success(NO_SECTIONS)
            else if RateOf(rate.value, floats).Failure? then Failure(RateOf(rate.value, floats).error)
            else Success(Sections(Some(RateOf(rate.value, floats).value), None))
  {
    hide RateOf;
    if rate.Some? {
      var chunk := "@" + rate.value;
      assert chunk[0] == '@' && chunk[1..] == rate.value;
      var rest: seq<string> := [chunk][1..];
      assert rest == [];
    }
  }

  lemma LabelsRead(s: Sections, tags: Option<string>, floats: Floats)
    requires s.tags.None?
    ensures AddSections(s, Optional("#", tags), floats)
         == Success(if tags.None? then s else s.(tags := Some(TagsOf(Split(tags.value, ',')))))
  {
    hide Split, SortStrings, TakeScope;
    if tags.Some? {
      var chunk := "#" + tags.value;
      assert chunk[0] == '#' && chunk[1..] == tags.value;
      var rest: seq<string> := [chunk][1..];
      assert rest == [];
    }
  }

  lemma PacketSplits(name: string, text: string, letter: char, rate: Option<string>, tags: Option<string>, kind: Kind)
    requires Plain(name, text, rate, tags) && Stands(letter, kind)
    ensures Chunks([name + ":" + text, [letter]] + (Optional("@", rate) + Optional("#", tags)))
  {
    hide Optional;
    OptionalFree("@", rate);
    OptionalFree("#", tags);
    BothFree(Optional("@", rate), Optional("#", tags));
  }

  predicate RateLegal(x: Option<Float>) {
    x.Some? && (x.value.NaN? || (x.value.Finite? && 0.0 < x.value.value <= 1.0))
  }

  /** What the parts of a packet come out as, the tags in order and less the one that set the scope. */
  ghost predicate Says(m: UDPMetric, name: string, kind: Kind, value: Value, rate: Float, tags: Option<string>) {
    && m.key == MetricKey(name, kind, Join(m.tags, ",")) && m.digest == KeyHash(m.key)
    && m.value == value && m.sampleRate == rate
    && (tags.None? ==> m.tags == [] && m.scope == MixedScope)
    && (tags.Some? ==> Stand(m.tags, m.scope, Split(tags.value, ',')))
    && m.timestamp == 0 && m.message == "" && m.hostName == ""
  }

  lemma MetricSays(name: string, kind: Kind, value: Value, rate: Option<Float>, tags: Option<string>)
    ensures var s := Sections(rate, if tags.None? then None else Some(TagsOf(Split(tags.value, ','))));
            Says(MetricWith(name, kind, value, s), name, kind, value,
                 if rate.None? then Finite(1.0) else rate.value, tags)
  {
    hide Split, TagsOf, Stand, Join, KeyHash;
    if tags.Some? {
      TagsStand(Split(tags.value, ','));
    }
  }

  /**
    A packet is read if and only if its value is a number (or it is a set) and its
    rate, if there is one, a number above 0 and at most 1, or NaN; then every part
    of it is found in its place.
   */
  lemma {:induction false} PacketReads(name: string, text: string, letter: char, kind: Kind, rate: Option<string>,
      tags: Option<string>, floats: Floats)
    requires Plain(name, text, rate, tags) && Stands(letter, kind)
    ensures var r := MetricOf(MetricPacket(name, text, letter, rate, tags), floats);
            && (r.Success? <==> && (kind == Sets || floats.value(text).Some?)
                                && (rate.Some? ==> RateLegal(floats.rate(rate.value))))
            && (r.Success? ==>
                  Says(r.value, name, kind,
                       if kind == Sets then Member(text) else Number(Finite(floats.value(text).value)),
                       if rate.None? then Finite(1.0) else floats.rate(rate.value).value, tags))
  {
    hide Split, SortStrings, TakeScope, Packet, Chunks, HeadOf, AddSections, MetricOf, MetricWith, Optional, Plain,
         Stands, Says;
    PacketSplits(name, text, letter, rate, tags, kind);
    ChunksParse([name + ":" + text, [letter]], Optional("@", rate) + Optional("#", tags), floats);
    PlainParts(name, text, rate, tags);
    HeadReads(name, text, letter, kind, floats);
    AddConcatenated(NO_SECTIONS, Optional("@", rate), Optional("#", tags), floats);
    RateReads(rate, floats);
    var value :=
      if kind == Sets || floats.value(text).None? then Member(text) else Number(Finite(floats.value(text).value));
    MetricSays(name, kind, value, if rate.None? then None else floats.rate(rate.value), tags);
    if rate.None? || RateOf(rate.value, floats).Success? {
      LabelsRead(Sections(if rate.None? then None else Some(RateOf(rate.value, floats).value), None), tags, floats);
    }
  }

  lemma PlainParts(name: string, text: string, rate: Option<string>, tags: Option<string>)
    requires Plain(name, text, rate, tags)
    ensures name != "" && Free(name, ':')
  {
  }

  // ---- Any packet

  /** The tags in the first section that has some. */
  function TagsWritten(chunks: seq<string>): Option<string> {
    if chunks == [] then None
    else if chunks[0] != "" && chunks[0][0] == '#' then Some(chunks[0][1..])
    else TagsWritten(chunks[1..])
  }

  function Labels(text: Option<string>): Option<Scoped> {
    if text.None? then None else Some(TagsOf(Split(text.value, ',')))
  }

  lemma {:induction false} TagsFound(s: Sections, chunks: seq<string>, floats: Floats)
    ensures var r := AddSections(s, chunks, floats);
            r.Success? ==> r.value.tags == if s.tags.Some? then s.tags else Labels(TagsWritten(chunks))
    decreases |chunks|
  {
    hide Split, TagsOf, RateOf;
    if chunks != [] {
      var r := AddSection(s, chunks[0], floats);
      if r.Success? {
        TagsFound(r.value, chunks[1..], floats);
      }
    }
  }

  lemma KindStands(letter: char)
    ensures KindOf(letter).Some? ==> Stands(letter, KindOf(letter).value)
  {
  }

  lemma HeadMeans(chunks: seq<string>, floats: Floats)
    requires |chunks| > 0 && HeadOf(chunks, floats).Success?
    ensures var head := HeadOf(chunks, floats).value;
            && |chunks| > 1 && chunks[1] != "" && Stands(chunks[1][0], head.kind)
            && head.name != "" && Free(head.name, ':') && head.name + ":" <= chunks[0]
            && var text := chunks[0][|head.name| + 1..];
               && (head.kind != Sets ==> floats.value(text).Some?)
               && head.value == if head.kind == Sets then Member(text) else Number(Finite(floats.value(text).value))
  {
    hide IndexByte, KindOf, Stands;
    var i := IndexByte(chunks[0], ':').value;
    assert chunks[0] == chunks[0][..i] + ":" + chunks[0][i + 1..];
    assert Free(chunks[0][..i], ':');
    KindStands(chunks[1][0]);
  }

  /**
    Whatever the packet that is read: the name is the text before the first colon,
    the type that of the letter, the value that of the text after the colon, the rate
    and the tags those of their sections.
   */
  lemma {:induction false} PacketMeans(packet: string, floats: Floats)
    ensures var r, chunks := MetricOf(packet, floats), Split(packet, '|');
            r.Success? ==>
              && |chunks| > 1 && chunks[1] != "" && Stands(chunks[1][0], r.value.key.kind)
              && var name, kind := r.value.key.name, r.value.key.kind;
                 && name != "" && Free(name, ':') && name + ":" <= chunks[0]
                 && var text := chunks[0][|name| + 1..];
                    && (kind != Sets ==> floats.value(text).Some?)
                    && Says(r.value, name, kind,
                            if kind == Sets then Member(text) else Number(Finite(floats.value(text).value)),
                            RateWritten(SectionsOf(packet), floats), TagsWritten(SectionsOf(packet)))
  {
    hide Split, AddSections, TagsOf, Join, KeyHash, RateWritten, InRange, MetricWith, TagsWritten, Stand, HeadOf,
         Stands;
    var sections := SectionsOf(packet);
    RateFound(NO_SECTIONS, sections, floats) by {
      AlwaysInRange();
    }
    TagsFound(NO_SECTIONS, sections, floats);
    var r, chunks := MetricOf(packet, floats), Split(packet, '|');
    if r.Success? {
      var head, s := HeadOf(chunks, floats).value, AddSections(NO_SECTIONS, sections, floats).value;
      HeadMeans(chunks, floats);
      MetricSays(head.name, head.kind, head.value, s.rate, TagsWritten(sections));
    }
  }
}
