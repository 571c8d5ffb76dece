/** The packets that veneur-emit builds, read back by the parsers. */
module Emit {
  import opened Floating
  import opened Options
  import opened Samplers
  import opened Text
  import opened SplitBytes
  import opened Numerals
  import opened Escapes
  import opened Tags
  import opened Worker
  import opened DogStatsD
  import opened Events
  import opened ServiceChecks

  datatype EventFlags = EventFlags(
    title: Option<string>, text: Option<string>, time: Option<string>, hostname: Option<string>,
    aggrKey: Option<string>, priority: Option<string>, sourceType: Option<string>, alertType: Option<string>,
    tags: Option<string>)

  datatype CheckFlags = CheckFlags(
    name: Option<string>, status: Option<string>, time: Option<string>, hostname: Option<string>,
    tags: Option<string>, msg: Option<string>)

  // ---- What the packets consist of

  function Optional(prefix: string, x: Option<string>): seq<string> {
    if x.None? then [] else [prefix + x.value]
  }

  function EventSections(f: EventFlags): seq<string> {
    Optional("d:", f.time) + (Optional("h:", f.hostname) + (Optional("k:", f.aggrKey) + (Optional("p:", f.priority)
    + (Optional("s:", f.sourceType) + (Optional("t:", f.alertType) + Optional("#", f.tags))))))
  }

  function Wrapper(title: nat, text: nat): string {
    "_e{" + (Digits(title) + "," + Digits(text)) + "}"
  }

  function EventChunks(f: EventFlags): seq<string>
    requires f.title.Some? && f.text.Some?
  {
    [Wrapper(|f.title.value|, |f.text.value|) + ":" + f.title.value, Escape(f.text.value)] + EventSections(f)
  }

  function CheckSections(f: CheckFlags): seq<string> {
    Optional("d:", f.time) + (Optional("h:", f.hostname) + (Optional("#", f.tags) + Optional("m:", f.msg)))
  }

  function CheckChunks(f: CheckFlags): seq<string>
    requires f.name.Some? && f.status.Some?
  {
    ["_sc", f.name.value, f.status.value] + CheckSections(f)
  }

  // ---- The builders

  /** Sections as they are written, each after a pipe. */
  function Written(chunks: seq<string>): string {
    if chunks == [] then "" else "|" + chunks[0] + Written(chunks[1..])
  }

  lemma {:induction false} WrittenConcat(a: seq<string>, b: seq<string>)
    ensures Written(a + b) == Written(a) + Written(b)
  {
    if a == [] {
      assert a + b == b;
    } else {
      WrittenConcat(a[1..], b);
      assert (a + b)[1..] == a[1..] + b;
      var head := "|" + a[0];
      assert head + (Written(a[1..]) + Written(b)) == head + Written(a[1..]) + Written(b);
    }
  }

  lemma {:induction false} JoinWritten(first: string, chunks: seq<string>)
    ensures Join([first] + chunks, "|") == first + Written(chunks)
    decreases |chunks|
  {
    assert ([first] + chunks)[1..] == chunks;
    if chunks != [] {
      JoinWritten(chunks[0], chunks[1..]);
      assert chunks == [chunks[0]] + chunks[1..];
    }
  }

  method WriteSection(buffer: string, prefix: string, x: Option<string>, ghost rest: seq<string>, ghost whole: string)
    returns (written: string)
    requires buffer + Written(Optional(prefix, x) + rest) == whole
    ensures written + Written(rest) == whole
  {
    WrittenConcat(Optional(prefix, x), rest);
    if x.Some? {
      assert Written([prefix + x.value]) == "|" + (prefix + x.value) + Written([]);
      written := buffer + "|" + prefix + x.value;
    } else {
      written := buffer;
    }
  }

  method BuildEventPacket(f: EventFlags) returns (r: Option<string>)
    ensures r == if f.title.None? || f.text.None? then None else Some(Join(EventChunks(f), "|"))
  {
    hide Written, Optional, Digits, Escape, Join;
    if f.title.None? || f.text.None? {
      return None;
    }
    var buffer := "_e";
    buffer := buffer + "{" + Digits(|f.title.value|) + "," + Digits(|f.text.value|) + "}";
    buffer := buffer + ":" + f.title.value;
    assert buffer == Wrapper(|f.title.value|, |f.text.value|) + ":" + f.title.value;
    ghost var first := buffer;
    buffer := buffer + "|" + Escape(f.text.value);
    ghost var s6 := Optional("t:", f.alertType) + Optional("#", f.tags);
    ghost var s5 := Optional("s:", f.sourceType) + s6;
    ghost var s4 := Optional("p:", f.priority) + s5;
    ghost var s3 := Optional("k:", f.aggrKey) + s4;
    ghost var s2 := Optional("h:", f.hostname) + s3;
    EventStart(f, first, buffer);
    ghost var whole := Join(EventChunks(f), "|");
    buffer := WriteSection(buffer, "d:", f.time, s2, whole);
    buffer := WriteSection(buffer, "h:", f.hostname, s3, whole);
    buffer := WriteSection(buffer, "k:", f.aggrKey, s4, whole);
    buffer := WriteSection(buffer, "p:", f.priority, s5, whole);
    buffer := WriteSection(buffer, "s:", f.sourceType, s6, whole);
    buffer := WriteSection(buffer, "t:", f.alertType, Optional("#", f.tags), whole);
    assert Optional("#", f.tags) + [] == Optional("#", f.tags);
    buffer := WriteSection(buffer, "#", f.tags, [], whole);
    NothingWritten();
    assert buffer + "" == buffer;
    r := Some(buffer);
  }

  lemma NothingWritten()
    ensures Written([]) == ""
  {
  }

  lemma EventStart(f: EventFlags, first: string, buffer: string)
    requires f.title.Some? && f.text.Some?
    requires first == Wrapper(|f.title.value|, |f.text.value|) + ":" + f.title.value && buffer
         == first + "|" + Escape(f.text.value)
    ensures buffer + Written(EventSections(f)) == Join(EventChunks(f), "|")
  {
    hide Digits, Escape, EventSections, Wrapper;
    var rest := [Escape(f.text.value)] + EventSections(f);
    JoinWritten(first, rest);
    assert EventChunks(f) == [first] + rest;
    assert rest[1..] == EventSections(f);
  }

  method BuildSCPacket(f: CheckFlags) returns (r: Option<string>)
    ensures r == if f.name.None? || f.status.None? then None else Some(Join(CheckChunks(f), "|"))
  {
    hide Written, Optional, Join;
    if f.name.None? || f.status.None? {
      return None;
    }
    var buffer := "_sc";
    buffer := buffer + "|" + f.name.value;
    buffer := buffer + "|" + f.status.value;
    ghost var s3 := Optional("#", f.tags) + Optional("m:", f.msg);
    ghost var s2 := Optional("h:", f.hostname) + s3;
    CheckStart(f, buffer);
    ghost var whole := Join(CheckChunks(f), "|");
    buffer := WriteSection(buffer, "d:", f.time, s2, whole);
    buffer := WriteSection(buffer, "h:", f.hostname, s3, whole);
    buffer := WriteSection(buffer, "#", f.tags, Optional("m:", f.msg), whole);
    assert Optional("m:", f.msg) + [] == Optional("m:", f.msg);
    buffer := WriteSection(buffer, "m:", f.msg, [], whole);
    NothingWritten();
    assert buffer + "" == buffer;
    r := Some(buffer);
  }

  lemma CheckStart(f: CheckFlags, buffer: string)
    requires f.name.Some? && f.status.Some? && buffer == "_sc" + "|" + f.name.value + "|" + f.status.value
    ensures buffer + Written(CheckSections(f)) == Join(CheckChunks(f), "|")
  {
    hide CheckSections;
    var rest := [f.name.value, f.status.value] + CheckSections(f);
    JoinWritten("_sc", rest);
    assert CheckChunks(f) == ["_sc"] + rest;
    assert rest[1..] == [f.status.value] + CheckSections(f) && rest[1..][1..] == CheckSections(f);
  }

  // ---- Reading events back

  predicate WithoutPipe(x: Option<string>) {
    x.Some? ==> Free(x.value, '|')
  }

  /** No field contains the character that separates sections. */
  predicate EventPipeFree(f: EventFlags) {
    && WithoutPipe(f.title) && WithoutPipe(f.text) && WithoutPipe(f.time) && WithoutPipe(f.hostname)
    && WithoutPipe(f.aggrKey) && WithoutPipe(f.priority) && WithoutPipe(f.sourceType) && WithoutPipe(f.alertType)
    && WithoutPipe(f.tags)
  }

  predicate AllFree(chunks: seq<string>) {
    forall i :: 0 <= i < |chunks| ==> Free(chunks[i], '|')
  }

  lemma OptionalFree(prefix: string, x: Option<string>)
    requires Free(prefix, '|') && WithoutPipe(x)
    ensures AllFree(Optional(prefix, x))
  {
  }

  lemma BothFree(a: seq<string>, b: seq<string>)
    requires AllFree(a) && AllFree(b)
    ensures AllFree(a + b)
  {
  }

  lemma EventSectionsFree(f: EventFlags)
    requires EventPipeFree(f)
    ensures AllFree(EventSections(f))
  {
    hide AllFree, Optional;
    OptionalFree("d:", f.time);
    OptionalFree("h:", f.hostname);
    OptionalFree("k:", f.aggrKey);
    OptionalFree("p:", f.priority);
    OptionalFree("s:", f.sourceType);
    OptionalFree("t:", f.alertType);
    OptionalFree("#", f.tags);
    var s6 := Optional("t:", f.alertType) + Optional("#", f.tags);
    var s5 := Optional("s:", f.sourceType) + s6;
    var s4 := Optional("p:", f.priority) + s5;
    var s3 := Optional("k:", f.aggrKey) + s4;
    var s2 := Optional("h:", f.hostname) + s3;
    BothFree(Optional("t:", f.alertType), Optional("#", f.tags));
    BothFree(Optional("s:", f.sourceType), s6);
    BothFree(Optional("p:", f.priority), s5);
    BothFree(Optional("k:", f.aggrKey), s4);
    BothFree(Optional("h:", f.hostname), s3);
    BothFree(Optional("d:", f.time), s2);
  }

  lemma DigitsFree(n: nat, c: char)
    requires !IsDigit(c)
    ensures Free(Digits(n), c)
  {
    DigitsRead(n);
  }

  lemma WrapperFree(title: nat, text: nat, c: char)
    requires !IsDigit(c) && c != '_' && c != 'e' && c != '{' && c != ',' && c != '}'
    ensures Free(Wrapper(title, text), c)
  {
    hide Digits;
    DigitsFree(title, c);
    DigitsFree(text, c);
  }

  lemma EventSplits(f: EventFlags)
    requires f.title.Some? && f.text.Some? && EventPipeFree(f)
    ensures Split(Join(EventChunks(f), "|"), '|') == EventChunks(f)
  {
    hide Digits, Split, Join, Wrapper, EventSections;
    EventSectionsFree(f);
    WrapperFree(|f.title.value|, |f.text.value|, '|');
    EscapeFree(f.text.value, '|');
    JoinSplits(EventChunks(f), '|');
  }

  lemma IndexAfter(p: string, c: char, rest: string)
    requires Free(p, c)
    ensures IndexByte(p + [c] + rest, c) == Some(|p|)
  {
    var s := p + [c] + rest;
    assert s[|p|] == c;
    assert forall i :: 0 <= i < |p| ==> s[i] == p[i];
  }

  lemma Unwrapped(inner: string)
    ensures var w := "_e{" + inner + "}"; HasPrefix(w, "_e{") && w[|w| - 1] == '}' && w[3..|w| - 1] == inner
  {
    var w := "_e{" + inner + "}";
    assert w[..3] == "_e{";
  }

  lemma WrapperIs(title: nat, text: nat)
    ensures Wrapper(title, text) == "_e{" + (Digits(title) + "," + Digits(text)) + "}"
  {
  }

  lemma WrapperReads(title: nat, text: nat)
    requires title <= MAX_INT64 && text <= MAX_INT64
    ensures LengthsOf(Wrapper(title, text))
         == if title == 0 then Failure(LengthNotPositive(TitleField))
            else if text == 0 then Failure(LengthNotPositive(TextField)) else Success((title, text))
  {
    hide Digits, ParseInt, IndexByte, Wrapper, HasPrefix;
    var w, inner := Wrapper(title, text), Digits(title) + "," + Digits(text);
    Unwrapped(inner);
    assert w == "_e{" + inner + "}" by {
      WrapperIs(title, text);
    }
    DigitsFree(title, ',');
    IndexAfter(Digits(title), ',', Digits(text));
    assert inner[..|Digits(title)|] == Digits(title) && inner[|Digits(title)| + 1..] == Digits(text);
    PrintedReads(title);
    PrintedReads(text);
  }

  lemma TitleReads(title: string, text: nat)
    requires |title| <= MAX_INT64 && text <= MAX_INT64
    ensures TitleOf(Wrapper(|title|, text) + ":" + title)
         == if title == "" then Failure(LengthNotPositive(TitleField))
            else if text == 0 then Failure(LengthNotPositive(TextField)) else Success(Title(title, text))
  {
    hide Digits, IndexByte, LengthsOf, Wrapper;
    var w := Wrapper(|title|, text);
    WrapperFree(|title|, text, ':');
    IndexAfter(w, ':', title);
    WrapperReads(|title|, text);
    assert (w + ":" + title)[..|w|] == w && (w + ":" + title)[|w| + 1..] == title;
  }

  // ---- The sections of an event, one after the other

  lemma {:induction false} MetasConcat(m: Meta, a: seq<string>, b: seq<string>)
    ensures AddMetas(m, a + b) == var r := AddMetas(m, a); if r.Failure? then r else AddMetas(r.value, b)
    decreases |a|
  {
    hide AddMeta;
    if a == [] {
      assert a + b == b;
    } else {
      assert (a + b)[1..] == a[1..] + b;
      var r := AddMeta(m, a[0]);
      if r.Success? {
        MetasConcat(r.value, a[1..], b);
      }
    }
  }

  function Dated(m: Meta, x: Option<string>): Meta {
    if x.None? then m else m.(date := ParseInt(x.value), found := m.found + {'d'})
  }

  function Tagged(m: Meta, marker: char, key: string, x: Option<string>): Meta {
    if x.None? then m else m.(tags := m.tags[key := x.value], found := m.found + {marker})
  }

  function Labelled(m: Meta, x: Option<string>): Meta {
    if x.None? then m else m.(tags := m.tags + TagMap(Split(x.value, ',')), found := m.found + {'#'})
  }

  lemma One(m: Meta, chunk: string)
    ensures AddMetas(m, [chunk]) == AddMeta(m, chunk)
  {
    hide AddMeta;
    assert [chunk][1..] == [];
  }

  lemma DateSection(m: Meta, x: Option<string>)
    requires 'd' !in m.found
    ensures AddMetas(m, Optional("d:", x))
         == if x.Some? && ParseInt(x.value).None? then Failure(BadDate) else Success(Dated(m, x))
  {
    hide ParseInt;
    if x.Some? {
      var chunk := "d:" + x.value;
      assert chunk[..2] == "d:" && chunk[2..] == x.value;
      One(m, chunk);
    }
  }

  predicate IsTagSection(prefix: string, marker: char, key: string) {
    || (prefix == "h:" && marker == 'h' && key == HOSTNAME)
    || (prefix == "k:" && marker == 'k' && key == AGGREGATION_KEY)
    || (prefix == "s:" && marker == 's' && key == SOURCE_TYPE)
  }

  lemma TagSection(m: Meta, prefix: string, marker: char, key: string, x: Option<string>)
    requires IsTagSection(prefix, marker, key) && marker !in m.found
    ensures AddMetas(m, Optional(prefix, x)) == Success(Tagged(m, marker, key, x))
  {
    hide ParseInt, HOSTNAME, AGGREGATION_KEY, SOURCE_TYPE, PRIORITY, ALERT_TYPE;
    if x.Some? {
      var chunk := prefix + x.value;
      assert chunk[..2] == prefix && chunk[2..] == x.value && chunk[0] == marker;
      One(m, chunk);
    }
  }

  lemma PrioritySection(m: Meta, x: Option<string>)
    requires 'p' !in m.found
    ensures AddMetas(m, Optional("p:", x))
         == if x.Some? && x.value !in ["normal", "low"] then Failure(BadPriority)
            else Success(Tagged(m, 'p', PRIORITY, x))
  {
    hide ParseInt, HOSTNAME, AGGREGATION_KEY, SOURCE_TYPE, PRIORITY, ALERT_TYPE;
    if x.Some? {
      var chunk := "p:" + x.value;
      assert chunk[..2] == "p:" && chunk[2..] == x.value && chunk[0] == 'p';
      One(m, chunk);
    }
  }

  lemma AlertSection(m: Meta, x: Option<string>)
    requires 't' !in m.found
    ensures AddMetas(m, Optional("t:", x))
         == if x.Some? && x.value !in ["error", "warning", "info", "success"] then Failure(BadAlert)
            else Success(Tagged(m, 't', ALERT_TYPE, x))
  {
    hide ParseInt, HOSTNAME, AGGREGATION_KEY, SOURCE_TYPE, PRIORITY, ALERT_TYPE;
    if x.Some? {
      var chunk := "t:" + x.value;
      assert chunk[..2] == "t:" && chunk[2..] == x.value && chunk[0] == 't';
      One(m, chunk);
    }
  }

  lemma LabelSection(m: Meta, x: Option<string>)
    requires '#' !in m.found
    ensures AddMetas(m, Optional("#", x)) == Success(Labelled(m, x))
  {
    hide ParseInt, HOSTNAME, AGGREGATION_KEY, SOURCE_TYPE, PRIORITY, ALERT_TYPE, Split, TagMap;
    if x.Some? {
      var chunk := "#" + x.value;
      assert chunk[0] == '#' && chunk[1..] == x.value;
      One(m, chunk);
    }
  }

  /** The fields whose values the parser restricts. */
  predicate MetaReadable(f: EventFlags) {
    && (f.time.Some? ==> ParseInt(f.time.value).Some?)
    && (f.priority.Some? ==> f.priority.value in ["normal", "low"])
    && (f.alertType.Some? ==> f.alertType.value in ["error", "warning", "info", "success"])
  }

  /** The tags an event ends up with: the identifier, then field by field, the tag section last. */
  function MetaOf(f: EventFlags): Meta {
    var m := Tagged(Dated(Blank(), f.time), 'h', HOSTNAME, f.hostname);
    var n := Tagged(Tagged(m, 'k', AGGREGATION_KEY, f.aggrKey), 'p', PRIORITY, f.priority);
    Labelled(Tagged(Tagged(n, 's', SOURCE_TYPE, f.sourceType), 't', ALERT_TYPE, f.alertType), f.tags)
  }

  lemma SectionsRead(f: EventFlags)
    ensures AddMetas(Blank(), EventSections(f)).Success? <==> MetaReadable(f)
    ensures MetaReadable(f) ==> AddMetas(Blank(), EventSections(f)) == Success(MetaOf(f))
  {
    hide AddMetas, Optional, ParseInt, Labelled, HOSTNAME, AGGREGATION_KEY, SOURCE_TYPE,
         PRIORITY, ALERT_TYPE, IDENTIFIER;
    var m1 := Dated(Blank(), f.time);
    var m2 := Tagged(m1, 'h', HOSTNAME, f.hostname);
    var m3 := Tagged(m2, 'k', AGGREGATION_KEY, f.aggrKey);
    var m4 := Tagged(m3, 'p', PRIORITY, f.priority);
    var m5 := Tagged(m4, 's', SOURCE_TYPE, f.sourceType);
    var m6 := Tagged(m5, 't', ALERT_TYPE, f.alertType);
    var s6 := Optional("t:", f.alertType) + Optional("#", f.tags);
    var s5 := Optional("s:", f.sourceType) + s6;
    var s4 := Optional("p:", f.priority) + s5;
    var s3 := Optional("k:", f.aggrKey) + s4;
    var s2 := Optional("h:", f.hostname) + s3;
    MetasConcat(Blank(), Optional("d:", f.time), s2);
    DateSection(Blank(), f.time);
    MetasConcat(m1, Optional("h:", f.hostname), s3);
    TagSection(m1, "h:", 'h', HOSTNAME, f.hostname);
    MetasConcat(m2, Optional("k:", f.aggrKey), s4);
    TagSection(m2, "k:", 'k', AGGREGATION_KEY, f.aggrKey);
    MetasConcat(m3, Optional("p:", f.priority), s5);
    PrioritySection(m3, f.priority);
    MetasConcat(m4, Optional("s:", f.sourceType), s6);
    TagSection(m4, "s:", 's', SOURCE_TYPE, f.sourceType);
    MetasConcat(m5, Optional("t:", f.alertType), Optional("#", f.tags));
    AlertSection(m5, f.alertType);
    LabelSection(m6, f.tags);
  }

  /** Exactly what it takes for a pipe-free event packet to be read. */
  predicate EventReadable(f: EventFlags)
    requires f.title.Some? && f.text.Some?
  {
    f.title.value != "" && f.text.value != "" && '\n' !in f.text.value && MetaReadable(f)
  }

  lemma KeysDistinct()
    ensures AGGREGATION_KEY != ALERT_TYPE && AGGREGATION_KEY != HOSTNAME && AGGREGATION_KEY != IDENTIFIER
    ensures AGGREGATION_KEY != PRIORITY && AGGREGATION_KEY != SOURCE_TYPE
    ensures ALERT_TYPE != HOSTNAME && ALERT_TYPE != IDENTIFIER && ALERT_TYPE != PRIORITY && ALERT_TYPE != SOURCE_TYPE
    ensures HOSTNAME != IDENTIFIER && HOSTNAME != PRIORITY && HOSTNAME != SOURCE_TYPE
    ensures IDENTIFIER != PRIORITY && IDENTIFIER != SOURCE_TYPE && PRIORITY != SOURCE_TYPE
  {
    assert AGGREGATION_KEY[11..] == "ak" && ALERT_TYPE[11..] == "at" && HOSTNAME[11..] == "hostname";
    assert IDENTIFIER[11..] == "ev" && PRIORITY[11..] == "pri" && SOURCE_TYPE[11..] == "st";
    assert "ak"[1] != "at"[1];
  }

  function Under(tags: map<string, string>, key: string): Option<string> {
    if key in tags then Some(tags[key]) else None
  }

  /** What the tag section has for a key. */
  function TagWritten(f: EventFlags, key: string): Option<string> {
    if f.tags.None? then None else Under(TagMap(Split(f.tags.value, ',')), key)
  }

  lemma UnderTagged(m: Meta, marker: char, key: string, x: Option<string>, other: string)
    ensures Under(Tagged(m, marker, key, x).tags, other)
         == if other == key && x.Some? then x else Under(m.tags, other)
  {
  }

  lemma UnderLabelled(f: EventFlags, m: Meta, key: string)
    ensures Under(Labelled(m, f.tags).tags, key) == Either(TagWritten(f, key), Under(m.tags, key))
  {
    hide Split, TagMap;
  }

  function Either(x: Option<string>, y: Option<string>): Option<string> {
    if x.Some? then x else y
  }

  /** The field that goes under a key. */
  function FieldUnder(f: EventFlags, key: string): Option<string> {
    match key
    case "vdogstatsd_hostname" => f.hostname
    case "vdogstatsd_ak" => f.aggrKey
    case "vdogstatsd_pri" => f.priority
    case "vdogstatsd_st" => f.sourceType
    case "vdogstatsd_at" => f.alertType
    case "vdogstatsd_ev" => Some("")
    case _ => None
  }

  /** Each field is recovered under its own key unless the tag section writes that very key. */
  lemma {:induction false} FieldsRecovered(f: EventFlags, key: string)
    ensures Under(MetaOf(f).tags, key) == Either(TagWritten(f, key), FieldUnder(f, key))
  {
    hide HOSTNAME, AGGREGATION_KEY, SOURCE_TYPE, PRIORITY, ALERT_TYPE, IDENTIFIER, ParseInt, Split, TagMap, Tagged,
         Labelled, FieldUnder, TagWritten;
    KeysDistinct();
    FieldUnderKey(f, key);
    var m1 := Dated(Blank(), f.time);
    var m2 := Tagged(m1, 'h', HOSTNAME, f.hostname);
    var m3 := Tagged(m2, 'k', AGGREGATION_KEY, f.aggrKey);
    var m4 := Tagged(m3, 'p', PRIORITY, f.priority);
    var m5 := Tagged(m4, 's', SOURCE_TYPE, f.sourceType);
    var m6 := Tagged(m5, 't', ALERT_TYPE, f.alertType);
    UnderTagged(m1, 'h', HOSTNAME, f.hostname, key);
    UnderTagged(m2, 'k', AGGREGATION_KEY, f.aggrKey, key);
    UnderTagged(m3, 'p', PRIORITY, f.priority, key);
    UnderTagged(m4, 's', SOURCE_TYPE, f.sourceType, key);
    UnderTagged(m5, 't', ALERT_TYPE, f.alertType, key);
    UnderLabelled(f, m6, key);
  }

  lemma FieldUnderKey(f: EventFlags, key: string)
    ensures FieldUnder(f, key)
         == if key == HOSTNAME then f.hostname else if key == AGGREGATION_KEY then f.aggrKey
            else if key == PRIORITY then f.priority else if key == SOURCE_TYPE then f.sourceType
            else if key == ALERT_TYPE then f.alertType else if key == IDENTIFIER then Some("") else None
  {
  }

  /** The event that flags describe. */
  ghost predicate EventSays(e: Event, f: EventFlags, now: int)
    requires f.title.Some? && f.text.Some?
  {
    && e.name == f.title.value && e.message == Unescape(f.text.value)
    && Some(e.timestamp) == (if f.time.Some? then ParseInt(f.time.value) else Some(now))
    && forall key :: Under(e.tags, key) == Either(TagWritten(f, key), FieldUnder(f, key))
  }

  /**
    A packet built without pipes in its fields reads back as the event it was built
    for if and only if title and text are not empty, the text is one line, and date,
    priority and alert type are legal; otherwise it is rejected.
   */
  lemma {:induction false} EventRoundTrip(f: EventFlags, now: int)
    requires f.title.Some? && f.text.Some? && EventPipeFree(f)
    requires |f.title.value| <= MAX_INT64 && |f.text.value| <= MAX_INT64
    ensures var r := EventOf(Join(EventChunks(f), "|"), now);
            && (r.Success? <==> EventReadable(f))
            && (r.Success? ==> EventSays(r.value, f, now))
  {
    hide Digits, Split, Join, Wrapper, EventSections, TitleOf, AddMetas, MetaOf, EventPipeFree, ParseInt,
         Unescape, Escape, Blank, Under, Either, TagWritten, FieldUnder;
    EventSplits(f);
    TitleReads(f.title.value, |f.text.value|);
    EscapeLength(f.text.value);
    SectionsRead(f);
    DateFound(f);
    var chunks := EventChunks(f);
    assert chunks[2..] == EventSections(f);
    forall key
      ensures Under(MetaOf(f).tags, key) == Either(TagWritten(f, key), FieldUnder(f, key))
    {
      FieldsRecovered(f, key);
    }
  }

  lemma DateFound(f: EventFlags)
    ensures MetaOf(f).date == if f.time.Some? then ParseInt(f.time.value) else None
  {
    hide ParseInt, Split, TagMap;
  }

  // ---- Reading service checks back

  predicate CheckPipeFree(f: CheckFlags) {
    && WithoutPipe(f.name) && WithoutPipe(f.status) && WithoutPipe(f.time) && WithoutPipe(f.hostname)
    && WithoutPipe(f.tags) && WithoutPipe(f.msg)
  }

  lemma CheckSplits(f: CheckFlags)
    requires f.name.Some? && f.status.Some? && CheckPipeFree(f)
    ensures Split(Join(CheckChunks(f), "|"), '|') == CheckChunks(f)
  {
    hide Split, Join, Optional;
    OptionalFree("d:", f.time);
    OptionalFree("h:", f.hostname);
    OptionalFree("#", f.tags);
    OptionalFree("m:", f.msg);
    var s3 := Optional("#", f.tags) + Optional("m:", f.msg);
    BothFree(Optional("#", f.tags), Optional("m:", f.msg));
    BothFree(Optional("h:", f.hostname), s3);
    BothFree(Optional("d:", f.time), Optional("h:", f.hostname) + s3);
    BothFree(["_sc", f.name.value, f.status.value], CheckSections(f));
    JoinSplits(CheckChunks(f), '|');
  }

  lemma {:induction false} PartsConcat(c: Check, a: seq<string>, b: seq<string>)
    ensures AddParts(c, a + b) == var r := AddParts(c, a); if r.Failure? then r else AddParts(r.value, b)
    decreases |a|
  {
    hide AddPart;
    if a == [] {
      assert a + b == b;
    } else {
      assert (a + b)[1..] == a[1..] + b;
      var r := AddPart(c, a[0]);
      if r.Success? {
        PartsConcat(r.value, a[1..], b);
      }
    }
  }

  lemma OnePart(c: Check, chunk: string)
    ensures AddParts(c, [chunk]) == AddPart(c, chunk)
  {
    hide AddPart;
    assert [chunk][1..] == [];
  }

  lemma DatePart(c: Check, x: Option<string>)
    requires c.date.None? && c.message.None?
    ensures AddParts(c, Optional("d:", x)) == if x.None? then Success(c)
            else if ParseInt(x.value).None? then Failure(BadDate) else Success(c.(date := ParseInt(x.value)))
  {
    hide ParseInt;
    if x.Some? {
      var chunk := "d:" + x.value;
      assert chunk[..2] == "d:" && chunk[2..] == x.value;
      OnePart(c, chunk);
    }
  }

  lemma HostPart(c: Check, x: Option<string>)
    requires c.host.None? && c.message.None?
    ensures AddParts(c, Optional("h:", x)) == Success(if x.None? then c else c.(host := x))
  {
    hide ParseInt;
    if x.Some? {
      var chunk := "h:" + x.value;
      assert chunk[..2] == "h:" && chunk[2..] == x.value && chunk[0] == 'h';
      OnePart(c, chunk);
    }
  }

  lemma LabelPart(c: Check, x: Option<string>)
    requires c.tags.None? && c.message.None?
    ensures AddParts(c, Optional("#", x))
         == Success(if x.None? then c else c.(tags := Some(TagsOf(Split(x.value, ',')))))
  {
    hide ParseInt, Split, SortStrings, TakeScope;
    if x.Some? {
      var chunk := "#" + x.value;
      assert chunk[0] == '#' && chunk[1..] == x.value;
      OnePart(c, chunk);
    }
  }

  lemma MessagePart(c: Check, x: Option<string>)
    requires c.message.None?
    ensures AddParts(c, Optional("m:", x)) == Success(if x.None? then c else c.(message := Some(Unescape(x.value))))
  {
    hide ParseInt, Unescape;
    if x.Some? {
      var chunk := "m:" + x.value;
      assert chunk[..2] == "m:" && chunk[2..] == x.value && chunk[0] == 'm';
      OnePart(c, chunk);
    }
  }

  /** The check that flags describe: message unescaped, tags sorted, the scope tag taken out. */
  function CheckPartsOf(f: CheckFlags): Check {
    Check(if f.time.None? then None else ParseInt(f.time.value), f.hostname,
          if f.tags.None? then None else Some(TagsOf(Split(f.tags.value, ','))),
          if f.msg.None? then None else Some(Unescape(f.msg.value)))
  }

  lemma PartsRead(f: CheckFlags)
    ensures AddParts(NO_CHECK, CheckSections(f))
         == if f.time.Some? && ParseInt(f.time.value).None? then Failure(BadDate) else Success(CheckPartsOf(f))
  {
    hide AddParts, Optional, ParseInt, Split, SortStrings, TakeScope, Unescape;
    var c0 := NO_CHECK;
    var c1 := if f.time.None? then c0 else c0.(date := ParseInt(f.time.value));
    var c2 := if f.hostname.None? then c1 else c1.(host := f.hostname);
    var c3 := if f.tags.None? then c2 else c2.(tags := Some(TagsOf(Split(f.tags.value, ','))));
    var s3 := Optional("#", f.tags) + Optional("m:", f.msg);
    PartsConcat(c0, Optional("d:", f.time), Optional("h:", f.hostname) + s3);
    DatePart(c0, f.time);
    PartsConcat(c1, Optional("h:", f.hostname), s3);
    HostPart(c1, f.hostname);
    PartsConcat(c2, Optional("#", f.tags), Optional("m:", f.msg));
    LabelPart(c2, f.tags);
    MessagePart(c3, f.msg);
  }

  predicate CheckReadable(f: CheckFlags)
    requires f.name.Some? && f.status.Some?
  {
    f.name.value != "" && f.status.value in STATUSES && (f.time.Some? ==> ParseInt(f.time.value).Some?)
  }

  const STATUSES := ["0", "1", "2", "3"]

  /** The check that flags describe: message unescaped, tags in order, the one that set the scope left out. */
  ghost predicate CheckSays(m: UDPMetric, f: CheckFlags, now: int)
    requires f.name.Some? && f.status.Some?
  {
    && m.key == MetricKey(f.name.value, Statuses, Join(m.tags, ",")) && m.digest == KeyHash(m.key)
    && m.value.Status? && 0 <= m.value.status < |STATUSES| && f.status.value == STATUSES[m.value.status]
    && m.sampleRate == Finite(1.0)
    && (f.tags.None? ==> m.tags == [] && m.scope == MixedScope)
    && (f.tags.Some? ==> Stand(m.tags, m.scope, Split(f.tags.value, ',')))
    && Some(m.timestamp) == (if f.time.Some? then ParseInt(f.time.value) else Some(now))
    && m.message == (if f.msg.Some? then Unescape(f.msg.value) else "")
    && m.hostName == (if f.hostname.Some? then f.hostname.value else "")
  }

  lemma WithSays(f: CheckFlags, now: int)
    requires f.name.Some? && f.status.Some? && CheckReadable(f)
    ensures CheckSays(CheckWith(f.name.value, StatusOf(f.status.value).value, CheckPartsOf(f), now), f, now)
  {
    hide Split, TagsOf, Stand, Join, KeyHash, ParseInt, Unescape;
    if f.tags.Some? {
      TagsStand(Split(f.tags.value, ','));
    }
  }

  /**
    A service check built without pipes in its fields reads back as the check it was
    built for if and only if it has a name, a status from 0 to 3 and a legal date.
   */
  lemma {:induction false} CheckRoundTrip(f: CheckFlags, now: int)
    requires f.name.Some? && f.status.Some? && CheckPipeFree(f)
    ensures var r := CheckOf(Join(CheckChunks(f), "|"), now);
            && (r.Success? <==> CheckReadable(f))
            && (r.Success? ==> CheckSays(r.value, f, now))
  {
    hide Split, Join, CheckSections, AddParts, CheckPartsOf, CheckWith, CheckPipeFree, ParseInt, CheckSays;
    CheckSplits(f);
    PartsRead(f);
    if CheckReadable(f) {
      WithSays(f, now);
    }
    var chunks := CheckChunks(f);
    assert chunks[3..] == CheckSections(f);
  }
}
