/** DogStatsD events: the parser, and what a packet stands for. */
module Events {
  import opened Options
  import opened SplitBytes
  import opened Numerals
  import opened Escapes
  import opened DogStatsD

  const AGGREGATION_KEY := "vdogstatsd_ak"
  const ALERT_TYPE := "vdogstatsd_at"
  const HOSTNAME := "vdogstatsd_hostname"
  const IDENTIFIER := "vdogstatsd_ev"
  const PRIORITY := "vdogstatsd_pri"
  const SOURCE_TYPE := "vdogstatsd_st"

  datatype Event = Event(name: string, message: string, timestamp: int, tags: map<string, string>)

  predicate HasPrefix(s: string, prefix: string): (has: bool)
    ensures has ==> |s| >= |prefix|
  {
    |s| >= |prefix| && s[..|prefix|] == prefix
  }

  // ---- The sections

  /** The tags so far, the date if there was one, and which sections have been seen. */
  datatype Meta = Meta(date: Option<int>, tags: map<string, string>, found: set<char>)

  function Blank(): Meta {
    Meta(None, map[IDENTIFIER := ""], {})
  }

  predicate IsPriority(s: string) {
    s == "normal" || s == "low"
  }

  predicate IsAlert(s: string) {
    s == "error" || s == "warning" || s == "info" || s == "success"
  }

  /** A section that becomes a tag. */
  function AddTag(m: Meta, marker: char, key: string, text: string): Result<Meta> {
    if marker in m.found then Failure(Repeated(marker))
    else Success(m.(tags := m.tags[key := text], found := m.found + {marker}))
  }

  function AddDate(m: Meta, text: string): Result<Meta> {
    if 'd' in m.found then Failure(Repeated('d'))
    else match ParseInt(text)
      case None => Failure(BadDate)
      case Some(t) => Success(m.(date := Some(t), found := m.found + {'d'}))
  }

  function AddMeta(m: Meta, chunk: string): Result<Meta> {
    if chunk == "" then Failure(EmptySection)
    else if HasPrefix(chunk, "d:") then AddDate(m, chunk[2..])
    else if HasPrefix(chunk, "h:") then AddTag(m, 'h', HOSTNAME, chunk[2..])
    else if HasPrefix(chunk, "k:") then AddTag(m, 'k', AGGREGATION_KEY, chunk[2..])
    else if HasPrefix(chunk, "p:") then
      if 'p' !in m.found && !IsPriority(chunk[2..]) then Failure(BadPriority) else AddTag(m, 'p', PRIORITY, chunk[2..])
    else if HasPrefix(chunk, "s:") then AddTag(m, 's', SOURCE_TYPE, chunk[2..])
    else if HasPrefix(chunk, "t:") then
      if 't' !in m.found && !IsAlert(chunk[2..]) then Failure(BadAlert) else AddTag(m, 't', ALERT_TYPE, chunk[2..])
    else if chunk[0] == '#' then
      if '#' in m.found then Failure(Repeated('#'))
      else Success(m.(tags := m.tags + TagMap(Split(chunk[1..], ',')), found := m.found + {'#'}))
    else Failure(UnknownSection)
  }

  function AddMetas(m: Meta, chunks: seq<string>): Result<Meta>
    decreases |chunks|
  {
    if chunks == [] then Success(m)
    else match AddMeta(m, chunks[0])
      case Failure(e) => Failure(e)
      case Success(t) => AddMetas(t, chunks[1..])
  }

  // ---- The head

  function LengthOf(text: string, of: Field): Result<int> {
    match ParseInt(text)
    case None => Failure(LengthNotInteger(of))
    case Some(n) => if n <= 0 then Failure(LengthNotPositive(of)) else Success(n)
  }

  /** The two lengths in an _e{title,text} wrapper. */
  function LengthsOf(wrapper: string): Result<(int, int)> {
    if !HasPrefix(wrapper, "_e{") || wrapper[|wrapper| - 1] != '}' then Failure(NoWrapper)
    else
      var inner := wrapper[3..|wrapper| - 1];
      match IndexByte(inner, ',')
      case None => Failure(NoComma)
      case Some(i) =>
        var title, text := LengthOf(inner[..i], TitleField), LengthOf(inner[i + 1..], TextField);
        if title.Failure? then Failure(title.error)
        else if text.Failure? then Failure(text.error)
        else Success((title.value, text.value))
  }

  datatype Title = Title(title: string, textLength: int)

  function TitleOf(first: string): Result<Title> {
    match IndexByte(first, ':')
    case None => Failure(NoColon)
    case Some(i) =>
      match LengthsOf(first[..i])
      case Failure(e) => Failure(e)
      case Success((title, text)) =>
        if |first[i + 1..]| != title then Failure(WrongLength(TitleField)) else Success(Title(first[i + 1..], text))
  }

  function EventFrom(chunks: seq<string>, now: int): Result<Event>
    requires |chunks| > 0
  {
    match TitleOf(chunks[0])
    case Failure(e) => Failure(e)
    case Success(t) =>
      if |chunks| == 1 then Failure(NoPipe)
      else if |chunks[1]| != t.textLength then Failure(WrongLength(TextField))
      else match AddMetas(Blank(), chunks[2..])
        case Failure(e) => Failure(e)
        case Success(m) =>
          Success(Event(t.title, Unescape(chunks[1]), if m.date.Some? then m.date.value else now, m.tags))
  }

  function EventOf(packet: string, now: int): Result<Event> {
    EventFrom(Split(packet, '|'), now)
  }

  // ---- The parser

  method ReadLengths(wrapper: string) returns (r: Result<(int, int)>)
    ensures r == LengthsOf(wrapper)
  {
    hide ParseInt;
    if !HasPrefix(wrapper, "_e{") || wrapper[|wrapper| - 1] != '}' {
      return Failure(NoWrapper);
    }
    var inner := wrapper[3..|wrapper| - 1];
    var comma := IndexByte(inner, ',');
    if comma.None? {
      return Failure(NoComma);
    }
    var title := ParseInt(inner[..comma.value]);
    if title.None? {
      return Failure(LengthNotInteger(TitleField));
    }
    if title.value <= 0 {
      return Failure(LengthNotPositive(TitleField));
    }
    var text := ParseInt(inner[comma.value + 1..]);
    if text.None? {
      return Failure(LengthNotInteger(TextField));
    }
    if text.value <= 0 {
      return Failure(LengthNotPositive(TextField));
    }
    r := Success((title.value, text.value));
  }

  method ReadTags(m: Meta, text: string) returns (r: Result<Meta>)
    ensures r == if '#' in m.found then Failure(Repeated('#'))
                 else Success(m.(tags := m.tags + TagMap(Split(text, ',')), found := m.found + {'#'}))
  {
    if '#' in m.found {
      return Failure(Repeated('#'));
    }
    var mapped := ParseTagSliceToMap(Split(text, ','));
    r := Success(m.(tags := m.tags + mapped, found := m.found + {'#'}));
  }

  method ReadDate(m: Meta, text: string) returns (r: Result<Meta>)
    ensures r == AddDate(m, text)
  {
    hide ParseInt;
    if 'd' in m.found {
      return Failure(Repeated('d'));
    }
    var date := ParseInt(text);
    if date.None? {
      return Failure(BadDate);
    }
    r := Success(m.(date := date, found := m.found + {'d'}));
  }

  method ReadTag(m: Meta, marker: char, key: string, text: string) returns (r: Result<Meta>)
    ensures r == AddTag(m, marker, key, text)
  {
    if marker in m.found {
      return Failure(Repeated(marker));
    }
    r := Success(m.(tags := m.tags[key := text], found := m.found + {marker}));
  }

  method ReadMeta(m: Meta, chunk: string) returns (r: Result<Meta>)
    ensures r == AddMeta(m, chunk)
  {
    hide Split, TagMap, ParseInt, HasPrefix;
    if chunk == "" {
      r := Failure(EmptySection);
    } else if HasPrefix(chunk, "d:") {
      r := ReadDate(m, chunk[2..]);
    } else if HasPrefix(chunk, "h:") {
      r := ReadTag(m, 'h', HOSTNAME, chunk[2..]);
    } else if HasPrefix(chunk, "k:") {
      r := ReadTag(m, 'k', AGGREGATION_KEY, chunk[2..]);
    } else if HasPrefix(chunk, "p:") {
      r := ReadTag(m, 'p', PRIORITY, chunk[2..]);
      if r.Success? && !IsPriority(chunk[2..]) {
        r := Failure(BadPriority);
      }
    } else if HasPrefix(chunk, "s:") {
      r := ReadTag(m, 's', SOURCE_TYPE, chunk[2..]);
    } else if HasPrefix(chunk, "t:") {
      r := ReadTag(m, 't', ALERT_TYPE, chunk[2..]);
      if r.Success? && !IsAlert(chunk[2..]) {
        r := Failure(BadAlert);
      }
    } else if chunk[0] == '#' {
      r := ReadTags(m, chunk[1..]);
    } else {
      r := Failure(UnknownSection);
    }
  }

  method ReadMetas(splitter: SplitBytes) returns (r: Result<Meta>)
    modifies splitter
    ensures r == AddMetas(Blank(), old(splitter.Rest()))
  {
    hide Split, AddMeta;
    var m := Blank();
    var more := splitter.Next();
    while more
      invariant AddMetas(Blank(), old(splitter.Rest()))
             == AddMetas(m, if more then [splitter.currentChunk] + splitter.Rest() else [])
      decreases |splitter.Rest()|, more
    {
      var next := ReadMeta(m, splitter.currentChunk);
      if next.Failure? {
        return next;
      }
      m := next.value;
      more := splitter.Next();
    }
    r := Success(m);
  }

  method ParseEvent(packet: string, now: int) returns (r: Result<Event>)
    ensures r == EventOf(packet, now)
  {
    hide Split, LengthsOf, AddMetas, Unescape;
    var splitter := new SplitBytes(packet, '|');
    ghost var chunks := splitter.Rest();
    var _ := splitter.Next();
    var first := splitter.currentChunk;
    var colon := IndexByte(first, ':');
    if colon.None? {
      return Failure(NoColon);
    }
    var lengths := ReadLengths(first[..colon.value]);
    if lengths.Failure? {
      return Failure(lengths.error);
    }
    var title := first[colon.value + 1..];
    if |title| != lengths.value.0 {
      return Failure(WrongLength(TitleField));
    }
    var more := splitter.Next();
    if !more {
      return Failure(NoPipe);
    }
    var text := splitter.currentChunk;
    if |text| != lengths.value.1 {
      return Failure(WrongLength(TextField));
    }
    assert chunks == [first, text] + splitter.Rest() && chunks[2..] == splitter.Rest();
    var m := ReadMetas(splitter);
    if m.Failure? {
      return Failure(m.error);
    }
    r := Success(Event(title, Unescape(text), if m.value.date.Some? then m.value.date.value else now, m.value.tags));
  }
}
