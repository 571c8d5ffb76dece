/** DogStatsD service checks: the parser, and what a packet stands for. */
module ServiceChecks {
  import opened Floating
  import opened Options
  import opened Text
  import opened SplitBytes
  import opened Numerals
  import opened Escapes
  import opened Samplers
  import opened Tags
  import opened Worker
  import opened DogStatsD
  import opened Events

  datatype Check = Check(date: Option<int>, host: Option<string>, tags: Option<Scoped>, message: Option<string>)

  const NO_CHECK := Check(None, None, None, None)

  /** Nothing may follow a message. */
  function AddPart(c: Check, chunk: string): Result<Check> {
    if chunk == "" then Failure(EmptySection)
    else if c.message.Some? then Failure(AfterMessage)
    else if HasPrefix(chunk, "d:") then
      if c.date.Some? then Failure(Repeated('d'))
      else match ParseInt(chunk[2..])
        case None => Failure(BadDate)
        case Some(t) => Success(c.(date := Some(t)))
    else if HasPrefix(chunk, "h:") then
      if c.host.Some? then Failure(Repeated('h')) else Success(c.(host := Some(chunk[2..])))
    else if HasPrefix(chunk, "m:") then Success(c.(message := Some(Unescape(chunk[2..]))))
    else if chunk[0] == '#' then
      if c.tags.Some? then Failure(Repeated('#'))
      else Success(c.(tags := Some(TagsOf(Split(chunk[1..], ',')))))
    else Failure(UnknownSection)
  }

  function AddParts(c: Check, chunks: seq<string>): Result<Check>
    decreases |chunks|
  {
    if chunks == [] then Success(c)
    else match AddPart(c, chunks[0])
      case Failure(e) => Failure(e)
      case Success(t) => AddParts(t, chunks[1..])
  }

  function StatusOf(text: string): Option<int> {
    if text == "0" then Some(0) else if text == "1" then Some(1)
    else if text == "2" then Some(2) else if text == "3" then Some(3) else None
  }

  function CheckWith(name: string, status: int, c: Check, now: int): UDPMetric {
    var tags := if c.tags.Some? then c.tags.value else Scoped([], MixedScope);
    var key := MetricKey(name, Statuses, Join(tags.tags, ","));
    UDPMetric(key, KeyHash(key), Status(status), Finite(1.0), tags.tags, tags.scope,
              if c.date.Some? then c.date.value else now,
              if c.message.Some? then c.message.value else "", if c.host.Some? then c.host.value else "")
  }

  function CheckHeadOf(chunks: seq<string>): (r: Result<(string, int)>)
    requires |chunks| > 0
    ensures r.Success? ==> |chunks| >= 3
  {
    if chunks[0] != "_sc" then Failure(NoPrefix)
    else if |chunks| == 1 then Failure(NoNameSection)
    else if chunks[1] == "" then Failure(NoName)
    else if |chunks| == 2 then Failure(NoStatus)
    else match StatusOf(chunks[2])
      case None => Failure(BadStatus)
      case Some(status) => Success((chunks[1], status))
  }

  function CheckFrom(chunks: seq<string>, now: int): Result<UDPMetric>
    requires |chunks| > 0
  {
    match CheckHeadOf(chunks)
    case Failure(e) => Failure(e)
    case Success((name, status)) =>
      match AddParts(NO_CHECK, chunks[3..])
      case Failure(e) => Failure(e)
      case Success(c) => Success(CheckWith(name, status, c, now))
  }

  function CheckOf(packet: string, now: int): Result<UDPMetric> {
    CheckFrom(Split(packet, '|'), now)
  }

  // ---- The parser

  method ReadPart(c: Check, chunk: string) returns (r: Result<Check>)
    ensures r == AddPart(c, chunk)
  {
    hide Split, ParseInt, HasPrefix, SortStrings, TakeScope, Unescape;
    if chunk == "" {
      r := Failure(EmptySection);
    } else if c.message.Some? {
      r := Failure(AfterMessage);
    } else if HasPrefix(chunk, "d:") {
      if c.date.Some? {
        return Failure(Repeated('d'));
      }
      var date := ParseInt(chunk[2..]);
      r := if date.None? then Failure(BadDate) else Success(c.(date := date));
    } else if HasPrefix(chunk, "h:") {
      r := if c.host.Some? then Failure(Repeated('h')) else Success(c.(host := Some(chunk[2..])));
    } else if HasPrefix(chunk, "m:") {
      r := Success(c.(message := Some(Unescape(chunk[2..]))));
    } else if chunk[0] == '#' {
      if c.tags.Some? {
        return Failure(Repeated('#'));
      }
      var found := FindScope(SortStrings(Split(chunk[1..], ',')));
      r := Success(c.(tags := Some(found)));
    } else {
      r := Failure(UnknownSection);
    }
  }

  method ReadParts(splitter: SplitBytes) returns (r: Result<Check>)
    modifies splitter
    ensures r == AddParts(NO_CHECK, old(splitter.Rest()))
  {
    hide Split, AddPart;
    var c := NO_CHECK;
    var more := splitter.Next();
    while more
      invariant AddParts(NO_CHECK, old(splitter.Rest()))
             == AddParts(c, if more then [splitter.currentChunk] + splitter.Rest() else [])
      decreases |splitter.Rest()|, more
    {
      var next := ReadPart(c, splitter.currentChunk);
      if next.Failure? {
        return next;
      }
      c := next.value;
      more := splitter.Next();
    }
    r := Success(c);
  }

  /** The prefix, the name and the status. */
  method ReadCheckHead(splitter: SplitBytes) returns (r: Result<(string, int)>)
    requires splitter.Rest() != []
    modifies splitter
    ensures r == CheckHeadOf(old(splitter.Rest()))
    ensures r.Success? ==> |old(splitter.Rest())| >= 3 && splitter.Rest() == old(splitter.Rest())[3..]
  {
    hide Split, StatusOf;
    ghost var chunks := splitter.Rest();
    var _ := splitter.Next();
    if splitter.currentChunk != "_sc" {
      return Failure(NoPrefix);
    }
    var more := splitter.Next();
    if !more {
      return Failure(NoNameSection);
    }
    if splitter.currentChunk == "" {
      return Failure(NoName);
    }
    var name := splitter.currentChunk;
    more := splitter.Next();
    if !more {
      return Failure(NoStatus);
    }
    var status := StatusOf(splitter.currentChunk);
    if status.None? {
      return Failure(BadStatus);
    }
    assert chunks == ["_sc", name, splitter.currentChunk] + splitter.Rest();
    r := Success((name, status.value));
  }

  method ParseServiceCheck(packet: string, now: int) returns (r: Result<UDPMetric>)
    ensures r == CheckOf(packet, now)
  {
    hide Split, AddParts, Join, AddString, CheckHeadOf;
    var splitter := new SplitBytes(packet, '|');
    var head := ReadCheckHead(splitter);
    if head.Failure? {
      return Failure(head.error);
    }
    var name, status := head.value.0, head.value.1;
    var c := ReadParts(splitter);
    if c.Failure? {
      return Failure(c.error);
    }
    var tags := if c.value.tags.Some? then c.value.tags.value else Scoped([], MixedScope);
    var joined := Join(tags.tags, ",");
    var h := AddString(AddString(AddString(FNV_INIT, name), KindName(Statuses)), joined);
    var key := MetricKey(name, Statuses, joined);
    r := Success(UDPMetric(key, h, Status(status), Finite(1.0), tags.tags, tags.scope,
                           if c.value.date.Some? then c.value.date.value else now,
                           if c.value.message.Some? then c.value.message.value else "",
                           if c.value.host.Some? then c.value.host.value else ""));
  }

  /** Whatever the packet, a check that comes out is one a worker can take, hash included. */
  lemma {:induction false} CheckTaken(packet: string, now: int)
    ensures CheckOf(packet, now).Success? ==>
              var m := CheckOf(packet, now).value; Consistent(m) && FateOf(m) == Taken && m.key.name != ""
  {
    hide Split, AddParts, Join, KeyHash;
    var chunks := Split(packet, '|');
    assert CheckOf(packet, now) == CheckFrom(chunks, now);
  }
}
