/**
  The SSF wire protocol: a version byte, a 32-bit big-endian length, a span.
  Reading is specified on the bytes that remain, and shown not to depend on
  how a reader cuts them into short reads.
 */
module Framing {
  import opened Integers
  import opened Varint
  import opened Fields
  import opened Ssf
  import opened SsfRoundTrip

  const MAX_PACKET: nat := 16 * 1024 * 1024
  const NAME: Bytes := [110, 97, 109, 101]
  const ONE: Float32 := 0x3f80_0000

  // ---- Normalisation

  function NormalSample(m: SSFSample): SSFSample {
    if IsZero(m.sampleRate) then m.(sampleRate := ONE) else m
  }

  /** A nameless span takes the value of its "name" tag; a missing sample rate means 1. */
  function Normal(m: SSFSpan): SSFSpan {
    var named :=
      if m.name != [] then m
      else m.(name := if NAME in m.tags then m.tags[NAME] else [], tags := m.tags - {NAME});
    named.(metrics := seq(|m.metrics|, i requires 0 <= i < |m.metrics| => NormalSample(m.metrics[i])))
  }

  /**
    A span keeps its name and tags if it has a name. If not, the tag "name" becomes
    its name and goes; the other tags stay. A sample rate of zero, of either sign,
    becomes 1, and nothing else changes.
   */
  lemma {:induction false} NormalMeans(m: SSFSpan)
    ensures var n := Normal(m);
            && (m.name != [] ==> n.name == m.name && n.tags == m.tags)
            && (m.name == [] ==>
                  && n.name == (if [110, 97, 109, 101] in m.tags then m.tags[[110, 97, 109, 101]] else [])
                  && (forall k :: k in n.tags <==> k in m.tags && k != [110, 97, 109, 101])
                  && (forall k :: k in n.tags ==> n.tags[k] == m.tags[k]))
            && |n.metrics| == |m.metrics|
            && (forall i :: 0 <= i < |m.metrics| ==>
                  && n.metrics[i].sampleRate == (if m.metrics[i].sampleRate in [0, 0x8000_0000] then 0x3f80_0000
                                                 else m.metrics[i].sampleRate)
                  && n.metrics[i].(sampleRate := m.metrics[i].sampleRate) == m.metrics[i])
            && n.(name := m.name, tags := m.tags, metrics := m.metrics) == m
  {
    assert NAME == [110, 97, 109, 101];
    forall i | 0 <= i < |m.metrics|
      ensures Normal(m).metrics[i] == NormalSample(m.metrics[i])
    {
    }
  }

  /** Normalising is settled after one pass. */
  lemma {:induction false} NormalIdempotent(m: SSFSpan)
    ensures Normal(Normal(m)) == Normal(m)
  {
    var n := Normal(m);
    assert n.name == [] ==> n.tags - {NAME} == n.tags;
    assert Normal(n).metrics == n.metrics;
  }

  function ParseSSF(packet: Bytes): Parse<SSFSpan> {
    match Unmarshal(packet)
    case Failed(e) => Failed(e)
    case Parsed(m, rest) => Parsed(Normal(m), rest)
  }

  // ---- Frames

  function BigEndian(n: nat): (bs: Bytes)
    ensures |bs| == 4
  {
    var word := n % TWO32;
    var high := word / 256;
    var higher := high / 256;
    [higher / 256, higher % 256, high % 256, word % 256]
  }

  function WordOf(bs: Bytes): (n: nat)
    requires |bs| == 4
    ensures n < TWO32
  {
    var b0: int, b1: int, b2: int, b3: int := bs[0], bs[1], bs[2], bs[3];
    b3 + 256 * (b2 + 256 * (b1 + 256 * b0))
  }

  lemma WordRoundTrip(n: nat)
    ensures WordOf(BigEndian(n)) == n % TWO32
  {
  }

  /** What WriteSSF puts on the stream; the length field holds the low 32 bits. */
  function Frame(payload: Bytes): Bytes {
    [0] + (BigEndian(|payload|) + payload)
  }

  /** How a reader reports the end: along with the last bytes, or only to empty reads. */
  datatype ReaderKind = ReaderKind(eofWithData: bool, eofOnEmptyRead: bool)

  const PATIENT := ReaderKind(false, false)

  datatype Outcome =
    | Span(span: SSFSpan)
    | BadPayload(error: WireError)
    | Eof
    | FramingIO
    | FrameVersion(version: Byte)
    | FrameLength(length: nat)

  /** Outcomes after which the stream cannot be read any further. */
  predicate Fatal(r: Outcome) { !r.Span? && !r.BadPayload? }

  /** Whether the payload loop gets all its bytes before it is told of the end. */
  predicate PayloadArrives(kind: ReaderKind, length: nat, available: nat) {
    || available > length
    || (available == length && !(if length == 0 then kind.eofOnEmptyRead else kind.eofWithData))
  }

  /** ReadSSF on the bytes that remain: what it returns and what it leaves. */
  function ReadOne(bs: Bytes, kind: ReaderKind): (Outcome, Bytes) {
    if bs == [] then (Eof, [])
    else if bs[0] != 0 then (FrameVersion(bs[0]), bs[1..])
    else if |bs| < 5 then (FramingIO, [])
    else
      var length, rest := WordOf(bs[1..5]), bs[5..];
      if length > MAX_PACKET then (FrameLength(length), rest)
      else if !PayloadArrives(kind, length, |rest|) then (FramingIO, [])
      else
        match ParseSSF(rest[..length])
        case Failed(e) => (BadPayload(e), rest[length..])
        case Parsed(m, _) => (Span(m), rest[length..])
  }

  /** Everything a server reads off a connection until the stream ends or breaks. */
  function ReadAll(bs: Bytes, kind: ReaderKind): (seq<Outcome>, Outcome)
    decreases |bs|
  {
    var (r, rest) := ReadOne(bs, kind);
    if Fatal(r) then ([], r)
    else
      var (rs, last) := ReadAll(rest, kind);
      ([r] + rs, last)
  }

  // ---- One frame

  lemma FrameParts(payload: Bytes, rest: Bytes)
    ensures |Frame(payload)| == 5 + |payload|
    ensures (Frame(payload) + rest)[0] == 0
    ensures (Frame(payload) + rest)[1..5] == BigEndian(|payload|)
    ensures (Frame(payload) + rest)[5..] == payload + rest
  {
    hide BigEndian;
  }

  /** A frame of legal size is consumed whole, be its payload good or bad. */
  lemma {:induction false} FrameConsumed(payload: Bytes, rest: Bytes, kind: ReaderKind)
    requires |payload| <= MAX_PACKET && PayloadArrives(kind, |payload|, |payload| + |rest|)
    ensures ReadOne(Frame(payload) + rest, kind).1 == rest
    ensures ReadOne(Frame(payload) + rest, kind).0 ==
            match ParseSSF(payload) case Failed(e) => BadPayload(e) case Parsed(m, _) => Span(m)
  {
    hide Frame, BigEndian, WordOf, ParseSSF;
    FrameParts(payload, rest);
    WordRoundTrip(|payload|);
    assert (payload + rest)[..|payload|] == payload && (payload + rest)[|payload|..] == rest;
  }

  /** The written span reads back, and leaves the next frame, exactly under these conditions. */
  lemma {:induction false} FrameReadsBackIff(m: SSFSpan, o: Orders, rest: Bytes, kind: ReaderKind)
    requires OrdersOf(o, m) && |EncodeSpan(m, o)| < TWO63
    ensures ReadOne(Frame(EncodeSpan(m, o)) + rest, kind) == (Span(Normal(CanonicalSpan(m))), rest)
            <==> |EncodeSpan(m, o)| <= MAX_PACKET
                 && PayloadArrives(kind, |EncodeSpan(m, o)|, |EncodeSpan(m, o)| + |rest|)
  {
    hide Frame, BigEndian, WordOf, Unmarshal, EncodeSpan, Normal, CanonicalSpan, Enumerates;
    var payload := EncodeSpan(m, o);
    SpanRoundTrip(m, o);
    FrameParts(payload, rest);
    WordRoundTrip(|payload|);
    if |payload| <= MAX_PACKET && PayloadArrives(kind, |payload|, |payload| + |rest|) {
      FrameConsumed(payload, rest, kind);
    } else if |payload| > MAX_PACKET && |payload| % TWO32 <= MAX_PACKET {
      assert |payload| % TWO32 < |payload|;
      assert |ReadOne(Frame(payload) + rest, kind).1| != |rest| || ReadOne(Frame(payload) + rest, kind).0 == FramingIO;
    }
  }

  /** A reader that hands over the end together with the last bytes loses the last span. */
  lemma {:induction false} EagerReaderLosesLast(m: SSFSpan, o: Orders)
    requires OrdersOf(o, m) && 0 < |EncodeSpan(m, o)| <= MAX_PACKET
    ensures ReadOne(Frame(EncodeSpan(m, o)), ReaderKind(true, false)) == (FramingIO, [])
  {
    hide Frame, BigEndian, WordOf, ParseSSF, EncodeSpan, Enumerates;
    var payload := EncodeSpan(m, o);
    FrameParts(payload, []);
    assert Frame(payload) + [] == Frame(payload);
    WordRoundTrip(|payload|);
    assert payload + [] == payload;
  }

  // ---- Whole streams, cut anywhere

  function Stream(payloads: seq<Bytes>): Bytes {
    if payloads == [] then [] else Frame(payloads[0]) + Stream(payloads[1..])
  }

  predicate Sendable(payloads: seq<Bytes>) {
    forall i :: 0 <= i < |payloads| ==> |payloads[i]| <= MAX_PACKET && ParseSSF(payloads[i]).Parsed?
  }

  /** How many whole frames lie within the first cut bytes. */
  function Whole(payloads: seq<Bytes>, cut: nat): (n: nat)
    ensures n <= |payloads|
    decreases |payloads|
  {
    if payloads == [] || cut < |Frame(payloads[0])| then 0
    else 1 + Whole(payloads[1..], cut - |Frame(payloads[0])|)
  }

  function Spans(payloads: seq<Bytes>): seq<Outcome>
    requires Sendable(payloads)
  {
    seq(|payloads|, i requires 0 <= i < |payloads| => Span(ParseSSF(payloads[i]).value))
  }

  /** Inside a frame, short of its end, there is nothing to read but a framing error. */
  lemma CutFrameBreaks(payload: Bytes, rest: Bytes, cut: nat)
    requires |payload| <= MAX_PACKET && 0 < cut < |Frame(payload)|
    ensures cut <= |Frame(payload) + rest|
    ensures ReadOne((Frame(payload) + rest)[..cut], PATIENT) == (FramingIO, [])
  {
    hide Frame, BigEndian, WordOf, ParseSSF;
    FrameParts(payload, rest);
    WordRoundTrip(|payload|);
    var whole := Frame(payload) + rest;
    var bs := whole[..cut];
    assert bs[0] == whole[0];
    if cut >= 5 {
      assert bs[1..5] == whole[1..5];
    }
  }

  lemma ReadAllStep(bs: Bytes, kind: ReaderKind)
    ensures Fatal(ReadOne(bs, kind).0) ==> ReadAll(bs, kind) == ([], ReadOne(bs, kind).0)
    ensures !Fatal(ReadOne(bs, kind).0) ==>
              && ReadAll(bs, kind).0 == [ReadOne(bs, kind).0] + ReadAll(ReadOne(bs, kind).1, kind).0
              && ReadAll(bs, kind).1 == ReadAll(ReadOne(bs, kind).1, kind).1
  {
    hide ReadOne;
  }

  lemma ReadAllOfFrame(payload: Bytes, rest: Bytes)
    requires |payload| <= MAX_PACKET && ParseSSF(payload).Parsed?
    ensures ReadAll(Frame(payload) + rest, PATIENT).0 == [Span(ParseSSF(payload).value)] + ReadAll(rest, PATIENT).0
    ensures ReadAll(Frame(payload) + rest, PATIENT).1 == ReadAll(rest, PATIENT).1
  {
    hide ReadOne, ReadAll, ParseSSF, Frame;
    FrameConsumed(payload, rest, PATIENT);
    ReadAllStep(Frame(payload) + rest, PATIENT);
  }

  lemma ReadAllOfCut(payload: Bytes, rest: Bytes, cut: nat)
    requires |payload| <= MAX_PACKET && cut < |Frame(payload)|
    ensures cut <= |Frame(payload) + rest|
    ensures ReadAll((Frame(payload) + rest)[..cut], PATIENT) == ([], if cut == 0 then Eof else FramingIO)
  {
    hide ReadAll, ParseSSF, Frame;
    var bs := (Frame(payload) + rest)[..cut];
    ReadAllStep(bs, PATIENT);
    if cut > 0 {
      hide ReadOne;
      CutFrameBreaks(payload, rest, cut);
    }
  }

  lemma SpansOfCons(first: Bytes, others: seq<Bytes>)
    requires Sendable([first] + others)
    ensures Sendable(others) && ParseSSF(first).Parsed? && |first| <= MAX_PACKET
    ensures Spans([first] + others) == [Span(ParseSSF(first).value)] + Spans(others)
    ensures Stream([first] + others) == Frame(first) + Stream(others)
    ensures |Stream([first] + others)| == |Frame(first)| + |Stream(others)|
  {
    hide ParseSSF, Frame;
    var all := [first] + others;
    assert all[0] == first && all[1..] == others;
    forall i | 0 <= i < |others|
      ensures |others[i]| <= MAX_PACKET && ParseSSF(others[i]).Parsed?
    {
      assert others[i] == all[i + 1];
    }
  }

  /**
    A stream of frames cut at any byte yields the spans that are complete, then
    a clean end exactly if the cut falls on a frame boundary, else a framing error.
   */
  lemma {:induction false} CutStream(payloads: seq<Bytes>, cut: nat)
    requires Sendable(payloads) && cut <= |Stream(payloads)|
    ensures Sendable(payloads[..Whole(payloads, cut)])
    ensures ReadAll(Stream(payloads)[..cut], PATIENT).0 == Spans(payloads[..Whole(payloads, cut)])
    ensures ReadAll(Stream(payloads)[..cut], PATIENT).1
            == if cut == |Stream(payloads[..Whole(payloads, cut)])| then Eof else FramingIO
    decreases |payloads|
  {
    hide *;
    if payloads == [] {
      CutOfNothing();
    } else {
      var first, others := payloads[0], payloads[1..];
      assert payloads == [first] + others;
      SpansOfCons(first, others);
      if cut < |Frame(first)| {
        CutInFirst(first, others, cut);
      } else {
        assert cut - |Frame(first)| <= |Stream(others)|;
        CutStream(others, cut - |Frame(first)|);
        CutAfterFirst(first, others, cut);
      }
    }
  }

  lemma CutOfNothing()
    ensures Whole([], 0) == 0 && Stream([]) == []
    ensures ReadAll([], PATIENT) == ([], Eof)
    ensures Sendable([]) && Spans([]) == []
  {
  }

  lemma CutInFirst(first: Bytes, others: seq<Bytes>, cut: nat)
    requires |first| <= MAX_PACKET && cut < |Frame(first)|
    ensures Whole([first] + others, cut) == 0
    ensures cut <= |Stream([first] + others)|
    ensures Sendable([]) && Spans([]) == [] && Stream([]) == []
    ensures ReadAll(Stream([first] + others)[..cut], PATIENT) == ([], if cut == 0 then Eof else FramingIO)
  {
    hide ParseSSF, Frame, ReadAll, ReadOne;
    assert ([first] + others)[1..] == others;
    ReadAllOfCut(first, Stream(others), cut);
  }

  lemma CutAfterFirst(first: Bytes, others: seq<Bytes>, cut: nat)
    requires Sendable([first] + others) && |Frame(first)| <= cut <= |Stream([first] + others)|
    ensures cut - |Frame(first)| <= |Stream(others)|
    ensures var cut' := cut - |Frame(first)|;
            var n := Whole(others, cut');
            && Whole([first] + others, cut) == n + 1
            && Sendable(([first] + others)[..n + 1]) && Sendable(others[..n])
            && Spans(([first] + others)[..n + 1]) == [Span(ParseSSF(first).value)] + Spans(others[..n])
            && |Stream(([first] + others)[..n + 1])| == |Frame(first)| + |Stream(others[..n])|
            && ReadAll(Stream([first] + others)[..cut], PATIENT).0
               == [Span(ParseSSF(first).value)] + ReadAll(Stream(others)[..cut'], PATIENT).0
            && ReadAll(Stream([first] + others)[..cut], PATIENT).1 == ReadAll(Stream(others)[..cut'], PATIENT).1
  {
    hide ParseSSF, Frame, ReadAll, ReadOne, Spans;
    SpansOfCons(first, others);
    var all, cut' := [first] + others, cut - |Frame(first)|;
    assert all[1..] == others;
    var n, left := Whole(others, cut'), Stream(others)[..cut'];
    assert Stream(all)[..cut] == Frame(first) + left;
    ReadAllOfFrame(first, left);
    assert all[..n + 1] == [first] + others[..n];
    SpansOfCons(first, others[..n]);
  }
}
