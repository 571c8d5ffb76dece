/** SSF samples and spans, and their protobuf encoding as pure functions. */
module Ssf {
  import opened Integers
  import opened Varint
  import opened Fields

  type Tags = map<Bytes, Bytes>

  datatype SSFSample = SSFSample(
    metric: Int32, name: Bytes, value: Float32, timestamp: Int64, message: Bytes,
    status: Int32, sampleRate: Float32, tags: Tags, unit: Bytes)

  datatype SSFSpan = SSFSpan(
    version: Int32, traceId: Int64, id: Int64, parentId: Int64, startTimestamp: Int64, endTimestamp: Int64,
    error: bool, service: Bytes, metrics: seq<SSFSample>, tags: Tags, indicator: bool, name: Bytes)

  const NO_SAMPLE := SSFSample(0, [], 0, 0, [], 0, 0, map[], [])
  const NO_SPAN := SSFSpan(0, 0, 0, 0, 0, 0, false, [], [], map[], false, [])

  /** One order in which a map may be iterated: every entry, no key twice. */
  predicate Enumerates(es: seq<Entry>, tags: Tags) {
    && (forall i :: 0 <= i < |es| ==> es[i].0 in tags && tags[es[i].0] == es[i].1)
    && (forall i, j :: 0 <= i < j < |es| ==> es[i].0 != es[j].0)
    && (forall k :: k in tags ==> exists i :: 0 <= i < |es| && es[i].0 == k)
  }

  /** The iteration orders of one encoding: of the span's tags and of each sample's. */
  datatype Orders = Orders(tags: seq<Entry>, samples: seq<seq<Entry>>)

  predicate OrdersOf(o: Orders, m: SSFSpan) {
    && Enumerates(o.tags, m.tags)
    && |o.samples| == |m.metrics|
    && forall i :: 0 <= i < |m.metrics| ==> Enumerates(o.samples[i], m.metrics[i].tags)
  }

  // ---- Encoding

  function EncodeSample(m: SSFSample, tags: seq<Entry>): Bytes {
    VarintField(0x08, U64(m.metric))
    + (BytesField(0x12, m.name)
    + (FloatField(0x1d, m.value)
    + (VarintField(0x20, U64(m.timestamp))
    + (BytesField(0x2a, m.message)
    + (VarintField(0x30, U64(m.status))
    + (FloatField(0x3d, m.sampleRate)
    + (EntriesField(0x42, tags)
    + (BytesField(0x4a, m.unit) + []))))))))
  }

  function EncodeMetrics(ms: seq<SSFSample>, tags: seq<seq<Entry>>): Bytes
    requires |ms| == |tags|
  {
    if ms == [] then [] else Delimited(0x52, EncodeSample(ms[0], tags[0])) + EncodeMetrics(ms[1..], tags[1..])
  }

  function EncodeSpan(m: SSFSpan, o: Orders): Bytes
    requires |o.samples| == |m.metrics|
  {
    VarintField(0x08, U64(m.version))
    + (VarintField(0x10, U64(m.traceId))
    + (VarintField(0x18, U64(m.id))
    + (VarintField(0x20, U64(m.parentId))
    + (VarintField(0x28, U64(m.startTimestamp))
    + (VarintField(0x30, U64(m.endTimestamp))
    + (BoolField(0x38, m.error)
    + (BytesField(0x42, m.service)
    + (EncodeMetrics(m.metrics, o.samples)
    + (EntriesField(0x5a, o.tags)
    + (BoolField(0x60, m.indicator)
    + (BytesField(0x6a, m.name) + [])))))))))))
  }

  // ---- Decoding

  /** The wire type a field must have; none for fields the message does not know. */
  function SampleWire(n: Int32): int {
    match n
    case 1 => 0 case 2 => 2 case 3 => 5 case 4 => 0 case 5 => 2 case 6 => 0 case 7 => 5 case 8 => 2 case 9 => 2
    case _ => -1
  }

  function SetSampleVarint(m: SSFSample, n: Int32, v: UInt64): SSFSample {
    match n
    case 1 => m.(metric := ToInt32(v))
    case 4 => m.(timestamp := ToInt64(v))
    case 6 => m.(status := ToInt32(v))
    case _ => m
  }

  function SetSampleFloat(m: SSFSample, n: Int32, f: Float32): SSFSample {
    match n
    case 3 => m.(value := f)
    case 7 => m.(sampleRate := f)
    case _ => m
  }

  function SetSampleBytes(m: SSFSample, n: Int32, s: Bytes): SSFSample {
    match n
    case 2 => m.(name := s)
    case 5 => m.(message := s)
    case 9 => m.(unit := s)
    case _ => m
  }

  /** One turn of the loop of SSFSample.Unmarshal. */
  function SampleField(bs: Bytes, m: SSFSample): Parse<SSFSample> {
    match Decode(bs)
    case Failed(e) => Failed(e)
    case Parsed(wire, rest) =>
      var n, wireType := FieldNumber(wire), wire % 8;
      if wireType == 4 then Failed(EndGroup)
      else if n <= 0 then Failed(IllegalTag)
      else if SampleWire(n) == -1 then
        match SkipField(bs, |bs|)
        case Failed(e) => Failed(e)
        case Parsed(_, after) => Parsed(m, after)
      else if wireType != SampleWire(n) then Failed(WrongWireType)
      else if wireType == 0 then
        match Decode(rest)
        case Failed(e) => Failed(e)
        case Parsed(v, after) => Parsed(SetSampleVarint(m, n, v), after)
      else if wireType == 5 then
        match TakeFixed32(rest)
        case Failed(e) => Failed(e)
        case Parsed(f, after) => Parsed(SetSampleFloat(m, n, f), after)
      else if n == 8 then
        match TakeEntry(rest)
        case Failed(e) => Failed(e)
        case Parsed(e, after) => Parsed(m.(tags := m.tags[e.0 := e.1]), after)
      else
        match TakeBytes(rest)
        case Failed(e) => Failed(e)
        case Parsed(s, after) => Parsed(SetSampleBytes(m, n, s), after)
  }

  lemma SampleFieldConsumes(bs: Bytes, m: SSFSample)
    ensures SampleField(bs, m).Parsed? ==>
              |SampleField(bs, m).rest| < |bs| && SampleField(bs, m).rest == bs[|bs| - |SampleField(bs, m).rest|..]
  {
    hide DecodeFrom, SkipField, TakeBytes, EntryOf;
    DecodeConsumes(bs, 0, 0);
    if Decode(bs).Parsed? {
      var rest := Decode(bs).rest;
      DecodeConsumes(rest, 0, 0);
      TakeBytesConsumes(rest);
    }
  }

  function DecodeSample(bs: Bytes, m: SSFSample): Parse<SSFSample>
    decreases |bs|
  {
    if bs == [] then Parsed(m, [])
    else
      SampleFieldConsumes(bs, m);
      match SampleField(bs, m)
      case Failed(e) => Failed(e)
      case Parsed(m', rest) => DecodeSample(rest, m')
  }

  function SpanWire(n: Int32): int {
    match n
    case 1 => 0 case 2 => 0 case 3 => 0 case 4 => 0 case 5 => 0 case 6 => 0 case 7 => 0
    case 8 => 2 case 10 => 2 case 11 => 2 case 12 => 0 case 13 => 2
    case _ => -1
  }

  function SetSpanVarint(m: SSFSpan, n: Int32, v: UInt64): SSFSpan {
    match n
    case 1 => m.(version := ToInt32(v))
    case 2 => m.(traceId := ToInt64(v))
    case 3 => m.(id := ToInt64(v))
    case 4 => m.(parentId := ToInt64(v))
    case 5 => m.(startTimestamp := ToInt64(v))
    case 6 => m.(endTimestamp := ToInt64(v))
    case 7 => m.(error := v != 0)
    case 12 => m.(indicator := v != 0)
    case _ => m
  }

  /** One turn of the loop of SSFSpan.Unmarshal. */
  function SpanField(bs: Bytes, m: SSFSpan): Parse<SSFSpan> {
    match Decode(bs)
    case Failed(e) => Failed(e)
    case Parsed(wire, rest) =>
      var n, wireType := FieldNumber(wire), wire % 8;
      if wireType == 4 then Failed(EndGroup)
      else if n <= 0 then Failed(IllegalTag)
      else if SpanWire(n) == -1 then
        match SkipField(bs, |bs|)
        case Failed(e) => Failed(e)
        case Parsed(_, after) => Parsed(m, after)
      else if wireType != SpanWire(n) then Failed(WrongWireType)
      else if wireType == 0 then
        match Decode(rest)
        case Failed(e) => Failed(e)
        case Parsed(v, after) => Parsed(SetSpanVarint(m, n, v), after)
      else if n == 11 then
        match TakeEntry(rest)
        case Failed(e) => Failed(e)
        case Parsed(e, after) => Parsed(m.(tags := m.tags[e.0 := e.1]), after)
      else
        match TakeBytes(rest)
        case Failed(e) => Failed(e)
        case Parsed(s, after) =>
          if n == 8 then Parsed(m.(service := s), after)
          else if n == 13 then Parsed(m.(name := s), after)
          else
            match DecodeSample(s, NO_SAMPLE)
            case Failed(e) => Failed(e)
            case Parsed(sample, _) => Parsed(m.(metrics := m.metrics + [sample]), after)
  }

  lemma SpanFieldConsumes(bs: Bytes, m: SSFSpan)
    ensures SpanField(bs, m).Parsed? ==>
              |SpanField(bs, m).rest| < |bs| && SpanField(bs, m).rest == bs[|bs| - |SpanField(bs, m).rest|..]
  {
    hide DecodeFrom, SkipField, TakeBytes, EntryOf, DecodeSample;
    DecodeConsumes(bs, 0, 0);
    if Decode(bs).Parsed? {
      var rest := Decode(bs).rest;
      DecodeConsumes(rest, 0, 0);
      TakeBytesConsumes(rest);
    }
  }

  function DecodeSpan(bs: Bytes, m: SSFSpan): Parse<SSFSpan>
    decreases |bs|
  {
    if bs == [] then Parsed(m, [])
    else
      SpanFieldConsumes(bs, m);
      match SpanField(bs, m)
      case Failed(e) => Failed(e)
      case Parsed(m', rest) => DecodeSpan(rest, m')
  }

  function Unmarshal(bs: Bytes): Parse<SSFSpan> { DecodeSpan(bs, NO_SPAN) }
}
