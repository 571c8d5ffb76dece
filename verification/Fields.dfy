/** The fields protobuf messages are made of, each with its encoder, decoder and round trip. */
module Fields {
  import opened Integers
  import opened Varint

  /** A float32 by its bit pattern; both zeroes count as absent. */
  type Float32 = x: int | 0 <= x < 0x1_0000_0000

  const NEGATIVE_ZERO: Float32 := 0x8000_0000

  predicate IsZero(f: Float32) { f == 0 || f == NEGATIVE_ZERO }

  function Canonical(f: Float32): Float32 { if f == NEGATIVE_ZERO then 0 else f }

  type Entry = (Bytes, Bytes)

  // ---- Encoders: absent when the value is zero

  function VarintField(tag: Byte, v: UInt64): Bytes {
    if v == 0 then [] else [tag] + Encode(v)
  }

  function BoolField(tag: Byte, b: bool): Bytes {
    if b then [tag, 1] else []
  }

  function LittleEndian(f: Float32): (bs: Bytes)
    ensures |bs| == 4
  {
    var high := f / 256;
    var higher := high / 256;
    [f % 256, high % 256, higher % 256, higher / 256]
  }

  function FloatField(tag: Byte, f: Float32): Bytes {
    if IsZero(f) then [] else [tag] + LittleEndian(f)
  }

  /** A length-delimited record. */
  function Delimited(tag: Byte, s: Bytes): Bytes {
    [tag] + (Encode(|s|) + s)
  }

  function BytesField(tag: Byte, s: Bytes): Bytes {
    if s == [] then [] else Delimited(tag, s)
  }

  function EntryBody(e: Entry): Bytes {
    Delimited(0x0a, e.0) + Delimited(0x12, e.1)
  }

  /** A map is a run of delimited entries, in whatever order it is iterated. */
  function EntriesField(tag: Byte, es: seq<Entry>): Bytes {
    if es == [] then [] else Delimited(tag, EntryBody(es[0])) + EntriesField(tag, es[1..])
  }

  // ---- Decoders

  function FieldNumber(wire: UInt64): Int32 { ToInt32(wire / 8) }

  /** A length-delimited record's payload. */
  function TakeBytes(bs: Bytes): Parse<Bytes> {
    DecodeConsumes(bs, 0, 0);
    match Decode(bs)
    case Failed(e) => Failed(e)
    case Parsed(v, rest) =>
      var len := ToInt64(v);
      if len < 0 then Failed(InvalidLength)
      else if len > |rest| then Failed(UnexpectedEof)
      else Parsed(rest[..len], rest[len..])
  }

  lemma TakeBytesConsumes(bs: Bytes)
    ensures TakeBytes(bs).Parsed? ==>
              |TakeBytes(bs).rest| < |bs| && TakeBytes(bs).rest == bs[|bs| - |TakeBytes(bs).rest|..]
  {
    DecodeConsumes(bs, 0, 0);
  }

  function TakeFixed32(bs: Bytes): Parse<Float32> {
    if |bs| < 4 then Failed(UnexpectedEof)
    else
      var b0: int, b1: int, b2: int, b3: int := bs[0], bs[1], bs[2], bs[3];
      Parsed(b0 + 256 * (b1 + 256 * (b2 + 256 * b3)), bs[4..])
  }

  /** How many bytes an unknown field takes; the caller checks that they are there. */
  function Skip(bs: Bytes): (r: Parse<nat>)
    ensures r.Parsed? ==> r.value > 0
    decreases |bs|, 1
  {
    DecodeConsumes(bs, 0, 0);
    match Decode(bs)
    case Failed(e) => Failed(e)
    case Parsed(wire, rest) =>
      var read := |bs| - |rest|;
      match wire % 8
      case 0 => (
        DecodeConsumes(rest, 0, 0);
        match Decode(rest)
        case Failed(e) => Failed(e)
        case Parsed(_, after) => Parsed(|bs| - |after|, []))
      case 1 => Parsed(read + 8, [])
      case 2 => (
        DecodeConsumes(rest, 0, 0);
        match Decode(rest)
        case Failed(e) => Failed(e)
        case Parsed(v, after) =>
          var len := ToInt64(v);
          if len < 0 then Failed(InvalidLength) else Parsed(|bs| - |after| + len, []))
      case 3 => (
        match SkipGroup(rest)
        case Failed(e) => Failed(e)
        case Parsed(n, _) => Parsed(read + n, []))
      case 4 => Parsed(read, [])
      case 5 => Parsed(read + 4, [])
      case _ => Failed(IllegalWireType)
  }

  /** The inside of a group, up to and including its end marker. */
  function SkipGroup(bs: Bytes): Parse<nat>
    decreases |bs|, 2
  {
    DecodeConsumes(bs, 0, 0);
    match Decode(bs)
    case Failed(e) => Failed(e)
    case Parsed(wire, rest) =>
      if wire % 8 == 4 then Parsed(|bs| - |rest|, [])
      else
        match Skip(bs)
        case Failed(e) => Failed(e)
        case Parsed(n, _) =>
          if n >= |bs| then Failed(UnexpectedEof)
          else
            match SkipGroup(bs[n..])
            case Failed(e) => Failed(e)
            case Parsed(k, _) => Parsed(n + k, [])
  }

  /** Steps over an unknown field. */
  function SkipField(bs: Bytes, limit: nat): (r: Parse<()>)
    ensures r.Parsed? ==> |r.rest| < |bs| && r.rest == bs[|bs| - |r.rest|..]
  {
    match Skip(bs)
    case Failed(e) => Failed(e)
    case Parsed(n, _) => if n > limit || n > |bs| then Failed(UnexpectedEof) else Parsed((), bs[n..])
  }

  /** The fields of a map entry that take up the next left bytes; later ones win. */
  function EntryOf(bs: Bytes, left: int, e: Entry): Parse<Entry>
    decreases |bs|
  {
    if left <= 0 then Parsed(e, bs)
    else
      DecodeConsumes(bs, 0, 0);
      match Decode(bs)
      case Failed(err) => Failed(err)
      case Parsed(wire, rest) =>
        if FieldNumber(wire) == 1 || FieldNumber(wire) == 2 then
          TakeBytesConsumes(rest);
          match TakeBytes(rest)
          case Failed(err) => Failed(err)
          case Parsed(s, after) =>
            EntryOf(after, left - (|bs| - |after|), if FieldNumber(wire) == 1 then (s, e.1) else (e.0, s))
        else
          match SkipField(bs, left)
          case Failed(err) => Failed(err)
          case Parsed(_, after) => EntryOf(after, left - (|bs| - |after|), e)
  }

  function TakeEntry(bs: Bytes): Parse<Entry> {
    match Decode(bs)
    case Failed(e) => Failed(e)
    case Parsed(v, rest) =>
      var len := ToInt64(v);
      if len < 0 then Failed(InvalidLength)
      else if len > |rest| then Failed(UnexpectedEof)
      else
        match EntryOf(rest, len, ([], []))
        case Failed(e) => Failed(e)
        case Parsed(e, _) => Parsed(e, rest[len..])
  }

  // ---- Round trips

  lemma KeyRoundTrip(tag: Byte, rest: Bytes)
    requires tag < 128
    ensures Decode([tag] + rest) == Parsed(tag, rest)
    ensures FieldNumber(tag) == tag / 8
  {
    RoundTrip(tag, rest);
  }

  lemma Fixed32RoundTrip(f: Float32, rest: Bytes)
    ensures TakeFixed32(LittleEndian(f) + rest) == Parsed(f, rest)
  {
  }

  lemma BytesRoundTrip(s: Bytes, rest: Bytes)
    requires |s| < 0x8000_0000_0000_0000
    ensures TakeBytes(Encode(|s|) + (s + rest)) == Parsed(s, rest)
  {
    hide Encode, Decode;
    RoundTrip(|s|, s + rest);
    assert (s + rest)[..|s|] == s && (s + rest)[|s|..] == rest;
  }

  lemma DelimitedThen(tag: Byte, s: Bytes, rest: Bytes)
    ensures Delimited(tag, s) + rest == [tag] + (Encode(|s|) + (s + rest))
  {
    hide Encode;
    ThreeThen([tag], Encode(|s|), s, rest);
  }

  lemma ThreeThen(a: Bytes, b: Bytes, c: Bytes, rest: Bytes)
    ensures (a + (b + c)) + rest == a + (b + (c + rest))
  {
    assert (b + c) + rest == b + (c + rest);
    assert (a + (b + c)) + rest == a + ((b + c) + rest);
  }

  /** Behind its tag, a record reads back whole, whatever follows. */
  lemma DelimitedRoundTrip(tag: Byte, s: Bytes, rest: Bytes)
    requires tag < 128 && |s| < 0x8000_0000_0000_0000
    ensures Delimited(tag, s) + rest == [tag] + (Encode(|s|) + (s + rest))
    ensures Decode(Delimited(tag, s) + rest) == Parsed(tag, Encode(|s|) + (s + rest))
    ensures TakeBytes(Encode(|s|) + (s + rest)) == Parsed(s, rest)
  {
    hide Encode, Decode, TakeBytes, Delimited, FieldNumber;
    DelimitedThen(tag, s, rest);
    KeyRoundTrip(tag, Encode(|s|) + (s + rest));
    BytesRoundTrip(s, rest);
  }

  lemma EntryBodyRoundTrip(e: Entry, rest: Bytes)
    requires |EntryBody(e)| < 0x8000_0000_0000_0000
    ensures EntryOf(EntryBody(e) + rest, |EntryBody(e)|, ([], [])) == Parsed(e, rest)
  {
    hide Encode, Decode, TakeBytes, FieldNumber;
    var key, value := Delimited(0x0a, e.0), Delimited(0x12, e.1);
    assert EntryBody(e) + rest == key + (value + rest);
    DelimitedRoundTrip(0x0a, e.0, value + rest);
    KeyRoundTrip(0x0a, Encode(|e.0|) + (e.0 + (value + rest)));
    DelimitedRoundTrip(0x12, e.1, rest);
    KeyRoundTrip(0x12, Encode(|e.1|) + (e.1 + rest));
    assert EntryOf(value + rest, |value|, (e.0, [])) == Parsed(e, rest) by {
      assert EntryOf(rest, 0, e) == Parsed(e, rest);
    }
  }

  lemma {:induction false} EntryRoundTrip(e: Entry, rest: Bytes)
    requires |EntryBody(e)| < 0x8000_0000_0000_0000
    ensures TakeEntry(Encode(|EntryBody(e)|) + (EntryBody(e) + rest)) == Parsed(e, rest)
  {
    hide Encode, Decode, EntryOf, EntryBody;
    RoundTrip(|EntryBody(e)|, EntryBody(e) + rest);
    EntryBodyRoundTrip(e, rest);
    assert (EntryBody(e) + rest)[|EntryBody(e)|..] == rest;
  }
}
