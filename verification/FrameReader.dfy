/** The reading side of the wire protocol as it runs: loops over short reads. */
module FrameReader {
  import opened Varint
  import opened Ssf
  import opened Framing
  import SsfMarshal

  /** A byte source that may cut its data anywhere, and reports its end in its own way. */
  class Reader {
    const kind: ReaderKind
    var pending: Bytes

    constructor (bs: Bytes, kind: ReaderKind)
      ensures pending == bs && this.kind == kind
    {
      pending := bs;
      this.kind := kind;
    }

    /** At least one byte if there is one and there is room for it; how many is anyone's guess. */
    method Read(max: nat) returns (data: Bytes, eof: bool)
      modifies this
      ensures old(pending) == data + pending && |data| <= max
      ensures max > 0 && old(pending) != [] ==> data != []
      ensures eof <==> pending == [] &&
                       (if data != [] then kind.eofWithData else if max == 0 then kind.eofOnEmptyRead else true)
    {
      var n: nat := 0;
      if max > 0 && pending != [] {
        n :| 1 <= n <= max && n <= |pending|;
      }
      data := pending[..n];
      pending := pending[n..];
      eof := pending == [] &&
             (if data != [] then kind.eofWithData else if max == 0 then kind.eofOnEmptyRead else true);
    }
  }

  /** io.ReadFull: fills the request if the bytes are there, whatever is reported with the last of them. */
  method ReadFull(in_: Reader, size: nat) returns (data: Bytes, ok: bool)
    requires size > 0
    modifies in_
    ensures ok <==> |old(in_.pending)| >= size
    ensures ok ==> old(in_.pending) == data + in_.pending && |data| == size
    ensures !ok ==> in_.pending == [] && data == old(in_.pending)
  {
    data := [];
    while |data| < size
      invariant old(in_.pending) == data + in_.pending && |data| <= size
      decreases size - |data|
    {
      ghost var before := in_.pending;
      var chunk, eof := in_.Read(size - |data|);
      assert data + before == (data + chunk) + in_.pending;
      data := data + chunk;
      if eof && |data| < size {
        return data, false;
      }
    }
    return data, true;
  }

  /** What one read puts into the buffer. */
  method Fill(bts: array<Byte>, at: nat, chunk: Bytes)
    requires at + |chunk| <= bts.Length
    modifies bts
    ensures bts[..at + |chunk|] == old(bts[..at]) + chunk
  {
    for k := 0 to |chunk|
      invariant bts[..at + k] == old(bts[..at]) + chunk[..k]
    {
      bts[at + k] := chunk[k];
    }
    assert chunk[..|chunk|] == chunk;
  }

  /** readFrame: fills a buffer; an end reported along with its last bytes counts as a failure. */
  method ReadPayload(in_: Reader, length: nat) returns (data: Bytes, ok: bool)
    modifies in_
    ensures ok <==> PayloadArrives(in_.kind, length, |old(in_.pending)|)
    ensures ok ==> old(in_.pending) == data + in_.pending && |data| == length
    ensures !ok ==> in_.pending == []
  {
    var bts := new Byte[length](i => 0);
    var read := 0;
    while true
      invariant 0 <= read <= length && (read == length ==> read == 0)
      invariant old(in_.pending) == bts[..read] + in_.pending
      decreases length - read, in_.pending != []
    {
      ghost var before, got := in_.pending, bts[..read];
      var chunk, eof := in_.Read(length - read);
      if eof {
        return [], false;
      }
      Fill(bts, read, chunk);
      read := read + |chunk|;
      assert bts[..read] + in_.pending == got + (chunk + in_.pending);
      if read == length {
        return bts[..], true;
      }
    }
  }

  /** ReadSSF: its result and the bytes it leaves do not depend on the short reads. */
  method ReadSSF(in_: Reader) returns (r: Outcome)
    modifies in_
    ensures (r, in_.pending) == ReadOne(old(in_.pending), in_.kind)
  {
    hide WordOf, ParseSSF, Unmarshal;
    ghost var bs := in_.pending;
    var version, ok := ReadFull(in_, 1);
    if !ok {
      return Eof;
    }
    if version[0] != 0 {
      return FrameVersion(version[0]);
    }
    ghost var afterVersion := in_.pending;
    assert bs == [0] + afterVersion;
    var word;
    word, ok := ReadFull(in_, 4);
    if !ok {
      return FramingIO;
    }
    var length := WordOf(word);
    assert bs[1..5] == word && bs[5..] == in_.pending;
    if length > MAX_PACKET {
      return FrameLength(length);
    }
    ghost var rest := in_.pending;
    var payload;
    payload, ok := ReadPayload(in_, length);
    if !ok {
      return FramingIO;
    }
    assert rest[..length] == payload && rest[length..] == in_.pending;
    r := ParseSSFPacket(payload);
  }

  /** ParseSSF: unmarshal, then edit the span in place. */
  method ParseSSFPacket(packet: Bytes) returns (r: Outcome)
    ensures r == match ParseSSF(packet) case Failed(e) => BadPayload(e) case Parsed(m, _) => Span(m)
  {
    hide Unmarshal;
    var parsed := SsfMarshal.UnmarshalSpan(packet);
    if parsed.Failed? {
      return BadPayload(parsed.error);
    }
    var span := parsed.value;
    if span.name == [] {
      if NAME in span.tags {
        span := span.(name := span.tags[NAME]);
      }
      span := span.(tags := span.tags - {NAME});
    }
    ghost var named := span;
    for i := 0 to |span.metrics|
      invariant span == named.(metrics := span.metrics) && |span.metrics| == |named.metrics|
      invariant forall j :: 0 <= j < i ==> span.metrics[j] == NormalSample(named.metrics[j])
      invariant forall j :: i <= j < |span.metrics| ==> span.metrics[j] == named.metrics[j]
    {
      span := span.(metrics := span.metrics[i := NormalSample(span.metrics[i])]);
    }
    assert span.metrics == Normal(parsed.value).metrics;
    r := Span(span);
  }
}
