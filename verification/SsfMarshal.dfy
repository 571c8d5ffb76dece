/** The generated marshalling code: buffers written through an index, inputs read through one. */
module SsfMarshal {
  import opened Integers
  import opened Varint
  import opened Fields
  import opened Ssf
  import opened SsfRoundTrip
  import opened Sums

  // ---- Sizes do not depend on the iteration order

  ghost predicate SameEntries(a: seq<Entry>, b: seq<Entry>) {
    && (forall i, j :: 0 <= i < j < |a| ==> a[i] != a[j])
    && (forall i, j :: 0 <= i < j < |b| ==> b[i] != b[j])
    && (forall e :: e in a <==> e in b)
  }

  lemma EntriesSplit(tag: Byte, es: seq<Entry>, i: nat)
    requires i < |es|
    ensures |EntriesField(tag, es)| == |Delimited(tag, EntryBody(es[i]))| + |EntriesField(tag, es[..i] + es[i + 1..])|
    decreases i
  {
    hide EntryBody, Delimited;
    var others := es[..i] + es[i + 1..];
    if i == 0 {
      assert others == es[1..];
    } else {
      EntriesSplit(tag, es[1..], i - 1);
      assert es[1..][..i - 1] + es[1..][i..] == others[1..];
    }
  }

  lemma SomeEntry(es: seq<Entry>)
    requires es != []
    ensures exists e :: e in es
  {
    assert es[0] in es;
  }

  lemma {:induction false} EntriesLength(tag: Byte, a: seq<Entry>, b: seq<Entry>)
    requires SameEntries(a, b)
    ensures |EntriesField(tag, a)| == |EntriesField(tag, b)|
    decreases |a|
  {
    hide EntryBody, Delimited;
    if a == [] {
      if b != [] {
        SomeEntry(b);
        assert false;
      }
    } else {
      assert a[0] in b;
      var i :| 0 <= i < |b| && b[i] == a[0];
      var a', b' := a[1..], b[..i] + b[i + 1..];
      RemoveSame(a, b, i);
      EntriesLength(tag, a', b');
      EntriesSplit(tag, b, i);
    }
  }

  lemma RemoveSame(a: seq<Entry>, b: seq<Entry>, i: nat)
    requires SameEntries(a, b) && a != [] && i < |b| && b[i] == a[0]
    ensures SameEntries(a[1..], b[..i] + b[i + 1..])
  {
    var a', b' := a[1..], b[..i] + b[i + 1..];
    forall e
      ensures e in a' <==> e in b'
    {
      if e in a' {
        var j :| 0 <= j < |a'| && a'[j] == e;
        assert a[j + 1] == e && e in b;
        var k :| 0 <= k < |b| && b[k] == e;
        assert k != i;
        assert b'[if k < i then k else k - 1] == e;
      }
      if e in b' {
        var j :| 0 <= j < |b'| && b'[j] == e;
        var k := if j < i then j else j + 1;
        assert b[k] == e && e in a;
        var l :| 0 <= l < |a| && a[l] == e;
        assert l != 0;
        assert a'[l - 1] == e;
      }
    }
  }

  lemma EnumerationsSame(a: seq<Entry>, b: seq<Entry>, tags: Tags)
    requires Enumerates(a, tags) && Enumerates(b, tags)
    ensures SameEntries(a, b)
  {
    forall e
      ensures e in a <==> e in b
    {
      if e in a {
        var i :| 0 <= i < |a| && a[i] == e;
        var j :| 0 <= j < |b| && b[j].0 == e.0;
        assert b[j] == e;
      }
      if e in b {
        var i :| 0 <= i < |b| && b[i] == e;
        var j :| 0 <= j < |a| && a[j].0 == e.0;
        assert a[j] == e;
      }
    }
  }

  lemma SampleLength(m: SSFSample, a: seq<Entry>, b: seq<Entry>)
    requires Enumerates(a, m.tags) && Enumerates(b, m.tags)
    ensures |EncodeSample(m, a)| == |EncodeSample(m, b)|
  {
    hide EntriesField, SameEntries, Enumerates, Encode, LittleEndian, VarintField, BytesField, FloatField;
    EnumerationsSame(a, b, m.tags);
    EntriesLength(0x42, a, b);
  }

  lemma {:induction false} MetricsLength(ms: seq<SSFSample>, a: seq<seq<Entry>>, b: seq<seq<Entry>>)
    requires |a| == |b| == |ms|
    requires forall i :: 0 <= i < |ms| ==> Enumerates(a[i], ms[i].tags) && Enumerates(b[i], ms[i].tags)
    ensures |EncodeMetrics(ms, a)| == |EncodeMetrics(ms, b)|
    decreases |ms|
  {
    hide EncodeSample, Enumerates, Encode;
    if ms != [] {
      SampleLength(ms[0], a[0], b[0]);
      MetricsLength(ms[1..], a[1..], b[1..]);
    }
  }

  /** Whatever orders two passes over a span take, they produce equally many bytes. */
  lemma {:induction false} SpanLength(m: SSFSpan, a: Orders, b: Orders)
    requires OrdersOf(a, m) && OrdersOf(b, m)
    ensures |EncodeSpan(m, a)| == |EncodeSpan(m, b)|
  {
    hide EntriesField, EncodeMetrics, SameEntries, Enumerates, VarintField, BytesField, BoolField;
    EnumerationsSame(a.tags, b.tags, m.tags);
    EntriesLength(0x5a, a.tags, b.tags);
    MetricsLength(m.metrics, a.samples, b.samples);
  }

  // ---- Size

  method SizeOfEntries(tag: Byte, es: seq<Entry>) returns (n: nat)
    requires |EntriesField(tag, es)| < TWO63
    ensures n == |EntriesField(tag, es)|
  {
    hide Encode;
    n := 0;
    for i := 0 to |es|
      invariant n + |EntriesField(tag, es[i..])| == |EntriesField(tag, es)|
    {
      var k, v := es[i].0, es[i].1;
      assert es[i..][0] == es[i] && es[i..][1..] == es[i + 1..];
      var sovKey := SizeOfVarint(|k|);
      var sovValue := SizeOfVarint(|v|);
      var mapEntrySize := 1 + |k| + sovKey + 1 + |v| + sovValue;
      assert mapEntrySize == |EntryBody(es[i])|;
      var sovEntry := SizeOfVarint(mapEntrySize);
      n := n + mapEntrySize + 1 + sovEntry;
    }
  }

  method SizeOfBytes(tag: Byte, s: Bytes) returns (n: nat)
    requires |s| < TWO63
    ensures n == |BytesField(tag, s)|
  {
    hide Encode;
    n := 0;
    if |s| > 0 {
      var sov := SizeOfVarint(|s|);
      n := 1 + |s| + sov;
    }
  }

  method SizeOfInt(tag: Byte, v: UInt64) returns (n: nat)
    ensures n == |VarintField(tag, v)|
  {
    hide Encode;
    n := 0;
    if v != 0 {
      var sov := SizeOfVarint(v);
      n := 1 + sov;
    }
  }

  method SizeOfSample(m: SSFSample, tags: seq<Entry>) returns (n: nat)
    requires |EncodeSample(m, tags)| < TWO63
    ensures n == |EncodeSample(m, tags)|
  {
    hide Encode, EntriesField;
    var metric := SizeOfInt(0x08, U64(m.metric));
    var name := SizeOfBytes(0x12, m.name);
    var value := if IsZero(m.value) then 0 else 5;
    var timestamp := SizeOfInt(0x20, U64(m.timestamp));
    var message := SizeOfBytes(0x2a, m.message);
    var status := SizeOfInt(0x30, U64(m.status));
    var sampleRate := if IsZero(m.sampleRate) then 0 else 5;
    var entries := SizeOfEntries(0x42, tags);
    var unit := SizeOfBytes(0x4a, m.unit);
    n := metric + name + value + timestamp + message + status + sampleRate + entries + unit;
  }

  method SizeOfMetrics(ms: seq<SSFSample>, tags: seq<seq<Entry>>) returns (n: nat)
    requires |ms| == |tags| && |EncodeMetrics(ms, tags)| < TWO63
    ensures n == |EncodeMetrics(ms, tags)|
  {
    hide Encode, EncodeSample;
    n := 0;
    for i := 0 to |ms|
      invariant n + |EncodeMetrics(ms[i..], tags[i..])| == |EncodeMetrics(ms, tags)|
    {
      assert ms[i..][0] == ms[i] && ms[i..][1..] == ms[i + 1..];
      assert tags[i..][0] == tags[i] && tags[i..][1..] == tags[i + 1..];
      var l := SizeOfSample(ms[i], tags[i]);
      var sov := SizeOfVarint(l);
      n := n + 1 + l + sov;
    }
  }

  method Size(m: SSFSpan, o: Orders) returns (n: nat)
    requires |o.samples| == |m.metrics| && |EncodeSpan(m, o)| < TWO63
    ensures n == |EncodeSpan(m, o)|
  {
    hide Encode, EntriesField, EncodeMetrics;
    var version := SizeOfInt(0x08, U64(m.version));
    var traceId := SizeOfInt(0x10, U64(m.traceId));
    var id := SizeOfInt(0x18, U64(m.id));
    var parentId := SizeOfInt(0x20, U64(m.parentId));
    var start := SizeOfInt(0x28, U64(m.startTimestamp));
    var end := SizeOfInt(0x30, U64(m.endTimestamp));
    var error := if m.error then 2 else 0;
    var service := SizeOfBytes(0x42, m.service);
    var metrics := SizeOfMetrics(m.metrics, o.samples);
    var entries := SizeOfEntries(0x5a, o.tags);
    var indicator := if m.indicator then 2 else 0;
    var name := SizeOfBytes(0x6a, m.name);
    n := version + traceId + id + parentId + start + end + error + service + metrics + entries + indicator + name;
  }

  // ---- MarshalTo

  /** Writing the next piece: what is written and what is left still make the whole. */
  method PutBytes(buf: array<Byte>, i: nat, s: Bytes) returns (end: nat)
    requires i + |s| <= buf.Length
    modifies buf
    ensures end == i + |s| && buf[..end] == old(buf[..i]) + s
    ensures forall j :: end <= j < buf.Length ==> buf[j] == old(buf[j])
  {
    for k := 0 to |s|
      invariant buf[..i + k] == old(buf[..i]) + s[..k]
      invariant forall j :: i + k <= j < buf.Length ==> buf[j] == old(buf[j])
    {
      buf[i + k] := s[k];
    }
    end := i + |s|;
  }

  method PutTag(buf: array<Byte>, i: nat, tag: Byte) returns (end: nat)
    requires i < buf.Length
    modifies buf
    ensures end == i + 1 && buf[..end] == old(buf[..i]) + [tag]
    ensures forall j :: end <= j < buf.Length ==> buf[j] == old(buf[j])
  {
    buf[i] := tag;
    end := i + 1;
  }

  method PutInt(buf: array<Byte>, i: nat, tag: Byte, v: UInt64) returns (end: nat)
    requires i + |VarintField(tag, v)| <= buf.Length
    modifies buf
    ensures end == i + |VarintField(tag, v)| && buf[..end] == old(buf[..i]) + VarintField(tag, v)
    ensures forall j :: end <= j < buf.Length ==> buf[j] == old(buf[j])
  {
    hide Encode;
    end := i;
    if v != 0 {
      end := PutTag(buf, end, tag);
      end := PutVarint(buf, end, v);
    }
  }

  method PutBool(buf: array<Byte>, i: nat, tag: Byte, b: bool) returns (end: nat)
    requires i + |BoolField(tag, b)| <= buf.Length
    modifies buf
    ensures end == i + |BoolField(tag, b)| && buf[..end] == old(buf[..i]) + BoolField(tag, b)
    ensures forall j :: end <= j < buf.Length ==> buf[j] == old(buf[j])
  {
    end := i;
    if b {
      end := PutTag(buf, end, tag);
      end := PutTag(buf, end, 1);
    }
  }

  method PutFloat(buf: array<Byte>, i: nat, tag: Byte, f: Float32) returns (end: nat)
    requires i + |FloatField(tag, f)| <= buf.Length
    modifies buf
    ensures end == i + |FloatField(tag, f)| && buf[..end] == old(buf[..i]) + FloatField(tag, f)
    ensures forall j :: end <= j < buf.Length ==> buf[j] == old(buf[j])
  {
    hide LittleEndian;
    end := i;
    if !IsZero(f) {
      end := PutTag(buf, end, tag);
      end := PutBytes(buf, end, LittleEndian(f));
    }
  }

  method PutDelimited(buf: array<Byte>, i: nat, tag: Byte, s: Bytes) returns (end: nat)
    requires i + |Delimited(tag, s)| <= buf.Length && |s| < TWO63
    modifies buf
    ensures end == i + |Delimited(tag, s)| && buf[..end] == old(buf[..i]) + Delimited(tag, s)
    ensures forall j :: end <= j < buf.Length ==> buf[j] == old(buf[j])
  {
    hide Encode;
    end := PutTag(buf, i, tag);
    end := PutVarint(buf, end, |s|);
    end := PutBytes(buf, end, s);
  }

  method PutBytesField(buf: array<Byte>, i: nat, tag: Byte, s: Bytes) returns (end: nat)
    requires i + |BytesField(tag, s)| <= buf.Length && |s| < TWO63
    modifies buf
    ensures end == i + |BytesField(tag, s)| && buf[..end] == old(buf[..i]) + BytesField(tag, s)
    ensures forall j :: end <= j < buf.Length ==> buf[j] == old(buf[j])
  {
    hide Delimited;
    end := i;
    if |s| > 0 {
      end := PutDelimited(buf, end, tag, s);
    }
  }

  /** One map entry: its length is computed before its parts are written. */
  method PutEntry(buf: array<Byte>, i: nat, tag: Byte, e: Entry) returns (end: nat)
    requires i + |Delimited(tag, EntryBody(e))| <= buf.Length && |EntryBody(e)| < TWO63
    modifies buf
    ensures end == i + |Delimited(tag, EntryBody(e))| && buf[..end] == old(buf[..i]) + Delimited(tag, EntryBody(e))
    ensures forall j :: end <= j < buf.Length ==> buf[j] == old(buf[j])
  {
    hide Encode;
    var sovKey := SizeOfVarint(|e.0|);
    var sovValue := SizeOfVarint(|e.1|);
    var mapSize := 1 + |e.0| + sovKey + 1 + |e.1| + sovValue;
    assert mapSize == |EntryBody(e)|;
    end := PutTag(buf, i, tag);
    end := PutVarint(buf, end, mapSize);
    ghost var head := buf[..end];
    end := PutDelimited(buf, end, 0x0a, e.0);
    end := PutDelimited(buf, end, 0x12, e.1);
    assert buf[..end] == head + EntryBody(e);
  }

  method PutEntries(buf: array<Byte>, i: nat, tag: Byte, es: seq<Entry>) returns (end: nat)
    requires i + |EntriesField(tag, es)| <= buf.Length && |EntriesField(tag, es)| < TWO63
    modifies buf
    ensures end == i + |EntriesField(tag, es)| && buf[..end] == old(buf[..i]) + EntriesField(tag, es)
    ensures forall j :: end <= j < buf.Length ==> buf[j] == old(buf[j])
  {
    hide Encode, EntryBody;
    ghost var whole := old(buf[..i]) + EntriesField(tag, es);
    end := i;
    assert es[0..] == es;
    for k := 0 to |es|
      invariant i <= end && end + |EntriesField(tag, es[k..])| == i + |EntriesField(tag, es)|
      invariant buf[..end] + EntriesField(tag, es[k..]) == whole
      invariant forall j :: end <= j < buf.Length ==> buf[j] == old(buf[j])
    {
      assert es[k..][0] == es[k] && es[k..][1..] == es[k + 1..];
      Advance(buf[..end], Delimited(tag, EntryBody(es[k])), EntriesField(tag, es[k + 1..]), whole);
      end := PutEntry(buf, end, tag, es[k]);
    }
  }

  method MarshalSampleTo(buf: array<Byte>, i: nat, m: SSFSample, tags: seq<Entry>) returns (end: nat)
    requires i + |EncodeSample(m, tags)| <= buf.Length && |EncodeSample(m, tags)| < TWO63
    modifies buf
    ensures end == i + |EncodeSample(m, tags)| && buf[..end] == old(buf[..i]) + EncodeSample(m, tags)
    ensures forall j :: end <= j < buf.Length ==> buf[j] == old(buf[j])
  {
    hide VarintField, FloatField, EntriesField, Delimited;
    ghost var whole := buf[..i] + EncodeSample(m, tags);
    ghost var t9 := BytesField(0x4a, m.unit) + [];
    ghost var t8 := EntriesField(0x42, tags) + t9;
    ghost var t7 := FloatField(0x3d, m.sampleRate) + t8;
    ghost var t6 := VarintField(0x30, U64(m.status)) + t7;
    ghost var t5 := BytesField(0x2a, m.message) + t6;
    ghost var t4 := VarintField(0x20, U64(m.timestamp)) + t5;
    ghost var t3 := FloatField(0x1d, m.value) + t4;
    ghost var t2 := BytesField(0x12, m.name) + t3;
    FieldHolds(0x12, m.name);
    FieldHolds(0x2a, m.message);
    FieldHolds(0x4a, m.unit);
    hide BytesField;
    Advance(buf[..i], VarintField(0x08, U64(m.metric)), t2, whole);
    end := PutInt(buf, i, 0x08, U64(m.metric));
    Advance(buf[..end], BytesField(0x12, m.name), t3, whole);
    end := PutBytesField(buf, end, 0x12, m.name);
    Advance(buf[..end], FloatField(0x1d, m.value), t4, whole);
    end := PutFloat(buf, end, 0x1d, m.value);
    Advance(buf[..end], VarintField(0x20, U64(m.timestamp)), t5, whole);
    end := PutInt(buf, end, 0x20, U64(m.timestamp));
    Advance(buf[..end], BytesField(0x2a, m.message), t6, whole);
    end := PutBytesField(buf, end, 0x2a, m.message);
    Advance(buf[..end], VarintField(0x30, U64(m.status)), t7, whole);
    end := PutInt(buf, end, 0x30, U64(m.status));
    Advance(buf[..end], FloatField(0x3d, m.sampleRate), t8, whole);
    end := PutFloat(buf, end, 0x3d, m.sampleRate);
    Advance(buf[..end], EntriesField(0x42, tags), t9, whole);
    end := PutEntries(buf, end, 0x42, tags);
    Advance(buf[..end], BytesField(0x4a, m.unit), [], whole);
    end := PutBytesField(buf, end, 0x4a, m.unit);
    assert buf[..end] + [] == buf[..end];
  }

  method PutMetrics(buf: array<Byte>, i: nat, ms: seq<SSFSample>, tags: seq<seq<Entry>>, sizing: seq<seq<Entry>>)
    returns (end: nat)
    requires |ms| == |tags| == |sizing|
    requires forall k :: 0 <= k < |ms| ==> Enumerates(tags[k], ms[k].tags) && Enumerates(sizing[k], ms[k].tags)
    requires i + |EncodeMetrics(ms, tags)| <= buf.Length && |EncodeMetrics(ms, tags)| < TWO63
    modifies buf
    ensures end == i + |EncodeMetrics(ms, tags)| && buf[..end] == old(buf[..i]) + EncodeMetrics(ms, tags)
    ensures forall j :: end <= j < buf.Length ==> buf[j] == old(buf[j])
  {
    hide Encode, EncodeSample, Enumerates;
    ghost var whole := old(buf[..i]) + EncodeMetrics(ms, tags);
    end := i;
    assert ms[0..] == ms && tags[0..] == tags;
    for k := 0 to |ms|
      invariant i <= end && end + |EncodeMetrics(ms[k..], tags[k..])| == i + |EncodeMetrics(ms, tags)|
      invariant buf[..end] + EncodeMetrics(ms[k..], tags[k..]) == whole
      invariant forall j :: end <= j < buf.Length ==> buf[j] == old(buf[j])
    {
      assert ms[k..][0] == ms[k] && ms[k..][1..] == ms[k + 1..];
      assert tags[k..][0] == tags[k] && tags[k..][1..] == tags[k + 1..];
      Advance(buf[..end], Delimited(0x52, EncodeSample(ms[k], tags[k])), EncodeMetrics(ms[k + 1..], tags[k + 1..]),
              whole);
      end := PutMetric(buf, end, ms[k], tags[k], sizing[k]);
    }
  }

  method PutMetric(buf: array<Byte>, i: nat, m: SSFSample, tags: seq<Entry>, sizing: seq<Entry>) returns (end: nat)
    requires Enumerates(tags, m.tags) && Enumerates(sizing, m.tags)
    requires i + |Delimited(0x52, EncodeSample(m, tags))| <= buf.Length && |EncodeSample(m, tags)| < TWO63
    modifies buf
    ensures end == i + |Delimited(0x52, EncodeSample(m, tags))|
    ensures buf[..end] == old(buf[..i]) + Delimited(0x52, EncodeSample(m, tags))
    ensures forall j :: end <= j < buf.Length ==> buf[j] == old(buf[j])
  {
    hide Encode, EncodeSample, Enumerates;
    SampleLength(m, tags, sizing);
    end := PutTag(buf, i, 0x52);
    var size := SizeOfSample(m, sizing);
    end := PutVarint(buf, end, size);
    end := MarshalSampleTo(buf, end, m, tags);
  }

  /** SSFSpan.MarshalTo: fills exactly the encoded length, leaving the rest of the buffer alone. */
  method MarshalTo(buf: array<Byte>, m: SSFSpan, o: Orders, sizing: Orders) returns (end: nat)
    requires OrdersOf(o, m) && OrdersOf(sizing, m)
    requires |EncodeSpan(m, o)| <= buf.Length && |EncodeSpan(m, o)| < TWO63
    modifies buf
    ensures end == |EncodeSpan(m, o)| && buf[..end] == EncodeSpan(m, o)
    ensures forall j :: end <= j < buf.Length ==> buf[j] == old(buf[j])
  {
    hide VarintField, BoolField, EntriesField, EncodeMetrics, Enumerates, Delimited;
    ghost var whole := EncodeSpan(m, o);
    ghost var t12 := BytesField(0x6a, m.name) + [];
    ghost var t11 := BoolField(0x60, m.indicator) + t12;
    ghost var t10 := EntriesField(0x5a, o.tags) + t11;
    ghost var t9 := EncodeMetrics(m.metrics, o.samples) + t10;
    ghost var t8 := BytesField(0x42, m.service) + t9;
    ghost var t7 := BoolField(0x38, m.error) + t8;
    ghost var t6 := VarintField(0x30, U64(m.endTimestamp)) + t7;
    ghost var t5 := VarintField(0x28, U64(m.startTimestamp)) + t6;
    ghost var t4 := VarintField(0x20, U64(m.parentId)) + t5;
    ghost var t3 := VarintField(0x18, U64(m.id)) + t4;
    ghost var t2 := VarintField(0x10, U64(m.traceId)) + t3;
    FieldHolds(0x42, m.service);
    FieldHolds(0x6a, m.name);
    hide BytesField;
    assert buf[..0] + whole == whole;
    Advance(buf[..0], VarintField(0x08, U64(m.version)), t2, whole);
    end := PutInt(buf, 0, 0x08, U64(m.version));
    Advance(buf[..end], VarintField(0x10, U64(m.traceId)), t3, whole);
    end := PutInt(buf, end, 0x10, U64(m.traceId));
    Advance(buf[..end], VarintField(0x18, U64(m.id)), t4, whole);
    end := PutInt(buf, end, 0x18, U64(m.id));
    Advance(buf[..end], VarintField(0x20, U64(m.parentId)), t5, whole);
    end := PutInt(buf, end, 0x20, U64(m.parentId));
    Advance(buf[..end], VarintField(0x28, U64(m.startTimestamp)), t6, whole);
    end := PutInt(buf, end, 0x28, U64(m.startTimestamp));
    Advance(buf[..end], VarintField(0x30, U64(m.endTimestamp)), t7, whole);
    end := PutInt(buf, end, 0x30, U64(m.endTimestamp));
    Advance(buf[..end], BoolField(0x38, m.error), t8, whole);
    end := PutBool(buf, end, 0x38, m.error);
    Advance(buf[..end], BytesField(0x42, m.service), t9, whole);
    end := PutBytesField(buf, end, 0x42, m.service);
    Advance(buf[..end], EncodeMetrics(m.metrics, o.samples), t10, whole);
    end := PutMetrics(buf, end, m.metrics, o.samples, sizing.samples);
    Advance(buf[..end], EntriesField(0x5a, o.tags), t11, whole);
    end := PutEntries(buf, end, 0x5a, o.tags);
    Advance(buf[..end], BoolField(0x60, m.indicator), t12, whole);
    end := PutBool(buf, end, 0x60, m.indicator);
    Advance(buf[..end], BytesField(0x6a, m.name), [], whole);
    end := PutBytesField(buf, end, 0x6a, m.name);
    assert buf[..end] + [] == buf[..end];
  }

  /** SSFSpan.Marshal: the buffer it sizes is filled to the last byte. */
  method Marshal(m: SSFSpan, o: Orders, sizing: Orders) returns (data: Bytes)
    requires OrdersOf(o, m) && OrdersOf(sizing, m) && |EncodeSpan(m, o)| < TWO63
    ensures data == EncodeSpan(m, o)
    ensures Unmarshal(data) == Parsed(CanonicalSpan(m), [])
  {
    hide EncodeSpan, Enumerates, DecodeSpan;
    SpanLength(m, o, sizing);
    var size := Size(m, sizing);
    var buf := new Byte[size](i => 0);
    var n := MarshalTo(buf, m, o, sizing);
    data := buf[..n];
    SpanRoundTrip(m, o);
  }

  // ---- Unmarshal

  method ReadBytes(bs: Bytes, start: nat) returns (r: Parse<Bytes>)
    requires start <= |bs|
    ensures r == TakeBytes(bs[start..])
  {
    hide Decode;
    var v := ReadVarint(bs, start);
    if v.Failed? {
      return Failed(v.error);
    }
    DecodeConsumesHere(bs[start..]);
    var len, index := ToInt64(v.value), |bs| - |v.rest|;
    if len < 0 {
      return Failed(InvalidLength);
    }
    var postIndex := index + len;
    if postIndex > |bs| {
      return Failed(UnexpectedEof);
    }
    assert v.rest == bs[index..];
    assert v.rest[..len] == bs[index..postIndex] && v.rest[len..] == bs[postIndex..];
    r := Parsed(bs[index..postIndex], bs[postIndex..]);
  }

  lemma DecodeConsumesHere(bs: Bytes)
    ensures Decode(bs).Parsed? ==> |Decode(bs).rest| < |bs| && Decode(bs).rest == bs[|bs| - |Decode(bs).rest|..]
  {
    DecodeConsumes(bs, 0, 0);
  }

  // ---- Stepping over unknown fields

  function Shifted(r: Parse<nat>, index: nat): Parse<nat> {
    if r.Failed? then r else Parsed(index + r.value, [])
  }

  /** skipSample: the length of one field of any wire type. */
  method SkipSample(bs: Bytes) returns (r: Parse<nat>)
    ensures r == Skip(bs)
    decreases |bs|, 1
  {
    hide Decode, SkipGroup;
    assert bs[0..] == bs;
    var wire := ReadVarint(bs, 0);
    if wire.Failed? {
      return Failed(wire.error);
    }
    DecodeConsumesHere(bs);
    var index := |bs| - |wire.rest|;
    assert wire.rest == bs[index..];
    match wire.value % 8
    case 0 =>
      var v := ReadVarint(bs, index);
      if v.Parsed? {
        DecodeConsumesHere(bs[index..]);
      }
      r := if v.Failed? then Failed(v.error) else Parsed(|bs| - |v.rest|, []);
    case 1 =>
      r := Parsed(index + 8, []);
    case 2 =>
      var v := ReadVarint(bs, index);
      if v.Failed? {
        return Failed(v.error);
      }
      DecodeConsumesHere(bs[index..]);
      var length := ToInt64(v.value);
      r := if length < 0 then Failed(InvalidLength) else Parsed(|bs| - |v.rest| + length, []);
    case 3 =>
      r := SkipToEnd(bs, index);
    case 4 =>
      r := Parsed(index, []);
    case 5 =>
      r := Parsed(index + 4, []);
    case _ =>
      r := Failed(IllegalWireType);
  }

  /** The loop over the fields inside a group. */
  method SkipToEnd(bs: Bytes, start: nat) returns (r: Parse<nat>)
    requires 0 < start <= |bs|
    ensures r == Shifted(SkipGroup(bs[start..]), start)
    decreases |bs|, 0
  {
    hide Decode, Skip;
    var index := start;
    while true
      invariant start <= index <= |bs|
      invariant Shifted(SkipGroup(bs[index..]), index) == Shifted(SkipGroup(bs[start..]), start)
      decreases |bs| - index
    {
      var inner := ReadVarint(bs, index);
      if inner.Failed? {
        return Failed(inner.error);
      }
      DecodeConsumesHere(bs[index..]);
      if inner.value % 8 == 4 {
        return Parsed(|bs| - |inner.rest|, []);
      }
      var next := SkipSample(bs[index..]);
      if next.Failed? {
        return Failed(next.error);
      }
      if index + next.value >= |bs| {
        return Failed(UnexpectedEof);
      }
      assert bs[index..][next.value..] == bs[index + next.value..];
      index := index + next.value;
    }
  }

  method SkipUnknown(bs: Bytes, start: nat, postIndex: nat) returns (r: Parse<()>)
    requires start <= postIndex <= |bs|
    ensures r == SkipField(bs[start..], postIndex - start)
  {
    hide Skip;
    var skippy := SkipSample(bs[start..]);
    if skippy.Failed? {
      return Failed(skippy.error);
    }
    if start + skippy.value > postIndex {
      return Failed(UnexpectedEof);
    }
    assert bs[start..][skippy.value..] == bs[start + skippy.value..];
    r := Parsed((), bs[start + skippy.value..]);
  }

  // ---- Map entries

  /** The loop over the fields of a map entry, up to its end. */
  method ReadEntryFields(bs: Bytes, start: nat, postIndex: nat) returns (r: Parse<Entry>)
    requires start <= postIndex <= |bs|
    ensures r == EntryOf(bs[start..], postIndex - start, ([], []))
  {
    hide Decode, TakeBytes, SkipField, FieldNumber;
    var index: nat, e: Entry := start, ([], []);
    while index < postIndex
      invariant start <= index <= |bs|
      invariant EntryOf(bs[index..], postIndex - index, e) == EntryOf(bs[start..], postIndex - start, ([], []))
      decreases |bs| - index
    {
      var after;
      after, e := ReadEntryField(bs, index, postIndex, e);
      if after.Failed? {
        return Failed(after.error);
      }
      index := |bs| - |after.rest|;
    }
    r := Parsed(e, bs[index..]);
  }

  /** One field of an entry: its key, its value, or one to step over. */
  method ReadEntryField(bs: Bytes, index: nat, postIndex: nat, e: Entry) returns (after: Parse<()>, e': Entry)
    requires index < postIndex <= |bs|
    ensures after.Failed? ==> EntryOf(bs[index..], postIndex - index, e) == Failed(after.error)
    ensures after.Parsed? ==> |after.rest| < |bs| - index && after.rest == bs[|bs| - |after.rest|..]
    ensures after.Parsed? ==>
              EntryOf(bs[index..], postIndex - index, e)
              == EntryOf(after.rest, postIndex - (|bs| - |after.rest|), e')
  {
    hide Decode, TakeBytes, SkipField, FieldNumber;
    e' := e;
    var wire := ReadVarint(bs, index);
    if wire.Failed? {
      return Failed(wire.error), e;
    }
    DecodeConsumesHere(bs[index..]);
    var here := |bs| - |wire.rest|;
    assert wire.rest == bs[here..];
    if FieldNumber(wire.value) == 1 || FieldNumber(wire.value) == 2 {
      TakeBytesConsumes(bs[here..]);
      var s := ReadBytes(bs, here);
      if s.Failed? {
        return Failed(s.error), e;
      }
      after := Parsed((), s.rest);
      e' := if FieldNumber(wire.value) == 1 then (s.value, e.1) else (e.0, s.value);
    } else {
      after := SkipUnknown(bs, index, postIndex);
    }
  }

  method ReadEntry(bs: Bytes, start: nat) returns (r: Parse<Entry>)
    requires start <= |bs|
    ensures r == TakeEntry(bs[start..])
  {
    hide Decode, EntryOf;
    var v := ReadVarint(bs, start);
    if v.Failed? {
      return Failed(v.error);
    }
    DecodeConsumesHere(bs[start..]);
    var len, index := ToInt64(v.value), |bs| - |v.rest|;
    if len < 0 {
      return Failed(InvalidLength);
    }
    var postIndex := index + len;
    if postIndex > |bs| {
      return Failed(UnexpectedEof);
    }
    assert v.rest == bs[index..];
    var e := ReadEntryFields(bs, index, postIndex);
    if e.Failed? {
      return Failed(e.error);
    }
    assert v.rest[len..] == bs[postIndex..];
    r := Parsed(e.value, bs[postIndex..]);
  }

  /** SSFSample.Unmarshal: fields are set as the index moves over the input. */
  method UnmarshalSample(bs: Bytes) returns (r: Parse<SSFSample>)
    ensures r == DecodeSample(bs, NO_SAMPLE)
  {
    hide SampleField;
    var index, m := 0, NO_SAMPLE;
    while index < |bs|
      invariant 0 <= index <= |bs|
      invariant DecodeSample(bs[index..], m) == DecodeSample(bs, NO_SAMPLE)
    {
      SampleFieldConsumes(bs[index..], m);
      var field := ReadSampleField(bs, index, m);
      if field.Failed? {
        return Failed(field.error);
      }
      m := field.value;
      index := |bs| - |field.rest|;
    }
    r := Parsed(m, []);
  }

  method ReadSampleField(bs: Bytes, start: nat, m: SSFSample) returns (r: Parse<SSFSample>)
    requires start <= |bs|
    ensures r == SampleField(bs[start..], m)
  {
    hide Decode, SkipField, TakeEntry, TakeBytes, TakeFixed32, FieldNumber;
    hide SampleWire, SetSampleBytes, SetSampleFloat, SetSampleVarint;
    var key := ReadVarint(bs, start);
    if key.Failed? {
      return Failed(key.error);
    }
    DecodeConsumesHere(bs[start..]);
    var n, wireType, index := FieldNumber(key.value), key.value % 8, |bs| - |key.rest|;
    assert key.rest == bs[index..];
    if wireType == 4 {
      return Failed(EndGroup);
    }
    if n <= 0 {
      return Failed(IllegalTag);
    }
    if SampleWire(n) == -1 {
      var skipped := SkipUnknown(bs, start, |bs|);
      return if skipped.Failed? then Failed(skipped.error) else Parsed(m, skipped.rest);
    }
    if wireType != SampleWire(n) {
      return Failed(WrongWireType);
    }
    if wireType == 0 {
      var v := ReadVarint(bs, index);
      return if v.Failed? then Failed(v.error) else Parsed(SetSampleVarint(m, n, v.value), v.rest);
    }
    if wireType == 5 {
      var f := TakeFixed32(bs[index..]);
      return if f.Failed? then Failed(f.error) else Parsed(SetSampleFloat(m, n, f.value), f.rest);
    }
    if n == 8 {
      var e := ReadEntry(bs, index);
      return if e.Failed? then Failed(e.error) else Parsed(m.(tags := m.tags[e.value.0 := e.value.1]), e.rest);
    }
    var s := ReadBytes(bs, index);
    return if s.Failed? then Failed(s.error) else Parsed(SetSampleBytes(m, n, s.value), s.rest);
  }

  /** SSFSpan.Unmarshal. */
  method UnmarshalSpan(bs: Bytes) returns (r: Parse<SSFSpan>)
    ensures r == Unmarshal(bs)
  {
    hide SpanField;
    var index, m := 0, NO_SPAN;
    while index < |bs|
      invariant 0 <= index <= |bs|
      invariant DecodeSpan(bs[index..], m) == DecodeSpan(bs, NO_SPAN)
    {
      SpanFieldConsumes(bs[index..], m);
      var field := ReadSpanField(bs, index, m);
      if field.Failed? {
        return Failed(field.error);
      }
      m := field.value;
      index := |bs| - |field.rest|;
    }
    r := Parsed(m, []);
  }

  method ReadSpanField(bs: Bytes, start: nat, m: SSFSpan) returns (r: Parse<SSFSpan>)
    requires start <= |bs|
    ensures r == SpanField(bs[start..], m)
  {
    hide Decode, SkipField, TakeEntry, TakeBytes, FieldNumber, SpanWire, SetSpanVarint, DecodeSample;
    var key := ReadVarint(bs, start);
    if key.Failed? {
      return Failed(key.error);
    }
    DecodeConsumesHere(bs[start..]);
    var n, wireType, index := FieldNumber(key.value), key.value % 8, |bs| - |key.rest|;
    assert key.rest == bs[index..];
    if wireType == 4 {
      return Failed(EndGroup);
    }
    if n <= 0 {
      return Failed(IllegalTag);
    }
    if SpanWire(n) == -1 {
      var skipped := SkipUnknown(bs, start, |bs|);
      return if skipped.Failed? then Failed(skipped.error) else Parsed(m, skipped.rest);
    }
    if wireType != SpanWire(n) {
      return Failed(WrongWireType);
    }
    if wireType == 0 {
      var v := ReadVarint(bs, index);
      return if v.Failed? then Failed(v.error) else Parsed(SetSpanVarint(m, n, v.value), v.rest);
    }
    if n == 11 {
      var e := ReadEntry(bs, index);
      return if e.Failed? then Failed(e.error) else Parsed(m.(tags := m.tags[e.value.0 := e.value.1]), e.rest);
    }
    var s := ReadBytes(bs, index);
    if s.Failed? {
      return Failed(s.error);
    }
    if n == 8 {
      return Parsed(m.(service := s.value), s.rest);
    }
    if n == 13 {
      return Parsed(m.(name := s.value), s.rest);
    }
    var sample := UnmarshalSample(s.value);
    return if sample.Failed? then Failed(sample.error) else Parsed(m.(metrics := m.metrics + [sample.value]), s.rest);
  }
}
