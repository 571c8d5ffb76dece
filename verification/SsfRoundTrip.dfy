/** Decoding undoes encoding, whatever order the maps were iterated in. */
module SsfRoundTrip {
  import opened Integers
  import opened Varint
  import opened Fields
  import opened Ssf

  /** What survives an encoding: the zeroes of a float are one. */
  function CanonicalSample(m: SSFSample): SSFSample {
    m.(value := Canonical(m.value), sampleRate := Canonical(m.sampleRate))
  }

  function CanonicalSpan(m: SSFSpan): SSFSpan {
    m.(metrics := seq(|m.metrics|, i requires 0 <= i < |m.metrics| => CanonicalSample(m.metrics[i])))
  }

  function AddEntries(tags: Tags, es: seq<Entry>): Tags
    decreases |es|
  {
    if es == [] then tags else AddEntries(tags[es[0].0 := es[0].1], es[1..])
  }

  lemma {:induction false} AddEntriesAgree(acc: Tags, es: seq<Entry>, tags: Tags)
    requires forall i :: 0 <= i < |es| ==> es[i].0 in tags && tags[es[i].0] == es[i].1
    requires forall k :: k in acc ==> k in tags && tags[k] == acc[k]
    ensures forall k :: k in AddEntries(acc, es) ==> k in tags && tags[k] == AddEntries(acc, es)[k]
    ensures forall k :: k in acc ==> k in AddEntries(acc, es)
    ensures forall i :: 0 <= i < |es| ==> es[i].0 in AddEntries(acc, es)
    decreases |es|
  {
    if es != [] {
      AddEntriesAgree(acc[es[0].0 := es[0].1], es[1..], tags);
      forall i | 0 <= i < |es|
        ensures es[i].0 in AddEntries(acc, es)
      {
        if i > 0 {
          assert es[i] == es[1..][i - 1];
        }
      }
    }
  }

  /** Any iteration order rebuilds the map. */
  lemma EnumerationRebuilds(es: seq<Entry>, tags: Tags)
    requires Enumerates(es, tags)
    ensures AddEntries(map[], es) == tags
  {
    AddEntriesAgree(map[], es, tags);
  }

  // ---- One field at a time: samples

  lemma SampleVarintStep(tag: Byte, v: UInt64, rest: Bytes, m: SSFSample)
    requires tag < 128 && tag % 8 == 0 && SampleWire(tag / 8) == 0
    ensures DecodeSample(VarintField(tag, v) + rest, m)
         == DecodeSample(rest, if v == 0 then m else SetSampleVarint(m, tag / 8, v))
  {
    hide Encode, Decode, FieldNumber, SkipField, TakeBytes, TakeEntry, TakeFixed32, SetSampleVarint;
    if v == 0 {
      assert VarintField(tag, v) + rest == rest;
    } else {
      assert VarintField(tag, v) + rest == [tag] + (Encode(v) + rest);
      KeyRoundTrip(tag, Encode(v) + rest);
      RoundTrip(v, rest);
    }
  }

  lemma SampleFloatStep(tag: Byte, f: Float32, rest: Bytes, m: SSFSample)
    requires tag < 128 && tag % 8 == 5 && SampleWire(tag / 8) == 5
    ensures DecodeSample(FloatField(tag, f) + rest, m)
         == DecodeSample(rest, if IsZero(f) then m else SetSampleFloat(m, tag / 8, f))
  {
    hide Decode, FieldNumber, SkipField, TakeBytes, TakeEntry, TakeFixed32, SetSampleFloat, LittleEndian;
    if IsZero(f) {
      assert FloatField(tag, f) + rest == rest;
    } else {
      assert FloatField(tag, f) + rest == [tag] + (LittleEndian(f) + rest);
      KeyRoundTrip(tag, LittleEndian(f) + rest);
      Fixed32RoundTrip(f, rest);
    }
  }

  lemma SampleBytesStep(tag: Byte, s: Bytes, rest: Bytes, m: SSFSample)
    requires tag < 128 && tag % 8 == 2 && SampleWire(tag / 8) == 2 && tag / 8 != 8 && |s| < TWO63
    ensures DecodeSample(BytesField(tag, s) + rest, m)
         == DecodeSample(rest, if s == [] then m else SetSampleBytes(m, tag / 8, s))
  {
    hide Encode, Decode, FieldNumber, SkipField, TakeBytes, TakeEntry, TakeFixed32, SetSampleBytes;
    if s == [] {
      assert BytesField(tag, s) + rest == rest;
    } else {
      DelimitedRoundTrip(tag, s, rest);
      KeyRoundTrip(tag, Encode(|s|) + (s + rest));
    }
  }

  lemma SampleEntryStep(e: Entry, rest: Bytes, m: SSFSample)
    requires |EntryBody(e)| < TWO63
    ensures DecodeSample(Delimited(0x42, EntryBody(e)) + rest, m) == DecodeSample(rest, m.(tags := m.tags[e.0 := e.1]))
  {
    hide Encode, Decode, FieldNumber, SkipField, TakeBytes, TakeEntry, TakeFixed32, EntryBody;
    var s := EntryBody(e);
    DelimitedRoundTrip(0x42, s, rest);
    KeyRoundTrip(0x42, Encode(|s|) + (s + rest));
    EntryRoundTrip(e, rest);
  }

  lemma {:induction false} SampleEntriesStep(es: seq<Entry>, rest: Bytes, m: SSFSample)
    requires |EntriesField(0x42, es)| < TWO63
    ensures DecodeSample(EntriesField(0x42, es) + rest, m)
         == DecodeSample(rest, m.(tags := AddEntries(m.tags, es)))
  {
    hide DecodeSample, EntryBody, Encode;
    if es == [] {
      assert EntriesField(0x42, es) + rest == rest;
    } else {
      var first, others := Delimited(0x42, EntryBody(es[0])), EntriesField(0x42, es[1..]);
      assert EntriesField(0x42, es) + rest == first + (others + rest);
      SampleEntryStep(es[0], others + rest, m);
      SampleEntriesStep(es[1..], rest, m.(tags := m.tags[es[0].0 := es[0].1]));
    }
  }

  lemma {:induction false} SampleRoundTrip(m: SSFSample, tags: seq<Entry>)
    requires Enumerates(tags, m.tags) && |EncodeSample(m, tags)| < TWO63
    ensures DecodeSample(EncodeSample(m, tags), NO_SAMPLE) == Parsed(CanonicalSample(m), [])
  {
    hide DecodeSample, Enumerates, Encode, EntriesField, LittleEndian, AddEntries, U64, ToInt32, ToInt64;
    var t9 := BytesField(0x4a, m.unit) + [];
    var t8 := EntriesField(0x42, tags) + t9;
    var t7 := FloatField(0x3d, m.sampleRate) + t8;
    var t6 := VarintField(0x30, U64(m.status)) + t7;
    var t5 := BytesField(0x2a, m.message) + t6;
    var t4 := VarintField(0x20, U64(m.timestamp)) + t5;
    var t3 := FloatField(0x1d, m.value) + t4;
    var t2 := BytesField(0x12, m.name) + t3;
    var m1 := NO_SAMPLE.(metric := m.metric);
    var m2 := m1.(name := m.name);
    var m3 := m2.(value := Canonical(m.value));
    var m4 := m3.(timestamp := m.timestamp);
    var m5 := m4.(message := m.message);
    var m6 := m5.(status := m.status);
    var m7 := m6.(sampleRate := Canonical(m.sampleRate));
    var m8 := m7.(tags := m.tags);
    IntRoundTrip(m.metric);
    IntRoundTrip(m.timestamp);
    IntRoundTrip(m.status);
    SampleVarintStep(0x08, U64(m.metric), t2, NO_SAMPLE);
    SampleBytesStep(0x12, m.name, t3, m1);
    SampleFloatStep(0x1d, m.value, t4, m2);
    SampleVarintStep(0x20, U64(m.timestamp), t5, m3);
    SampleBytesStep(0x2a, m.message, t6, m4);
    SampleVarintStep(0x30, U64(m.status), t7, m5);
    SampleFloatStep(0x3d, m.sampleRate, t8, m6);
    SampleEntriesStep(tags, t9, m7);
    EnumerationRebuilds(tags, m.tags);
    SampleBytesStep(0x4a, m.unit, [], m8);
    DecodeSampleDone(CanonicalSample(m));
  }

  lemma DecodeSampleDone(m: SSFSample)
    ensures DecodeSample([], m) == Parsed(m, [])
  {
  }

  // ---- One field at a time: spans

  lemma SpanVarintStep(tag: Byte, v: UInt64, rest: Bytes, m: SSFSpan)
    requires tag < 128 && tag % 8 == 0 && SpanWire(tag / 8) == 0
    ensures DecodeSpan(VarintField(tag, v) + rest, m)
         == DecodeSpan(rest, if v == 0 then m else SetSpanVarint(m, tag / 8, v))
  {
    hide Encode, Decode, FieldNumber, SkipField, TakeBytes, TakeEntry, DecodeSample, SetSpanVarint;
    if v == 0 {
      assert VarintField(tag, v) + rest == rest;
    } else {
      assert VarintField(tag, v) + rest == [tag] + (Encode(v) + rest);
      KeyRoundTrip(tag, Encode(v) + rest);
      RoundTrip(v, rest);
    }
  }

  lemma SpanBoolStep(tag: Byte, b: bool, rest: Bytes, m: SSFSpan)
    requires tag < 128 && tag % 8 == 0 && SpanWire(tag / 8) == 0
    ensures DecodeSpan(BoolField(tag, b) + rest, m) == DecodeSpan(rest, if b then SetSpanVarint(m, tag / 8, 1) else m)
  {
    hide DecodeSpan;
    assert BoolField(tag, b) == VarintField(tag, if b then 1 else 0);
    SpanVarintStep(tag, if b then 1 else 0, rest, m);
  }

  lemma SpanBytesStep(tag: Byte, s: Bytes, rest: Bytes, m: SSFSpan)
    requires (tag == 0x42 || tag == 0x6a) && |s| < TWO63
    ensures DecodeSpan(BytesField(tag, s) + rest, m)
         == DecodeSpan(rest, if s == [] then m else if tag == 0x42 then m.(service := s) else m.(name := s))
  {
    hide Encode, Decode, FieldNumber, SkipField, TakeBytes, TakeEntry, DecodeSample;
    if s == [] {
      assert BytesField(tag, s) + rest == rest;
    } else {
      DelimitedRoundTrip(tag, s, rest);
      KeyRoundTrip(tag, Encode(|s|) + (s + rest));
    }
  }

  lemma SpanEntryStep(e: Entry, rest: Bytes, m: SSFSpan)
    requires |EntryBody(e)| < TWO63
    ensures DecodeSpan(Delimited(0x5a, EntryBody(e)) + rest, m) == DecodeSpan(rest, m.(tags := m.tags[e.0 := e.1]))
  {
    hide Encode, Decode, FieldNumber, SkipField, TakeBytes, TakeEntry, DecodeSample, EntryBody;
    var s := EntryBody(e);
    DelimitedRoundTrip(0x5a, s, rest);
    KeyRoundTrip(0x5a, Encode(|s|) + (s + rest));
    EntryRoundTrip(e, rest);
  }

  lemma {:induction false} SpanEntriesStep(es: seq<Entry>, rest: Bytes, m: SSFSpan)
    requires |EntriesField(0x5a, es)| < TWO63
    ensures DecodeSpan(EntriesField(0x5a, es) + rest, m) == DecodeSpan(rest, m.(tags := AddEntries(m.tags, es)))
  {
    hide DecodeSpan, EntryBody, Encode;
    if es == [] {
      assert EntriesField(0x5a, es) + rest == rest;
    } else {
      var first, others := Delimited(0x5a, EntryBody(es[0])), EntriesField(0x5a, es[1..]);
      assert EntriesField(0x5a, es) + rest == first + (others + rest);
      SpanEntryStep(es[0], others + rest, m);
      SpanEntriesStep(es[1..], rest, m.(tags := m.tags[es[0].0 := es[0].1]));
    }
  }

  lemma SpanMetricStep(sample: SSFSample, tags: seq<Entry>, rest: Bytes, m: SSFSpan)
    requires Enumerates(tags, sample.tags) && |EncodeSample(sample, tags)| < TWO63
    ensures DecodeSpan(Delimited(0x52, EncodeSample(sample, tags)) + rest, m)
         == DecodeSpan(rest, m.(metrics := m.metrics + [CanonicalSample(sample)]))
  {
    hide Encode, Decode, FieldNumber, SkipField, TakeBytes, TakeEntry, DecodeSample, EncodeSample, Enumerates;
    var s := EncodeSample(sample, tags);
    DelimitedRoundTrip(0x52, s, rest);
    KeyRoundTrip(0x52, Encode(|s|) + (s + rest));
    SampleRoundTrip(sample, tags);
  }

  lemma {:induction false} SpanMetricsStep(ms: seq<SSFSample>, tags: seq<seq<Entry>>, rest: Bytes, m: SSFSpan)
    requires |ms| == |tags| && |EncodeMetrics(ms, tags)| < TWO63
    requires forall i :: 0 <= i < |ms| ==> Enumerates(tags[i], ms[i].tags)
    ensures DecodeSpan(EncodeMetrics(ms, tags) + rest, m)
         == DecodeSpan(rest, m.(metrics := m.metrics + CanonicalSpan(NO_SPAN.(metrics := ms)).metrics))
    decreases |ms|
  {
    hide DecodeSpan, EncodeSample, Encode, Enumerates, CanonicalSample;
    var added := CanonicalSpan(NO_SPAN.(metrics := ms)).metrics;
    if ms == [] {
      assert EncodeMetrics(ms, tags) + rest == rest;
      assert m.metrics + added == m.metrics;
    } else {
      var first, others := Delimited(0x52, EncodeSample(ms[0], tags[0])), EncodeMetrics(ms[1..], tags[1..]);
      var m' := m.(metrics := m.metrics + [CanonicalSample(ms[0])]);
      assert EncodeMetrics(ms, tags) + rest == first + (others + rest);
      SpanMetricStep(ms[0], tags[0], others + rest, m);
      SpanMetricsStep(ms[1..], tags[1..], rest, m');
      assert m'.metrics + CanonicalSpan(NO_SPAN.(metrics := ms[1..])).metrics == m.metrics + added;
    }
  }

  /** Marshalled spans unmarshal to themselves, with one zero per float. */
  lemma {:induction false} SpanRoundTrip(m: SSFSpan, o: Orders)
    requires OrdersOf(o, m) && |EncodeSpan(m, o)| < TWO63
    ensures Unmarshal(EncodeSpan(m, o)) == Parsed(CanonicalSpan(m), [])
  {
    hide DecodeSpan, Enumerates, Encode, EncodeMetrics, EntriesField, AddEntries, U64, ToInt32, ToInt64, VarintField,
         BoolField, BytesField;
    var t12 := BytesField(0x6a, m.name) + [];
    var t11 := BoolField(0x60, m.indicator) + t12;
    var t10 := EntriesField(0x5a, o.tags) + t11;
    var t9 := EncodeMetrics(m.metrics, o.samples) + t10;
    var t8 := BytesField(0x42, m.service) + t9;
    var t7 := BoolField(0x38, m.error) + t8;
    var t6 := VarintField(0x30, U64(m.endTimestamp)) + t7;
    var t5 := VarintField(0x28, U64(m.startTimestamp)) + t6;
    var t4 := VarintField(0x20, U64(m.parentId)) + t5;
    var t3 := VarintField(0x18, U64(m.id)) + t4;
    var t2 := VarintField(0x10, U64(m.traceId)) + t3;
    var m1 := NO_SPAN.(version := m.version);
    var m2 := m1.(traceId := m.traceId);
    var m3 := m2.(id := m.id);
    var m4 := m3.(parentId := m.parentId);
    var m5 := m4.(startTimestamp := m.startTimestamp);
    var m6 := m5.(endTimestamp := m.endTimestamp);
    var m7 := m6.(error := m.error);
    var m8 := m7.(service := m.service);
    var m9 := m8.(metrics := CanonicalSpan(m).metrics);
    var m10 := m9.(tags := m.tags);
    var m11 := m10.(indicator := m.indicator);
    IntRoundTrip(m.version);
    IntRoundTrip(m.traceId);
    IntRoundTrip(m.id);
    IntRoundTrip(m.parentId);
    IntRoundTrip(m.startTimestamp);
    IntRoundTrip(m.endTimestamp);
    SpanVarintStep(0x08, U64(m.version), t2, NO_SPAN);
    SpanVarintStep(0x10, U64(m.traceId), t3, m1);
    SpanVarintStep(0x18, U64(m.id), t4, m2);
    SpanVarintStep(0x20, U64(m.parentId), t5, m3);
    SpanVarintStep(0x28, U64(m.startTimestamp), t6, m4);
    SpanVarintStep(0x30, U64(m.endTimestamp), t7, m5);
    SpanBoolStep(0x38, m.error, t8, m6);
    FieldHolds(0x42, m.service);
    SpanBytesStep(0x42, m.service, t9, m7);
    SpanMetricsStep(m.metrics, o.samples, t10, m8);
    assert m8.metrics + CanonicalSpan(NO_SPAN.(metrics := m.metrics)).metrics == m9.metrics;
    SpanEntriesStep(o.tags, t11, m9);
    EnumerationRebuilds(o.tags, m.tags);
    SpanBoolStep(0x60, m.indicator, t12, m10);
    FieldHolds(0x6a, m.name);
    SpanBytesStep(0x6a, m.name, [], m11);
    DecodeSpanDone(CanonicalSpan(m));
  }

  lemma FieldHolds(tag: Byte, s: Bytes)
    ensures |s| <= |BytesField(tag, s)|
  {
  }

  lemma DecodeSpanDone(m: SSFSpan)
    ensures DecodeSpan([], m) == Parsed(m, [])
  {
  }
}
