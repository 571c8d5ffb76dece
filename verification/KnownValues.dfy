/** Values that the formats fix: what the encoders and the hash give on inputs worked out by hand. */
module KnownValues {
  import opened Varint
  import opened Fields
  import opened Ssf
  import opened Framing
  import opened Text
  import opened MergingDigest

  /** FNV-1a of 32 bits, on its published examples: the xor comes before the multiplication. */
  lemma {:induction false} HashKnown()
    ensures AddString(FNV_INIT, "") == 0x811c_9dc5
    ensures AddString(FNV_INIT, "a") == 0xe40c_292c
  {
    hide AddByte;
    assert "a"[1..] == "";
    assert AddByte(FNV_INIT, 'a') == 0xe40c_292c by {
      ByteKnown();
    }
  }

  lemma ByteKnown()
    ensures AddByte(FNV_INIT, 'a') == 0xe40c_292c
  {
    assert 'a' as int % 256 == 0x61;
  }

  /** The buffer of the digests that samplers use holds 42 values; the least and the greatest sizes. */
  lemma {:induction false} BufferKnown()
    ensures TempBuffer(100.0) == 42 && TempBuffer(1.0) == 14 && TempBuffer(925.0) == 178 && TempBuffer(1000.0) == 178
  {
    assert 0.0002 * 100.0 * 100.0 == 2.0 && 0.0002 * 925.0 * 925.0 == 171.125;
  }

  /** A sample with every field but the tags. */
  const SAMPLE := SSFSample(2, [120], 0x3f80_0000, 7, [109], 3, 0x3f00_0000, map[], [117])

  const SPAN := SSFSpan(1, 2, 3, 4, 5, 300, true, [97], [SAMPLE], map[[107] := [118]], true, [110])

  const SAMPLE_BYTES: Bytes :=
    [0x08, 2, 0x12, 1, 120, 0x1d, 0, 0, 0x80, 0x3f, 0x20, 7, 0x2a, 1, 109, 0x30, 3, 0x3d, 0, 0, 0, 0x3f, 0x4a, 1, 117]

  const SPAN_BYTES: Bytes :=
    [0x08, 1, 0x10, 2, 0x18, 3, 0x20, 4, 0x28, 5, 0x30, 0xac, 2, 0x38, 1, 0x42, 1, 97, 0x52, 25] + SAMPLE_BYTES
    + [0x5a, 6, 0x0a, 1, 107, 0x12, 1, 118, 0x60, 1, 0x6a, 1, 110]

  lemma Short(v: nat)
    ensures v < 128 ==> Encode(v) == [v]
    ensures Encode(300) == [0xac, 2]
  {
    assert Encode(2) == [2];
  }

  lemma FloatsKnown()
    ensures FloatField(0x1d, 0x3f80_0000) == [0x1d, 0, 0, 0x80, 0x3f]
    ensures FloatField(0x3d, 0x3f00_0000) == [0x3d, 0, 0, 0, 0x3f]
  {
    assert LittleEndian(0x3f80_0000) == [0, 0, 0x80, 0x3f] && LittleEndian(0x3f00_0000) == [0, 0, 0, 0x3f];
  }

  lemma SampleFieldsKnown()
    ensures VarintField(0x08, 2) == [0x08, 2] && VarintField(0x20, 7) == [0x20, 7] && VarintField(0x30, 3) == [0x30, 3]
    ensures BytesField(0x12, [120]) == [0x12, 1, 120] && BytesField(0x2a, [109]) == [0x2a, 1, 109]
    ensures BytesField(0x4a, [117]) == [0x4a, 1, 117]
  {
    hide Encode;
    Short(1);
    Short(2);
    Short(3);
    Short(7);
  }

  lemma {:induction false} SampleKnown()
    ensures EncodeSample(SAMPLE, []) == SAMPLE_BYTES
  {
    hide VarintField, BytesField, FloatField;
    SampleFieldsKnown();
    FloatsKnown();
    var a, b := [0x08, 2, 0x12, 1, 120, 0x1d, 0, 0, 0x80, 0x3f], [0x20, 7, 0x2a, 1, 109, 0x30, 3];
    var c := [0x3d, 0, 0, 0, 0x3f, 0x4a, 1, 117];
    assert SAMPLE_BYTES == a + b + c;
  }

  lemma SpanFieldsKnown()
    ensures VarintField(0x08, 1) == [0x08, 1] && VarintField(0x10, 2) == [0x10, 2] && VarintField(0x18, 3) == [0x18, 3]
    ensures VarintField(0x20, 4) == [0x20, 4] && VarintField(0x28, 5) == [0x28, 5]
    ensures VarintField(0x30, 300) == [0x30, 0xac, 2] && BytesField(0x42, [97]) == [0x42, 1, 97]
    ensures BytesField(0x6a, [110]) == [0x6a, 1, 110]
    ensures EntriesField(0x5a, [([107], [118])]) == [0x5a, 6, 0x0a, 1, 107, 0x12, 1, 118]
  {
    hide Encode;
    Short(1);
    Short(2);
    Short(3);
    Short(4);
    Short(5);
    Short(6);
    var entry: Entry := ([107], [118]);
    assert EntryBody(entry) == [0x0a, 1, 107, 0x12, 1, 118];
    assert [entry][1..] == [];
  }

  lemma MetricsKnown()
    ensures EncodeMetrics([SAMPLE], [[]]) == [0x52, 25] + SAMPLE_BYTES
  {
    hide Encode, EncodeSample;
    Short(25);
    SampleKnown();
    assert [SAMPLE][1..] == [];
  }

  /** The field numbers, wire types and byte orders are those of the protobuf definition. */
  lemma {:induction false} SpanKnown()
    ensures EncodeSpan(SPAN, Orders([([107], [118])], [[]])) == SPAN_BYTES
  {
    hide VarintField, BytesField, EntriesField, EncodeMetrics, SAMPLE_BYTES;
    SpanFieldsKnown();
    MetricsKnown();
  }

  function Word(a: int, b: int, c: int, d: int): int {
    a * 0x100_0000 + b * 0x1_0000 + c * 0x100 + d
  }

  /** A frame is the version 0, the length with its highest byte first, and the payload. */
  lemma {:induction false} FrameLayout(payload: Bytes)
    requires |payload| < 0x1_0000_0000
    ensures var f := Frame(payload);
            |f| == 5 + |payload| && f[0] == 0 && Word(f[1], f[2], f[3], f[4]) == |payload| && f[5..] == payload
  {
    hide BigEndian;
    FrameParts(payload, []);
    assert Frame(payload) + [] == Frame(payload);
    var word := BigEndian(|payload|);
    WordKnown(|payload|);
    assert forall i :: 0 <= i < 4 ==> word[i] == Frame(payload)[1..5][i] == Frame(payload)[i + 1];
    assert Frame(payload)[1] == word[0] && Frame(payload)[2] == word[1];
    assert Frame(payload)[3] == word[2] && Frame(payload)[4] == word[3];
  }

  lemma WordKnown(n: nat)
    requires n < 0x1_0000_0000
    ensures var bs := BigEndian(n); Word(bs[0], bs[1], bs[2], bs[3]) == n
  {
    var high := n / 256;
    var higher := high / 256;
    Digit(n);
    Digit(high);
    Digit(higher);
  }

  lemma Digit(n: nat)
    ensures n == n / 256 * 256 + n % 256
  {
  }
}
