/** Base-128 varints and the fixed-width integers of the SSF wire format. */
module Varint {
  import opened Integers

  type Byte = x: int | 0 <= x < 256

  /** Go strings and byte slices. */
  type Bytes = seq<Byte>

  datatype WireError =
    | UnexpectedEof | IntOverflow | InvalidLength
    | WrongWireType | EndGroup | IllegalTag | IllegalWireType

  /** A value read off the front of some bytes, and the bytes after it. */
  datatype Parse<+T> = Parsed(value: T, rest: Bytes) | Failed(error: WireError)

  /** The conversion uint64(x): negative numbers are sign-extended. */
  function U64(x: Int64): UInt64 {
    if x >= 0 then x else x + TWO64
  }

  function ToInt64(v: UInt64): Int64 {
    if v < 0x8000_0000_0000_0000 then v else v - TWO64
  }

  /** Accumulating into an int32 keeps the low 32 bits. */
  function ToInt32(v: UInt64): Int32 {
    var low := v % TWO32;
    if low < 0x8000_0000 then low else low - TWO32
  }

  lemma {:induction false} IntRoundTrip(x: Int64)
    ensures ToInt64(U64(x)) == x
    ensures U64(x) == 0 <==> x == 0
    ensures -0x8000_0000 <= x < 0x8000_0000 ==> ToInt32(U64(x)) == x
  {
  }

  function Pow2(n: nat): nat {
    if n == 0 then 1 else 2 * Pow2(n - 1)
  }

  lemma Pow2Step(n: nat)
    ensures Pow2(0) == 1
    ensures Pow2(n + 1) == 2 * Pow2(n)
  {
  }

  lemma Pow2Add7(n: nat)
    ensures Pow2(n + 7) == 128 * Pow2(n)
  {
    assert Pow2(n + 7) == 2 * Pow2(n + 6) == 4 * Pow2(n + 5) == 8 * Pow2(n + 4)
        == 16 * Pow2(n + 3) == 32 * Pow2(n + 2) == 64 * Pow2(n + 1) == 128 * Pow2(n);
  }

  // ---- Encoding

  function Encode(v: nat): Bytes {
    if v < 128 then [v] else [v % 128 + 128] + Encode(v / 128)
  }

  /** The number of bytes a varint takes. */
  function Sov(v: nat): nat {
    if v < 128 then 1 else 1 + Sov(v / 128)
  }

  lemma {:induction false} EncodedLength(v: nat)
    ensures |Encode(v)| == Sov(v) >= 1
  {
    if v >= 128 {
      EncodedLength(v / 128);
    }
  }

  /** sovSample. */
  method SizeOfVarint(x: UInt64) returns (n: nat)
    ensures n == |Encode(x)|
  {
    EncodedLength(x);
    n := 0;
    var rest := x;
    while true
      invariant n + Sov(rest) == Sov(x) && 0 <= rest
      decreases rest
    {
      n := n + 1;
      if rest / 128 == 0 {
        break;
      }
      rest := rest / 128;
    }
  }

  /** encodeVarintSample: writes through a moving offset. */
  method PutVarint(buf: array<Byte>, offset: nat, v: UInt64) returns (end: nat)
    requires offset + |Encode(v)| <= buf.Length
    modifies buf
    ensures end == offset + |Encode(v)|
    ensures buf[..end] == old(buf[..offset]) + Encode(v)
    ensures forall j :: end <= j < buf.Length ==> buf[j] == old(buf[j])
  {
    end := offset;
    var rest: nat := v;
    while rest >= 128
      invariant offset <= end && end + |Encode(rest)| == offset + |Encode(v)|
      invariant buf[..end] + Encode(rest) == old(buf[..offset]) + Encode(v)
      invariant forall j :: end <= j < buf.Length ==> buf[j] == old(buf[j])
    {
      ghost var before := buf[..end];
      buf[end] := rest % 128 + 128;
      assert buf[..end + 1] == before + [rest % 128 + 128];
      assert before + Encode(rest) == (before + [rest % 128 + 128]) + Encode(rest / 128);
      rest := rest / 128;
      end := end + 1;
    }
    ghost var before := buf[..end];
    buf[end] := rest;
    end := end + 1;
    assert buf[..end] == before + [rest];
  }

  // ---- Decoding

  /** The decoding loop: seven bits at a time, low bits first, in 64-bit arithmetic. */
  function DecodeFrom(bs: Bytes, shift: nat, acc: nat): Parse<UInt64>
    decreases |bs|
  {
    if shift >= 64 then Failed(IntOverflow)
    else if bs == [] then Failed(UnexpectedEof)
    else
      var acc' := acc + bs[0] % 128 * Pow2(shift);
      if bs[0] < 128 then Parsed(acc' % TWO64, bs[1..]) else DecodeFrom(bs[1..], shift + 7, acc')
  }

  function Decode(bs: Bytes): Parse<UInt64> {
    DecodeFrom(bs, 0, 0)
  }

  lemma {:induction false} DecodeConsumes(bs: Bytes, shift: nat, acc: nat)
    ensures DecodeFrom(bs, shift, acc).Parsed? ==>
              && |DecodeFrom(bs, shift, acc).rest| < |bs|
              && DecodeFrom(bs, shift, acc).rest == bs[|bs| - |DecodeFrom(bs, shift, acc).rest|..]
    decreases |bs|
  {
    if bs != [] {
      DecodeConsumes(bs[1..], shift + 7, acc + bs[0] % 128 * Pow2(shift));
    }
  }

  lemma {:induction false} DecodeOfEncode(v: nat, rest: Bytes, shift: nat, acc: nat)
    requires shift < 64 && v < Pow2(64 - shift)
    ensures DecodeFrom(Encode(v) + rest, shift, acc) == Parsed((acc + v * Pow2(shift)) % TWO64, rest)
    decreases v
  {
    hide Pow2;
    var bs := Encode(v) + rest;
    if v < 128 {
      assert bs[1..] == rest;
    } else {
      var acc' := acc + v % 128 * Pow2(shift);
      assert bs[0] == v % 128 + 128 && bs[1..] == Encode(v / 128) + rest;
      assert bs[0] % 128 == v % 128;
      assert shift + 7 < 64 by {
        if shift + 7 >= 64 {
          Pow2Small(64 - shift);
          assert false;
        }
      }
      Pow2Add7(64 - shift - 7);
      Pow2Add7(shift);
      DecodeOfEncode(v / 128, rest, shift + 7, acc');
      assert v == v / 128 * 128 + v % 128;
      Regroup(v / 128, v % 128, Pow2(shift));
    }
  }

  lemma Regroup(q: nat, r: nat, p: nat)
    ensures (q * 128 + r) * p == r * p + q * (128 * p)
  {
  }

  lemma Pow2Small(n: nat)
    requires n <= 7
    ensures Pow2(n) <= 128
  {
    Pow2Grows(n, 7);
    Pow2Add7(0);
  }

  lemma {:induction false} Pow2Grows(m: nat, n: nat)
    requires m <= n
    ensures Pow2(m) <= Pow2(n)
  {
    if m < n {
      Pow2Grows(m, n - 1);
    }
  }

  lemma {:induction false} RoundTrip(v: UInt64, rest: Bytes)
    ensures Decode(Encode(v) + rest) == Parsed(v, rest)
  {
    hide Encode, DecodeFrom, Pow2;
    Pow2Is64();
    Pow2Step(0);
    DecodeOfEncode(v, rest, 0, 0);
  }

  lemma Pow2Is64()
    ensures Pow2(64) == TWO64
  {
    hide Pow2;
    Pow2Step(0);
    Pow2Add7(0);
    Pow2Add7(7);
    Pow2Add7(14);
    Pow2Add7(21);
    Pow2Add7(28);
    Pow2Add7(35);
    Pow2Add7(42);
    Pow2Add7(49);
    Pow2Add7(56);
    Pow2Step(63);
  }

  /** Negative numbers always take ten bytes. */
  lemma {:induction false} NegativeTakesTen(x: Int64)
    requires x < 0
    ensures |Encode(U64(x))| == 10
  {
    hide Sov;
    var v0 := U64(x);
    EncodedLength(v0);
    var v3, v6, v9 := v0 / 0x20_0000, v0 / 0x400_0000_0000, v0 / 0x8000_0000_0000_0000;
    SovDrop3(v0);
    SovDrop3(v3);
    SovDrop3(v6);
    SovSmall(v9);
  }

  lemma SovSmall(v: nat)
    requires v < 128
    ensures Sov(v) == 1
  {
  }

  lemma SovDrop3(v: nat)
    requires v >= 0x20_0000
    ensures Sov(v) == 3 + Sov(v / 0x20_0000)
  {
    assert Sov(v) == 1 + Sov(v / 128) == 2 + Sov(v / 128 / 128) == 3 + Sov(v / 128 / 128 / 128);
    assert v / 128 / 128 / 128 == v / 0x20_0000;
  }

  /** The varint loops of the decoders: an index moving over the input. */
  method ReadVarint(bs: Bytes, start: nat) returns (r: Parse<UInt64>)
    requires start <= |bs|
    ensures r == Decode(bs[start..])
  {
    var index: nat, shift: nat, acc: nat := start, 0, 0;
    while true
      invariant start <= index <= |bs|
      invariant DecodeFrom(bs[index..], shift, acc) == Decode(bs[start..])
      decreases |bs| - index
    {
      if shift >= 64 {
        return Failed(IntOverflow);
      }
      if index >= |bs| {
        return Failed(UnexpectedEof);
      }
      var b := bs[index];
      assert bs[index..][1..] == bs[index + 1..];
      index := index + 1;
      acc := acc + b % 128 * Pow2(shift);
      if b < 128 {
        return Parsed(acc % TWO64, bs[index..]);
      }
      shift := shift + 7;
    }
  }
}
