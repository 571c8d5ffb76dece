/** Joining and splitting of byte strings, and the FNV-1a hash over them. */
module Text {

  function Join(parts: seq<string>, sep: string): string {
    if parts == [] then ""
    else if |parts| == 1 then parts[0]
    else parts[0] + sep + Join(parts[1..], sep)
  }

  const FNV_INIT: bv32 := 0x811c_9dc5
  const FNV_PRIME: bv32 := 0x0100_0193

  function AddByte(h: bv32, c: char): bv32 {
    (h ^ ((c as int % 256) as bv32)) * FNV_PRIME
  }

  /** Folds a string into a running hash, byte by byte. */
  function AddString(h: bv32, s: string): bv32
    decreases |s|
  {
    if s == "" then h else AddString(AddByte(h, s[0]), s[1..])
  }

  /** Hashing piece by piece is hashing the whole. */
  lemma {:induction false} AddConcat(h: bv32, a: string, b: string)
    ensures AddString(AddString(h, a), b) == AddString(h, a + b)
    decreases |a|
  {
    hide AddByte;
    if a == "" {
      assert a + b == b;
    } else {
      AddConcat(AddByte(h, a[0]), a[1..], b);
      assert (a + b)[1..] == a[1..] + b;
    }
  }
}
