/** Line breaks in messages, and tags as key-value pairs. */
module Escapes {
  import opened SplitBytes

  /** Line breaks as backslash and n. */
  function Escape(s: string): string {
    if s == "" then "" else (if s[0] == '\n' then "\\n" else [s[0]]) + Escape(s[1..])
  }

  /** Every backslash and n as a line break, from left to right. */
  function Unescape(s: string): string {
    if s == "" then ""
    else if |s| >= 2 && s[0] == '\\' && s[1] == 'n' then ['\n'] + Unescape(s[2..])
    else [s[0]] + Unescape(s[1..])
  }

  /** Escaping leaves a text alone, and its length, exactly when the text is one line. */
  lemma {:induction false} EscapeLength(s: string)
    ensures |Escape(s)| >= |s|
    ensures |Escape(s)| == |s| <==> '\n' !in s
    ensures '\n' !in s ==> Escape(s) == s
  {
    if s != "" {
      EscapeLength(s[1..]);
      assert s == [s[0]] + s[1..];
    }
  }

  lemma {:induction false} EscapeFree(s: string, c: char)
    requires c !in s && c != '\\' && c != 'n'
    ensures c !in Escape(s)
  {
    if s != "" {
      EscapeFree(s[1..], c);
    }
  }

  /** What was escaped comes back, if the text had no backslash of its own before an n. */
  lemma {:induction false} UnescapeEscape(s: string)
    requires forall i :: 0 <= i < |s| - 1 ==> !(s[i] == '\\' && s[i + 1] == 'n')
    ensures Unescape(Escape(s)) == s
  {
    if s != "" {
      var rest := Escape(s[1..]);
      UnescapeEscape(s[1..]);
      if s[0] == '\n' {
        assert ("\\n" + rest)[2..] == rest;
      } else {
        assert ([s[0]] + rest)[1..] == rest;
        if s[0] == '\\' && rest != "" {
          HeadOfEscape(s[1..]);
        }
      }
      assert s == [s[0]] + s[1..];
    }
  }

  lemma HeadOfEscape(s: string)
    requires s != ""
    ensures Escape(s)[0] == if s[0] == '\n' then '\\' else s[0]
  {
  }

  // ---- Key-value tags

  function KeyOf(tag: string): string {
    match IndexByte(tag, ':')
    case None => tag
    case Some(i) => tag[..i]
  }

  function ValueIn(tag: string): string {
    match IndexByte(tag, ':')
    case None => ""
    case Some(i) => tag[i + 1..]
  }

  /** The last tag of a key wins. */
  function TagMap(tags: seq<string>): map<string, string> {
    if tags == [] then map[]
    else
      var n := |tags| - 1;
      TagMap(tags[..n])[KeyOf(tags[n]) := ValueIn(tags[n])]
  }

  method ParseTagSliceToMap(tags: seq<string>) returns (m: map<string, string>)
    ensures m == TagMap(tags)
  {
    m := map[];
    for i := 0 to |tags|
      invariant m == TagMap(tags[..i])
    {
      assert tags[..i + 1][..i] == tags[..i];
      var colon := IndexByte(tags[i], ':');
      if colon.None? {
        m := m[tags[i] := ""];
      } else {
        m := m[tags[i][..colon.value] := tags[i][colon.value + 1..]];
      }
    }
    assert tags[..|tags|] == tags;
  }

  /** A key maps to the value of its last tag. */
  lemma {:induction false} TagMapMeaning(tags: seq<string>, k: string)
    ensures k in TagMap(tags) <==> exists i :: 0 <= i < |tags| && KeyOf(tags[i]) == k
    ensures forall i ::
              0 <= i < |tags| && KeyOf(tags[i]) == k && (forall j :: i < j < |tags| ==> KeyOf(tags[j]) != k) ==>
              k in TagMap(tags) && TagMap(tags)[k] == ValueIn(tags[i])
  {
    hide KeyOf, ValueIn;
    if tags != [] {
      var n := |tags| - 1;
      TagMapMeaning(tags[..n], k);
      assert forall i :: 0 <= i < n ==> tags[..n][i] == tags[i];
      assert tags[n] == tags[n];
    }
  }
}
