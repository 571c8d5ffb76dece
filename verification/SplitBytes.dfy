/** Iterating over the chunks of a buffer, and the list of chunks it goes through. */
module SplitBytes {
  import opened Options
  import opened Text

  /** The first place of a byte in a buffer. */
  function IndexByte(s: string, c: char): (r: Option<nat>)
    ensures r.Some? ==> r.value < |s| && s[r.value] == c && forall i :: 0 <= i < r.value ==> s[i] != c
    ensures r.None? <==> c !in s
  {
    if s == [] then None
    else if s[0] == c then Some(0)
    else match IndexByte(s[1..], c)
      case None => None
      case Some(i) => Some(i + 1)
  }

  /** What bytes.Split returns. */
  function Split(s: string, delim: char): (r: seq<string>)
    ensures |r| > 0
  {
    match IndexByte(s, delim)
    case None => [s]
    case Some(i) => [s[..i]] + Split(s[i + 1..], delim)
  }

  predicate Free(s: string, c: char) {
    c !in s
  }

  /** The chunks contain no delimiter and join back to the buffer. */
  lemma {:induction false} SplitJoins(s: string, delim: char)
    ensures Join(Split(s, delim), [delim]) == s
    ensures forall i :: 0 <= i < |Split(s, delim)| ==> Free(Split(s, delim)[i], delim)
    decreases |s|
  {
    match IndexByte(s, delim)
    case None =>
    case Some(i) =>
      SplitJoins(s[i + 1..], delim);
      var rest := Split(s[i + 1..], delim);
      assert ([s[..i]] + rest)[1..] == rest;
      assert s == s[..i] + [delim] + s[i + 1..];
  }

  lemma FirstChunk(chunk: string, delim: char, rest: string)
    requires Free(chunk, delim)
    ensures Split(chunk + [delim] + rest, delim) == [chunk] + Split(rest, delim)
  {
    var s := chunk + [delim] + rest;
    var i := IndexByte(s, delim);
    assert s[|chunk|] == delim;
    assert forall k :: 0 <= k < |chunk| ==> s[k] == chunk[k];
    assert i == Some(|chunk|);
    assert s[..|chunk|] == chunk && s[|chunk| + 1..] == rest;
  }

  lemma LoneChunk(chunk: string, delim: char)
    requires Free(chunk, delim)
    ensures Split(chunk, delim) == [chunk]
  {
  }

  /** Any delimiter-free chunks, joined, split into themselves: so Split is the only such list. */
  lemma {:induction false} JoinSplits(chunks: seq<string>, delim: char)
    requires |chunks| > 0 && forall i :: 0 <= i < |chunks| ==> Free(chunks[i], delim)
    ensures Split(Join(chunks, [delim]), delim) == chunks
    decreases |chunks|
  {
    hide Split, Free;
    if |chunks| == 1 {
      LoneChunk(chunks[0], delim);
    } else {
      JoinSplits(chunks[1..], delim);
      FirstChunk(chunks[0], delim, Join(chunks[1..], [delim]));
    }
  }

  /** The iterator. It goes through the chunks of its buffer in order, the empty ones too. */
  class SplitBytes {
    var buf: string
    const delim: char
    var currentChunk: string
    var lastChunk: bool

    /** The chunks still to come. */
    function Rest(): (r: seq<string>)
      reads this
    {
      if lastChunk then [] else Split(buf, delim)
    }

    constructor (buf: string, delim: char)
      ensures Rest() == Split(buf, delim) && this.delim == delim
    {
      this.buf, this.delim, currentChunk, lastChunk := buf, delim, "", false;
    }

    method Next() returns (more: bool)
      modifies this
      ensures more == (old(Rest()) != [])
      ensures more ==> [currentChunk] + Rest() == old(Rest())
      ensures !more ==> Rest() == []
    {
      if lastChunk {
        return false;
      }
      var next := IndexByte(buf, delim);
      if next.None? {
        currentChunk := buf;
        buf := "";
        lastChunk := true;
      } else {
        currentChunk := buf[..next.value];
        buf := buf[next.value + 1..];
      }
      more := true;
    }

    method Chunk() returns (chunk: string)
      ensures chunk == currentChunk
    {
      chunk := currentChunk;
    }
  }

  /** Running the iterator to its end gives what bytes.Split gives. */
  method SplitAll(buf: string, delim: char) returns (chunks: seq<string>)
    ensures chunks == Split(buf, delim)
  {
    hide Split, IndexByte;
    var splitter := new SplitBytes(buf, delim);
    chunks := [];
    var more := splitter.Next();
    while more
      invariant fresh(splitter)
      invariant chunks + (if more then [splitter.currentChunk] + splitter.Rest() else []) == Split(buf, delim)
      decreases |splitter.Rest()|, more
    {
      assert chunks + ([splitter.currentChunk] + splitter.Rest())
          == (chunks + [splitter.currentChunk]) + splitter.Rest();
      chunks := chunks + [splitter.currentChunk];
      more := splitter.Next();
    }
  }
}
