/** The Datadog span sink: a ring that keeps the latest valid spans between flushes. */
module SpanRing {
  import opened Options
  import opened Ssf

  const DEFAULT_SIZE := 16384

  predicate ValidTrace(span: SSFSpan) {
    span.id != 0 && span.traceId != 0 && span.startTimestamp != 0 && span.endTimestamp != 0
  }

  function Filled(slots: seq<Option<SSFSpan>>): seq<SSFSpan> {
    if slots == [] then []
    else
      var n := |slots| - 1;
      Filled(slots[..n]) + (if slots[n].Some? then [slots[n].value] else [])
  }

  /** The last size spans, with empty slots before them while there are fewer. */
  function Window(spans: seq<SSFSpan>, size: nat): (w: seq<Option<SSFSpan>>)
    ensures |w| == size
  {
    seq(size, i requires 0 <= i < size =>
      var j := |spans| - size + i;
      if 0 <= j < |spans| then Some(spans[j]) else None)
  }

  function Latest(spans: seq<SSFSpan>, size: nat): seq<SSFSpan> {
    if |spans| <= size then spans else spans[|spans| - size..]
  }

  lemma {:induction false} WindowFilled(spans: seq<SSFSpan>, size: nat, n: nat)
    requires n <= size
    ensures var start := |spans| - size + n;
            Filled(Window(spans, size)[..n])
            == if start <= 0 then [] else Latest(spans, size)[..|Latest(spans, size)| - (size - n)]
  {
    var w := Window(spans, size);
    if n > 0 {
      WindowFilled(spans, size, n - 1);
      assert w[..n][..n - 1] == w[..n - 1];
    }
  }

  lemma WindowShifts(spans: seq<SSFSpan>, size: nat, span: SSFSpan)
    requires size > 0
    ensures Window(spans + [span], size) == Window(spans, size)[1..] + [Some(span)]
  {
  }

  class DatadogSpanSink {
    var ring: array<Option<SSFSpan>>
    var next: nat
    ghost var ingested: seq<SSFSpan>

    /** From the next slot on, and around, the ring holds the latest spans in order. */
    ghost predicate Valid()
      reads this, ring
    {
      0 < ring.Length && next < ring.Length && ring[next..] + ring[..next] == Window(ingested, ring.Length)
    }

    constructor (bufferSize: nat)
      ensures Valid() && fresh(ring) && ingested == []
      ensures ring.Length == if bufferSize == 0 then DEFAULT_SIZE else bufferSize
    {
      var size := if bufferSize == 0 then DEFAULT_SIZE else bufferSize;
      ring := new Option<SSFSpan>[size](i => None);
      next := 0;
      ingested := [];
      new;
      assert ring[0..] + ring[..0] == Window([], ring.Length);
    }

    /** An invalid span is refused and changes nothing. */
    method Ingest(span: SSFSpan) returns (ok: bool)
      requires Valid()
      modifies this, ring
      ensures Valid() && ring == old(ring)
      ensures ok == ValidTrace(span)
      ensures ingested == if ok then old(ingested) + [span] else old(ingested)
    {
      if !ValidTrace(span) {
        return false;
      }
      WindowShifts(ingested, ring.Length, span);
      ghost var before := ring[next..] + ring[..next];
      ghost var i := next;
      ring[next] := Some(span);
      next := if next + 1 == ring.Length then 0 else next + 1;
      ingested := ingested + [span];
      assert ring[next..] + ring[..next] == before[1..] + [Some(span)];
      ok := true;
    }

    /** Hands out the latest spans, oldest first, and starts a new ring. */
    method Flush() returns (spans: seq<SSFSpan>)
      requires Valid()
      modifies this
      ensures Valid() && fresh(ring) && ring.Length == old(ring.Length) && ingested == []
      ensures spans == Latest(old(ingested), old(ring.Length))
    {
      var size := ring.Length;
      ghost var window := ring[next..] + ring[..next];
      spans := [];
      for i := 0 to size
        invariant spans == Filled(window[..i])
      {
        var slot := ring[if next + i < size then next + i else next + i - size];
        assert slot == window[i];
        assert window[..i + 1][..i] == window[..i];
        if slot.Some? {
          spans := spans + [slot.value];
        }
      }
      WindowFilled(ingested, size, size);
      assert window[..size] == window;
      assert Latest(ingested, size)[..|Latest(ingested, size)|] == Latest(ingested, size);
      ring := new Option<SSFSpan>[size](i => None);
      next := 0;
      ingested := [];
      assert ring[0..] + ring[..0] == Window([], ring.Length);
    }
  }
}
