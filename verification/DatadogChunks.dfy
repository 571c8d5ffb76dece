/** How the Datadog sink cuts a flush into request bodies. */
module DatadogChunks {
  import opened Options

  /** Division that cuts off towards zero. */
  function Quot(a: int, b: int): int
    requires b != 0
  {
    if a >= 0 then a / b else -((-a) / b)
  }

  function Concat<T>(chunks: seq<seq<T>>): seq<T> {
    if chunks == [] then [] else Concat(chunks[..|chunks| - 1]) + chunks[|chunks| - 1]
  }

  /** As many chunks as it takes, and the size they are given. */
  lemma {:induction false} ChunkArithmetic(n: nat, max: nat)
    requires n >= 1 && max >= 1
    ensures var workers := Quot(n - 1, max) + 1;
            var size := Quot(n - 1, workers) + 1;
            && 1 <= size <= max
            && (workers - 1) * size < n <= workers * size
            && (workers - 1) * max < n <= workers * max
  {
    hide Quot;
    var w := Division(n - 1, max);
    var s := Division(n - 1, w + 1);
    SizeFits(n, max, w + 1, s + 1);
    Monotone(w, s + 1, max);
  }

  lemma Division(a: nat, b: nat) returns (q: nat)
    requires b >= 1
    ensures q == Quot(a, b) && q * b <= a < (q + 1) * b
  {
    q := a / b;
    assert a == q * b + a % b;
  }

  lemma SizeFits(n: nat, max: nat, workers: nat, size: nat)
    requires workers >= 1 && n - 1 < workers * max && (size - 1) * workers <= n - 1
    ensures size <= max
  {
    if size > max {
      Monotone(workers, max, size - 1);
    }
  }

  lemma Monotone(a: nat, b: int, c: int)
    requires b <= c
    ensures a * b <= a * c
  {
  }

  /**
    The chunks of a flush. None is the division by zero that happens for an empty
    flush with bodies of one; otherwise nothing is lost, repeated or reordered.
   */
  method Chunks<T>(metrics: seq<T>, max: nat) returns (r: Option<seq<seq<T>>>)
    requires max >= 1
    ensures r.None? <==> |metrics| == 0 && max == 1
    ensures r.Some? ==> Concat(r.value) == metrics && |r.value| >= 1
    ensures r.Some? ==> forall i :: 0 <= i < |r.value| ==> |r.value[i]| <= max
    ensures |metrics| >= 1 ==> r.Some? && (|r.value| - 1) * max < |metrics| <= |r.value| * max
    ensures |metrics| >= 1 ==> forall i :: 0 <= i < |r.value| ==> |r.value[i]| >= 1
  {
    var workers := Quot(|metrics| - 1, max) + 1;
    if |metrics| == 0 {
      NothingOver(max);
      if workers == 0 {
        return None;
      }
      assert Concat([metrics]) == Concat<T>([]) + metrics;
      return Some([metrics]);
    }
    var size := Quot(|metrics| - 1, workers) + 1;
    ChunkArithmetic(|metrics|, max);
    var chunks := Cut(metrics, workers, size);
    r := Some(chunks);
  }

  lemma NothingOver(max: nat)
    requires max >= 1
    ensures Quot(-1, max) + 1 == if max == 1 then 0 else 1
  {
  }

  method Cut<T>(metrics: seq<T>, workers: nat, size: nat) returns (chunks: seq<seq<T>>)
    requires workers >= 1 && size >= 1 && (workers - 1) * size < |metrics| <= workers * size
    ensures Concat(chunks) == metrics && |chunks| == workers
    ensures forall i :: 0 <= i < |chunks| ==> 1 <= |chunks[i]| <= size
  {
    chunks := [];
    for i := 0 to workers
      invariant |chunks| == i && (i < workers ==> i * size < |metrics|)
      invariant Concat(chunks) == if i < workers then metrics[..i * size] else metrics
      invariant forall k :: 0 <= k < i ==> 1 <= |chunks[k]| <= size
    {
      Monotone(size, i, workers - 1);
      var chunk := metrics[i * size..];
      if i < workers - 1 {
        Monotone(size, i + 1, workers - 1);
        assert (i + 1) * size == i * size + size;
        chunk := chunk[..size];
        assert metrics[..i * size] + chunk == metrics[..(i + 1) * size];
      } else {
        assert metrics[..i * size] + chunk == metrics;
        assert workers * size == i * size + size;
      }
      assert (chunks + [chunk])[..i] == chunks;
      chunks := chunks + [chunk];
    }
  }
}
