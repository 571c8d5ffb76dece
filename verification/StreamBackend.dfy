/** The reconnecting sender: frames written over connections that may fail at any byte. */
module StreamBackend {
  import opened Options
  import opened Varint
  import opened Framing

  /** One dialled connection: the bytes the network took, and whether we closed it. */
  datatype Connection = Connection(written: Bytes, closed: bool)

  /** The buffered writer in front of the newest connection; errors stick. */
  datatype Buffer = Buffer(pending: Bytes, failed: bool)

  /** What any number of operations does to connections: they grow, and only the current one is written. */
  ghost predicate Evolves(before: seq<Connection>, current: Option<nat>, after: seq<Connection>) {
    && |before| <= |after|
    && (forall i :: 0 <= i < |before| ==> before[i].written <= after[i].written)
    && (forall i :: 0 <= i < |before| && current != Some(i) ==> after[i] == before[i])
  }

  /** Everything about a backend that is not in front of a connection. */
  datatype State = State(conns: seq<Connection>, conn: Option<nat>, sent: seq<seq<Bytes>>)

  /** Whatever was written is a prefix of the frames sent; all but the current connection are closed. */
  ghost predicate Orderly(s: State) {
    && |s.sent| == |s.conns|
    && (forall i :: 0 <= i < |s.conns| ==> s.conns[i].written <= Stream(s.sent[i]))
    && (forall i :: 0 <= i < |s.conns| && s.conn != Some(i) ==> s.conns[i].closed)
  }

  /** What came of a state: an abandoned connection stays as it was, and never becomes current again. */
  ghost predicate Follows(a: State, b: State) {
    && Evolves(a.conns, a.conn, b.conns)
    && (b.conn.None? || b.conn == a.conn || b.conn.value >= |a.conns|)
    && |a.sent| <= |b.sent|
    && (forall i :: 0 <= i < |a.sent| ==> a.sent[i] <= b.sent[i])
    && (forall i :: 0 <= i < |a.sent| && a.conn != Some(i) ==> b.sent[i] == a.sent[i])
  }

  /**
    Nothing went wrong: the current connection stayed, or there was none and at most
    one was dialled, and exactly these payloads were sent over it.
   */
  ghost predicate Steady(a: State, b: State, payloads: seq<Bytes>) {
    if a.conn.Some? then
      && a.conn.value < |a.sent| && b.conn == a.conn && |b.conns| == |a.conns|
      && b.sent == a.sent[a.conn.value := a.sent[a.conn.value] + payloads]
    else
      || (b.conn == None && payloads == [] && b.sent == a.sent && |b.conns| == |a.conns|)
      || (b.conn == Some(|a.conns|) && b.sent == a.sent + [payloads] && |b.conns| == |a.conns| + 1)
  }

  /** What a client does; no payload stands for a span that could not be marshalled. */
  datatype Operation = Send(payload: Option<Bytes>) | Flush | Shut

  function PayloadsOf(operation: Operation): seq<Bytes> {
    if operation.Send? && operation.payload.Some? then [operation.payload.value] else []
  }

  /** Everything a run of operations sends. */
  function Payloads(operations: seq<Operation>): seq<Bytes> {
    if operations == [] then []
    else Payloads(operations[..|operations| - 1]) + PayloadsOf(operations[|operations| - 1])
  }

  lemma PayloadsGrow(operations: seq<Operation>, operation: Operation)
    ensures Payloads(operations + [operation]) == Payloads(operations) + PayloadsOf(operation)
  {
    assert (operations + [operation])[..|operations|] == operations;
  }

  /** All that was sent over the current connection has been written. */
  ghost predicate Flushed(s: State) {
    s.conn.Some? && s.conn.value < |s.conns| && s.conn.value < |s.sent| ==>
      s.conns[s.conn.value].written == Stream(s.sent[s.conn.value])
  }

  /** Operations during which no dial and no write failed: one connection carried all they sent. */
  ghost predicate Untroubled(a: State, b: State, done: seq<Operation>) {
    Steady(a, b, Payloads(done)) && (done != [] && done[|done| - 1] == Flush ==> Flushed(b))
  }

  class StreamBackend {
    const bufferSize: nat
    var conns: seq<Connection>
    var conn: Option<nat>
    var buffer: Option<Buffer>
    /** The payloads whose frames were begun on each connection. */
    ghost var sent: seq<seq<Bytes>>
    /** Dials that failed, and writes that the network did not take in full. */
    ghost var faults: nat

    ghost predicate Valid()
      reads this
    {
      && |sent| == |conns|
      && (buffer.Some? ==> bufferSize > 0)
      && (conn.Some? ==> conn.value + 1 == |conns|)
      && (forall i :: 0 <= i < |conns| ==> conns[i].written <= Stream(sent[i]))
      && (forall i :: 0 <= i < |conns| && conn != Some(i) ==> conns[i].closed)
      && (conn.Some? ==> Ready() && Total() == Stream(sent[conn.value]))
    }

    ghost function Now(): State
      reads this
    {
      State(conns, conn, sent)
    }

    /** A current connection has a working output. */
    ghost predicate Ready()
      reads this
    {
      && conn.Some? && conn.value < |conns|
      && (bufferSize > 0 <==> buffer.Some?)
      && (buffer.Some? ==> !buffer.value.failed && |buffer.value.pending| <= bufferSize)
    }

    /** The bytes accepted for the current connection: on the network, then buffered. */
    ghost function Total(): Bytes
      reads this
      requires conn.Some? && conn.value < |conns|
    {
      conns[conn.value].written + if bufferSize > 0 && buffer.Some? then buffer.value.pending else []
    }

    constructor (bufferSize: nat)
      ensures Valid() && conns == [] && conn == None && buffer == None && this.bufferSize == bufferSize && faults == 0
    {
      this.bufferSize := bufferSize;
      conns, conn, buffer, sent, faults := [], None, None, [], 0;
    }

    /** connect: a dial that succeeds or fails. */
    method Connect() returns (ok: bool)
      requires Valid() && conn == None
      modifies this
      ensures Valid() && Follows(old(Now()), Now())
      ensures ok ==> conn.Some? && Total() == [] && sent == old(sent) + [[]]
      ensures ok ==> conns == old(conns) + [Connection([], false)]
      ensures !ok ==> conns == old(conns) && conn == None && sent == old(sent) && buffer == old(buffer)
      ensures faults == if ok then old(faults) else old(faults) + 1
      ensures ok ==> Steady(old(Now()), Now(), [])
    {
      hide Stream;
      StreamOfNothing();
      ok := *;
      if !ok {
        faults := faults + 1;
        return;
      }
      conns := conns + [Connection([], false)];
      sent := sent + [[]];
      conn := Some(|conns| - 1);
      if bufferSize > 0 {
        buffer := Some(Buffer([], false));
      } else {
        buffer := None;
      }
    }

    /** A write to the connection itself: all of it, or any part of it and an error. */
    method WriteConn(p: Bytes) returns (n: nat, ok: bool)
      requires conn.Some? && conn.value < |conns|
      modifies this`conns, this`faults
      ensures |conns| == |old(conns)| && n <= |p| && (ok ==> n == |p|)
      ensures faults == if ok then old(faults) else old(faults) + 1
      ensures var c := old(conns)[conn.value];
              conns == old(conns)[conn.value := c.(written := c.written + p[..n])]
    {
      ok, n := false, 0;
      if !conns[conn.value].closed {
        ok := *;
        if ok {
          n := |p|;
        } else {
          n :| 0 <= n <= |p|;
        }
      }
      if !ok {
        faults := faults + 1;
      }
      conns := conns[conn.value := conns[conn.value].(written := conns[conn.value].written + p[..n])];
    }

    /** bufio.Writer.Flush: what could not be written stays buffered, and the error sticks. */
    method FlushBuffer() returns (ok: bool)
      requires Ready() && bufferSize > 0
      modifies this`conns, this`buffer, this`faults
      ensures faults >= old(faults)
      ensures |conns| == |old(conns)| && buffer.Some? && buffer.value.failed == !ok
      ensures Evolves(old(conns), conn, conns) && Total() == old(Total())
      ensures conns[conn.value].closed == old(conns)[conn.value].closed
      ensures ok ==> buffer.value.pending == []
      ensures ok <==> faults == old(faults)
    {
      if buffer.value.pending == [] {
        return true;
      }
      var p := buffer.value.pending;
      var n;
      n, ok := WriteConn(p);
      assert p[..n] + p[n..] == p;
      if ok {
        buffer := Some(Buffer([], false));
      } else {
        buffer := Some(Buffer(p[n..], true));
      }
    }

    /** With nothing buffered, a write too large for the buffer goes straight through. */
    method WriteThrough(p: Bytes) returns (n: nat)
      requires Ready() && bufferSize > 0 && buffer.value.pending == []
      modifies this`conns, this`buffer, this`faults
      ensures faults >= old(faults)
      ensures |conns| == |old(conns)| && buffer.Some? && buffer.value.pending == []
      ensures Evolves(old(conns), conn, conns) && n <= |p| && Total() + p[n..] == old(Total()) + p
      ensures conns[conn.value].closed == old(conns)[conn.value].closed
      ensures buffer.value.failed || n == |p|
      ensures buffer.value.failed <==> faults > old(faults)
    {
      var ok;
      n, ok := WriteConn(p);
      assert p[..n] + p[n..] == p;
      buffer := Some(Buffer([], !ok));
    }

    /** Otherwise the buffer is topped up and flushed. */
    method FillAndFlush(p: Bytes) returns (n: nat)
      requires Ready() && bufferSize > 0 && |p| > bufferSize - |buffer.value.pending|
      modifies this`conns, this`buffer, this`faults
      ensures faults >= old(faults)
      ensures |conns| == |old(conns)| && buffer.Some? && |buffer.value.pending| <= bufferSize
      ensures Evolves(old(conns), conn, conns) && n <= |p| && Total() + p[n..] == old(Total()) + p
      ensures conns[conn.value].closed == old(conns)[conn.value].closed
      ensures buffer.value.failed || buffer.value.pending == []
      ensures buffer.value.failed <==> faults > old(faults)
    {
      n := bufferSize - |buffer.value.pending|;
      ghost var total := Total();
      assert p[..n] + p[n..] == p;
      buffer := Some(Buffer(buffer.value.pending + p[..n], false));
      assert Total() == total + p[..n];
      var ok := FlushBuffer();
    }

    /** bufio.Writer.Write. */
    method WriteBuffer(data: Bytes) returns (ok: bool)
      requires Ready() && bufferSize > 0
      modifies this`conns, this`buffer, this`faults
      ensures faults >= old(faults)
      ensures |conns| == |old(conns)| && buffer.Some? && buffer.value.failed == !ok
      ensures Evolves(old(conns), conn, conns)
      ensures conns[conn.value].closed == old(conns)[conn.value].closed
      ensures ok ==> Total() == old(Total()) + data && |buffer.value.pending| <= bufferSize
      ensures !ok ==> Total() <= old(Total()) + data
      ensures ok <==> faults == old(faults)
    {
      ghost var goal := Total() + data;
      var p := data;
      while |p| > bufferSize - |buffer.value.pending| && !buffer.value.failed
        invariant |conns| == |old(conns)| && buffer.Some? && |buffer.value.pending| <= bufferSize
        invariant Evolves(old(conns), conn, conns) && Total() + p == goal
        invariant conns[conn.value].closed == old(conns)[conn.value].closed
        invariant faults >= old(faults) && (buffer.value.failed <==> faults > old(faults))
        decreases !buffer.value.failed, |p|, |buffer.value.pending|
      {
        hide Evolves, Total;
        ghost var before := conns;
        var n;
        if buffer.value.pending == [] {
          n := WriteThrough(p);
        } else {
          n := FillAndFlush(p);
        }
        EvolvesTransitively(old(conns), conn, before, conn, conns);
        p := p[n..];
      }
      if buffer.value.failed {
        return false;
      }
      buffer := Some(Buffer(buffer.value.pending + p, false));
      ok := true;
    }

    /** A write to whatever stands in front of the current connection. */
    method WriteOutput(data: Bytes) returns (ok: bool)
      requires Ready()
      modifies this`conns, this`buffer, this`faults
      ensures faults >= old(faults)
      ensures |conns| == |old(conns)| && (bufferSize > 0 <==> buffer.Some?)
      ensures Evolves(old(conns), conn, conns)
      ensures conns[conn.value].closed == old(conns)[conn.value].closed
      ensures ok ==> Ready() && Total() == old(Total()) + data
      ensures !ok ==> Total() <= old(Total()) + data
      ensures ok <==> faults == old(faults)
    {
      if bufferSize > 0 {
        ok := WriteBuffer(data);
      } else {
        var n;
        n, ok := WriteConn(data);
      }
    }

    /** WriteSSF: version, length and payload, giving up at the first error. */
    method WriteSSF(payload: Bytes) returns (ok: bool)
      requires Ready()
      modifies this`conns, this`buffer, this`faults
      ensures faults >= old(faults)
      ensures |conns| == |old(conns)| && (bufferSize > 0 <==> buffer.Some?)
      ensures Evolves(old(conns), conn, conns)
      ensures conns[conn.value].closed == old(conns)[conn.value].closed
      ensures ok ==> Ready() && Total() == old(Total()) + Frame(payload)
      ensures !ok ==> Total() <= old(Total()) + Frame(payload)
      ensures ok <==> faults == old(faults)
    {
      hide BigEndian;
      ghost var start := Total();
      ok := WriteOutput([0]);
      assert start + Frame(payload) == (start + [0]) + (BigEndian(|payload|) + payload);
      if !ok {
        return;
      }
      ok := WriteOutput(BigEndian(|payload|));
      assert start + Frame(payload) == ((start + [0]) + BigEndian(|payload|)) + payload;
      if !ok {
        return;
      }
      ok := WriteOutput(payload);
    }

    /** Gives the current connection up for good. */
    method Drop()
      requires conn.Some? && conn.value < |conns|
      modifies this`conns, this`conn
      ensures conn == None
      ensures conns == old(conns)[old(conn).value := old(conns)[old(conn).value].(closed := true)]
    {
      conns := conns[conn.value := conns[conn.value].(closed := true)];
      conn := None;
    }

    /** Sends a frame over the current connection, abandoning it if the frame cannot be completed. */
    method SendFrame(payload: Bytes) returns (ok: bool)
      requires Valid() && conn.Some?
      modifies this
      ensures Valid() && Follows(old(Now()), Now())
      ensures sent == old(sent)[old(conn).value := old(sent)[old(conn).value] + [payload]]
      ensures |conns| == |old(conns)| && conn == if ok then old(conn) else None
      ensures faults >= old(faults) && (ok <==> faults == old(faults))
      ensures ok ==> Steady(old(Now()), Now(), [payload])
    {
      hide Frame, Stream;
      ghost var c := conn.value;
      StreamOfAppend(sent[c], payload);
      ok := WriteSSF(payload);
      sent := sent[c := sent[c] + [payload]];
      assert conns[c].written <= Total() <= Stream(sent[c]);
      if !ok {
        Drop();
      }
    }

    /** SendSync; no payload stands for a span that could not be marshalled. */
    method SendSync(payload: Option<Bytes>) returns (ok: bool)
      requires Valid()
      modifies this
      ensures Valid() && Follows(old(Now()), Now())
      ensures ok ==> conn.Some? && payload.Some? && sent[conn.value] != [] &&
                     sent[conn.value][|sent[conn.value]| - 1] == payload.value
      ensures !ok && payload.Some? ==>
                conn == None && forall i :: 0 <= i < |conns| ==> conns[i].closed
      ensures payload.None? ==> !ok && (old(conn).Some? ==> Now() == old(Now()))
      ensures faults >= old(faults) && (payload.Some? ==> (ok <==> faults == old(faults)))
      ensures faults == old(faults) ==> Steady(old(Now()), Now(), if payload.Some? then [payload.value] else [])
      ensures faults == old(faults) ==> conn.Some?
    {
      hide Frame, Stream, Follows, Steady;
      Stays(Now());
      Unmoved(Now());
      if conn == None {
        ok := Connect();
        if !ok {
          return;
        }
      }
      if payload == None {
        return false;
      }
      ghost var ready := Now();
      ok := SendFrame(payload.value);
      FollowsTransitively(old(Now()), ready, Now());
      if ok {
        SteadyThen(old(Now()), ready, Now(), [], [payload.value]);
        assert [] + [payload.value] == [payload.value];
      }
    }

    /** Flushes the buffer of the current connection, abandoning it on failure. */
    method FlushCurrent() returns (ok: bool)
      requires Valid() && conn.Some? && buffer.Some?
      modifies this
      ensures Valid() && Follows(old(Now()), Now()) && sent == old(sent)
      ensures |conns| == |old(conns)| && conn == if ok then old(conn) else None
      ensures ok ==> conns[conn.value].written == Stream(sent[conn.value])
      ensures faults >= old(faults) && (ok <==> faults == old(faults))
      ensures ok ==> Steady(old(Now()), Now(), [])
    {
      hide Frame, Stream;
      Unmoved(Now());
      ghost var c := conn.value;
      ok := FlushBuffer();
      assert conns[c].written <= Total();
      if !ok {
        Drop();
      }
    }

    /** FlushSync: when it succeeds, every frame sent on the connection has left the buffer. */
    method FlushSync() returns (ok: bool)
      requires Valid()
      modifies this
      ensures Valid() && Follows(old(Now()), Now())
      ensures |old(sent)| <= |sent| && sent[..|old(sent)|] == old(sent)
      ensures ok && old(buffer).Some? ==> conn.Some? && conns[conn.value].written == Stream(sent[conn.value])
      ensures !ok ==> conn == None && forall i :: 0 <= i < |conns| ==> conns[i].closed
      ensures faults >= old(faults) && (ok <==> faults == old(faults))
      ensures ok ==> Steady(old(Now()), Now(), [])
      ensures ok && conn.Some? ==> conns[conn.value].written == Stream(sent[conn.value])
    {
      hide Frame, Stream, Follows, Steady;
      Stays(Now());
      Unmoved(Now());
      if buffer == None {
        return true;
      }
      if conn == None {
        ok := Connect();
        if !ok {
          return;
        }
      }
      ghost var ready := Now();
      ok := FlushCurrent();
      FollowsTransitively(old(Now()), ready, Now());
      if ok {
        SteadyThen(old(Now()), ready, Now(), [], []);
      }
    }

    /** Close leaves the connection in place: later writes to it fail. */
    method Close()
      requires Valid()
      modifies this`conns
      ensures Valid() && Follows(old(Now()), Now())
      ensures conn.None? ==> conns == old(conns)
      ensures conn.Some? ==> conns == old(conns)[conn.value := old(conns)[conn.value].(closed := true)]
    {
      if conn.Some? {
        conns := conns[conn.value := conns[conn.value].(closed := true)];
      }
    }

    method Perform(operation: Operation)
      requires Valid()
      modifies this
      ensures Valid() && Orderly(Now()) && Follows(old(Now()), Now()) && faults >= old(faults)
      ensures faults == old(faults) && operation != Shut ==>
                Steady(old(Now()), Now(), PayloadsOf(operation)) && (operation == Flush ==> Flushed(Now()))
    {
      hide Stream, Follows, Steady;
      match operation
      case Send(payload) => var _ := SendSync(payload);
      case Flush => var _ := FlushSync();
      case Shut => Close();
    }

    /**
      Every run: from any moment on, the connections given up by then keep the bytes
      they had, which are frames sent over them and at most a part of the next one.
     */
    method Run(operations: seq<Operation>) returns (ghost states: seq<State>)
      requires Valid()
      modifies this
      ensures Valid() && |states| == |operations| + 1 && states[0] == old(Now()) && states[|operations|] == Now()
      ensures forall t :: 0 <= t < |states| ==> Orderly(states[t])
      ensures forall t, u :: 0 <= t <= u < |states| ==> Follows(states[t], states[u])
      ensures faults >= old(faults)
      ensures faults == old(faults) && Shut !in operations ==> Untroubled(old(Now()), Now(), operations)
    {
      hide Follows, Orderly, Steady, Stream, Untroubled, Flushed;
      UntroubledYet(Now());
      assert Orderly(Now()) && Follows(Now(), Now()) by {
        Stays(Now());
        Settled();
      }
      states := [Now()];
      for i := 0 to |operations|
        invariant Valid() && |states| == i + 1 && states[0] == old(Now()) && states[i] == Now()
        invariant forall t :: 0 <= t < |states| ==> Orderly(states[t])
        invariant forall t, u :: 0 <= t <= u < |states| ==> Follows(states[t], states[u])
        invariant faults >= old(faults)
        invariant faults == old(faults) && Shut !in operations[..i] ==>
                    Untroubled(old(Now()), Now(), operations[..i])
      {
        ghost var before := Now();
        Perform(operations[i]);
        assert operations[..i + 1] == operations[..i] + [operations[i]];
        if faults == old(faults) && Shut !in operations[..i + 1] {
          UntroubledStill(old(Now()), before, Now(), operations[..i], operations[i]);
        }
        Stays(Now());
        forall t | 0 <= t <= i
          ensures Follows(states[t], Now())
        {
          Matched(states[t]);
          FollowsTransitively(states[t], states[i], Now());
        }
        states := states + [Now()];
      }
      assert operations[..|operations|] == operations;
    }

    lemma Settled()
      requires Valid()
      ensures Orderly(Now())
    {
      hide Stream;
    }

    /** At any time, what a server reads off a connection is the spans whose frames arrived whole. */
    lemma {:induction false} ServerGets(i: nat)
      requires Valid() && i < |conns| && Sendable(sent[i])
      ensures var n := Whole(sent[i], |conns[i].written|);
              && Sendable(sent[i][..n])
              && ReadAll(conns[i].written, PATIENT).0 == Spans(sent[i][..n])
              && ReadAll(conns[i].written, PATIENT).1 ==
                 if conns[i].written == Stream(sent[i][..n]) then Eof else FramingIO
    {
      hide Sendable, ReadAll, Spans, Whole;
      ServerReads(sent[i], conns[i].written);
    }
  }

  lemma StreamOfNothing()
    ensures Stream([]) == []
  {
  }

  lemma {:induction false} StreamOfAppend(payloads: seq<Bytes>, payload: Bytes)
    ensures Stream(payloads + [payload]) == Stream(payloads) + Frame(payload)
  {
    hide Frame;
    if payloads == [] {
      assert [] + [payload] == [payload] && [payload][1..] == [];
      assert Frame(payload) + [] == Frame(payload);
    } else {
      StreamOfAppend(payloads[1..], payload);
      assert (payloads + [payload])[1..] == payloads[1..] + [payload];
      assert Frame(payloads[0]) + (Stream(payloads[1..]) + Frame(payload))
          == (Frame(payloads[0]) + Stream(payloads[1..])) + Frame(payload);
    }
  }

  lemma Unmoved(s: State)
    requires s.conn.Some? ==> s.conn.value < |s.sent|
    ensures Steady(s, s, [])
  {
    if s.conn.Some? {
      assert s.sent[s.conn.value] + [] == s.sent[s.conn.value];
    }
  }

  lemma UntroubledYet(s: State)
    requires s.conn.Some? ==> s.conn.value < |s.sent|
    ensures Untroubled(s, s, [])
  {
    Unmoved(s);
  }

  lemma UntroubledStill(a: State, b: State, c: State, done: seq<Operation>, next: Operation)
    requires Untroubled(a, b, done) && Steady(b, c, PayloadsOf(next)) && |a.sent| == |a.conns|
    requires next == Flush ==> Flushed(c)
    ensures Untroubled(a, c, done + [next])
  {
    hide Steady, Flushed;
    SteadyThen(a, b, c, Payloads(done), PayloadsOf(next));
    PayloadsGrow(done, next);
  }

  /** Steady stretches one after the other. */
  lemma {:induction false} SteadyThen(a: State, b: State, c: State, p: seq<Bytes>, q: seq<Bytes>)
    requires Steady(a, b, p) && Steady(b, c, q) && |a.sent| == |a.conns|
    ensures Steady(a, c, p + q)
  {
    if a.conn.Some? {
      var i := a.conn.value;
      assert (a.sent[i] + p) + q == a.sent[i] + (p + q);
      assert a.sent[i := a.sent[i] + p][i := a.sent[i] + p + q] == a.sent[i := a.sent[i] + (p + q)];
    } else if b.conn.Some? {
      assert (a.sent + [p])[|a.sent| := p + q] == a.sent + [p + q];
    } else {
      assert p + q == q;
    }
  }

  /** From a new backend: at most one connection, over which, once flushed, exactly the frames sent have gone. */
  lemma {:induction false} AllArrive(b: State, done: seq<Operation>)
    requires Untroubled(State([], None, []), b, done)
    ensures |b.conns| <= 1 && (b.conns == [] ==> Payloads(done) == [])
    ensures b.conns != [] && done != [] && done[|done| - 1] == Flush ==> b.conns[0].written == Stream(Payloads(done))
  {
    hide Stream, Payloads;
  }

  lemma Matched(s: State)
    requires Orderly(s)
    ensures |s.sent| == |s.conns|
  {
  }

  lemma Stays(s: State)
    ensures Follows(s, s)
  {
  }

  /** Over any run: once a connection is no longer current, it is neither written nor used again. */
  lemma {:induction false} FollowsTransitively(a: State, b: State, c: State)
    requires Follows(a, b) && Follows(b, c) && |a.sent| == |a.conns|
    ensures Follows(a, c)
  {
    hide Evolves;
    EvolvesTransitively(a.conns, a.conn, b.conns, b.conn, c.conns);
    Grows(a, b);
  }

  lemma Grows(a: State, b: State)
    requires Evolves(a.conns, a.conn, b.conns)
    ensures |a.conns| <= |b.conns|
  {
  }

  /** Over any two steps: once a connection is no longer current, it is never written again. */
  lemma {:induction false} EvolvesTransitively(
    a: seq<Connection>, currentA: Option<nat>, b: seq<Connection>, currentB: Option<nat>, c: seq<Connection>)
    requires Evolves(a, currentA, b) && Evolves(b, currentB, c)
    requires currentB.Some? ==> currentB == currentA || currentB.value >= |a|
    ensures Evolves(a, currentA, c)
  {
  }

  /** Bytes that are a prefix of a stream are whole frames and at most one partial frame. */
  lemma {:induction false} WholeThenPartial(payloads: seq<Bytes>, written: Bytes)
    requires written <= Stream(payloads)
    ensures var n := Whole(payloads, |written|);
            && Stream(payloads[..n]) <= written
            && (if n == |payloads| then written == Stream(payloads)
                else |written| - |Stream(payloads[..n])| < |Frame(payloads[n])|
                     && written[|Stream(payloads[..n])|..] <= Frame(payloads[n]))
    decreases |payloads|
  {
    hide Frame;
    var n := Whole(payloads, |written|);
    if payloads == [] {
    } else {
      var first, others := payloads[0], payloads[1..];
      if |written| < |Frame(first)| {
        assert payloads[..n] == [];
      } else {
        var rest := written[|Frame(first)|..];
        assert written == Frame(first) + rest && rest <= Stream(others);
        WholeThenPartial(others, rest);
        assert payloads[..n][0] == first && payloads[..n][1..] == others[..n - 1];
        if n < |payloads| {
          assert written[|Stream(payloads[..n])|..] == rest[|Stream(others[..n - 1])|..];
        }
      }
    }
  }

  /** End to end: a server on any connection reads the spans sent over it, in order, up to where it was cut. */
  lemma {:induction false} ServerReads(payloads: seq<Bytes>, written: Bytes)
    requires Sendable(payloads) && written <= Stream(payloads)
    ensures Sendable(payloads[..Whole(payloads, |written|)])
    ensures ReadAll(written, PATIENT).0 == Spans(payloads[..Whole(payloads, |written|)])
    ensures ReadAll(written, PATIENT).1 ==
            if written == Stream(payloads[..Whole(payloads, |written|)]) then Eof else FramingIO
  {
    hide *;
    CutStream(payloads, |written|);
    WholeThenPartial(payloads, written);
    assert written == Stream(payloads)[..|written|];
  }
}
