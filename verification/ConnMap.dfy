/** The proxy's map of connections, with Add, Delete and Clear interleaved at their locks. */
module ConnMap {
  import opened Destinations
  import opened Sums

  /** Connections are numbered in the order they are dialled. */
  type Conn = nat

  /** Where a call of Add is: Holding is after the dial, Closing after losing the race for the map. */
  datatype Progress = Checking | Dialing | Holding(conn: Conn) | Failed | Closing(conn: Conn) | Returned(ok: bool)

  datatype Adder = Adder(destination: Destination, progress: Progress)

  datatype State = State(
    conns: map<Destination, Conn>, dialled: seq<Destination>, closed: seq<Conn>, adders: seq<Adder>)

  datatype Step =
    | Call(destination: Destination)
    | Check(adder: nat)
    | Dial(adder: nat, ok: bool)
    | Lock(adder: nat)
    | CloseLoser(adder: nat)
    | Delete(destination: Destination)
    | Clear(order: seq<Destination>)

  const START := State(map[], [], [], [])

  ghost predicate Enabled(s: State, step: Step) {
    match step
    case Call(_) => true
    case Check(a) => a < |s.adders| && s.adders[a].progress.Checking?
    case Dial(a, _) => a < |s.adders| && s.adders[a].progress.Dialing?
    case Lock(a) => a < |s.adders| && (s.adders[a].progress.Holding? || s.adders[a].progress.Failed?)
    case CloseLoser(a) => a < |s.adders| && s.adders[a].progress.Closing?
    case Delete(_) => true
    case Clear(order) => Visits(order, s.conns)
  }

  function At(adders: seq<Adder>, a: nat, p: Progress): seq<Adder>
    requires a < |adders|
  {
    adders[a := adders[a].(progress := p)]
  }

  function Removed(conns: map<Destination, Conn>, d: Destination): map<Destination, Conn> {
    map k | k in conns && k != d :: conns[k]
  }

  function Only(): (Destination, Conn) -> seq<Conn> {
    (d, c) => [c]
  }

  ghost function Next(s: State, step: Step): State
    requires Enabled(s, step)
  {
    match step
    case Call(d) => s.(adders := s.adders + [Adder(d, Checking)])
    case Check(a) =>
      s.(adders := At(s.adders, a, if s.adders[a].destination in s.conns then Returned(true) else Dialing))
    case Dial(a, ok) =>
      if ok then s.(dialled := s.dialled + [s.adders[a].destination], adders := At(s.adders, a, Holding(|s.dialled|)))
      else s.(adders := At(s.adders, a, Failed))
    case Lock(a) =>
      var d := s.adders[a].destination;
      if s.adders[a].progress.Failed? then s.(adders := At(s.adders, a, Returned(false)))
      else
        var c := s.adders[a].progress.conn;
        if d in s.conns then s.(adders := At(s.adders, a, Closing(c)))
        else s.(conns := s.conns[d := c], adders := At(s.adders, a, Returned(true)))
    case CloseLoser(a) =>
      s.(closed := s.closed + [s.adders[a].progress.conn], adders := At(s.adders, a, Returned(true)))
    case Delete(d) =>
      s.(closed := s.closed + (if d in s.conns then [s.conns[d]] else []), conns := Removed(s.conns, d))
    case Clear(order) => s.(closed := s.closed + Walk(s.conns, order, Only()), conns := map[])
  }

  // ---- Who owns a connection

  function Is(c: Conn): Conn -> int {
    (x: Conn) => if x == c then 1 else 0
  }

  function HoldsConn(c: Conn): Adder -> int {
    (a: Adder) => if (a.progress.Holding? || a.progress.Closing?) && a.progress.conn == c then 1 else 0
  }

  function InMap(s: State, c: Conn): int {
    if c < |s.dialled| && s.dialled[c] in s.conns && s.conns[s.dialled[c]] == c then 1 else 0
  }

  /** The places a connection is in: the map, a pending Add, the closed ones. */
  function Owners(s: State, c: Conn): int {
    InMap(s, c) + ISum(HoldsConn(c), s.adders) + ISum(Is(c), s.closed)
  }

  /** The map files every connection under the destination it was dialled to, and so do the pending calls. */
  predicate Filed(s: State) {
    && (forall d :: d in s.conns ==> s.conns[d] < |s.dialled| && s.dialled[s.conns[d]] == d)
    && (forall a :: 0 <= a < |s.adders| && s.adders[a].progress.Holding? ==>
          s.adders[a].progress.conn < |s.dialled| && s.dialled[s.adders[a].progress.conn] == s.adders[a].destination)
  }

  /** Every dialled connection is in exactly one place, and there are no others. */
  ghost predicate Owned(s: State) {
    forall c: Conn :: Owners(s, c) == if c < |s.dialled| then 1 else 0
  }

  ghost predicate Invariant(s: State) {
    Filed(s) && Owned(s)
  }

  lemma StepFiles(s: State, step: Step)
    requires Invariant(s) && Enabled(s, step)
    ensures Filed(Next(s, step))
  {
    hide Owned, Walk;
  }

  lemma AdderMoves(s: State, a: nat, p: Progress, c: Conn)
    requires a < |s.adders|
    ensures ISum(HoldsConn(c), At(s.adders, a, p))
         == ISum(HoldsConn(c), s.adders) - HoldsConn(c)(s.adders[a]) + HoldsConn(c)(Adder(s.adders[a].destination, p))
  {
    ISumUpdate(HoldsConn(c), s.adders, a, s.adders[a].(progress := p));
  }

  lemma CloseOne(closed: seq<Conn>, x: Conn, c: Conn)
    ensures ISum(Is(c), closed + [x]) == ISum(Is(c), closed) + Is(c)(x)
  {
    ISumConcat(Is(c), closed, [x]);
    ISumOne(Is(c), x);
  }

  lemma CallOwns(s: State, d: Destination, c: Conn)
    ensures Owners(Next(s, Call(d)), c) == Owners(s, c)
  {
    hide ISum;
    ISumConcat(HoldsConn(c), s.adders, [Adder(d, Checking)]);
    ISumOne(HoldsConn(c), Adder(d, Checking));
  }

  lemma DialOwns(s: State, a: nat, ok: bool, c: Conn)
    requires Invariant(s) && Enabled(s, Dial(a, ok))
    ensures Owners(Next(s, Dial(a, ok)), c) == Owners(s, c) + (if ok && c == |s.dialled| then 1 else 0)
  {
    hide ISum, Owned;
    AdderMoves(s, a, if ok then Holding(|s.dialled|) else Failed, c);
  }

  lemma LockOwns(s: State, a: nat, c: Conn)
    requires Invariant(s) && Enabled(s, Lock(a))
    ensures Owners(Next(s, Lock(a)), c) == Owners(s, c)
  {
    hide ISum, Owned;
    var d := s.adders[a].destination;
    if s.adders[a].progress.Failed? {
      AdderMoves(s, a, Returned(false), c);
    } else if d in s.conns {
      AdderMoves(s, a, Closing(s.adders[a].progress.conn), c);
    } else {
      AdderMoves(s, a, Returned(true), c);
    }
  }

  lemma DeleteOwns(s: State, d: Destination, c: Conn)
    requires Invariant(s)
    ensures Owners(Next(s, Delete(d)), c) == Owners(s, c)
  {
    hide ISum, Owned;
    if d in s.conns {
      CloseOne(s.closed, s.conns[d], c);
    } else {
      assert s.closed + [] == s.closed;
    }
  }

  lemma ClearOwns(s: State, order: seq<Destination>, c: Conn)
    requires Invariant(s) && Enabled(s, Clear(order))
    ensures Owners(Next(s, Clear(order)), c) == Owners(s, c)
  {
    hide ISum, Owned, Walk;
    ISumConcat(Is(c), s.closed, Walk(s.conns, order, Only()));
    forall d | d in s.conns
      ensures ISum(Is(c), Only()(d, s.conns[d])) == if s.conns[d] == c then 1 else 0
    {
      ISumOne(Is(c), s.conns[d]);
    }
    var home := if c < |s.dialled| then s.dialled[c] else "";
    assert forall d :: d in s.conns && d != home ==> s.conns[d] != c;
    WalkISum(s.conns, order, Only(), Is(c), home);
  }

  lemma {:induction false} StepOwns(s: State, step: Step)
    requires Invariant(s) && Enabled(s, step)
    ensures Owned(Next(s, step))
  {
    hide ISum, Walk, Owners, Filed, At, Removed;
    forall c: Conn
      ensures Owners(Next(s, step), c) == if c < |Next(s, step).dialled| then 1 else 0
    {
      assert Owners(s, c) == if c < |s.dialled| then 1 else 0;
      match step
      case Call(d) => CallOwns(s, d, c);
      case Check(a) => CheckOwns(s, a, c);
      case Dial(a, ok) => DialOwns(s, a, ok, c);
      case Lock(a) => LockOwns(s, a, c);
      case CloseLoser(a) => LoserOwns(s, a, c);
      case Delete(d) => DeleteOwns(s, d, c);
      case Clear(order) => ClearOwns(s, order, c);
    }
  }

  lemma CheckOwns(s: State, a: nat, c: Conn)
    requires Enabled(s, Check(a))
    ensures Owners(Next(s, Check(a)), c) == Owners(s, c)
  {
    hide ISum;
    AdderMoves(s, a, if s.adders[a].destination in s.conns then Returned(true) else Dialing, c);
  }

  lemma LoserOwns(s: State, a: nat, c: Conn)
    requires Enabled(s, CloseLoser(a))
    ensures Owners(Next(s, CloseLoser(a)), c) == Owners(s, c)
  {
    hide ISum;
    AdderMoves(s, a, Returned(true), c);
    CloseOne(s.closed, s.adders[a].progress.conn, c);
  }

  // ---- Runs

  ghost predicate Leads(s: State, step: Step, next: State) {
    Enabled(s, step) && next == Next(s, step)
  }

  ghost predicate Run(states: seq<State>, steps: seq<Step>) {
    && |states| == |steps| + 1
    && states[0] == START
    && forall t :: 0 <= t < |steps| ==> Leads(states[t], steps[t], states[t + 1])
  }

  lemma {:induction false} RunInvariant(states: seq<State>, steps: seq<Step>, t: nat)
    requires Run(states, steps) && t < |states|
    ensures Invariant(states[t])
  {
    hide Enabled, Next, Owned, Filed;
    if t == 0 {
      StartInvariant();
    } else {
      RunInvariant(states, steps, t - 1);
      assert Leads(states[t - 1], steps[t - 1], states[t]);
      StepFiles(states[t - 1], steps[t - 1]);
      StepOwns(states[t - 1], steps[t - 1]);
    }
  }

  lemma StartInvariant()
    ensures Invariant(START)
  {
  }

  /**
    Whatever calls of Add, Delete and Clear interleave, a dialled connection is in
    exactly one of three places, a connection in the map is filed under its own
    destination and not closed, and none is closed twice.
   */
  lemma {:induction false} ConnectionsOwned(states: seq<State>, steps: seq<Step>, t: nat, c: Conn)
    requires Run(states, steps) && t < |states| && c < |states[t].dialled|
    ensures InMap(states[t], c) + ISum(HoldsConn(c), states[t].adders) + ISum(Is(c), states[t].closed) == 1
    ensures forall d :: d in states[t].conns && states[t].conns[d] == c ==>
              d == states[t].dialled[c] && c !in states[t].closed
    ensures forall i, j :: 0 <= i < j < |states[t].closed| && states[t].closed[i] == c ==> states[t].closed[j] != c
  {
    hide Run, ISum;
    RunInvariant(states, steps, t);
    var s := states[t];
    assert Owners(s, c) == 1;
    HoldersNonNegative(c, s.adders);
    ClosedTimes(c, s.closed);
  }

  lemma {:induction false} HoldersNonNegative(c: Conn, adders: seq<Adder>)
    ensures ISum(HoldsConn(c), adders) >= 0
  {
    if adders != [] {
      HoldersNonNegative(c, adders[1..]);
    }
  }

  lemma {:induction false} ClosedTimes(c: Conn, closed: seq<Conn>)
    ensures ISum(Is(c), closed) >= 0
    ensures c in closed ==> ISum(Is(c), closed) >= 1
    ensures ISum(Is(c), closed) <= 1 ==> forall i, j :: 0 <= i < j < |closed| && closed[i] == c ==> closed[j] != c
  {
    if closed != [] {
      ClosedTimes(c, closed[1..]);
      assert forall i :: 1 <= i < |closed| ==> closed[i] == closed[1..][i - 1];
    }
  }
}
