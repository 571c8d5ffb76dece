/**
  The concurrent half of sendMetrics: a goroutine per batch, one that closes the
  error channel once all of them are done, and the caller that drains it.
 */
module ProxySend {
  import opened Destinations
  import opened Options
  import opened Sums
  import opened ProxyBatches

  /** Blocked is at the send on the unbuffered channel, Leaving before the deferred wg.Done. */
  datatype Progress = Unstarted | Forwarding | Blocked | Leaving(failed: bool) | Finished(failed: bool)

  datatype Forwarder = Forwarder(destination: Destination, batch: seq<Metric>, progress: Progress)

  datatype Closer = Absent | Waiting | HasClosed

  datatype Caller = Spawning(next: nat) | Collecting | Returned

  datatype State = State(
    forwarders: seq<Forwarder>, group: int, closer: Closer, caller: Caller, errs: seq<ForwardError>)

  datatype Step =
    | Spawn
    | SpawnCloser
    | ForwardReturns(forwarder: nat, failed: bool)
    | Handover(forwarder: nat)
    | Done(forwarder: nat)
    | Close
    | Return

  /** One goroutine per batch, in whatever order the map is ranged over. */
  function Launched(dests: map<Destination, seq<Metric>>, order: seq<Destination>): seq<Forwarder>
    requires forall i :: 0 <= i < |order| ==> order[i] in dests
  {
    if order == [] then []
    else [Forwarder(order[0], dests[order[0]], Unstarted)] + Launched(dests, order[1..])
  }

  function Start(dests: map<Destination, seq<Metric>>, order: seq<Destination>, errs: seq<ForwardError>): State
    requires forall i :: 0 <= i < |order| ==> order[i] in dests
  {
    State(Launched(dests, order), |order|, Absent, Spawning(0), errs)
  }

  predicate IsAt(s: State, i: nat, p: Progress) {
    i < |s.forwarders| && s.forwarders[i].progress == p
  }

  predicate Enabled(s: State, step: Step) {
    match step
    case Spawn => s.caller.Spawning? && s.caller.next < |s.forwarders|
    case SpawnCloser => s.caller.Spawning? && s.caller.next >= |s.forwarders|
    case ForwardReturns(i, failed) => IsAt(s, i, Forwarding)
    case Handover(i) => IsAt(s, i, Blocked) && s.caller.Collecting? && !s.closer.HasClosed?
    case Done(i) => i < |s.forwarders| && s.forwarders[i].progress.Leaving?
    case Close => s.closer.Waiting? && s.group == 0
    case Return => s.caller.Collecting? && s.closer.HasClosed?
  }

  function ErrorOf(f: Forwarder): ForwardError {
    ForwardFailed(f.destination, |f.batch|)
  }

  /** The goroutine that a step moves on, and where to. */
  function Target(s: State, step: Step): (r: Option<(nat, Progress)>)
    requires Enabled(s, step)
    ensures r.Some? ==> r.value.0 < |s.forwarders|
  {
    match step
    case Spawn => Some((s.caller.next, Forwarding))
    case ForwardReturns(i, failed) => Some((i, if failed then Blocked else Leaving(false)))
    case Handover(i) => Some((i, Leaving(true)))
    case Done(i) => Some((i, Finished(s.forwarders[i].progress.failed)))
    case _ => None
  }

  function Moved(fs: seq<Forwarder>, target: Option<(nat, Progress)>): seq<Forwarder>
    requires target.Some? ==> target.value.0 < |fs|
  {
    if target.None? then fs else fs[target.value.0 := fs[target.value.0].(progress := target.value.1)]
  }

  function Next(s: State, step: Step): State
    requires Enabled(s, step)
  {
    var moved := s.(forwarders := Moved(s.forwarders, Target(s, step)));
    match step
    case Spawn => moved.(caller := Spawning(s.caller.next + 1))
    case SpawnCloser => moved.(closer := Waiting, caller := Collecting)
    case ForwardReturns(i, failed) => moved
    case Handover(i) => moved.(errs := s.errs + [ErrorOf(s.forwarders[i])])
    case Done(i) => moved.(group := s.group - 1)
    case Close => moved.(closer := HasClosed)
    case Return => moved.(caller := Returned)
  }

  /** What a step does to the total of a measure of goroutines. */
  lemma StepShifts(f: Forwarder -> int, s: State, step: Step)
    requires Enabled(s, step)
    ensures ISum(f, Next(s, step).forwarders) == ISum(f, s.forwarders) + Shift(f, s.forwarders, Target(s, step))
  {
    hide ISum;
    var target := Target(s, step);
    if target.Some? {
      var (i, p) := target.value;
      ISumUpdate(f, s.forwarders, i, s.forwarders[i].(progress := p));
    }
  }

  function Shift(f: Forwarder -> int, fs: seq<Forwarder>, target: Option<(nat, Progress)>): int
    requires target.Some? ==> target.value.0 < |fs|
  {
    if target.None? then 0
    else f(fs[target.value.0].(progress := target.value.1)) - f(fs[target.value.0])
  }

  // ---- The invariant

  function Unfinished(): Forwarder -> int {
    (f: Forwarder) => if f.progress.Finished? then 0 else 1
  }

  /** Which goroutines exist depends on how far the caller has come. */
  predicate Phased(s: State) {
    match s.caller
    case Spawning(n) =>
      n <= |s.forwarders| && s.closer.Absent?
      && forall i :: 0 <= i < |s.forwarders| ==> (s.forwarders[i].progress.Unstarted? <==> i >= n)
    case Collecting => !s.closer.Absent? && forall i :: 0 <= i < |s.forwarders| ==> !s.forwarders[i].progress.Unstarted?
    case Returned => s.closer.HasClosed? && forall i :: 0 <= i < |s.forwarders| ==> !s.forwarders[i].progress.Unstarted?
  }

  predicate Invariant(s: State) {
    && Phased(s)
    && s.group == ISum(Unfinished(), s.forwarders)
    && (s.closer.HasClosed? ==> s.group == 0)
  }

  lemma {:induction false} UnfinishedCount(fs: seq<Forwarder>)
    ensures ISum(Unfinished(), fs) >= 0
    ensures ISum(Unfinished(), fs) == 0 <==> forall i :: 0 <= i < |fs| ==> fs[i].progress.Finished?
  {
    if fs != [] {
      UnfinishedCount(fs[1..]);
      assert forall i :: 1 <= i < |fs| ==> fs[i] == fs[1..][i - 1];
      assert fs[0] == fs[0];
    }
  }

  lemma {:induction false} LaunchedFresh(dests: map<Destination, seq<Metric>>, order: seq<Destination>)
    requires forall i :: 0 <= i < |order| ==> order[i] in dests
    ensures var fs := Launched(dests, order);
            && |fs| == |order|
            && (forall i :: 0 <= i < |fs| ==> fs[i].progress.Unstarted?)
            && ISum(Unfinished(), fs) == |order|
  {
    if order != [] {
      LaunchedFresh(dests, order[1..]);
      var rest := Launched(dests, order[1..]);
      assert ([Forwarder(order[0], dests[order[0]], Unstarted)] + rest)[1..] == rest;
    }
  }

  lemma {:induction false} StepKeeps(s: State, step: Step)
    requires Invariant(s) && Enabled(s, step)
    ensures Invariant(Next(s, step))
  {
    hide ISum;
    UnfinishedCount(s.forwarders);
    StepShifts(Unfinished(), s, step);
  }

  /** No goroutine is at or before its send when the channel is closed, and the group never goes negative. */
  lemma NoSendOnClosed(s: State, i: nat)
    requires Invariant(s) && i < |s.forwarders|
    ensures s.closer.HasClosed? ==> s.forwarders[i].progress.Finished?
    ensures s.forwarders[i].progress.Leaving? ==> s.group > 0
  {
    hide ISum;
    UnfinishedCount(s.forwarders);
  }

  // ---- Termination

  function Rank(): Forwarder -> int {
    (f: Forwarder) =>
      match f.progress
      case Unstarted => 4
      case Forwarding => 3
      case Blocked => 2
      case Leaving(_) => 1
      case Finished(_) => 0
  }

  function Remaining(s: State): int {
    ISum(Rank(), s.forwarders)
    + (match s.closer case Absent => 2 case Waiting => 1 case HasClosed => 0)
    + (match s.caller case Spawning(_) => 2 case Collecting => 1 case Returned => 0)
  }

  lemma {:induction false} RankNonNegative(fs: seq<Forwarder>)
    ensures ISum(Rank(), fs) >= 0
  {
    if fs != [] {
      RankNonNegative(fs[1..]);
    }
  }

  /** Every step brings the end nearer. */
  lemma StepAdvances(s: State, step: Step)
    requires Invariant(s) && Enabled(s, step)
    ensures 0 <= Remaining(Next(s, step)) < Remaining(s)
  {
    hide ISum;
    RankNonNegative(Next(s, step).forwarders);
    StepShifts(Rank(), s, step);
  }

  ghost predicate Moves(s: State) {
    exists step :: Enabled(s, step) && !step.ForwardReturns?
  }

  /** Until the caller returns, only a forward call that has not returned can hold everything up. */
  lemma {:induction false} OnlyForwardWaits(s: State)
    requires Invariant(s) && !s.caller.Returned?
    ensures Moves(s) || exists i: nat :: IsAt(s, i, Forwarding)
  {
    hide ISum;
    UnfinishedCount(s.forwarders);
    if s.caller.Spawning? {
      assert Enabled(s, Spawn) || Enabled(s, SpawnCloser);
    } else if s.group == 0 {
      assert Enabled(s, Close) || Enabled(s, Return);
    } else {
      var i: nat :| i < |s.forwarders| && !s.forwarders[i].progress.Finished?;
      assert Enabled(s, Handover(i)) || Enabled(s, Done(i)) || IsAt(s, i, Forwarding);
    }
  }

  // ---- Accounting

  /** The share of a measure of errors that a goroutine has reported. */
  function Reported(g: ForwardError -> int): Forwarder -> int {
    (f: Forwarder) =>
      if (f.progress.Leaving? || f.progress.Finished?) && f.progress.failed then g(ErrorOf(f)) else 0
  }

  /** Under every measure the caller has collected exactly the errors that were there or were reported. */
  predicate Tallied(g: ForwardError -> int, before: seq<ForwardError>, s: State) {
    ISum(g, s.errs) == ISum(g, before) + ISum(Reported(g), s.forwarders)
  }

  lemma StepTallies(g: ForwardError -> int, before: seq<ForwardError>, s: State, step: Step)
    requires Invariant(s) && Enabled(s, step) && Tallied(g, before, s)
    ensures Tallied(g, before, Next(s, step))
  {
    hide ISum;
    StepShifts(Reported(g), s, step);
    if step.Handover? {
      ISumConcat(g, s.errs, [ErrorOf(s.forwarders[step.forwarder])]);
      ISumOne(g, ErrorOf(s.forwarders[step.forwarder]));
    }
    if Target(s, step).Some? {
      var (i, p) := Target(s, step).value;
      assert ErrorOf(s.forwarders[i].(progress := p)) == ErrorOf(s.forwarders[i]);
    }
  }

  function Size(): Forwarder -> int {
    (f: Forwarder) => |f.batch|
  }

  lemma StepKeepsBatches(s: State, step: Step)
    requires Enabled(s, step)
    ensures ISum(Size(), Next(s, step).forwarders) == ISum(Size(), s.forwarders)
  {
    StepShifts(Size(), s, step);
  }

  // ---- Runs

  ghost predicate Leads(s: State, step: Step, next: State) {
    Enabled(s, step) && next == Next(s, step)
  }

  /** Any interleaving of the goroutines of one sendMetrics call. */
  ghost predicate Run(start: State, states: seq<State>, steps: seq<Step>) {
    && |states| == |steps| + 1
    && states[0] == start
    && forall t :: 0 <= t < |steps| ==> Leads(states[t], steps[t], states[t + 1])
  }

  lemma {:induction false} RunKeeps(g: ForwardError -> int, start: State, states: seq<State>, steps: seq<Step>, t: nat)
    requires Run(start, states, steps) && t < |states|
    requires Invariant(start) && Tallied(g, start.errs, start)
    ensures Invariant(states[t]) && Tallied(g, start.errs, states[t])
    ensures ISum(Size(), states[t].forwarders) == ISum(Size(), start.forwarders)
    ensures 0 <= Remaining(states[t]) <= Remaining(start) - t
  {
    hide Invariant, Tallied, Enabled, Remaining, Size, ISum;
    if t == 0 {
      RemainingNonNegative(start);
    } else {
      RunKeeps(g, start, states, steps, t - 1);
      assert Leads(states[t - 1], steps[t - 1], states[t]);
      StepKeeps(states[t - 1], steps[t - 1]);
      StepTallies(g, start.errs, states[t - 1], steps[t - 1]);
      StepKeepsBatches(states[t - 1], steps[t - 1]);
      StepAdvances(states[t - 1], steps[t - 1]);
    }
  }

  lemma RemainingNonNegative(s: State)
    ensures Remaining(s) >= 0
  {
    RankNonNegative(s.forwarders);
  }

  // ---- A whole call

  lemma StartsWell(g: ForwardError -> int, dests: map<Destination, seq<Metric>>, order: seq<Destination>,
      errs: seq<ForwardError>)
    requires forall i :: 0 <= i < |order| ==> order[i] in dests
    ensures var s := Start(dests, order, errs); Invariant(s) && Tallied(g, errs, s)
  {
    hide ISum, Launched;
    LaunchedFresh(dests, order);
    ISumZero(Reported(g), Launched(dests, order));
  }

  function One<T>(): T -> int {
    (x: T) => 1
  }

  lemma {:induction false} OnesCount<T>(s: seq<T>)
    ensures ISum(One(), s) == |s|
  {
    if s != [] {
      OnesCount(s[1..]);
    }
  }

  lemma {:induction false} LaunchedSizes(dests: map<Destination, seq<Metric>>, order: seq<Destination>)
    requires forall i :: 0 <= i < |order| ==> order[i] in dests
    ensures ISum(Size(), Launched(dests, order)) == |Walk(dests, order, BatchesIn())|
    decreases |order|
  {
    if order != [] {
      LaunchedSizes(dests, order[1..]);
      var rest := Launched(dests, order[1..]);
      assert ([Forwarder(order[0], dests[order[0]], Unstarted)] + rest)[1..] == rest;
    }
  }

  lemma {:induction false} ErrorsCount(metrics: seq<Metric>)
    ensures ISum(NumMetrics(), Errors(metrics)) == |metrics|
  {
    if metrics != [] {
      var n := |metrics| - 1;
      ErrorsCount(metrics[..n]);
      ISumConcat(NumMetrics(), Errors(metrics[..n]), [NoDestination(metrics[n])]);
      ISumOne(NumMetrics(), NoDestination(metrics[n]));
    }
  }

  lemma StartCount(ring: Ring, metrics: seq<Metric>, dests: map<Destination, seq<Metric>>, order: seq<Destination>)
    requires Grouped(ring, metrics, dests) && Visits(order, dests)
    ensures ISum(Size(), Launched(dests, order)) + ISum(NumMetrics(), Errors(Undeliverable(ring, metrics))) == |metrics|
  {
    hide ISum, Walk, Launched, Grouped, Errors, Undeliverable;
    GroupingLosesNothing(One(), ring, metrics, dests, order);
    OnesCount(metrics);
    OnesCount(Walk(dests, order, BatchesIn()));
    OnesCount(Undeliverable(ring, metrics));
    LaunchedSizes(dests, order);
    ErrorsCount(Undeliverable(ring, metrics));
  }

  /** Metrics in batches that went through. */
  function Delivered(): Forwarder -> int {
    (f: Forwarder) => if f.progress.Finished? && !f.progress.failed then |f.batch| else 0
  }

  lemma {:induction false} DeliveredOrFailed(fs: seq<Forwarder>)
    requires forall i :: 0 <= i < |fs| ==> fs[i].progress.Finished?
    ensures ISum(Size(), fs) == ISum(Delivered(), fs) + ISum(Reported(NumMetrics()), fs)
  {
    if fs != [] {
      DeliveredOrFailed(fs[1..]);
      assert NumMetrics()(ErrorOf(fs[0])) == |fs[0].batch|;
    }
  }

  /**
    Whatever the interleaving: a call takes boundedly many steps, and once it has
    returned every goroutine is done, the errors collected are the undeliverable
    metrics and one per failed batch, and delivered plus failed metrics make up
    the request.
   */
  lemma {:induction false} SendAccounts(ring: Ring, metrics: seq<Metric>, dests: map<Destination, seq<Metric>>,
      order: seq<Destination>, g: ForwardError -> int, states: seq<State>, steps: seq<Step>, t: nat)
    requires Grouped(ring, metrics, dests) && Visits(order, dests)
    requires Run(Start(dests, order, Errors(Undeliverable(ring, metrics))), states, steps)
    requires t < |states| && states[t].caller.Returned?
    ensures t <= Remaining(states[0])
    ensures Tallied(g, Errors(Undeliverable(ring, metrics)), states[t])
    ensures forall i :: 0 <= i < |states[t].forwarders| ==> states[t].forwarders[i].progress.Finished?
    ensures ISum(Delivered(), states[t].forwarders) + ISum(NumMetrics(), states[t].errs) == |metrics|
  {
    hide ISum, Grouped, Launched, Errors, Undeliverable, Remaining;
    var errs := Errors(Undeliverable(ring, metrics));
    var start := Start(dests, order, errs);
    StartsWell(g, dests, order, errs);
    StartsWell(NumMetrics(), dests, order, errs);
    RunKeeps(g, start, states, steps, t);
    RunKeeps(NumMetrics(), start, states, steps, t);
    UnfinishedCount(states[t].forwarders);
    DeliveredOrFailed(states[t].forwarders);
    StartCount(ring, metrics, dests, order);
  }

  /** In no interleaving does a goroutine reach its send on a closed channel or take the group below zero. */
  lemma {:induction false} SendSafe(dests: map<Destination, seq<Metric>>, order: seq<Destination>,
      errs: seq<ForwardError>, states: seq<State>, steps: seq<Step>, t: nat, i: nat)
    requires Visits(order, dests) && Run(Start(dests, order, errs), states, steps)
    requires t < |states| && i < |states[t].forwarders|
    ensures states[t].closer.HasClosed? ==> states[t].forwarders[i].progress.Finished?
    ensures states[t].forwarders[i].progress.Leaving? ==> states[t].group > 0
  {
    hide ISum, Launched, Run, Invariant, Remaining;
    StartsWell(NumMetrics(), dests, order, errs);
    RunKeeps(NumMetrics(), Start(dests, order, errs), states, steps, t);
    NoSendOnClosed(states[t], i);
  }

  /** Every run is finite, and one that cannot go on has returned. */
  lemma {:induction false} SendEnds(dests: map<Destination, seq<Metric>>, order: seq<Destination>,
      errs: seq<ForwardError>, states: seq<State>, steps: seq<Step>)
    requires Visits(order, dests) && Run(Start(dests, order, errs), states, steps)
    ensures |steps| <= Remaining(states[0])
    ensures (forall step :: !Enabled(states[|steps|], step)) ==> states[|steps|].caller.Returned?
  {
    hide ISum, Launched, Invariant, Remaining;
    StartsWell(NumMetrics(), dests, order, errs);
    RunKeeps(NumMetrics(), Start(dests, order, errs), states, steps, |steps|);
    var last := states[|steps|];
    if !last.caller.Returned? {
      OnlyForwardWaits(last);
      if !Moves(last) {
        var i: nat :| IsAt(last, i, Forwarding);
        assert Enabled(last, ForwardReturns(i, false));
      }
    }
  }
}
