/** Of what the centroids of every digest in the network are made. */
module Makeup {
  import opened Centroids
  import opened Digests
  import opened Samplers
  import opened Worker
  import opened FlushLaws
  import opened Network
  import opened HistoQuantities

  ghost predicate HistosMade(arc: real -> real, m: map<MetricKey, Histo>) {
    forall k :: k in m ==> Made(arc, m[k].digest, m[k].adds)
  }

  ghost predicate WorkerMade(arc: real -> real, wm: WorkerMetrics) {
    && HistosMade(arc, wm.histograms) && HistosMade(arc, wm.timers)
    && HistosMade(arc, wm.localHistograms) && HistosMade(arc, wm.localTimers)
  }

  ghost predicate AllMade(net: Topology, workers: seq<seq<WorkerMetrics>>) {
    forall i, w :: 0 <= i < |workers| && i < |net| && 0 <= w < |workers[i]| ==> WorkerMade(net[i].arc, workers[i][w])
  }

  lemma NewMade(arc: real -> real, name: string, tags: seq<string>)
    ensures Made(arc, NewHisto(name, tags).digest, NewHisto(name, tags).adds)
  {
  }

  lemma AfterMade(arc: real -> real, m: map<MetricKey, Histo>, chosen: bool, x: UDPMetric, e: Encoded)
    requires HistosMade(arc, m)
    requires chosen && Addable(x) ==>
               var h := At(m, x.key, NewHisto(x.key.name, x.tags));
               Took(arc, h.adds, h.digest, x.value.number.value, SampleWeight(x.sampleRate.value), e)
    ensures HistosMade(arc, Updated(m, chosen, x.key, HistoAfter(m, x, e)))
  {
    hide Made, Sane, Weight, Moment, AddReciprocal, Lower, Upper;
    NewMade(arc, x.key.name, x.tags);
  }

  lemma CombinedMade(arc: real -> real, m: map<MetricKey, Histo>, chosen: bool, j: JSONMetric, e: Encoded)
    requires HistosMade(arc, m)
    requires chosen && j.value.DigestValue? ==>
               var h := At(m, j.key, NewHisto(j.key.name, j.tags)); Joined(arc, h.adds, h.digest, j.value.digest, e)
    ensures HistosMade(arc, Updated(m, chosen, j.key,
                                    CombineHisto(At(m, j.key, NewHisto(j.key.name, j.tags)), j.value, e)))
  {
    hide Made, Sane, Weight, Moment, IsLowest, IsHighest;
    NewMade(arc, j.key.name, j.tags);
  }

  lemma ProcessedMade(arc: real -> real, wm: WorkerMetrics, m: UDPMetric, e: Encoded)
    requires WorkerMade(arc, wm) && Sampled(arc, wm, m, e)
    ensures WorkerMade(arc, Processed(wm, m, e))
  {
    hide HistosMade, Processed, HistoAfter, Took, NewHisto, Addable;
    ProcessedHistos(wm, m, e);
    var h, t, local := m.key.kind.Histograms?, m.key.kind.Timers?, m.scope.LocalOnly?;
    AfterMade(arc, wm.histograms, h && !local, m, e);
    AfterMade(arc, wm.timers, t && !local, m, e);
    AfterMade(arc, wm.localHistograms, h && local, m, e);
    AfterMade(arc, wm.localTimers, t && local, m, e);
  }

  lemma ImportedMade(arc: real -> real, wm: WorkerMetrics, j: JSONMetric, e: Encoded)
    requires WorkerMade(arc, wm) && Combined(arc, wm, j, e)
    ensures WorkerMade(arc, Imported(wm, j, e))
  {
    hide HistosMade, Imported, CombineHisto, Joined, NewHisto;
    ImportedHistos(wm, j, e);
    CombinedMade(arc, wm.histograms, j.key.kind.Histograms?, j, e);
    CombinedMade(arc, wm.timers, j.key.kind.Timers?, j, e);
  }

  lemma PutMade(net: Topology, workers: seq<seq<WorkerMetrics>>, i: nat, w: nat, wm: WorkerMetrics)
    requires AllMade(net, workers) && i < |workers| && w < |workers[i]| && i < |net| && WorkerMade(net[i].arc, wm)
    ensures AllMade(net, Put(workers, i, w, wm))
  {
    hide WorkerMade;
  }

  lemma StepMade(net: Topology, s: System, step: Step)
    requires Shaped(net, s) && Enabled(net, s, step) && AllMade(net, s.workers)
    ensures AllMade(net, After(net, s, step).workers)
  {
    hide AllMade, WorkerMade, Sampled, Combined, Processed, Imported, Put, KeyHash, WellFormed;
    match step
    case Sample(i, m, e) =>
      var w := Home(m, net[i]);
      HereMade(net, s.workers, i, w);
      ProcessedMade(net[i].arc, s.workers[i][w], m, e);
      PutMade(net, s.workers, i, w, Processed(s.workers[i][w], m, e));
    case Flush(i, w, o) =>
      NothingMade(net[i].arc);
      PutMade(net, s.workers, i, w, EMPTY);
    case Deliver(n, d, e) =>
      var j := s.flight[n].metric;
      var w := Route(j.key, net[d].workers);
      HereMade(net, s.workers, d, w);
      ImportedMade(net[d].arc, s.workers[d][w], j, e);
      PutMade(net, s.workers, d, w, Imported(s.workers[d][w], j, e));
    case Drop(n) =>
  }

  lemma HereMade(net: Topology, workers: seq<seq<WorkerMetrics>>, i: nat, w: nat)
    requires AllMade(net, workers) && i < |workers| && i < |net| && w < |workers[i]|
    ensures WorkerMade(net[i].arc, workers[i][w])
  {
    hide WorkerMade;
  }

  lemma NothingMade(arc: real -> real)
    ensures WorkerMade(arc, EMPTY)
  {
  }

  lemma StartMade(net: Topology)
    ensures AllMade(net, Start(net).workers)
  {
    hide WorkerMade, Idle, IdleFrom;
    var workers := IdleFrom(net);
    IdleFromAt(net, 0);
    forall i, w | 0 <= i < |net| && 0 <= w < |workers[i]|
      ensures WorkerMade(net[i].arc, workers[i][w])
    {
      IdleFromAt(net, i);
      IdleAt(net[i].workers, w);
      NothingMade(net[i].arc);
    }
  }

  lemma {:induction false} RunMade(net: Topology, states: seq<System>, steps: seq<Step>, t: nat)
    requires Run(net, states, steps) && t < |states|
    ensures AllMade(net, states[t].workers)
  {
    hide AllMade, After, Enabled, Shaped, Start;
    if t == 0 {
      StartMade(net);
    } else {
      RunMade(net, states, steps, t - 1);
      assert Leads(net, states[t - 1], steps[t - 1], states[t]);
      StepMade(net, states[t - 1], steps[t - 1]);
    }
  }

  /**
    In every reachable state, each centroid of a held digest is a sample taken here,
    a centroid merged in, or spanned at most one unit of k in a pass over some of these.
   */
  lemma {:induction false} DigestsMade(net: Topology, states: seq<System>, steps: seq<Step>, t: nat, i: nat, w: nat,
      k: MetricKey)
    requires Run(net, states, steps) && t < |states| && i < |states[t].workers| && w < |states[t].workers[i]|
    ensures var wm := states[t].workers[i][w];
            && i < |net|
            && (k in wm.histograms ==> Made(net[i].arc, wm.histograms[k].digest, wm.histograms[k].adds))
            && (k in wm.timers ==> Made(net[i].arc, wm.timers[k].digest, wm.timers[k].adds))
            && (k in wm.localHistograms ==> Made(net[i].arc, wm.localHistograms[k].digest, wm.localHistograms[k].adds))
            && (k in wm.localTimers ==> Made(net[i].arc, wm.localTimers[k].digest, wm.localTimers[k].adds))
  {
    hide Run, Made, Kept, Homed;
    RunInvariant(net, states, steps, t);
    RunMade(net, states, steps, t);
    HereMade(net, states[t].workers, i, w);
  }
}
