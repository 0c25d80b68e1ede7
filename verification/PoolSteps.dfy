/** Every step of the pool keeps the invariant. */
module PoolSteps {
  import opened Pool
  import opened PoolInvariant

  // ----- conservation

  lemma EnqueueConserves(p: State, s: nat)
    requires Conserved(p) && Enabled(p, Step.Enqueue(s))
    ensures Conserved(Next(p, Step.Enqueue(s)))
  {
    var p' := Next(p, Step.Enqueue(s));
    forall work ensures Places(p', work) == if Fed(p', work) then 1 else 0 {
      assert Places(p, work) == if Fed(p, work) then 1 else 0;
      assert Reports(p'.subs[s]) == Reports(p.subs[s]);
    }
  }

  lemma HandoffConserves(p: State, s: nat, w: nat)
    requires Conserved(p) && Enabled(p, Handoff(s, w))
    ensures Conserved(Next(p, Handoff(s, w)))
  {
    var p' := Next(p, Handoff(s, w));
    forall work ensures Places(p', work) == if Fed(p', work) then 1 else 0 {
      assert Places(p, work) == if Fed(p, work) then 1 else 0;
      assert Reports(p'.subs[s]) == Reports(p.subs[s]);
      SumUpdate(p.workers, w, p'.workers[w], HoldOf(work));
    }
  }

  lemma TakeConserves(p: State, w: nat)
    requires Conserved(p) && Enabled(p, Take(w))
    ensures Conserved(Next(p, Take(w)))
  {
    var p' := Next(p, Take(w));
    assert p.queue == [p.queue[0]] + p'.queue;
    forall work ensures Places(p', work) == if Fed(p', work) then 1 else 0 {
      assert Places(p, work) == if Fed(p, work) then 1 else 0;
      SumUpdate(p.workers, w, p'.workers[w], HoldOf(work));
    }
  }

  lemma FinishConserves(p: State, w: nat, outcome: Outcome)
    requires Conserved(p) && Enabled(p, Finish(w, outcome))
    ensures Conserved(Next(p, Finish(w, outcome)))
  {
    var p' := Next(p, Finish(w, outcome));
    forall work ensures Places(p', work) == if Fed(p', work) then 1 else 0 {
      assert Places(p, work) == if Fed(p, work) then 1 else 0;
      SumUpdate(p.workers, w, p'.workers[w], HoldOf(work));
    }
  }

  lemma IdxsAppend(rs: seq<TaskResult>, r: TaskResult)
    ensures Idxs(rs + [r]) == Idxs(rs) + [r.idx]
  {
  }

  lemma ReportMoves(p: State, p': State, done: Work, r: TaskResult, work: Work)
    requires |p'.subs| == |p.subs| && done.sub < |p.subs| && r.idx == done.idx
    requires Idxs(Reports(p'.subs[done.sub])) == Idxs(Reports(p.subs[done.sub])) + [r.idx]
    requires forall s :: 0 <= s < |p.subs| && s != done.sub ==> p'.subs[s] == p.subs[s]
    ensures ReportedCount(p', work) == ReportedCount(p, work) + if work == done then 1 else 0
  {
    TimesAppend(Idxs(Reports(p.subs[done.sub])), r.idx, work.idx);
  }

  lemma ReportAppends(p: State, w: nat)
    requires Enabled(p, Report(w))
    ensures var work, p' := p.workers[w].work, Next(p, Report(w));
            && |p'.subs| == |p.subs| && p'.queue == p.queue && p'.workers == p.workers[w := Worker.Reported(work)]
            && (forall s :: 0 <= s < |p.subs| ==> p'.subs[s].fed == p.subs[s].fed)
            && (forall s :: 0 <= s < |p.subs| && s != work.sub ==> p'.subs[s] == p.subs[s])
            && Idxs(Reports(p'.subs[work.sub])) == Idxs(Reports(p.subs[work.sub])) + [work.idx]
  {
    var work := p.workers[w].work;
    var r := TaskResult(work.idx, p.workers[w].outcome);
    assert Reports(Next(p, Report(w)).subs[work.sub]) == Reports(p.subs[work.sub]) + [r];
    IdxsAppend(Reports(p.subs[work.sub]), r);
  }

  lemma ReportConserves(p: State, w: nat)
    requires Conserved(p) && Enabled(p, Report(w))
    ensures Conserved(Next(p, Report(w)))
  {
    var p', done := Next(p, Report(w)), p.workers[w].work;
    ReportAppends(p, w);
    forall work ensures Places(p', work) == if Fed(p', work) then 1 else 0 {
      assert Places(p, work) == if Fed(p, work) then 1 else 0;
      SumUpdate(p.workers, w, p'.workers[w], HoldOf(work));
      ReportMoves(p, p', done, TaskResult(done.idx, p.workers[w].outcome), work);
    }
  }

  lemma DoneConserves(p: State, w: nat)
    requires Conserved(p) && Enabled(p, Done(w))
    ensures Conserved(Next(p, Done(w)))
  {
    var p' := Next(p, Done(w));
    assert Reports(p'.subs[p.workers[w].work.sub]) == Reports(p.subs[p.workers[w].work.sub]);
    forall work ensures Places(p', work) == if Fed(p', work) then 1 else 0 {
      assert Places(p, work) == if Fed(p, work) then 1 else 0;
      SumUpdate(p.workers, w, p'.workers[w], HoldOf(work));
    }
  }

  /** Steps that leave the queue, the held tasks and the reports as they are. */
  lemma QuietConserves(p: State, p': State)
    requires Conserved(p) && p'.queue == p.queue && |p'.subs| >= |p.subs|
    requires p'.workers == p.workers || exists w: nat :: InState(p, w, Idle) && p'.workers == p.workers[w := Exited]
    requires forall s :: 0 <= s < |p.subs| ==> p'.subs[s].fed == p.subs[s].fed && Reports(p'.subs[s]) == Reports(p.subs[s])
    requires forall s :: |p.subs| <= s < |p'.subs| ==> p'.subs[s].fed == 0 && Reports(p'.subs[s]) == []
    ensures Conserved(p')
  {
    forall work ensures Places(p', work) == if Fed(p', work) then 1 else 0 {
      assert Places(p, work) == if Fed(p, work) then 1 else 0;
      if p'.workers != p.workers {
        var w: nat :| InState(p, w, Idle) && p'.workers == p.workers[w := Exited];
        SumUpdate(p.workers, w, Exited, HoldOf(work));
      }
    }
  }

  lemma StepConserves(p: State, step: Step)
    requires Conserved(p) && Enabled(p, step)
    ensures Conserved(Next(p, step))
  {
    match step
    case Enqueue(s) => EnqueueConserves(p, s);
    case Handoff(s, w) => HandoffConserves(p, s, w);
    case Take(w) => TakeConserves(p, w);
    case Finish(w, outcome) => FinishConserves(p, w, outcome);
    case Report(w) => ReportConserves(p, w);
    case Done(w) => DoneConserves(p, w);
    case Exit(w) => assert InState(p, w, Idle); QuietConserves(p, Next(p, step));
    case Collect(s) =>
      var sub := p.subs[s];
      assert sub.results + [sub.buffer[0]] + sub.buffer[1..] == sub.results + sub.buffer;
      QuietConserves(p, Next(p, step));
    case _ => QuietConserves(p, Next(p, step));
  }

  // ----- counters and phases

  /** How a step changes the number of workers of `s` that have yet to call Done. */
  lemma StepSignals(p: State, step: Step, s: nat)
    requires Enabled(p, step)
    ensures Signals(Next(p, step), s) == Signals(p, s)
              + (if step.Report? && p.workers[step.w].work.sub == s then 1 else 0)
              - (if step.Done? && p.workers[step.w].work.sub == s then 1 else 0)
  {
    match step
    case Handoff(_, w) => SumUpdate(p.workers, w, Next(p, step).workers[w], SignalOf(s));
    case Take(w) => SumUpdate(p.workers, w, Next(p, step).workers[w], SignalOf(s));
    case Finish(w, _) => SumUpdate(p.workers, w, Next(p, step).workers[w], SignalOf(s));
    case Report(w) => SumUpdate(p.workers, w, Next(p, step).workers[w], SignalOf(s));
    case Done(w) => SumUpdate(p.workers, w, Next(p, step).workers[w], SignalOf(s));
    case Exit(w) => SumUpdate(p.workers, w, Next(p, step).workers[w], SignalOf(s));
    case _ =>
  }

  lemma FeedSubOk(p: State, step: Step, s: nat)
    requires SubsOk(p) && (step.Enqueue? || step.Handoff?) && Enabled(p, step) && s < |p.subs|
    ensures SubOk(Next(p, step), s)
  {
    StepSignals(p, step, s);
    assert SubOk(p, s);
  }

  lemma ReportSubOk(p: State, w: nat, s: nat)
    requires Conserved(p) && SubsOk(p) && Enabled(p, Report(w)) && s < |p.subs|
    ensures SubOk(Next(p, Report(w)), s)
  {
    StepSignals(p, Report(w), s);
    assert SubOk(p, s);
    if p.workers[w].work.sub == s {
      RoomForReport(p, w);
      if p.subs[s].phase != Rejected { WaitGroupZero(p, s); }
    }
  }

  lemma DoneSubOk(p: State, w: nat, s: nat)
    requires Conserved(p) && SubsOk(p) && RanOk(p) && Enabled(p, Done(w)) && s < |p.subs|
    ensures SubOk(Next(p, Done(w)), s)
  {
    StepSignals(p, Done(w), s);
    assert SubOk(p, s);
    if p.workers[w].work.sub == s {
      assert WorkerRanOk(p.workers[w], p.ran);
      SumNonNegative(p.workers, SignalOf(s));
      assert SignalOf(s)(p.workers[w]) == 1;
      if p.subs[s].phase != Rejected { WaitGroupZero(p, s); }
    }
  }

  lemma SubmitterSubOk(p: State, step: Step, s: nat)
    requires Conserved(p) && SubsOk(p) && (step.Wake? || step.Collect? || step.Return?) && Enabled(p, step) && s < |p.subs|
    ensures SubOk(Next(p, step), s)
  {
    StepSignals(p, step, s);
    assert SubOk(p, s);
    if p.subs[s].phase != Rejected { WaitGroupZero(p, s); }
  }

  lemma OtherSubOk(p: State, step: Step, s: nat)
    requires SubsOk(p) && Enabled(p, step) && s < |p.subs| && !step.Report? && !step.Done?
    requires Next(p, step).subs[..|p.subs|] == p.subs
    ensures SubOk(Next(p, step), s)
  {
    StepSignals(p, step, s);
    assert SubOk(p, s);
    assert Next(p, step).subs[s] == Next(p, step).subs[..|p.subs|][s];
  }

  lemma StepSubOk(p: State, step: Step, s: nat)
    requires Inv(p) && Enabled(p, step) && s < |p.subs|
    ensures SubOk(Next(p, step), s)
  {
    match step
    case Enqueue(_) => FeedSubOk(p, step, s);
    case Handoff(_, _) => FeedSubOk(p, step, s);
    case Report(w) => ReportSubOk(p, w, s);
    case Done(w) => DoneSubOk(p, w, s);
    case Wake(_) => SubmitterSubOk(p, step, s);
    case Collect(_) => SubmitterSubOk(p, step, s);
    case Return(_) => SubmitterSubOk(p, step, s);
    case _ => OtherSubOk(p, step, s);
  }

  lemma StepSubsOk(p: State, step: Step)
    requires Inv(p) && Enabled(p, step)
    ensures SubsOk(Next(p, step))
  {
    var p' := Next(p, step);
    forall s | 0 <= s < |p'.subs| ensures SubOk(p', s) {
      if s < |p.subs| {
        StepSubOk(p, step, s);
      } else {
        NobodySignalsFor(p, s);
      }
    }
  }

  /** No worker works for a submission that does not exist yet. */
  lemma NobodySignalsFor(p: State, s: nat)
    requires RanOk(p) && s >= |p.subs|
    ensures Signals(p, s) == 0
  {
    forall w | 0 <= w < |p.workers| ensures SignalOf(s)(p.workers[w]) == 0 {
      assert WorkerRanOk(p.workers[w], p.ran);
    }
    ZeroSum(p.workers, SignalOf(s));
  }

  // ----- locks

  /** A step that leaves the phase of the submission it changes alone. */
  lemma SamePhaseReaders(p: State, step: Step, s: nat)
    requires s < |p.subs| && Enabled(p, step) && Next(p, step).subs == p.subs[s := Next(p, step).subs[s]]
    requires Next(p, step).subs[s].phase == p.subs[s].phase
    ensures Sum(Next(p, step).subs, ActiveOf()) == Sum(p.subs, ActiveOf())
  {
    SumUpdate(p.subs, s, Next(p, step).subs[s], ActiveOf());
  }

  lemma StepReaders(p: State, step: Step)
    requires p.readers == Sum(p.subs, ActiveOf()) && Enabled(p, step)
    ensures Next(p, step).readers == Sum(Next(p, step).subs, ActiveOf())
  {
    var p' := Next(p, step);
    match step
    case Submit(_) => SumAppend(p.subs, p'.subs[|p.subs|], ActiveOf());
    case Enqueue(s) => SamePhaseReaders(p, step, s);
    case Handoff(s, _) => SamePhaseReaders(p, step, s);
    case Report(w) => SamePhaseReaders(p, step, p.workers[w].work.sub);
    case Done(w) => SamePhaseReaders(p, step, p.workers[w].work.sub);
    case Collect(s) => SamePhaseReaders(p, step, s);
    case Wake(s) => SumUpdate(p.subs, s, p'.subs[s], ActiveOf());
    case Return(s) => SumUpdate(p.subs, s, p'.subs[s], ActiveOf());
    case _ =>
  }

  lemma StepLocksOk(p: State, step: Step)
    requires LocksOk(p) && Enabled(p, step)
    ensures LocksOk(Next(p, step))
  {
    StepReaders(p, step);
  }

  // ----- the history of outcomes

  /** A task that is being fed has never run. */
  lemma FeedRanOk(p: State, step: Step)
    requires RanOk(p) && (step.Enqueue? || step.Handoff?) && Enabled(p, step)
    ensures RanOk(Next(p, step))
  {
    var p' := Next(p, step);
    assert Work(step.s, p.subs[step.s].fed) !in p.ran;
    forall s, i | 0 <= s < |p'.subs| && 0 <= i < |Reports(p'.subs[s])| ensures ReportRanOk(s, Reports(p'.subs[s])[i], p'.ran) {
      assert ReportRanOk(s, Reports(p.subs[s])[i], p.ran);
    }
    forall w | 0 <= w < |p'.workers| ensures WorkerRanOk(p'.workers[w], p'.ran) {
      assert WorkerRanOk(p.workers[w], p.ran);
    }
  }

  /** A task finishes once: no other worker holds it and it is not queued. */
  lemma FinishRanOk(p: State, w: nat, outcome: Outcome)
    requires Conserved(p) && RanOk(p) && Enabled(p, Finish(w, outcome))
    ensures RanOk(Next(p, Finish(w, outcome)))
    ensures p.workers[w].work !in p.ran
  {
    var p' := Next(p, Finish(w, outcome));
    var work := p.workers[w].work;
    HeldMeansOnce(p, w);
    assert WorkerRanOk(p.workers[w], p.ran);
    forall v | 0 <= v < |p'.workers| ensures WorkerRanOk(p'.workers[v], p'.ran) {
      assert WorkerRanOk(p.workers[v], p.ran);
    }
    forall s, i | 0 <= s < |p'.subs| && 0 <= i < |Reports(p'.subs[s])| ensures ReportRanOk(s, Reports(p'.subs[s])[i], p'.ran) {
      assert ReportRanOk(s, Reports(p.subs[s])[i], p.ran);
    }
  }

  lemma ReportRanKept(p: State, w: nat)
    requires RanOk(p) && Enabled(p, Report(w))
    ensures RanOk(Next(p, Report(w)))
  {
    var p' := Next(p, Report(w));
    var work := p.workers[w].work;
    assert WorkerRanOk(p.workers[w], p.ran);
    forall v | 0 <= v < |p'.workers| ensures WorkerRanOk(p'.workers[v], p'.ran) {
      assert WorkerRanOk(p.workers[v], p.ran);
    }
    forall s, i | 0 <= s < |p'.subs| && 0 <= i < |Reports(p'.subs[s])| ensures ReportRanOk(s, Reports(p'.subs[s])[i], p'.ran) {
      if i < |Reports(p.subs[s])| {
        assert ReportRanOk(s, Reports(p.subs[s])[i], p.ran);
        assert Reports(p'.subs[s])[i] == Reports(p.subs[s])[i];
      }
    }
  }

  /** Steps that neither feed nor finish nor report keep the history as it is. */
  lemma QuietRanOk(p: State, p': State)
    requires RanOk(p) && p'.ran == p.ran && |p'.subs| >= |p.subs| && |p'.workers| == |p.workers|
    requires forall work :: work in p'.queue ==> work in p.queue
    requires forall w :: 0 <= w < |p.workers| && p'.workers[w] != p.workers[w] ==>
      p'.workers[w] in {Idle, Exited} || (p'.workers[w].Running? && p'.workers[w].work in p.queue)
    requires forall s :: 0 <= s < |p.subs| ==> p'.subs[s].fed == p.subs[s].fed && Reports(p'.subs[s]) == Reports(p.subs[s])
    requires forall s :: |p.subs| <= s < |p'.subs| ==> Reports(p'.subs[s]) == []
    ensures RanOk(p')
  {
    forall w | 0 <= w < |p'.workers| ensures WorkerRanOk(p'.workers[w], p'.ran) {
      assert WorkerRanOk(p.workers[w], p.ran);
    }
    forall s, i | 0 <= s < |p'.subs| && 0 <= i < |Reports(p'.subs[s])| ensures ReportRanOk(s, Reports(p'.subs[s])[i], p'.ran) {
      assert ReportRanOk(s, Reports(p.subs[s])[i], p.ran);
    }
  }

  lemma QueueOrCollectRanOk(p: State, step: Step)
    requires RanOk(p) && (step.Take? || step.Collect?) && Enabled(p, step)
    ensures RanOk(Next(p, step))
  {
    if step.Take? {
      assert forall work :: work in p.queue[1..] ==> work in p.queue;
    } else {
      var sub := p.subs[step.s];
      assert sub.results + [sub.buffer[0]] + sub.buffer[1..] == sub.results + sub.buffer;
    }
    QuietRanOk(p, Next(p, step));
  }

  /** The steps of Submit and Stop themselves. */
  lemma CallerRanOk(p: State, step: Step)
    requires RanOk(p) && (step.Submit? || step.StopCall? || step.StopRun? || step.Wake? || step.Return?) && Enabled(p, step)
    ensures RanOk(Next(p, step))
  {
    QuietRanOk(p, Next(p, step));
  }

  lemma LeavingRanOk(p: State, step: Step)
    requires RanOk(p) && (step.Done? || step.Exit?) && Enabled(p, step)
    ensures RanOk(Next(p, step))
  {
    QuietRanOk(p, Next(p, step));
  }

  lemma StepRanOk(p: State, step: Step)
    requires Conserved(p) && RanOk(p) && Enabled(p, step)
    ensures RanOk(Next(p, step))
  {
    match step
    case Enqueue(_) => FeedRanOk(p, step);
    case Handoff(_, _) => FeedRanOk(p, step);
    case Finish(w, outcome) => FinishRanOk(p, w, outcome);
    case Report(w) => ReportRanKept(p, w);
    case Collect(_) => QueueOrCollectRanOk(p, step);
    case Take(_) => QueueOrCollectRanOk(p, step);
    case Done(_) => LeavingRanOk(p, step);
    case Exit(_) => LeavingRanOk(p, step);
    case _ => CallerRanOk(p, step);
  }

  /** Every step of the pool, by whichever goroutine, keeps the invariant. */
  lemma StepKeepsInv(p: State, step: Step)
    requires Inv(p) && Enabled(p, step)
    ensures Inv(Next(p, step))
  {
    StepConserves(p, step);
    StepSubsOk(p, step);
    StepLocksOk(p, step);
    StepRanOk(p, step);
  }

  lemma InitInv(parallelism: nat, bufferSize: nat)
    ensures Inv(Init(parallelism, bufferSize))
  {
    var p := Init(parallelism, bufferSize);
    forall work ensures HeldCount(p, work) == 0 {
      ZeroSum(p.workers, HoldOf(work));
    }
  }

  lemma {:induction false} ZeroSum(ws: seq<Worker>, f: Worker -> int)
    requires forall w :: 0 <= w < |ws| ==> f(ws[w]) == 0
    ensures Sum(ws, f) == 0
  {
    if ws != [] {
      assert forall w :: 0 <= w < |ws| - 1 ==> ws[1..][w] == ws[w + 1];
      ZeroSum(ws[1..], f);
    }
  }
}
