/** The pool makes progress: nothing deadlocks, and every run of its own steps is bounded. */
module PoolProgress {
  import opened Wrappers
  import opened Pool
  import opened PoolInvariant
  import opened PoolSteps
  import opened PoolTheorems

  /** Steps the pool takes by itself; new Submit and Stop calls come from outside. */
  predicate Internal(step: Step) {
    !step.Submit? && !step.StopCall?
  }

  // ----- a weight that every internal step lowers

  function WorkerWeight(): Worker -> int {
    (x: Worker) =>
      match x
      case Exited => 0
      case Idle => 1
      case Reported(_) => 2
      case Finished(_, _) => 3
      case Running(_) => 4
  }

  function SubWeight(): Submission -> int {
    (x: Submission) =>
      match x.phase
      case Rejected => 0
      case Returned => 0
      case Collecting => 1 + x.size - |x.results|
      case Waiting => 2 + x.size + 5 * (x.size - x.fed)
  }

  /** Unfed tasks weigh 5, queued ones 4, held ones what their worker weighs, and results to collect 1. */
  function Weight(p: State): int {
    4 * |p.queue| + Sum(p.workers, WorkerWeight()) + Sum(p.subs, SubWeight()) + p.stopsPending
  }

  lemma WeightNonNegative(p: State)
    requires Inv(p)
    ensures Weight(p) >= 0
  {
    forall s | 0 <= s < |p.subs| ensures SubWeight()(p.subs[s]) >= 0 {
      assert SubOk(p, s);
      if p.subs[s].phase != Rejected { WaitGroupZero(p, s); }
    }
    SumNonNegative(p.workers, WorkerWeight());
    SumNonNegative(p.subs, SubWeight());
  }

  lemma FeedLowersWeight(p: State, step: Step)
    requires Inv(p) && (step.Enqueue? || step.Handoff?) && Enabled(p, step)
    ensures Weight(Next(p, step)) < Weight(p)
  {
    var p' := Next(p, step);
    assert SubOk(p, step.s);
    WaitGroupZero(p, step.s);
    SumUpdate(p.subs, step.s, p'.subs[step.s], SubWeight());
    if step.Handoff? {
      SumUpdate(p.workers, step.w, p'.workers[step.w], WorkerWeight());
    }
  }

  lemma StepOnSubWeight(p: State, step: Step)
    requires (step.Report? || step.Done?) && Enabled(p, step)
    ensures Sum(Next(p, step).subs, SubWeight()) == Sum(p.subs, SubWeight())
  {
    var s := p.workers[step.w].work.sub;
    SumUpdate(p.subs, s, Next(p, step).subs[s], SubWeight());
  }

  /** A worker that reports or calls Done leaves the weight of the submission as it is. */
  lemma ReportLowersWeight(p: State, step: Step)
    requires (step.Report? || step.Done?) && Enabled(p, step)
    ensures Weight(Next(p, step)) < Weight(p)
  {
    SumUpdate(p.workers, step.w, Next(p, step).workers[step.w], WorkerWeight());
    StepOnSubWeight(p, step);
  }

  lemma WorkerLowersWeight(p: State, step: Step)
    requires (step.Take? || step.Finish? || step.Exit?) && Enabled(p, step)
    ensures Weight(Next(p, step)) < Weight(p)
  {
    SumUpdate(p.workers, step.w, Next(p, step).workers[step.w], WorkerWeight());
  }

  lemma SubmitLowersWeight(p: State, step: Step)
    requires Inv(p) && (step.Wake? || step.Collect? || step.Return?) && Enabled(p, step)
    ensures Weight(Next(p, step)) < Weight(p)
  {
    var p' := Next(p, step);
    assert SubOk(p, step.s);
    WaitGroupZero(p, step.s);
    SumUpdate(p.subs, step.s, p'.subs[step.s], SubWeight());
  }

  /** Every internal step strictly lowers the weight. */
  lemma StepLowersWeight(p: State, step: Step)
    requires Inv(p) && Internal(step) && Enabled(p, step)
    ensures Weight(Next(p, step)) < Weight(p)
  {
    match step
    case Enqueue(_) => FeedLowersWeight(p, step);
    case Handoff(_, _) => FeedLowersWeight(p, step);
    case StopRun =>
    case Wake(_) => SubmitLowersWeight(p, step);
    case Collect(_) => SubmitLowersWeight(p, step);
    case Return(_) => SubmitLowersWeight(p, step);
    case Report(_) => ReportLowersWeight(p, step);
    case Done(_) => ReportLowersWeight(p, step);
    case _ => WorkerLowersWeight(p, step);
  }

  // ----- something can always happen while somebody waits

  lemma {:induction false} AllIdle(p: State, work: Work)
    requires forall w :: 0 <= w < |p.workers| ==> p.workers[w] == Idle
    ensures HeldCount(p, work) == 0 && Signals(p, work.sub) == 0
  {
    ZeroSum(p.workers, HoldOf(work));
    ZeroSum(p.workers, SignalOf(work.sub));
  }

  /** With idle workers and an empty queue, a submission that is not done has a task left to feed. */
  lemma IdleMeansUnfed(p: State, s: nat)
    requires Inv(p) && s < |p.subs| && p.subs[s].phase == Waiting && p.subs[s].wg > 0
    requires p.queue == [] && forall w :: 0 <= w < |p.workers| ==> p.workers[w] == Idle
    ensures Feeding(p, s)
  {
    var sub := p.subs[s];
    var xs := Idxs(Reports(sub));
    assert SubOk(p, s);
    forall i | i in Below(sub.fed) ensures i in Elements(xs) {
      assert Places(p, Work(s, i)) == 1;
      AllIdle(p, Work(s, i));
    }
    AllIdle(p, Work(s, 0));
    BelowCardinality(sub.fed);
    SubsetCardinality(Below(sub.fed), Elements(xs));
    forall x: nat ensures Times(xs, x) <= 1 {
      ReportedOnce(p, s, x);
    }
    DistinctCardinality(xs);
  }

  /** A worker that is not idle can always take its next step: Run returns, and neither send nor Done blocks. */
  lemma BusyWorkerCanStep(p: State, w: nat) returns (step: Step)
    requires Inv(p) && w < |p.workers| && p.workers[w] != Idle && p.workers[w] != Exited
    ensures Internal(step) && Enabled(p, step)
  {
    match p.workers[w]
    case Running(_) => step := Finish(w, Outcome(None, None));
    case Finished(_, _) =>
      RoomForReport(p, w);
      step := Report(w);
    case Reported(work) =>
      assert WorkerRanOk(p.workers[w], p.ran);
      step := Done(w);
  }

  lemma WaitingCanStep(p: State, s: nat) returns (step: Step)
    requires Inv(p) && |p.workers| > 0 && s < |p.subs| && p.subs[s].phase == Waiting
    ensures Internal(step) && Enabled(p, step)
  {
    ActiveHoldsTheLock(p, s);
    WaitGroupZero(p, s);
    if p.subs[s].wg == 0 {
      step := Wake(s);
    } else if w: nat :| w < |p.workers| && p.workers[w] != Idle {
      step := BusyWorkerCanStep(p, w);
    } else if p.queue != [] {
      step := Take(0);
    } else {
      IdleMeansUnfed(p, s);
      step := Handoff(s, 0);
    }
  }

  lemma CollectingCanStep(p: State, s: nat) returns (step: Step)
    requires Inv(p) && s < |p.subs| && p.subs[s].phase == Collecting
    ensures Internal(step) && Enabled(p, step)
  {
    assert SubOk(p, s);
    WaitGroupZero(p, s);
    ActiveHoldsTheLock(p, s);
    step := if |p.subs[s].results| < p.subs[s].size then Collect(s) else Return(s);
  }

  /**
   No deadlock, for every buffer size including 0: with at least one worker, some step of the pool
   itself is enabled as long as an accepted Submit has not returned or a Stop is waiting.
   */
  lemma SomebodyCanStep(p: State) returns (step: Step)
    requires Inv(p) && |p.workers| > 0 && (p.readers > 0 || p.stopsPending > 0)
    ensures Internal(step) && Enabled(p, step)
  {
    if p.readers == 0 {
      step := StopRun;
    } else {
      var s := SumPositive(p.subs, ActiveOf());
      if p.subs[s].phase == Waiting {
        step := WaitingCanStep(p, s);
      } else {
        step := CollectingCanStep(p, s);
      }
    }
  }

  /** After the close, a worker drains the queue and leaves. */
  lemma WorkerOfStoppedCanStep(p: State, w: nat) returns (step: Step)
    requires Inv(p) && p.stopped && w < |p.workers| && p.workers[w] != Exited
    ensures Internal(step) && Enabled(p, step)
  {
    if p.workers[w] != Idle {
      step := BusyWorkerCanStep(p, w);
    } else {
      step := if p.queue != [] then Take(w) else Exit(w);
    }
  }

  // ----- runs without new calls

  ghost predicate IsInternalRun(ps: seq<State>, steps: seq<Step>) {
    IsRun(ps, steps) && forall t :: 0 <= t < |steps| ==> Internal(steps[t])
  }

  /** Such a run is never longer than the weight it starts with. */
  lemma {:induction false} InternalRunIsBounded(ps: seq<State>, steps: seq<Step>, t: nat)
    requires IsInternalRun(ps, steps) && Inv(ps[0]) && t < |ps|
    ensures Inv(ps[t]) && t <= Weight(ps[0]) - Weight(ps[t]) && Weight(ps[t]) >= 0
    ensures |ps[t].workers| == |ps[0].workers|
  {
    if t == 0 {
      WeightNonNegative(ps[0]);
    } else {
      InternalRunIsBounded(ps, steps, t - 1);
      StepKeepsInv(ps[t - 1], steps[t - 1]);
      StepLowersWeight(ps[t - 1], steps[t - 1]);
      WeightNonNegative(ps[t]);
    }
  }

  /**
   Completion: from any reachable state, when the pool with at least one worker has run until none of
   its own steps is enabled, every Submit has returned or was rejected, no Stop is waiting, and if the
   pool was stopped all its workers have finished.
   */
  lemma QuiescenceMeansDone(parallelism: nat, bufferSize: nat, ps: seq<State>, steps: seq<Step>, t: nat)
    requires IsPoolRun(parallelism, bufferSize, ps, steps) && t < |ps| && parallelism > 0
    requires forall step: Step :: Internal(step) ==> !Enabled(ps[t], step)
    ensures forall s :: 0 <= s < |ps[t].subs| ==> ps[t].subs[s].phase in {Returned, Rejected}
    ensures ps[t].stopsPending == 0
    ensures ps[t].stopped ==> forall w :: 0 <= w < |ps[t].workers| ==> ps[t].workers[w] == Exited
  {
    var p := ps[t];
    RunKeepsInv(parallelism, bufferSize, ps, steps, t);
    if p.readers > 0 || p.stopsPending > 0 {
      var step := SomebodyCanStep(p);
      assert false;
    }
    SumNonNegative(p.subs, ActiveOf());
    forall w: nat | w < |p.workers| && p.stopped ensures p.workers[w] == Exited {
      if p.workers[w] != Exited {
        var step := WorkerOfStoppedCanStep(p, w);
        assert false;
      }
    }
  }

  lemma PrependStep(p: State, step: Step, ps: seq<State>, steps: seq<Step>)
    requires Internal(step) && Enabled(p, step) && IsInternalRun(ps, steps) && ps[0] == Next(p, step)
    ensures IsInternalRun([p] + ps, [step] + steps)
  {
    var ps', steps' := [p] + ps, [step] + steps;
    forall t | 0 <= t < |steps'|
      ensures Enabled(ps'[t], steps'[t]) && ps'[t + 1] == Next(ps'[t], steps'[t]) && Internal(steps'[t])
    {
      if t > 0 {
        assert Enabled(ps[t - 1], steps[t - 1]) && ps[t] == Next(ps[t - 1], steps[t - 1]);
      }
    }
  }

  /** Such a completing run exists from every reachable state. */
  lemma {:induction false} CanComplete(p: State) returns (ps: seq<State>, steps: seq<Step>)
    requires Inv(p) && |p.workers| > 0
    ensures IsInternalRun(ps, steps) && ps[0] == p
    ensures ps[|steps|].readers == 0 && ps[|steps|].stopsPending == 0
    decreases Weight(p)
  {
    WeightNonNegative(p);
    if p.readers == 0 && p.stopsPending == 0 {
      ps, steps := [p], [];
    } else {
      var step := SomebodyCanStep(p);
      StepKeepsInv(p, step);
      StepLowersWeight(p, step);
      WeightNonNegative(Next(p, step));
      var rest, restSteps := CanComplete(Next(p, step));
      PrependStep(p, step, rest, restSteps);
      ps, steps := [p] + rest, [step] + restSteps;
    }
  }
}
