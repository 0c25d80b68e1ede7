/** What holds over every interleaving of Submit, feeder, worker and Stop steps. */
module PoolTheorems {
  import opened Wrappers
  import opened Pool
  import opened PoolInvariant
  import opened PoolSteps

  ghost predicate IsRun(ps: seq<State>, steps: seq<Step>) {
    && |ps| == |steps| + 1
    && forall t :: 0 <= t < |steps| ==> Enabled(ps[t], steps[t]) && ps[t + 1] == Next(ps[t], steps[t])
  }

  ghost predicate IsPoolRun(parallelism: nat, bufferSize: nat, ps: seq<State>, steps: seq<Step>) {
    IsRun(ps, steps) && ps[0] == Init(parallelism, bufferSize)
  }

  lemma {:induction false} RunKeepsInv(parallelism: nat, bufferSize: nat, ps: seq<State>, steps: seq<Step>, t: nat)
    requires IsPoolRun(parallelism, bufferSize, ps, steps) && t < |ps|
    ensures Inv(ps[t]) && |ps[t].workers| == parallelism && ps[t].bufferSize == bufferSize
  {
    if t == 0 {
      InitInv(parallelism, bufferSize);
    } else {
      RunKeepsInv(parallelism, bufferSize, ps, steps, t - 1);
      StepKeepsInv(ps[t - 1], steps[t - 1]);
    }
  }

  // ----- shutdown

  lemma ActiveHoldsTheLock(p: State, s: nat)
    requires Inv(p) && s < |p.subs| && Active(p.subs[s])
    ensures p.readers > 0 && p.closes == 0
  {
    SumNonNegative(p.subs, ActiveOf());
  }

  /** While any feeder still has a task to send, its Submit holds the read lock and the channel is open. */
  lemma NeverSendOnClosedChannel(parallelism: nat, bufferSize: nat, ps: seq<State>, steps: seq<Step>, t: nat, s: nat)
    requires IsPoolRun(parallelism, bufferSize, ps, steps) && t < |ps| && Feeding(ps[t], s)
    ensures ps[t].subs[s].phase == Waiting && ps[t].readers > 0 && ps[t].closes == 0
  {
    RunKeepsInv(parallelism, bufferSize, ps, steps, t);
    assert SubOk(ps[t], s);
    WaitGroupZero(ps[t], s);
    ActiveHoldsTheLock(ps[t], s);
  }

  /** Stopped, with every submission from the `n`-th on rejected. */
  predicate RejectsFrom(p: State, n: nat) {
    p.stopped && |p.subs| >= n && forall s :: n <= s < |p.subs| ==> p.subs[s].phase == Rejected
  }

  lemma RejectionStays(p: State, step: Step, n: nat)
    requires SubsOk(p) && Enabled(p, step) && RejectsFrom(p, n)
    ensures RejectsFrom(Next(p, step), n)
  {
    forall s | n <= s < |p.subs| ensures SubOk(p, s) && p.subs[s].phase == Rejected {
    }
  }

  /** Once the pool is stopped it stays stopped, and whoever submits from then on is rejected for good. */
  lemma {:induction false} StoppedRejects(parallelism: nat, bufferSize: nat, ps: seq<State>, steps: seq<Step>, t: nat, u: nat)
    requires IsPoolRun(parallelism, bufferSize, ps, steps) && t <= u < |ps| && ps[t].stopped
    ensures RejectsFrom(ps[u], |ps[t].subs|)
    decreases u - t
  {
    if t < u {
      StoppedRejects(parallelism, bufferSize, ps, steps, t, u - 1);
      RunKeepsInv(parallelism, bufferSize, ps, steps, u - 1);
      RejectionStays(ps[u - 1], steps[u - 1], |ps[t].subs|);
    }
  }

  /** Stop takes effect only when no Submit is under way, and none is accepted afterwards. */
  lemma StoppedHasNoActive(parallelism: nat, bufferSize: nat, ps: seq<State>, steps: seq<Step>, t: nat, s: nat)
    requires IsPoolRun(parallelism, bufferSize, ps, steps) && t < |ps| && ps[t].stopped && s < |ps[t].subs|
    ensures ps[t].subs[s].phase in {Returned, Rejected}
  {
    RunKeepsInv(parallelism, bufferSize, ps, steps, t);
    SumNonNegative(ps[t].subs, ActiveOf());
  }

  /** The work channel is closed at most once, however many Stop calls there are, and only by the first. */
  lemma ClosedOnce(parallelism: nat, bufferSize: nat, ps: seq<State>, steps: seq<Step>, t: nat)
    requires IsPoolRun(parallelism, bufferSize, ps, steps) && t < |ps|
    ensures ps[t].closes == if ps[t].stopped then 1 else 0
  {
    RunKeepsInv(parallelism, bufferSize, ps, steps, t);
  }

  /** The tasks that are being run. */
  function RunningTasks(workers: seq<Worker>): set<Work> {
    set w | 0 <= w < |workers| && workers[w].Running? :: workers[w].work
  }

  lemma {:induction false} NoMoreThanWorkers(workers: seq<Worker>)
    ensures |RunningTasks(workers)| <= |workers|
  {
    if workers != [] {
      var init, last := workers[..|workers| - 1], workers[|workers| - 1];
      var one := if last.Running? then {last.work} else {};
      NoMoreThanWorkers(init);
      assert RunningTasks(workers) <= RunningTasks(init) + one;
      SubsetCardinality(RunningTasks(workers), RunningTasks(init) + one);
    }
  }

  /** At most `parallelism` tasks run at once. */
  lemma AtMostParallelismAtOnce(parallelism: nat, bufferSize: nat, ps: seq<State>, steps: seq<Step>, t: nat)
    requires IsPoolRun(parallelism, bufferSize, ps, steps) && t < |ps|
    ensures |RunningTasks(ps[t].workers)| <= parallelism
  {
    RunKeepsInv(parallelism, bufferSize, ps, steps, t);
    NoMoreThanWorkers(ps[t].workers);
  }

  // ----- conservation

  /** A fed task is in exactly one place at any time, and only fed tasks are anywhere. */
  lemma TaskInOnePlace(parallelism: nat, bufferSize: nat, ps: seq<State>, steps: seq<Step>, t: nat, work: Work)
    requires IsPoolRun(parallelism, bufferSize, ps, steps) && t < |ps|
    ensures QueuedCount(ps[t], work) + HeldCount(ps[t], work) + ReportedCount(ps[t], work) == if Fed(ps[t], work) then 1 else 0
    ensures HeldCount(ps[t], work) >= 0
  {
    RunKeepsInv(parallelism, bufferSize, ps, steps, t);
    assert Places(ps[t], work) == if Fed(ps[t], work) then 1 else 0;
    SumNonNegative(ps[t].workers, HoldOf(work));
  }

  /** The queue never holds more than its buffer size; with size 0 every task is handed over. */
  lemma {:induction false} QueueFits(parallelism: nat, bufferSize: nat, ps: seq<State>, steps: seq<Step>, t: nat)
    requires IsPoolRun(parallelism, bufferSize, ps, steps) && t < |ps|
    ensures |ps[t].queue| <= bufferSize && ps[t].bufferSize == bufferSize
  {
    if t > 0 {
      QueueFits(parallelism, bufferSize, ps, steps, t - 1);
      StepKeepsQueue(ps[t - 1], steps[t - 1]);
    }
  }

  lemma StepKeepsQueue(p: State, step: Step)
    requires Enabled(p, step) && |p.queue| <= p.bufferSize
    ensures |Next(p, step).queue| <= Next(p, step).bufferSize == p.bufferSize
  {
  }

  /** Neither side of a result channel ever blocks: there is room for a report and a result to collect. */
  lemma ResultChannelNeverBlocks(parallelism: nat, bufferSize: nat, ps: seq<State>, steps: seq<Step>, t: nat)
    requires IsPoolRun(parallelism, bufferSize, ps, steps) && t < |ps|
    ensures forall w: nat :: w < |ps[t].workers| && ps[t].workers[w].Finished? ==> Enabled(ps[t], Report(w))
    ensures forall s :: 0 <= s < |ps[t].subs| ==> |ps[t].subs[s].buffer| <= ps[t].subs[s].size
    ensures forall s :: 0 <= s < |ps[t].subs| && ps[t].subs[s].phase == Collecting ==>
              |ps[t].subs[s].results| + |ps[t].subs[s].buffer| == ps[t].subs[s].size
  {
    var p := ps[t];
    RunKeepsInv(parallelism, bufferSize, ps, steps, t);
    forall w: nat | w < |p.workers| && p.workers[w].Finished? ensures Enabled(p, Report(w)) {
      RoomForReport(p, w);
    }
    forall s | 0 <= s < |p.subs|
      ensures |p.subs[s].buffer| <= p.subs[s].size
      ensures p.subs[s].phase == Collecting ==> |p.subs[s].results| + |p.subs[s].buffer| == p.subs[s].size
    {
      assert SubOk(p, s);
      if p.subs[s].phase != Rejected { WaitGroupZero(p, s); }
    }
  }

  /** No task runs twice: when a Run returns, that task had not returned before. */
  lemma EachTaskRunsOnce(parallelism: nat, bufferSize: nat, ps: seq<State>, steps: seq<Step>, t: nat)
    requires IsPoolRun(parallelism, bufferSize, ps, steps) && t < |steps| && steps[t].Finish?
    ensures ps[t].workers[steps[t].w].work !in ps[t].ran
  {
    RunKeepsInv(parallelism, bufferSize, ps, steps, t);
    FinishRanOk(ps[t], steps[t].w, steps[t].outcome);
  }

  /** The wait group never goes negative, which would panic. */
  lemma WaitGroupNeverNegative(parallelism: nat, bufferSize: nat, ps: seq<State>, steps: seq<Step>, t: nat, s: nat)
    requires IsPoolRun(parallelism, bufferSize, ps, steps) && t < |ps| && s < |ps[t].subs|
    ensures ps[t].subs[s].wg >= 0
    ensures ps[t].subs[s].phase != Rejected ==>
              ps[t].subs[s].wg == ps[t].subs[s].size - |Reports(ps[t].subs[s])| + Signals(ps[t], s)
  {
    RunKeepsInv(parallelism, bufferSize, ps, steps, t);
    assert SubOk(ps[t], s);
    if ps[t].subs[s].phase != Rejected { WaitGroupZero(ps[t], s); }
  }

  // ----- what Submit returns

  function Numbers(n: nat): (r: seq<nat>)
    ensures |r| == n && forall i :: 0 <= i < n ==> r[i] == i
  {
    if n == 0 then [] else Numbers(n - 1) + [n - 1]
  }

  /** What a task returned, or an empty outcome while it has not. */
  function OutcomeOf(ran: map<Work, Outcome>, work: Work): Outcome {
    if work in ran then ran[work] else Outcome(None, None)
  }

  /** What the tasks of `s` with these indices returned. */
  function Returns(ran: map<Work, Outcome>, s: nat, xs: seq<nat>): (r: seq<Outcome>)
    ensures |r| == |xs| && forall i :: 0 <= i < |xs| ==> r[i] == OutcomeOf(ran, Work(s, xs[i]))
  {
    if xs == [] then [] else [OutcomeOf(ran, Work(s, xs[0]))] + Returns(ran, s, xs[1..])
  }

  function Outcomes(rs: seq<TaskResult>): seq<Outcome> {
    seq(|rs|, i requires 0 <= i < |rs| => rs[i].outcome)
  }

  lemma ReturnsAppend(ran: map<Work, Outcome>, s: nat, xs: seq<nat>, ys: seq<nat>)
    ensures Returns(ran, s, xs + ys) == Returns(ran, s, xs) + Returns(ran, s, ys)
  {
  }

  lemma SameRest(x: nat, rest: seq<nat>, before: seq<nat>, after: seq<nat>)
    requires multiset([x] + rest) == multiset(before + ([x] + after))
    ensures multiset(rest) == multiset(before + after)
  {
    var one: multiset<nat> := multiset([x]);
    assert multiset([x] + rest) == one + multiset(rest);
    assert multiset(before + ([x] + after)) == multiset(before) + one + multiset(after);
    assert multiset(rest) == multiset([x] + rest) - one;
    assert multiset(before) + multiset(after) == multiset(before + ([x] + after)) - one;
  }

  lemma ReturnsAround(ran: map<Work, Outcome>, s: nat, x: nat, rest: seq<nat>, before: seq<nat>, after: seq<nat>)
    requires multiset(Returns(ran, s, rest)) == multiset(Returns(ran, s, before + after))
    ensures multiset(Returns(ran, s, [x] + rest)) == multiset(Returns(ran, s, before + ([x] + after)))
  {
    ReturnsAppend(ran, s, [x], rest);
    ReturnsAppend(ran, s, before, [x] + after);
    ReturnsAppend(ran, s, [x], after);
    ReturnsAppend(ran, s, before, after);
  }

  /** Reordering the indices reorders the outcomes. */
  lemma {:induction false} ReturnsOfPermutation(ran: map<Work, Outcome>, s: nat, xs: seq<nat>, ys: seq<nat>)
    requires multiset(xs) == multiset(ys)
    ensures multiset(Returns(ran, s, xs)) == multiset(Returns(ran, s, ys))
    decreases |xs|
  {
    if xs == [] {
      assert |multiset(ys)| == 0;
      assert ys == [];
    } else {
      var x, rest := xs[0], xs[1..];
      assert x in multiset(ys);
      var k :| 0 <= k < |ys| && ys[k] == x;
      var before, after := ys[..k], ys[k + 1..];
      assert xs == [x] + rest && ys == before + ([x] + after);
      SameRest(x, rest, before, after);
      ReturnsOfPermutation(ran, s, rest, before + after);
      ReturnsAround(ran, s, x, rest, before, after);
    }
  }

  lemma OccurOnce(xs: seq<nat>, n: nat)
    requires forall x: nat :: Times(xs, x) <= 1
    requires forall x :: x in xs ==> x < n
    requires |xs| == n
    ensures multiset(xs) == multiset(Numbers(n))
  {
    Pigeonhole(xs, n, {});
    forall x: nat ensures multiset(xs)[x] == multiset(Numbers(n))[x] {
      assert Times(xs, x) == if x < n then 1 else 0;
      NumbersOnce(n, x);
    }
  }

  lemma {:induction false} NumbersOnce(n: nat, x: nat)
    ensures Times(Numbers(n), x) == if x < n then 1 else 0
  {
    if n > 0 {
      var init := Numbers(n - 1);
      NumbersOnce(n - 1, x);
      TimesAppend(init, n - 1, x);
      assert Numbers(n) == init + [n - 1];
    }
  }

  lemma ReportsCarryOutcomes(p: State, s: nat)
    requires RanOk(p) && s < |p.subs|
    ensures forall x :: x in Idxs(Reports(p.subs[s])) ==> Work(s, x) in p.ran
    ensures Outcomes(Reports(p.subs[s])) == Returns(p.ran, s, Idxs(Reports(p.subs[s])))
  {
    var rs := Reports(p.subs[s]);
    forall i | 0 <= i < |rs| ensures Work(s, Idxs(rs)[i]) in p.ran && p.ran[Work(s, Idxs(rs)[i])] == rs[i].outcome {
      assert ReportRanOk(s, rs[i], p.ran);
    }
  }

  /**
   Submit returns exactly one result per task: every index below the number of tasks once, and as a
   multiset the outcomes of exactly those tasks.
   */
  lemma SubmitReturnsOneResultPerTask(parallelism: nat, bufferSize: nat, ps: seq<State>, steps: seq<Step>, t: nat, s: nat)
    requires IsPoolRun(parallelism, bufferSize, ps, steps) && t < |ps| && s < |ps[t].subs| && ps[t].subs[s].phase == Returned
    ensures var sub := ps[t].subs[s];
            && |sub.results| == sub.size
            && multiset(Idxs(sub.results)) == multiset(Numbers(sub.size))
            && (forall i: nat :: i < sub.size ==> Work(s, i) in ps[t].ran)
            && multiset(Outcomes(sub.results)) == multiset(Returns(ps[t].ran, s, Numbers(sub.size)))
  {
    var p, sub := ps[t], ps[t].subs[s];
    RunKeepsInv(parallelism, bufferSize, ps, steps, t);
    assert SubOk(p, s);
    WaitGroupZero(p, s);
    assert sub.buffer == [] && Reports(sub) == sub.results;
    var xs := Idxs(sub.results);
    forall x: nat ensures Times(xs, x) <= 1 && (x in xs ==> x < sub.size) {
      ReportedOnce(p, s, x);
    }
    OccurOnce(xs, sub.size);
    ReportsCarryOutcomes(p, s);
    forall i: nat | i < sub.size ensures Work(s, i) in p.ran {
      NumbersOnce(sub.size, i);
      assert i in multiset(xs);
    }
    ReturnsOfPermutation(p.ran, s, xs, Numbers(sub.size));
  }

  // ----- one worker

  /** The index of a task of submission `s`; nothing for other tasks. */
  function IdxIfOf(work: Work, s: nat): seq<nat> {
    if work.sub == s then [work.idx] else []
  }

  function QueuedIdxs(queue: seq<Work>, s: nat): seq<nat> {
    if queue == [] then [] else IdxIfOf(queue[0], s) + QueuedIdxs(queue[1..], s)
  }

  function HeldIdxs(x: Worker, s: nat): seq<nat> {
    if x.Running? || x.Finished? then IdxIfOf(x.work, s) else []
  }

  lemma {:induction false} QueuedAppend(queue: seq<Work>, work: Work, s: nat)
    ensures QueuedIdxs(queue + [work], s) == QueuedIdxs(queue, s) + IdxIfOf(work, s)
  {
    if queue == [] {
      assert ([] + [work])[1..] == [];
    } else {
      var head, tail := IdxIfOf(queue[0], s), queue[1..];
      assert (queue + [work])[1..] == tail + [work];
      QueuedAppend(tail, work, s);
      Associative(head, QueuedIdxs(tail, s), IdxIfOf(work, s));
    }
  }

  lemma Associative(a: seq<nat>, b: seq<nat>, c: seq<nat>)
    ensures a + (b + c) == (a + b) + c
  {
  }

  /** With one worker, the reported, held and queued tasks of a submission are its fed tasks in task order. */
  predicate OrderedFor(p: State, s: nat)
    requires |p.workers| == 1 && s < |p.subs|
  {
    Idxs(Reports(p.subs[s])) + HeldIdxs(p.workers[0], s) + QueuedIdxs(p.queue, s) == Numbers(p.subs[s].fed)
  }

  ghost predicate Ordered(p: State) {
    |p.workers| == 1 && forall s :: 0 <= s < |p.subs| ==> OrderedFor(p, s)
  }

  lemma ReportKeepsOrder(p: State, s: nat)
    requires Ordered(p) && Enabled(p, Report(0)) && s < |p.subs|
    ensures OrderedFor(Next(p, Report(0)), s)
  {
    var work, p' := p.workers[0].work, Next(p, Report(0));
    assert OrderedFor(p, s);
    ReportAppends(p, 0);
    assert HeldIdxs(p'.workers[0], s) == [];
  }

  lemma TakeKeepsOrder(p: State, s: nat)
    requires Ordered(p) && Enabled(p, Take(0)) && s < |p.subs|
    ensures OrderedFor(Next(p, Take(0)), s)
  {
    var p', head := Next(p, Take(0)), IdxIfOf(p.queue[0], s);
    assert OrderedFor(p, s);
    assert HeldIdxs(p.workers[0], s) == [] && HeldIdxs(p'.workers[0], s) == head;
    assert QueuedIdxs(p.queue, s) == head + QueuedIdxs(p'.queue, s);
    Associative(Idxs(Reports(p.subs[s])), head, QueuedIdxs(p'.queue, s));
  }

  lemma FeedKeepsReports(p: State, step: Step, s: nat)
    requires (step.Enqueue? || step.Handoff?) && Enabled(p, step) && s < |p.subs|
    ensures var sub' := Next(p, step).subs[s];
            && Reports(sub') == Reports(p.subs[s])
            && Numbers(sub'.fed) == Numbers(p.subs[s].fed) + IdxIfOf(Work(step.s, p.subs[step.s].fed), s)
  {
  }

  lemma EnqueueKeepsOrder(p: State, k: nat, s: nat)
    requires Ordered(p) && Enabled(p, Step.Enqueue(k)) && s < |p.subs|
    ensures OrderedFor(Next(p, Step.Enqueue(k)), s)
  {
    var work := Work(k, p.subs[k].fed);
    var reported, held := Idxs(Reports(p.subs[s])), HeldIdxs(p.workers[0], s);
    assert OrderedFor(p, s);
    FeedKeepsReports(p, Step.Enqueue(k), s);
    QueuedAppend(p.queue, work, s);
    Associative(reported + held, QueuedIdxs(p.queue, s), IdxIfOf(work, s));
  }

  lemma HandoffKeepsOrder(p: State, k: nat, s: nat)
    requires Ordered(p) && Enabled(p, Handoff(k, 0)) && s < |p.subs|
    ensures OrderedFor(Next(p, Handoff(k, 0)), s)
  {
    assert OrderedFor(p, s);
    FeedKeepsReports(p, Handoff(k, 0), s);
    assert HeldIdxs(p.workers[0], s) == [] && QueuedIdxs(p.queue, s) == [];
  }

  /** Steps that leave the queue, the held tasks and the reports as they are. */
  lemma QuietKeepsOrder(p: State, p': State, s: nat)
    requires Ordered(p) && |p'.workers| == 1 && s < |p.subs| <= |p'.subs| && p'.queue == p.queue
    requires p'.subs[s].fed == p.subs[s].fed && Reports(p'.subs[s]) == Reports(p.subs[s])
    requires HeldIdxs(p'.workers[0], s) == HeldIdxs(p.workers[0], s)
    ensures OrderedFor(p', s)
  {
    assert OrderedFor(p, s);
  }

  lemma QuietWorkerKeepsOrder(p: State, step: Step, s: nat)
    requires Ordered(p) && (step.Finish? || step.Done? || step.Exit?) && Enabled(p, step) && s < |p.subs|
    ensures OrderedFor(Next(p, step), s)
  {
    QuietKeepsOrder(p, Next(p, step), s);
  }

  lemma CallerKeepsOrder(p: State, step: Step, s: nat)
    requires Ordered(p) && (step.Submit? || step.StopCall? || step.StopRun? || step.Wake? || step.Return?)
    requires Enabled(p, step) && s < |p.subs|
    ensures OrderedFor(Next(p, step), s)
  {
    QuietKeepsOrder(p, Next(p, step), s);
  }

  lemma CollectKeepsOrder(p: State, k: nat, s: nat)
    requires Ordered(p) && Enabled(p, Collect(k)) && s < |p.subs|
    ensures OrderedFor(Next(p, Collect(k)), s)
  {
    var sub := p.subs[k];
    assert sub.results + [sub.buffer[0]] + sub.buffer[1..] == sub.results + sub.buffer;
    QuietKeepsOrder(p, Next(p, Collect(k)), s);
  }

  lemma StepKeepsOrderFor(p: State, step: Step, s: nat)
    requires Ordered(p) && Enabled(p, step) && s < |p.subs|
    ensures OrderedFor(Next(p, step), s)
  {
    match step
    case Report(_) => ReportKeepsOrder(p, s);
    case Take(_) => TakeKeepsOrder(p, s);
    case Enqueue(k) => EnqueueKeepsOrder(p, k, s);
    case Handoff(k, _) => HandoffKeepsOrder(p, k, s);
    case Collect(k) => CollectKeepsOrder(p, k, s);
    case Finish(_, _) => QuietWorkerKeepsOrder(p, step, s);
    case Done(_) => QuietWorkerKeepsOrder(p, step, s);
    case Exit(_) => QuietWorkerKeepsOrder(p, step, s);
    case _ => CallerKeepsOrder(p, step, s);
  }

  lemma NewSubmissionIsOrdered(p: State, size: nat)
    requires Ordered(p) && Conserved(p) && Enabled(p, Submit(size))
    ensures OrderedFor(Next(p, Submit(size)), |p.subs|)
  {
    NothingKnownOf(p, |p.subs|);
  }

  lemma StepKeepsOrder(p: State, step: Step)
    requires Ordered(p) && Enabled(p, step) && Conserved(p)
    ensures Ordered(Next(p, step))
  {
    var p' := Next(p, step);
    forall s | 0 <= s < |p'.subs| ensures OrderedFor(p', s) {
      if s < |p.subs| {
        StepKeepsOrderFor(p, step, s);
      } else {
        NewSubmissionIsOrdered(p, step.size);
      }
    }
  }

  lemma NothingKnownOf(p: State, s: nat)
    requires Conserved(p) && |p.workers| == 1 && s >= |p.subs|
    ensures HeldIdxs(p.workers[0], s) == [] && QueuedIdxs(p.queue, s) == []
  {
    if HeldIdxs(p.workers[0], s) != [] {
      HeldMeansOnce(p, 0);
    }
    forall work | work in p.queue ensures work.sub != s {
      QueuedMeansOnce(p, work);
    }
    NotQueued(p.queue, s);
  }

  lemma {:induction false} NotQueued(queue: seq<Work>, s: nat)
    requires forall work :: work in queue ==> work.sub != s
    ensures QueuedIdxs(queue, s) == []
  {
    if queue != [] {
      NotQueued(queue[1..], s);
    }
  }

  lemma {:induction false} OneWorkerRunIsOrdered(bufferSize: nat, ps: seq<State>, steps: seq<Step>, t: nat)
    requires IsPoolRun(1, bufferSize, ps, steps) && t < |ps|
    ensures Ordered(ps[t])
  {
    if t > 0 {
      OneWorkerRunIsOrdered(bufferSize, ps, steps, t - 1);
      RunKeepsInv(1, bufferSize, ps, steps, t - 1);
      StepKeepsOrder(ps[t - 1], steps[t - 1]);
    }
  }

  /** With one worker, a submission's results come back in task order, however submissions interleave. */
  lemma OneWorkerReturnsInTaskOrder(bufferSize: nat, ps: seq<State>, steps: seq<Step>, t: nat, s: nat)
    requires IsPoolRun(1, bufferSize, ps, steps) && t < |ps| && s < |ps[t].subs| && ps[t].subs[s].phase == Returned
    ensures var sub := ps[t].subs[s];
            && |sub.results| == sub.size
            && forall i: nat :: i < sub.size ==>
                 Work(s, i) in ps[t].ran && sub.results[i] == TaskResult(i, ps[t].ran[Work(s, i)])
  {
    var p, sub := ps[t], ps[t].subs[s];
    RunKeepsInv(1, bufferSize, ps, steps, t);
    OneWorkerRunIsOrdered(bufferSize, ps, steps, t);
    assert OrderedFor(p, s) && SubOk(p, s);
    WaitGroupZero(p, s);
    assert sub.buffer == [] && Reports(sub) == sub.results;
    forall i: nat | i < sub.size
      ensures Work(s, i) in p.ran && sub.results[i] == TaskResult(i, p.ran[Work(s, i)])
    {
      assert Idxs(sub.results)[i] == Numbers(sub.fed)[i];
      assert ReportRanOk(s, Reports(sub)[i], p.ran);
    }
  }

  /** With one worker, when task `i` of a submission runs, all its earlier tasks have returned. */
  lemma OneWorkerAttemptsInOrder(bufferSize: nat, ps: seq<State>, steps: seq<Step>, t: nat, s: nat, i: nat)
    requires IsPoolRun(1, bufferSize, ps, steps) && t < |ps| && ps[t].workers == [Running(Work(s, i))]
    ensures forall j: nat :: j < i ==> Work(s, j) in ps[t].ran
  {
    var p := ps[t];
    RunKeepsInv(1, bufferSize, ps, steps, t);
    OneWorkerRunIsOrdered(bufferSize, ps, steps, t);
    HeldMeansOnce(p, 0);
    assert OrderedFor(p, s);
    var reported := Idxs(Reports(p.subs[s]));
    assert (reported + [i] + QueuedIdxs(p.queue, s))[|reported|] == i;
    forall j: nat | j < i ensures Work(s, j) in p.ran {
      assert (reported + [i] + QueuedIdxs(p.queue, s))[j] == j;
      assert ReportRanOk(s, Reports(p.subs[s])[j], p.ran);
    }
  }
}
