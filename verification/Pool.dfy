/**
 The fixed worker pool as a state machine: any number of Submit calls with a feeder goroutine each,
 a queue of bounded size (0 included), a fixed set of workers, a wait group and a result channel per
 submission, and a read/write lock between Submit and Stop.  Every channel operation, `Run`,
 `wg.Done` and lock operation is a step of its own.  A task is named by its submission and its index.
 */
module Pool {
  import opened Wrappers

  /** What `Run` returned; the pool only passes it on. */
  datatype Outcome = Outcome(result: Option<Rollout>, err: Option<string>)

  /** `entity.DeploymentRollout`: the deployment and its replica sets after and before. */
  datatype Rollout = Rollout(name: string, rolling: string, active: string)

  /** `taskWrapper`: which task of which submission. */
  datatype Work = Work(sub: nat, idx: nat)

  datatype TaskResult = TaskResult(idx: nat, outcome: Outcome)

  datatype Worker =
    | Idle
    | Running(work: Work)
    | Finished(work: Work, outcome: Outcome)   // Run returned, result not yet on the result channel
    | Reported(work: Work)               // result sent, wg.Done not yet called
    | Exited

  datatype Phase = Waiting | Collecting | Returned | Rejected

  datatype Submission = Submission(
    size: nat,                       // number of tasks, and capacity of the result channel
    fed: nat,                        // tasks the feeder has sent
    wg: int,                         // wait group counter
    buffer: seq<TaskResult>,      // the result channel
    results: seq<TaskResult>,     // received by Submit so far
    phase: Phase)

  datatype State = State(
    bufferSize: nat,
    queue: seq<Work>,
    closes: nat,                     // how often close(wChan) was called; a second time would panic
    stopped: bool,
    readers: nat,                    // read locks held by Submit calls
    stopsPending: nat,               // Stop calls waiting for the write lock
    workers: seq<Worker>,
    subs: seq<Submission>,
    ran: map<Work, Outcome>)               // history: what each task returned

  datatype Step =
    | Submit(size: nat)
    | StopCall
    | StopRun
    | Enqueue(s: nat)
    | Handoff(s: nat, w: nat)
    | Take(w: nat)
    | Finish(w: nat, outcome: Outcome)
    | Report(w: nat)
    | Done(w: nat)
    | Exit(w: nat)
    | Wake(s: nat)
    | Collect(s: nat)
    | Return(s: nat)

  function Init(parallelism: nat, bufferSize: nat): State {
    State(bufferSize, [], 0, false, 0, 0, seq(parallelism, _ => Idle), [], map[])
  }

  predicate Active(sub: Submission) {
    sub.phase == Waiting || sub.phase == Collecting
  }

  /** The feeder of `s` still has a task to send. */
  predicate Feeding(p: State, s: nat) {
    s < |p.subs| && p.subs[s].phase != Rejected && p.subs[s].fed < p.subs[s].size
  }

  predicate InState(p: State, w: nat, worker: Worker) {
    w < |p.workers| && p.workers[w] == worker
  }

  /** When a step can happen.  Sending on the work channel is not guarded by `closes`: in Go it would panic. */
  predicate Enabled(p: State, step: Step) {
    match step
    case Submit(_) => p.stopsPending == 0 || p.stopped  // a waiting Stop holds new readers up, until an earlier one lets them in
    case StopCall => true
    case StopRun => p.stopsPending > 0 && p.readers == 0
    case Enqueue(s) => Feeding(p, s) && |p.queue| < p.bufferSize
    case Handoff(s, w) => Feeding(p, s) && p.queue == [] && InState(p, w, Idle)
    case Take(w) => p.queue != [] && InState(p, w, Idle)
    case Finish(w, _) => w < |p.workers| && p.workers[w].Running?
    case Report(w) => w < |p.workers| && p.workers[w].Finished? && p.workers[w].work.sub < |p.subs|
                      && |p.subs[p.workers[w].work.sub].buffer| < p.subs[p.workers[w].work.sub].size
    case Done(w) => w < |p.workers| && p.workers[w].Reported? && p.workers[w].work.sub < |p.subs|
    case Exit(w) => InState(p, w, Idle) && p.closes > 0 && p.queue == []
    case Wake(s) => s < |p.subs| && p.subs[s].phase == Waiting && p.subs[s].wg == 0
    case Collect(s) => s < |p.subs| && p.subs[s].phase == Collecting
                       && |p.subs[s].results| < p.subs[s].size && p.subs[s].buffer != []
    case Return(s) => s < |p.subs| && p.subs[s].phase == Collecting && |p.subs[s].results| == p.subs[s].size && p.readers > 0
  }

  function SetSub(p: State, s: nat, sub: Submission): State
    requires s < |p.subs|
  {
    p.(subs := p.subs[s := sub])
  }

  function SetWorker(p: State, w: nat, worker: Worker): State
    requires w < |p.workers|
  {
    p.(workers := p.workers[w := worker])
  }

  function Next(p: State, step: Step): State
    requires Enabled(p, step)
  {
    match step
    case Submit(size) =>
      if p.stopped then p.(subs := p.subs + [Submission(size, 0, 0, [], [], Rejected)])
      else p.(subs := p.subs + [Submission(size, 0, size, [], [], Waiting)], readers := p.readers + 1)
    case StopCall => p.(stopsPending := p.stopsPending + 1)
    case StopRun =>
      if p.stopped then p.(stopsPending := p.stopsPending - 1)
      else p.(stopsPending := p.stopsPending - 1, stopped := true, closes := p.closes + 1)
    case Enqueue(s) =>
      SetSub(p, s, p.subs[s].(fed := p.subs[s].fed + 1)).(queue := p.queue + [Work(s, p.subs[s].fed)])
    case Handoff(s, w) =>
      SetWorker(SetSub(p, s, p.subs[s].(fed := p.subs[s].fed + 1)), w, Running(Work(s, p.subs[s].fed)))
    case Take(w) => SetWorker(p, w, Running(p.queue[0])).(queue := p.queue[1..])
    case Finish(w, outcome) =>
      SetWorker(p, w, Finished(p.workers[w].work, outcome)).(ran := p.ran[p.workers[w].work := outcome])
    case Report(w) =>
      var work, outcome := p.workers[w].work, p.workers[w].outcome;
      var sub := p.subs[work.sub];
      SetWorker(SetSub(p, work.sub, sub.(buffer := sub.buffer + [TaskResult(work.idx, outcome)])), w, Worker.Reported(work))
    case Done(w) =>
      var sub := p.subs[p.workers[w].work.sub];
      SetWorker(SetSub(p, p.workers[w].work.sub, sub.(wg := sub.wg - 1)), w, Idle)
    case Exit(w) => SetWorker(p, w, Exited)
    case Wake(s) => SetSub(p, s, p.subs[s].(phase := Collecting))
    case Collect(s) =>
      var sub := p.subs[s];
      SetSub(p, s, sub.(buffer := sub.buffer[1..], results := sub.results + [sub.buffer[0]]))
    case Return(s) => SetSub(p, s, p.subs[s].(phase := Returned)).(readers := p.readers - 1)
  }
}
