/** The accessors of a submission's results and the rollout of deployments, the pool's client. */
module Rollouts {
  import opened Wrappers
  import opened Pool
  import opened PoolTheorems

  type Results = seq<Outcome>

  function ErrorsOf(rs: Results): seq<string> {
    if rs == [] then []
    else ErrorsOf(rs[..|rs| - 1]) + if rs[|rs| - 1].err.Some? then [rs[|rs| - 1].err.value] else []
  }

  /** `GetResults`: one result per task, also of those that failed. */
  method GetResults(rs: Results) returns (results: seq<Option<Rollout>>)
    ensures |results| == |rs| && forall i :: 0 <= i < |rs| ==> results[i] == rs[i].result
  {
    results := [];
    for i := 0 to |rs|
      invariant |results| == i && forall j :: 0 <= j < i ==> results[j] == rs[j].result
    {
      results := results + [rs[i].result];
    }
  }

  /** `GetErrors`: the errors of the failed tasks, in order. */
  method GetErrors(rs: Results) returns (errors: seq<string>)
    ensures errors == ErrorsOf(rs)
  {
    errors := [];
    for i := 0 to |rs|
      invariant errors == ErrorsOf(rs[..i])
    {
      assert rs[..i + 1][..i] == rs[..i];
      if rs[i].err.Some? {
        errors := errors + [rs[i].err.value];
      }
    }
    assert rs[..|rs|] == rs;
  }

  /** Each failed task has its place among the errors, in task order, and the errors are theirs alone. */
  lemma {:induction false} ErrorPlaces(rs: Results) returns (p: seq<nat>)
    ensures |p| == |rs|
    ensures forall i :: 0 <= i < |rs| && rs[i].err.Some? ==> p[i] < |ErrorsOf(rs)| && ErrorsOf(rs)[p[i]] == rs[i].err.value
    ensures forall i, j :: 0 <= i < j < |rs| && rs[i].err.Some? && rs[j].err.Some? ==> p[i] < p[j]
    ensures forall x: nat :: x < |ErrorsOf(rs)| ==> ComesFrom(rs, p, x)
  {
    if rs == [] {
      p := [];
    } else {
      var init, last := rs[..|rs| - 1], rs[|rs| - 1];
      var before := ErrorPlaces(init);
      p := before + [|ErrorsOf(init)|];
      assert forall i :: 0 <= i < |init| ==> rs[i] == init[i] && p[i] == before[i];
      forall x: nat | x < |ErrorsOf(rs)| ensures ComesFrom(rs, p, x) {
        if x < |ErrorsOf(init)| {
          assert ComesFrom(init, before, x);
          var i :| 0 <= i < |init| && init[i].err.Some? && before[i] == x;
          assert rs[i].err.Some? && p[i] == x;
        } else {
          assert last.err.Some? && p[|rs| - 1] == x;
        }
      }
    }
  }

  predicate ComesFrom(rs: Results, p: seq<nat>, x: nat)
    requires |p| == |rs|
  {
    exists i :: 0 <= i < |rs| && rs[i].err.Some? && p[i] == x
  }

  /** There are errors exactly when some task failed. */
  lemma {:induction false} ErrorsIffFailed(rs: Results)
    ensures ErrorsOf(rs) == [] <==> forall i :: 0 <= i < |rs| ==> rs[i].err.None?
    ensures |ErrorsOf(rs)| <= |rs|
  {
    if rs != [] {
      var init := rs[..|rs| - 1];
      ErrorsIffFailed(init);
      assert forall i :: 0 <= i < |init| ==> init[i] == rs[i];
    }
  }

  /** The answer of a rollout: the rollouts in task order, or the errors that stopped it. */
  datatype Answer = Deployed(rollouts: seq<Option<Rollout>>) | PoolStopped | Failed(errors: seq<string>)

  /** What `rolloutDeployments` makes of the answer of Submit. */
  method AnswerOf(submitted: Option<Results>) returns (answer: Answer)
    ensures answer.PoolStopped? <==> submitted.None?
    ensures submitted.Some? ==>
              (answer.Failed? <==> exists i :: 0 <= i < |submitted.value| && submitted.value[i].err.Some?)
    ensures answer.Failed? ==> submitted.Some? && answer.errors == ErrorsOf(submitted.value) && answer.errors != []
    ensures answer.Deployed? ==> submitted.Some? && |answer.rollouts| == |submitted.value|
    ensures answer.Deployed? ==> forall i :: 0 <= i < |answer.rollouts| ==> answer.rollouts[i] == submitted.value[i].result
  {
    if submitted.None? {
      return PoolStopped;
    }
    var errors := GetErrors(submitted.value);
    ErrorsIffFailed(submitted.value);
    if |errors| > 0 {
      return Failed(errors);
    }
    var results := GetResults(submitted.value);
    return Deployed(results);
  }

  /** What Submit hands back in a given state of the pool, once it returned. */
  function Submitted(p: State, s: nat): Option<Results>
    requires s < |p.subs|
  {
    if p.subs[s].phase == Rejected then None else Some(Outcomes(p.subs[s].results))
  }

  /** `DeployableTask`: the name it was made for. */
  datatype DeployableTask = DeployableTask(name: string)

  /**
   Sequential rollout, over every run of its one-worker pool: task `i` is the rollout of name `i`,
   every one of them was attempted, none before those of all earlier names had returned; the answer is
   in the order of the names, and there is an error, and no response, exactly when some rollout failed.
   */
  method RolloutSequentially(names: seq<string>, ghost ps: seq<State>, ghost steps: seq<Step>, p: State, s: nat)
    returns (tasks: seq<DeployableTask>, answer: Answer)
    requires IsPoolRun(1, |names|, ps, steps) && p in ps
    requires s < |p.subs| && p.subs[s].size == |names| && p.subs[s].phase == Returned
    ensures |tasks| == |names| && forall i :: 0 <= i < |names| ==> tasks[i].name == names[i]
    ensures forall i: nat :: i < |names| ==> Work(s, i) in p.ran
    ensures forall q, i: nat, j: nat :: q in ps && q.workers == [Running(Work(s, i))] && j < i ==> Work(s, j) in q.ran
    ensures !answer.PoolStopped?
    ensures answer.Failed? <==> exists i: nat :: i < |names| && p.ran[Work(s, i)].err.Some?
    ensures answer.Deployed? ==> |answer.rollouts| == |names|
    ensures answer.Deployed? ==> forall i: nat :: i < |names| ==> answer.rollouts[i] == p.ran[Work(s, i)].result
  {
    tasks := [];
    for i := 0 to |names|
      invariant |tasks| == i && forall j :: 0 <= j < i ==> tasks[j].name == names[j]
    {
      tasks := tasks + [DeployableTask(names[i])];
    }
    forall q, i: nat, j: nat | q in ps && q.workers == [Running(Work(s, i))] && j < i ensures Work(s, j) in q.ran {
      var u :| 0 <= u < |ps| && ps[u] == q;
      OneWorkerAttemptsInOrder(|names|, ps, steps, u, s, i);
    }
    ghost var t :| 0 <= t < |ps| && ps[t] == p;
    OneWorkerReturnsInTaskOrder(|names|, ps, steps, t, s);
    assert forall i: nat :: i < |names| ==> Outcomes(p.subs[s].results)[i] == p.ran[Work(s, i)];
    answer := AnswerOf(Submitted(p, s));
  }
}
