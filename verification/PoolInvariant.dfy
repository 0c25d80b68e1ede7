/** The invariant of the pool: no task is lost or duplicated, and the counters say what they should. */
module PoolInvariant {
  import opened Pool

  // ----- sums over workers and submissions

  function Sum<X>(xs: seq<X>, f: X -> int): int {
    if xs == [] then 0 else f(xs[0]) + Sum(xs[1..], f)
  }

  lemma {:induction false} SumUpdate<X>(xs: seq<X>, k: nat, x: X, f: X -> int)
    requires k < |xs|
    ensures Sum(xs[k := x], f) == Sum(xs, f) - f(xs[k]) + f(x)
  {
    if k > 0 {
      SumUpdate(xs[1..], k - 1, x, f);
      assert xs[k := x][1..] == xs[1..][k - 1 := x];
    } else {
      assert xs[k := x][1..] == xs[1..];
    }
  }

  lemma {:induction false} SumAppend<X>(xs: seq<X>, x: X, f: X -> int)
    ensures Sum(xs + [x], f) == Sum(xs, f) + f(x)
  {
    if xs == [] {
      assert ([] + [x])[1..] == [];
    } else {
      SumAppend(xs[1..], x, f);
      assert (xs + [x])[1..] == xs[1..] + [x];
    }
  }

  lemma {:induction false} SumNonNegative<X>(xs: seq<X>, f: X -> int)
    requires forall i :: 0 <= i < |xs| ==> f(xs[i]) >= 0
    ensures Sum(xs, f) >= 0
    ensures forall i :: 0 <= i < |xs| ==> Sum(xs, f) >= f(xs[i])
  {
    if xs != [] {
      assert forall i :: 0 <= i < |xs| - 1 ==> xs[1..][i] == xs[i + 1];
      SumNonNegative(xs[1..], f);
      forall i | 0 <= i < |xs| ensures Sum(xs, f) >= f(xs[i]) {
        if i > 0 { assert xs[i] == xs[1..][i - 1]; }
      }
    }
  }

  lemma {:induction false} SumPositive<X>(xs: seq<X>, f: X -> int) returns (k: nat)
    requires Sum(xs, f) > 0
    ensures k < |xs| && f(xs[k]) > 0
  {
    if f(xs[0]) > 0 {
      k := 0;
    } else {
      var j := SumPositive(xs[1..], f);
      k := j + 1;
    }
  }

  // ----- where a task is

  function HoldOf(work: Work): Worker -> int {
    (x: Worker) => if (x.Running? || x.Finished?) && x.work == work then 1 else 0
  }

  function SignalOf(s: nat): Worker -> int {
    (x: Worker) => if x.Reported? && x.work.sub == s then 1 else 0
  }

  function ActiveOf(): Submission -> int {
    (x: Submission) => if Active(x) then 1 else 0
  }

  function Reports(sub: Submission): seq<TaskResult> {
    sub.results + sub.buffer
  }

  function Idxs(rs: seq<TaskResult>): seq<nat> {
    seq(|rs|, i requires 0 <= i < |rs| => rs[i].idx)
  }

  /** How often a number occurs. */
  function Times(xs: seq<nat>, x: nat): (n: nat)
    ensures n > 0 <==> x in xs
  {
    multiset(xs)[x]
  }

  lemma TimesAppend(xs: seq<nat>, y: nat, x: nat)
    ensures Times(xs + [y], x) == Times(xs, x) + if x == y then 1 else 0
  {
  }

  function QueuedCount(p: State, work: Work): nat {
    multiset(p.queue)[work]
  }

  function HeldCount(p: State, work: Work): int {
    Sum(p.workers, HoldOf(work))
  }

  function ReportedCount(p: State, work: Work): nat {
    if work.sub < |p.subs| then Times(Idxs(Reports(p.subs[work.sub])), work.idx) else 0
  }

  predicate Fed(p: State, work: Work) {
    work.sub < |p.subs| && work.idx < p.subs[work.sub].fed
  }

  function Places(p: State, work: Work): int {
    QueuedCount(p, work) + HeldCount(p, work) + ReportedCount(p, work)
  }

  /** A task that was fed is in exactly one place: queued, held by one worker, or reported; others are nowhere. */
  ghost predicate Conserved(p: State) {
    forall work :: Places(p, work) == if Fed(p, work) then 1 else 0
  }

  function Signals(p: State, s: nat): int {
    Sum(p.workers, SignalOf(s))
  }

  predicate SubOk(p: State, s: nat)
    requires s < |p.subs|
  {
    SubFine(p.subs[s], Signals(p, s))
  }

  /** A submission, if so many workers have yet to call Done for it. */
  predicate SubFine(sub: Submission, signals: int) {
    && sub.fed <= sub.size
    && (sub.phase == Rejected ==> sub.fed == 0 && sub.wg == 0 && sub.buffer == [] && sub.results == [])
    && (sub.phase != Rejected ==> sub.wg == sub.size - |sub.results| - |sub.buffer| + signals)
    && (sub.phase == Waiting ==> sub.results == [])
    && (sub.phase == Collecting || sub.phase == Returned ==> sub.wg == 0)
    && (sub.phase == Returned ==> |sub.results| == sub.size)
  }

  ghost predicate SubsOk(p: State) {
    forall s :: 0 <= s < |p.subs| ==> SubOk(p, s)
  }

  ghost predicate LocksOk(p: State) {
    && p.readers == Sum(p.subs, ActiveOf())
    && p.closes == (if p.stopped then 1 else 0)
    && (p.stopped ==> p.readers == 0)
    && (forall w :: 0 <= w < |p.workers| && p.workers[w] == Exited ==> p.stopped)
  }

  /** The history of outcomes: a task has one from the moment its Run returned, and reports carry it. */
  ghost predicate RanOk(p: State) {
    && (forall work :: work in p.ran ==> Fed(p, work))
    && (forall work :: work in p.queue ==> work !in p.ran)
    && (forall w :: 0 <= w < |p.workers| ==> WorkerRanOk(p.workers[w], p.ran))
    && (forall s, i :: 0 <= s < |p.subs| && 0 <= i < |Reports(p.subs[s])| ==> ReportRanOk(s, Reports(p.subs[s])[i], p.ran))
  }

  predicate WorkerRanOk(x: Worker, ran: map<Work, Outcome>) {
    match x
    case Running(work) => work !in ran
    case Finished(work, outcome) => work in ran && ran[work] == outcome
    case Reported(work) => work in ran
    case _ => true
  }

  predicate ReportRanOk(s: nat, r: TaskResult, ran: map<Work, Outcome>) {
    Work(s, r.idx) in ran && ran[Work(s, r.idx)] == r.outcome
  }

  ghost predicate Inv(p: State) {
    Conserved(p) && SubsOk(p) && LocksOk(p) && RanOk(p)
  }

  // ----- consequences of conservation

  lemma HeldMeansOnce(p: State, w: nat)
    requires Conserved(p) && w < |p.workers| && (p.workers[w].Running? || p.workers[w].Finished?)
    ensures var work := p.workers[w].work;
            && Fed(p, work) && work !in p.queue && ReportedCount(p, work) == 0
            && (forall v :: 0 <= v < |p.workers| && v != w && (p.workers[v].Running? || p.workers[v].Finished?) ==> p.workers[v].work != work)
  {
    var work := p.workers[w].work;
    assert Places(p, work) == if Fed(p, work) then 1 else 0;
    SumNonNegative(p.workers, HoldOf(work));
    forall v | 0 <= v < |p.workers| && v != w && (p.workers[v].Running? || p.workers[v].Finished?)
      ensures p.workers[v].work != work
    {
      SumUpdate(p.workers, w, Idle, HoldOf(work));
      SumNonNegative(p.workers[w := Idle], HoldOf(work));
      assert p.workers[w := Idle][v] == p.workers[v];
    }
  }

  lemma QueuedMeansOnce(p: State, work: Work)
    requires Conserved(p) && work in p.queue
    ensures Fed(p, work) && HeldCount(p, work) == 0 && ReportedCount(p, work) == 0 && QueuedCount(p, work) == 1
  {
    assert Places(p, work) == if Fed(p, work) then 1 else 0;
    SumNonNegative(p.workers, HoldOf(work));
  }

  lemma ReportedOnce(p: State, s: nat, i: nat)
    requires Conserved(p) && s < |p.subs|
    ensures Times(Idxs(Reports(p.subs[s])), i) <= 1
    ensures i in Idxs(Reports(p.subs[s])) ==> i < p.subs[s].fed
  {
    var work := Work(s, i);
    assert Places(p, work) == if Fed(p, work) then 1 else 0;
    SumNonNegative(p.workers, HoldOf(work));
  }

  function Elements(xs: seq<nat>): set<nat> {
    set x | x in xs
  }

  function Below(n: nat): (b: set<nat>)
    ensures forall i: nat :: i in b <==> i < n
  {
    if n == 0 then {} else Below(n - 1) + {n - 1}
  }

  lemma {:induction false} DistinctCardinality(xs: seq<nat>)
    requires forall x: nat :: Times(xs, x) <= 1
    ensures |Elements(xs)| == |xs|
  {
    if xs != [] {
      assert xs == [xs[0]] + xs[1..];
      forall x: nat ensures Times(xs[1..], x) == Times(xs, x) - if x == xs[0] then 1 else 0 {
      }
      assert Times(xs, xs[0]) <= 1;
      DistinctCardinality(xs[1..]);
      assert Elements(xs) == {xs[0]} + Elements(xs[1..]);
    }
  }

  lemma {:induction false} BelowCardinality(n: nat)
    ensures |Below(n)| == n
  {
    if n > 0 {
      BelowCardinality(n - 1);
    }
  }

  lemma SubsetCardinality<T>(a: set<T>, b: set<T>)
    requires a <= b
    ensures |a| <= |b| && (|a| == |b| ==> a == b)
  {
    assert b == a + (b - a);
    assert |b| == |a| + |b - a|;
  }

  /** Distinct numbers below `n`, avoiding some `gaps` below `n`, are at most `n - |gaps|` many. */
  lemma Pigeonhole(xs: seq<nat>, n: nat, gaps: set<nat>)
    requires forall x :: x in xs ==> x < n && x !in gaps
    requires forall x: nat :: Times(xs, x) <= 1
    requires forall g :: g in gaps ==> g < n
    ensures |xs| + |gaps| <= n
    ensures |xs| + |gaps| == n ==> forall i: nat :: i < n && i !in gaps ==> i in xs
  {
    DistinctCardinality(xs);
    BelowCardinality(n);
    SubsetCardinality(Elements(xs) + gaps, Below(n));
    assert |Elements(xs) + gaps| == |Elements(xs)| + |gaps|;
    if |xs| + |gaps| == n {
      forall i: nat | i < n && i !in gaps ensures i in xs {
        assert i in Below(n);
      }
    }
  }

  /** The result channel always has room for a held task: it holds at most the other tasks' results. */
  lemma RoomForReport(p: State, w: nat)
    requires Conserved(p) && SubsOk(p) && w < |p.workers| && (p.workers[w].Running? || p.workers[w].Finished?)
    ensures var s := p.workers[w].work.sub; s < |p.subs| && |Reports(p.subs[s])| < p.subs[s].fed <= p.subs[s].size
  {
    var work := p.workers[w].work;
    HeldMeansOnce(p, w);
    var xs := Idxs(Reports(p.subs[work.sub]));
    assert SubOk(p, work.sub);
    forall x: nat ensures Times(xs, x) <= 1 && (x in xs ==> x < p.subs[work.sub].fed) {
      ReportedOnce(p, work.sub, x);
    }
    assert Times(xs, work.idx) == 0;
    Pigeonhole(xs, p.subs[work.sub].fed, {work.idx});
  }

  /** Once the wait group is at zero, all tasks were fed and reported, and no worker has yet to call Done. */
  lemma WaitGroupZero(p: State, s: nat)
    requires Conserved(p) && SubsOk(p) && s < |p.subs| && p.subs[s].phase != Rejected
    ensures p.subs[s].wg >= 0 && Signals(p, s) >= 0 && |Reports(p.subs[s])| <= p.subs[s].fed
    ensures p.subs[s].wg == 0 ==>
              p.subs[s].fed == p.subs[s].size == |Reports(p.subs[s])| && Signals(p, s) == 0
  {
    var xs := Idxs(Reports(p.subs[s]));
    assert SubOk(p, s);
    forall x: nat ensures Times(xs, x) <= 1 && (x in xs ==> x < p.subs[s].fed) {
      ReportedOnce(p, s, x);
    }
    Pigeonhole(xs, p.subs[s].fed, {});
    SumNonNegative(p.workers, SignalOf(s));
  }
}
