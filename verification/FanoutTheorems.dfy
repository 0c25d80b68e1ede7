/** What holds over whole runs of the shared watch, however clients, events and stream ends interleave. */
module FanoutTheorems {
  import opened Wrappers
  import opened Selectors
  import opened WatchTypes
  import opened FanoutSpec
  import opened FanoutProps
  import opened FanoutRuns

  ghost predicate IsRun(ss: seq<State>, steps: seq<Step>) {
    && |ss| == |steps| + 1
    && ss[0] == INIT
    && forall t :: 0 <= t < |steps| ==> Enabled(ss[t], steps[t]) && ss[t + 1] == Next(ss[t], steps[t])
  }

  lemma {:induction false} RunKeepsInv(ss: seq<State>, steps: seq<Step>, t: nat)
    requires IsRun(ss, steps) && t < |ss|
    ensures Inv(ss[t])
  {
    if t > 0 {
      RunKeepsInv(ss, steps, t - 1);
      StepKeepsInv(ss[t - 1], steps[t - 1]);
    }
  }

  /** Chain agreement in every reachable state, between any two notifiers of the chain. */
  lemma AgreementInEveryRun(ss: seq<State>, steps: seq<Step>, t: nat, i: nat, j: nat, k: Key)
    requires IsRun(ss, steps) && t < |ss| && i <= j < |ss[t].chain|
    ensures k in ss[t].chain[i].processed ==>
              k in ss[t].chain[j].processed &&
              ss[t].chain[j].processed[k].version == ss[t].chain[i].processed[k].version
  {
    RunKeepsInv(ss, steps, t);
    AgreementReaches(ss[t].chain, i, j);
  }

  // ----- re-listed objects

  /** No record has an empty version, which would pass for an unseen object. */
  ghost predicate Versioned(chain: Chain) {
    forall i, k :: 0 <= i < |chain| && k in chain[i].processed ==> chain[i].processed[k].version != ""
  }

  /** Every object event carries a version. */
  predicate HasVersion(step: Step) {
    step.EventStep? ==> step.ev.obj.version != ""
  }

  lemma EventKeepsVersioned(chain: Chain, ev: Event, outs: seq<Outcome>)
    requires Versioned(chain) && |outs| == |chain| && ev.obj.version != ""
    ensures Versioned(AcceptChain(chain, ev.typ, ev.obj, outs))
  {
    var after := AcceptChain(chain, ev.typ, ev.obj, outs);
    forall i, k | 0 <= i < |after| && k in after[i].processed ensures after[i].processed[k].version != "" {
      EveryNotifierRecords(chain, ev.typ, ev.obj, outs, i);
    }
  }

  lemma LeavingKeepsVersioned(s: State, step: Step)
    requires Versioned(s.chain) && (step.StopStep? || step.EndStep?) && Enabled(s, step)
    ensures Versioned(Next(s, step).chain)
  {
    var after := Next(s, step).chain;
    forall i | 0 <= i < |after| ensures after[i].processed == s.chain[i].processed {
      if step.StopStep? {
        RemoveClientAt(s.chain, step.c, i);
      } else if !s.streams[step.sid] {
        EmptiedAt(s.chain, i);
      }
    }
  }

  lemma StepKeepsVersioned(s: State, step: Step)
    requires Versioned(s.chain) && HasVersion(step) && Enabled(s, step)
    ensures Versioned(Next(s, step).chain)
  {
    match step
    case EventStep(_, ev, outs) => EventKeepsVersioned(s.chain, ev, outs);
    case StopStep(_) => LeavingKeepsVersioned(s, step);
    case EndStep(_) => LeavingKeepsVersioned(s, step);
    case _ =>
  }

  lemma {:induction false} RunKeepsVersioned(ss: seq<State>, steps: seq<Step>, t: nat)
    requires IsRun(ss, steps) && t < |ss| && forall u :: 0 <= u < |steps| ==> HasVersion(steps[u])
    ensures Versioned(ss[t].chain)
  {
    if t > 0 {
      RunKeepsVersioned(ss, steps, t - 1);
      StepKeepsVersioned(ss[t - 1], steps[t - 1]);
    }
  }

  /**
   In every reachable state of a run whose object events carry versions: what an old notifier delivers
   for a re-listed object, read off the oldest record.
   */
  lemma RelistCasesInEveryRun(ss: seq<State>, steps: seq<Step>, t: nat, obj: Resource, i: nat)
    requires IsRun(ss, steps) && t < |ss| && forall u :: 0 <= u < |steps| ==> HasVersion(steps[u])
    requires 0 < i < |ss[t].chain| && obj.generation > 1
    ensures var chain := ss[t].chain;
            var oldest := chain[|chain| - 1].processed;
            && (obj.key !in oldest ==> VerdictAt(chain, Added, obj, i) == Some(Added))
            && (obj.key in oldest && oldest[obj.key].version != obj.version ==>
                  VerdictAt(chain, Added, obj, i) == Some(Modified))
            && (obj.key in oldest && oldest[obj.key].version == obj.version ==>
                  VerdictAt(chain, Added, obj, i) == if obj.key in chain[i].processed then None else Some(Added))
    ensures VerdictAt(ss[t].chain, Added, obj, 0) == if Skips(ss[t].chain[0], obj) then None else Some(Added)
  {
    RunKeepsInv(ss, steps, t);
    RunKeepsVersioned(ss, steps, t);
    RelistCases(ss[t].chain, obj, i);
  }

  // ----- streams

  /** Only the newest stream may be running; everybody else's context has been cancelled. */
  lemma OneRunningStream(ss: seq<State>, steps: seq<Step>, t: nat, sid: nat)
    requires IsRun(ss, steps) && t < |ss| && sid in ss[t].streams && !ss[t].streams[sid]
    ensures ss[t].chain != [] && ss[t].chain[0].id == sid
    ensures forall other :: other in ss[t].streams && other != sid ==> ss[t].streams[other]
  {
    RunKeepsInv(ss, steps, t);
  }

  // ----- channel safety

  /** How a client may change: its log only grows, and once it is stopped or closed nothing changes. */
  ghost predicate Evolves(s: State, s': State, c: nat) {
    && c in s.wires && c in s'.wires
    && s'.wires[c].filter == s.wires[c].filter
    && s.wires[c].log <= s'.wires[c].log
    && (StatusOf(s, c) != Live ==> s'.wires[c] == s.wires[c] && StatusOf(s', c) == StatusOf(s, c))
  }

  lemma BookmarkEvolves(s: State, obj: Resource, out: Outcome, c: nat)
    requires Inv(s) && s.chain != [] && LegalOutcome(BookmarkAudience(Drained(s.chain)), out) && c in s.wires
    ensures Evolves(s, AfterBookmark(s, obj, out), c)
  {
    DrainedIsTheUnion(s.chain);
    DrainedStaysWired(s.chain, s.wires);
    BookmarkOnChannel(Drained(s.chain), s.wires, obj, out, c);
    BookmarkKeepsInv(s, obj, out);
  }

  lemma EventEvolves(s: State, ev: Event, outs: seq<Outcome>, c: nat)
    requires Inv(s) && ev.typ != Bookmark && LegalRound(s.chain, ev.typ, ev.obj, outs) && c in s.wires
    ensures Evolves(s, AfterEvent(s, ev, outs), c)
  {
    EventOnChannel(s, ev, outs, c);
    LiveIdsShrink(s.chain, ev.typ, ev.obj, outs);
  }

  lemma LeaveEvolves(s: State, step: Step, c: nat)
    requires Inv(s) && (step.StopStep? || step.EndStep? || step.CancelStep?) && Enabled(s, step) && c in s.wires
    ensures Evolves(s, Next(s, step), c)
  {
    if step.StopStep? {
      RemoveClientKeepsShape(s.chain, s.wires, step.c);
    } else {
      EmptiedHasNobody(s.chain, s.wires);
    }
  }

  lemma StepEvolves(s: State, step: Step, c: nat)
    requires Inv(s) && Enabled(s, step) && c in s.wires
    ensures Evolves(s, Next(s, step), c)
  {
    match step
    case WatchStep(f, upstreamOk) =>
      if upstreamOk { WatchShape(s, f); }
    case EventStep(_, ev, outs) => EventEvolves(s, ev, outs, c);
    case BookmarkStep(_, obj, out) => BookmarkEvolves(s, obj, out, c);
    case ForeignStep(_) =>
    case _ => LeaveEvolves(s, step, c);
  }

  lemma {:induction false} RunEvolves(ss: seq<State>, steps: seq<Step>, t: nat, u: nat, c: nat)
    requires IsRun(ss, steps) && t <= u < |ss| && c in ss[t].wires
    ensures Evolves(ss[t], ss[u], c)
    decreases u - t
  {
    if t < u {
      RunEvolves(ss, steps, t, u - 1, c);
      RunKeepsInv(ss, steps, u - 1);
      StepEvolves(ss[u - 1], steps[u - 1], c);
    }
  }

  /**
   Channel safety.  At any time an admitted client is live in exactly one notifier with an open
   channel, or stopped with an open channel that nobody writes to, or closed; and from then on its
   log only grows while it is live and its channel never changes again after it left.
   */
  lemma ChannelSafety(ss: seq<State>, steps: seq<Step>, t: nat, u: nat, c: nat)
    requires IsRun(ss, steps) && t <= u < |ss| && c in ss[t].wires
    ensures Evolves(ss[t], ss[u], c)
    ensures ss[t].wires[c].closed <==> StatusOf(ss[t], c) == Closed
    ensures StatusOf(ss[t], c) == Live <==>
              exists i :: 0 <= i < |ss[t].chain| && c in ss[t].chain[i].clients
    ensures forall i, j | 0 <= i < |ss[t].chain| && 0 <= j < |ss[t].chain| ::
              c in ss[t].chain[i].clients && c in ss[t].chain[j].clients ==> i == j
  {
    RunEvolves(ss, steps, t, u, c);
    RunKeepsInv(ss, steps, t);
    var chain := ss[t].chain;
    if c in LiveIds(chain) {
      var i := LiveIndex(chain, c);
    }
    forall i | 0 <= i < |chain| && c in chain[i].clients ensures c in LiveIds(chain) {
      LiveAt(chain, i, c);
    }
    forall i, j | 0 <= i < |chain| && 0 <= j < |chain| && c in chain[i].clients && c in chain[j].clients ensures i == j {
      OwnedOnce(chain, i, j, c);
    }
  }

  /** PREVIOUS never reaches a client, and a client only ever gets what its filter asked for. */
  lemma OnlyWantedEventsArrive(ss: seq<State>, steps: seq<Step>, t: nat, c: nat, i: nat)
    requires IsRun(ss, steps) && t < |ss| && c in ss[t].wires && i < |ss[t].wires[c].log|
    ensures var e, f := ss[t].wires[c].log[i], ss[t].wires[c].filter;
            && e.typ != Previous
            && (e.typ == Bookmark ==> f.watchBookmark)
            && (e.typ != Bookmark ==> AcceptMeta(e.obj, f))
  {
    RunKeepsInv(ss, steps, t);
  }

  // ----- what a step sends, without the functions that specify it

  /** The type under which the notifier at position `i` delivers an object that it does not skip. */
  function DeliveredAs(chain: Chain, ev: Event, i: nat): EventType
    requires i < |chain|
  {
    var oldest, k := chain[|chain| - 1].processed, ev.obj.key;
    if i == 0 || ev.typ != Added || ev.obj.generation <= 1 then ev.typ
    else if k !in oldest || oldest[k].version == "" || oldest[k].version == ev.obj.version then Added
    else Modified
  }

  predicate Has(processed: map<Key, Record>, obj: Resource) {
    obj.key in processed && processed[obj.key].version == obj.version
  }

  lemma VerdictIsDelivery(chain: Chain, ev: Event, i: nat)
    requires Agrees(chain) && i < |chain| && ev.typ != Previous
    ensures ExpectedVerdict(chain, ev.typ, ev.obj, i) ==
            if Has(chain[i].processed, ev.obj) then None else Some(DeliveredAs(chain, ev, i))
  {
    AgreementReaches(chain, i, |chain| - 1);
  }

  /**
   One object event, if no send of the client's notifier times out: the client gets it exactly if its
   notifier did not have that version and both its selectors fit.
   */
  lemma EventDelivery(s: State, step: Step, i: nat, c: nat)
    requires Inv(s) && step.EventStep? && Enabled(s, step) && step.ev.typ != Previous
    requires i < |s.chain| && c in s.chain[i].clients && c in s.wires && step.outs[i].dropped.None?
    ensures var n, f, obj, ch := s.chain[i].processed, s.chain[i].clients[c], step.ev.obj, s.wires[c];
            Next(s, step).wires[c] ==
            if Has(n, obj) || !Selects(f.labels, obj.labels) || !Selects(f.annotations, obj.annotations) then ch
            else ch.(log := ch.log + [Event(DeliveredAs(s.chain, step.ev, i), obj)])
  {
    var ev := step.ev;
    VerdictIsDelivery(s.chain, ev, i);
    DeliveryWithoutTimeouts(s.chain, s.wires, ev.typ, ev.obj, step.outs, i, c);
  }

  /** And every notifier that did not have that version records it under the type it delivered. */
  lemma EventRecorded(s: State, step: Step, i: nat)
    requires Inv(s) && step.EventStep? && Enabled(s, step) && step.ev.typ != Previous && i < |s.chain|
    ensures |Next(s, step).chain| == |s.chain|
    ensures var before, after, obj := s.chain[i].processed, Next(s, step).chain[i].processed, step.ev.obj;
            after == if Has(before, obj) then before else before[obj.key := Record(obj.version, DeliveredAs(s.chain, step.ev, i))]
  {
    var ev := step.ev;
    VerdictIsDelivery(s.chain, ev, i);
    VerdictClosedForm(s.chain, ev.typ, ev.obj, i);
    AcceptChainAt(s.chain, ev.typ, ev.obj, step.outs, i);
  }

  /** One bookmark, if no send times out: the client gets it exactly if it asked for bookmarks. */
  lemma BookmarkDelivery(s: State, step: Step, i: nat, c: nat)
    requires Inv(s) && step.BookmarkStep? && Enabled(s, step)
    requires i < |s.chain| && c in s.chain[i].clients && c in s.wires
    ensures var ch, ch' := s.wires[c], Next(s, step).wires[c];
            var sent := ch.(log := ch.log + [Event(Bookmark, step.obj)]);
            && (step.out.dropped.None? ==> ch' == if s.chain[i].clients[c].watchBookmark then sent else ch)
            && (step.out.dropped == Some(c) ==> s.chain[i].clients[c].watchBookmark && ch' == ch.(closed := true))
            && (step.out.dropped != Some(c) ==> ch' == ch || (ch' == sent && s.chain[i].clients[c].watchBookmark))
  {
    BookmarkReaches(s.chain, s.wires, step.out, step.obj, i, c);
  }

  /** A time-out of an object event: one client that was to get it is closed and removed, no other is closed. */
  lemma EventTimeout(s: State, step: Step, i: nat, c: nat, d: nat)
    requires Inv(s) && step.EventStep? && Enabled(s, step) && step.ev.typ != Previous
    requires i < |s.chain| && c in s.chain[i].clients && c in s.wires && step.outs[i].dropped == Some(d)
    ensures d in s.chain[i].clients && !Has(s.chain[i].processed, step.ev.obj)
    ensures var f := s.chain[i].clients[d];
            Selects(f.labels, step.ev.obj.labels) && Selects(f.annotations, step.ev.obj.annotations)
    ensures var ch, ch' := s.wires[c], Next(s, step).wires[c];
            if c == d then ch' == ch.(closed := true) && c !in Next(s, step).chain[i].clients
            else !ch'.closed && ch.log <= ch'.log && c in Next(s, step).chain[i].clients
  {
    var ev := step.ev;
    LegalAt(s.chain, ev.typ, ev.obj, step.outs, i);
    WiredAt(s.chain, s.wires, i);
    DeliveryWithTimeouts(s.chain, s.wires, ev.typ, ev.obj, step.outs, i, c);
    WiresAt(s.chain, s.wires, ev.typ, ev.obj, step.outs, i, c);
    VerdictClosedForm(s.chain, ev.typ, ev.obj, i);
  }

  // ----- suppression loses nothing

  /** The version of the last event about `k` that reached the notifier of `c` while `c` was on it. */
  ghost function LastOffered(ss: seq<State>, steps: seq<Step>, t: nat, c: nat, k: Key): Option<string>
    requires t <= |steps| < |ss|
  {
    if t == 0 then None
    else if steps[t - 1].EventStep? && steps[t - 1].ev.obj.key == k && c in LiveIds(ss[t - 1].chain) then
      Some(steps[t - 1].ev.obj.version)
    else LastOffered(ss, steps, t - 1, c, k)
  }

  function OfferedVersion(s: State, c: nat, k: Key): Option<string> {
    if c in s.offered && k in s.offered[c] then Some(s.offered[c][k]) else None
  }

  predicate Offers(s: State, step: Step, c: nat, k: Key) {
    step.EventStep? && step.ev.obj.key == k && c in LiveIds(s.chain)
  }

  lemma StepOffers(s: State, step: Step, c: nat, k: Key)
    requires Inv(s) && Enabled(s, step)
    ensures OfferedVersion(Next(s, step), c, k) ==
            if Offers(s, step, c, k) then Some(step.ev.obj.version) else OfferedVersion(s, c, k)
  {
  }

  lemma {:induction false} OfferedIsLastOffered(ss: seq<State>, steps: seq<Step>, t: nat, c: nat, k: Key)
    requires IsRun(ss, steps) && t < |ss|
    ensures LastOffered(ss, steps, t, c, k) == OfferedVersion(ss[t], c, k)
  {
    if t > 0 {
      RunKeepsInv(ss, steps, t - 1);
      OfferedIsLastOffered(ss, steps, t - 1, c, k);
      StepOffers(ss[t - 1], steps[t - 1], c, k);
    }
  }

  /**
   Suppression is sound over every run, hand-overs included: a client's notifier skips an event only
   if the last event about that object offered to the client had the very same version.
   */
  lemma SuppressedOnlyIfRepeated(ss: seq<State>, steps: seq<Step>, t: nat, i: nat, c: nat)
    requires IsRun(ss, steps) && t < |steps| && steps[t].EventStep?
    requires i < |ss[t].chain| && c in ss[t].chain[i].clients
    requires Skips(ss[t].chain[i], steps[t].ev.obj)
    ensures LastOffered(ss, steps, t, c, steps[t].ev.obj.key) == Some(steps[t].ev.obj.version)
  {
    RunKeepsInv(ss, steps, t);
    WiredAt(ss[t].chain, ss[t].wires, i);
    RecallsAt(ss[t].chain, ss[t].offered, i);
    OfferedIsLastOffered(ss, steps, t, c, steps[t].ev.obj.key);
  }

  /** The version in the last event about `k` on a channel. */
  function LastLogged(log: seq<Event>, k: Key): Option<string> {
    if log == [] then None
    else
      var e := log[|log| - 1];
      if e.typ != Bookmark && e.obj.key == k then Some(e.obj.version) else LastLogged(log[..|log| - 1], k)
  }

  lemma LastLoggedAppend(log: seq<Event>, e: Event, k: Key)
    ensures LastLogged(log + [e], k) == if e.typ != Bookmark && e.obj.key == k then Some(e.obj.version) else LastLogged(log, k)
  {
    assert (log + [e])[..|log|] == log;
  }

  predicate NoTimeout(step: Step) {
    match step
    case EventStep(_, _, outs) => forall i :: 0 <= i < |outs| ==> outs[i].dropped.None?
    case BookmarkStep(_, _, out) => out.dropped.None?
    case _ => true
  }

  lemma {:induction false} EventReachesWanted(s: State, ev: Event, outs: seq<Outcome>, i: nat, c: nat)
    requires Inv(s) && ev.typ != Bookmark && LegalRound(s.chain, ev.typ, ev.obj, outs)
    requires i < |s.chain| && c in s.chain[i].clients && c in s.wires
    requires outs[i].dropped.None?
    ensures var log' := AfterEvent(s, ev, outs).wires[c].log;
            if Skips(s.chain[i], ev.obj) || !AcceptMeta(ev.obj, s.wires[c].filter) then log' == s.wires[c].log
            else exists t :: t != Bookmark && log' == s.wires[c].log + [Event(t, ev.obj)]
  {
    WiredAt(s.chain, s.wires, i);
    WiresAt(s.chain, s.wires, ev.typ, ev.obj, outs, i, c);
    LegalAt(s.chain, ev.typ, ev.obj, outs, i);
    VerdictTypes(s.chain[i..], TypeSeenBy(i, ev.typ, ev.obj), ev.obj);
  }

  /** What an event does to the last version logged: it sets it exactly if it is sent to the client. */
  lemma EventLogs(s: State, ev: Event, outs: seq<Outcome>, i: nat, c: nat, k: Key)
    requires Inv(s) && ev.typ != Bookmark && LegalRound(s.chain, ev.typ, ev.obj, outs)
    requires i < |s.chain| && c in s.chain[i].clients && c in s.wires && outs[i].dropped.None?
    ensures LastLogged(AfterEvent(s, ev, outs).wires[c].log, k) ==
            if ev.obj.key == k && !Skips(s.chain[i], ev.obj) && AcceptMeta(ev.obj, s.wires[c].filter)
            then Some(ev.obj.version) else LastLogged(s.wires[c].log, k)
  {
    EventReachesWanted(s, ev, outs, i, c);
    if !Skips(s.chain[i], ev.obj) && AcceptMeta(ev.obj, s.wires[c].filter) {
      var typ :| typ != Bookmark && AfterEvent(s, ev, outs).wires[c].log == s.wires[c].log + [Event(typ, ev.obj)];
      LastLoggedAppend(s.wires[c].log, Event(typ, ev.obj), k);
    }
  }

  /** The filter of a client that selects nothing away, such as the cache adapters' one. */
  predicate Unfiltered(f: Filter) {
    f.labels == map[] && f.annotations == map[]
  }

  /** A live unfiltered client has been sent the version it was last offered. */
  ghost predicate UpToDate(s: State, c: nat, k: Key) {
    c in s.wires && c in LiveIds(s.chain) && Unfiltered(s.wires[c].filter) ==>
      LastLogged(s.wires[c].log, k) == OfferedVersion(s, c, k)
  }

  lemma EventKeepsUpToDate(s: State, ev: Event, outs: seq<Outcome>, i: nat, c: nat, k: Key)
    requires Inv(s) && ev.typ != Bookmark && LegalRound(s.chain, ev.typ, ev.obj, outs)
    requires i < |s.chain| && c in s.chain[i].clients && c in LiveIds(s.chain) && outs[i].dropped.None?
    requires c in s.wires && Unfiltered(s.wires[c].filter) && UpToDate(s, c, k)
    ensures LastLogged(AfterEvent(s, ev, outs).wires[c].log, k) == OfferedVersion(AfterEvent(s, ev, outs), c, k)
  {
    EventLogs(s, ev, outs, i, c, k);
    assert AcceptMeta(ev.obj, s.wires[c].filter);
    if Skips(s.chain[i], ev.obj) {
      WiredAt(s.chain, s.wires, i);
      RecallsAt(s.chain, s.offered, i);
    }
  }

  lemma StepKeepsUpToDate(s: State, step: Step, c: nat, k: Key)
    requires Inv(s) && Enabled(s, step) && NoTimeout(step) && UpToDate(s, c, k)
    ensures UpToDate(Next(s, step), c, k)
  {
    if c in s.wires {
      StepEvolves(s, step, c);
      if c in LiveIds(s.chain) && Unfiltered(s.wires[c].filter) {
        match step
        case EventStep(_, ev, outs) =>
          var i := LiveIndex(s.chain, c);
          EventKeepsUpToDate(s, ev, outs, i, c, k);
        case BookmarkStep(_, obj, out) => LastLoggedAppend(s.wires[c].log, Event(Bookmark, obj), k);
        case _ =>
      }
    }
  }

  /**
   Nothing is lost: in a run without time-outs a live unfiltered client has, for every object, been
   sent the last version that was offered to it, over any number of re-watches and hand-overs.
   */
  lemma {:induction false} NothingLost(ss: seq<State>, steps: seq<Step>, t: nat, c: nat, k: Key)
    requires IsRun(ss, steps) && t < |ss|
    requires forall u :: 0 <= u < t ==> NoTimeout(steps[u])
    ensures c in LiveIds(ss[t].chain) && c in ss[t].wires && Unfiltered(ss[t].wires[c].filter) ==>
              LastLogged(ss[t].wires[c].log, k) == LastOffered(ss, steps, t, c, k)
  {
    OfferedIsLastOffered(ss, steps, t, c, k);
    if t > 0 {
      NothingLost(ss, steps, t - 1, c, k);
      OfferedIsLastOffered(ss, steps, t - 1, c, k);
      RunKeepsInv(ss, steps, t - 1);
      StepKeepsUpToDate(ss[t - 1], steps[t - 1], c, k);
    }
  }

  // ----- nothing lost, for any filter

  /** The version of the last event about `k` offered to `c` whose object the client's filter accepts. */
  ghost function LastAccepted(ss: seq<State>, steps: seq<Step>, t: nat, c: nat, k: Key): Option<string>
    requires t <= |steps| < |ss|
  {
    if t == 0 then None
    else if Accepts(ss[t - 1], steps[t - 1], c, k) then Some(steps[t - 1].ev.obj.version)
    else LastAccepted(ss, steps, t - 1, c, k)
  }

  predicate Accepts(s: State, step: Step, c: nat, k: Key) {
    Offers(s, step, c, k) && c in s.wires && AcceptMeta(step.ev.obj, s.wires[c].filter)
  }

  /** Key and version determine an object: events that agree on both carry the same one. */
  ghost predicate Determined(steps: seq<Step>) {
    forall u, v :: 0 <= u < |steps| && 0 <= v < |steps| ==> SameObject(steps[u], steps[v])
  }

  predicate SameObject(a: Step, b: Step) {
    a.EventStep? && b.EventStep? && a.ev.obj.key == b.ev.obj.key && a.ev.obj.version == b.ev.obj.version ==> a.ev.obj == b.ev.obj
  }

  lemma {:induction false} NothingAcceptedBefore(ss: seq<State>, steps: seq<Step>, t: nat, c: nat, k: Key)
    requires IsRun(ss, steps) && t < |ss| && c !in ss[t].wires
    ensures LastAccepted(ss, steps, t, c, k) == None
  {
    if t > 0 {
      ChannelsStay(ss, steps, t - 1, c);
      NothingAcceptedBefore(ss, steps, t - 1, c, k);
    }
  }

  lemma ChannelsStay(ss: seq<State>, steps: seq<Step>, t: nat, c: nat)
    requires IsRun(ss, steps) && t < |steps|
    ensures c in ss[t].wires ==> c in ss[t + 1].wires
  {
    RunKeepsInv(ss, steps, t);
    if c in ss[t].wires {
      StepEvolves(ss[t], steps[t], c);
    }
  }

  /** If the last object offered is one that the filter accepts, it is the last accepted, too. */
  lemma {:induction false} OfferedAndAccepted(ss: seq<State>, steps: seq<Step>, t: nat, u: nat, c: nat)
    requires IsRun(ss, steps) && Determined(steps) && t <= u < |steps| && steps[u].EventStep? && c in ss[u].wires
    requires AcceptMeta(steps[u].ev.obj, ss[u].wires[c].filter)
    requires LastOffered(ss, steps, t, c, steps[u].ev.obj.key) == Some(steps[u].ev.obj.version)
    ensures LastAccepted(ss, steps, t, c, steps[u].ev.obj.key) == Some(steps[u].ev.obj.version)
    decreases t
  {
    var s, step, k := ss[t - 1], steps[t - 1], steps[u].ev.obj.key;
    if Offers(s, step, c, k) {
      assert SameObject(step, steps[u]);
      RunKeepsInv(ss, steps, t - 1);
      LiveHasWire(s, c);
      RunEvolves(ss, steps, t - 1, u, c);
    } else {
      OfferedAndAccepted(ss, steps, t - 1, u, c);
    }
  }

  lemma LiveHasWire(s: State, c: nat)
    requires Inv(s) && c in LiveIds(s.chain)
    ensures c in s.wires
  {
    var i := LiveIndex(s.chain, c);
    WiredAt(s.chain, s.wires, i);
  }

  /** Steps without an object event leave the last version logged as it is. */
  lemma QuietStepLogs(s: State, step: Step, c: nat, k: Key)
    requires Inv(s) && Enabled(s, step) && !step.EventStep? && NoTimeout(step) && c in s.wires
    ensures c in Next(s, step).wires && LastLogged(Next(s, step).wires[c].log, k) == LastLogged(s.wires[c].log, k)
  {
    StepEvolves(s, step, c);
    if step.BookmarkStep? {
      LastLoggedAppend(s.wires[c].log, Event(Bookmark, step.obj), k);
    }
  }

  lemma EventStepLogs(ss: seq<State>, steps: seq<Step>, t: nat, c: nat, k: Key)
    requires IsRun(ss, steps) && Determined(steps) && t < |steps| && steps[t].EventStep? && NoTimeout(steps[t])
    requires c in LiveIds(ss[t].chain) && c in ss[t].wires
    requires LastLogged(ss[t].wires[c].log, k) == LastAccepted(ss, steps, t, c, k)
    ensures c in ss[t + 1].wires && LastLogged(ss[t + 1].wires[c].log, k) == LastAccepted(ss, steps, t + 1, c, k)
  {
    var s, ev := ss[t], steps[t].ev;
    var i := LiveIndex(s.chain, c);
    RunKeepsInv(ss, steps, t);
    StepEvolves(s, steps[t], c);
    EventLogs(s, ev, steps[t].outs, i, c, k);
    if Skips(s.chain[i], ev.obj) && AcceptMeta(ev.obj, s.wires[c].filter) && ev.obj.key == k {
      SuppressedOnlyIfRepeated(ss, steps, t, i, c);
      OfferedAndAccepted(ss, steps, t, t, c);
    }
  }

  /**
   Nothing is lost, whatever the filter: in a run without time-outs, if key and version determine an
   object, a live client has on its channel, for every object, the last version offered that its
   filter accepts, over any number of re-watches and hand-overs.
   */
  lemma {:induction false} NothingWantedLost(ss: seq<State>, steps: seq<Step>, t: nat, c: nat, k: Key)
    requires IsRun(ss, steps) && Determined(steps) && t < |ss|
    requires forall u :: 0 <= u < t ==> NoTimeout(steps[u])
    ensures c in LiveIds(ss[t].chain) ==>
              c in ss[t].wires && LastLogged(ss[t].wires[c].log, k) == LastAccepted(ss, steps, t, c, k)
  {
    RunKeepsInv(ss, steps, t);
    if t > 0 && c in LiveIds(ss[t].chain) {
      var s, step := ss[t - 1], steps[t - 1];
      RunKeepsInv(ss, steps, t - 1);
      LiveHasWire(ss[t], c);
      if c !in s.wires {
        NothingAcceptedBefore(ss, steps, t - 1, c, k);
        NewChannelIsEmpty(s, step, c);
      } else {
        StepEvolves(s, step, c);
        NothingWantedLost(ss, steps, t - 1, c, k);
        if step.EventStep? {
          EventStepLogs(ss, steps, t - 1, c, k);
        } else {
          QuietStepLogs(s, step, c, k);
        }
      }
    }
  }

  lemma NewChannelIsEmpty(s: State, step: Step, c: nat)
    requires Inv(s) && Enabled(s, step) && c !in s.wires && c in Next(s, step).wires
    ensures Next(s, step).wires[c].log == [] && step.WatchStep?
  {
  }

  // ----- a stretch of a run

  /** The states `ss` lie between the steps `steps`. */
  ghost predicate IsPath(ss: seq<State>, steps: seq<Step>) {
    && |ss| == |steps| + 1
    && forall t :: 0 <= t < |steps| ==> Enabled(ss[t], steps[t]) && ss[t + 1] == Next(ss[t], steps[t])
  }

  lemma OneMoreStep(ss: seq<State>, steps: seq<Step>, step: Step, s: State)
    requires IsPath(ss, steps) && Enabled(ss[|steps|], step) && s == Next(ss[|steps|], step)
    ensures IsPath(ss + [s], steps + [step])
  {
  }

  /** A live, unfiltered client that has been sent the last version it was offered of `k`. */
  ghost predicate Follows(s: State, c: nat, k: Key) {
    Inv(s) && c in s.wires && Unfiltered(s.wires[c].filter) && c in LiveIds(s.chain) && UpToDate(s, c, k)
  }

  /** One step for such a client, if it stays live: an event about `k` sets the last version on its channel. */
  lemma StepReachesClient(s: State, step: Step, s': State, c: nat, k: Key)
    requires Follows(s, c, k) && Enabled(s, step) && s' == Next(s, step) && NoTimeout(step) && c in LiveIds(s'.chain)
    ensures Follows(s', c, k)
    ensures LastLogged(s'.wires[c].log, k) ==
            if step.EventStep? && step.ev.obj.key == k then Some(step.ev.obj.version) else LastLogged(s.wires[c].log, k)
  {
    StepKeepsInv(s, step);
    StepEvolves(s, step, c);
    StepKeepsUpToDate(s, step, c, k);
    StepOffers(s, step, c, k);
  }

  // ----- the end of a stream

  /**
   When the running stream ends, every client on the chain, whichever notifier owns it, goes from
   live to closed, nobody else's channel changes and no client is left.
   */
  lemma UpstreamEndClosesEverybody(ss: seq<State>, steps: seq<Step>, t: nat, sid: nat, c: nat)
    requires IsRun(ss, steps) && t < |ss| && sid in ss[t].streams && !ss[t].streams[sid] && c in ss[t].wires
    ensures var s, s' := ss[t], AfterEnd(ss[t], sid);
            && ClientCount(s'.chain) == 0 && sid !in s'.streams
            && (StatusOf(s, c) == Live ==> !s.wires[c].closed && s'.wires[c] == s.wires[c].(closed := true) && StatusOf(s', c) == Closed)
            && (StatusOf(s, c) != Live ==> s'.wires[c] == s.wires[c] && StatusOf(s', c) == StatusOf(s, c))
  {
    RunKeepsInv(ss, steps, t);
    EmptiedHasNobody(ss[t].chain, ss[t].wires);
  }

  /** A stream that notices its cancellation, or gets an object of another type, does nothing to the clients. */
  lemma QuietTurns(s: State, sid: nat)
    requires sid in s.streams
    ensures s.streams[sid] ==> Next(s, CancelStep(sid)) == s.(streams := s.streams - {sid})
    ensures Enabled(s, ForeignStep(sid)) ==> Next(s, ForeignStep(sid)) == s
  {
  }

  /** A stream that a newer Watch has cancelled closes nobody when its channel ends. */
  lemma SupersededEndClosesNobody(ss: seq<State>, steps: seq<Step>, t: nat, f: Filter, upstreamOk: bool, sid: nat)
    requires IsRun(ss, steps) && t < |ss| && sid in ss[t].streams
    ensures var s := AfterWatch(ss[t], f, upstreamOk);
            && sid in s.streams && s.streams[sid]
            && AfterEnd(s, sid).chain == s.chain && AfterEnd(s, sid).wires == s.wires
  {
    RunKeepsInv(ss, steps, t);
  }

  // ----- a failed upstream watch

  /** Whether the last Watch got its upstream stream. */
  ghost function LastWatchOk(steps: seq<Step>, t: nat): bool
    requires t <= |steps|
  {
    if t == 0 then false
    else if steps[t - 1].WatchStep? then steps[t - 1].upstreamOk
    else LastWatchOk(steps, t - 1)
  }

  lemma {:induction false} HandlerIsOfLastWatch(ss: seq<State>, steps: seq<Step>, t: nat)
    requires IsRun(ss, steps) && t < |ss|
    ensures ss[t].handlerSet == LastWatchOk(steps, t)
  {
    if t > 0 {
      HandlerIsOfLastWatch(ss, steps, t - 1);
    }
  }

  /**
   StopWatching dereferences a nil handler exactly when the last Watch failed to connect and no
   other client is left on the chain.
   */
  lemma StopPanicsExactlyAfterFailedWatch(ss: seq<State>, steps: seq<Step>, t: nat, c: nat)
    requires IsRun(ss, steps) && t < |ss| && c in ss[t].wires
    ensures StopPanics(ss[t], c) <==> !LastWatchOk(steps, t) && LiveIds(ss[t].chain) <= {c}
  {
    RunKeepsInv(ss, steps, t);
    HandlerIsOfLastWatch(ss, steps, t);
    RemoveClientKeepsShape(ss[t].chain, ss[t].wires, c);
    CountIsCardinality(RemoveClient(ss[t].chain, c));
  }

  lemma FailedWatchCancels(s: State, f: Filter, sid: nat)
    requires StreamsOk(s) && sid in AfterWatch(s, f, false).streams
    ensures AfterWatch(s, f, false).streams[sid]
  {
  }

  lemma NoStreamOpens(s: State, step: Step, sid: nat)
    requires Enabled(s, step) && !step.WatchStep? && sid in Next(s, step).streams
    ensures sid in s.streams && Next(s, step).streams[sid] == s.streams[sid]
  {
  }

  /** After a failed Watch no stream is running: the one before was cancelled, and none was opened. */
  lemma {:induction false} FailedWatchLeavesNoStream(ss: seq<State>, steps: seq<Step>, t: nat, sid: nat)
    requires IsRun(ss, steps) && t < |ss| && !LastWatchOk(steps, t) && sid in ss[t].streams
    ensures ss[t].streams[sid]
  {
    if t > 0 {
      if steps[t - 1].WatchStep? {
        RunKeepsInv(ss, steps, t - 1);
        FailedWatchCancels(ss[t - 1], steps[t - 1].filter, sid);
      } else {
        NoStreamOpens(ss[t - 1], steps[t - 1], sid);
        FailedWatchLeavesNoStream(ss, steps, t - 1, sid);
      }
    }
  }

  /** As long as the last Watch has failed, no client gets anything and no channel is closed. */
  lemma {:induction false} FailedWatchSilences(ss: seq<State>, steps: seq<Step>, t: nat, u: nat)
    requires IsRun(ss, steps) && t <= u < |ss| && forall v :: t <= v <= u ==> !LastWatchOk(steps, v)
    ensures ss[u].wires == ss[t].wires
    decreases u - t
  {
    if t < u {
      FailedWatchSilences(ss, steps, t, u - 1);
      assert !LastWatchOk(steps, u - 1) && !LastWatchOk(steps, u);
      if steps[u - 1].EventStep? || steps[u - 1].BookmarkStep? || steps[u - 1].EndStep? {
        FailedWatchLeavesNoStream(ss, steps, u - 1, steps[u - 1].sid);
      }
      SilentStep(ss[u - 1], steps[u - 1]);
    }
  }

  /** Without a running stream only a Watch that connects touches the channels. */
  lemma SilentStep(s: State, step: Step)
    requires Enabled(s, step) && !(step.WatchStep? && step.upstreamOk)
    requires step.EventStep? || step.BookmarkStep? || step.EndStep? ==> step.sid in s.streams && s.streams[step.sid]
    ensures Next(s, step).wires == s.wires
  {
  }

  const PLAIN := Filter(map[], map[], false)

  /** Such a run exists: one client, then a Watch that cannot connect, then the client stops. */
  lemma FailedWatchRun() returns (ss: seq<State>, steps: seq<Step>)
    ensures IsRun(ss, steps) && |steps| == 2 && StopPanics(ss[2], 1) && Enabled(ss[2], StopStep(1))
  {
    steps := [WatchStep(PLAIN, true), WatchStep(PLAIN, false)];
    var s1 := AfterWatch(INIT, PLAIN, true);
    ss := [INIT, s1, AfterWatch(s1, PLAIN, false)];
    assert ss[2].chain == [Node(1, map[1 := PLAIN], map[])] + [];
    RemoveClientAt(ss[2].chain, 1, 0);
    assert RemoveClient(ss[2].chain, 1)[0].clients == map[];
    assert RemoveClient(ss[2].chain, 1)[1..] == [];
  }

  const OLDER := Node(1, map[1 := PLAIN], map[])
  const NEWER := Node(2, map[2 := PLAIN], map[])
  const BOTH := map[1 := PLAIN, 2 := PLAIN]

  lemma TwoWatches() returns (s1: State, s2: State)
    ensures s1 == AfterWatch(INIT, PLAIN, true) && s1.chain == [OLDER]
    ensures s2 == AfterWatch(s1, PLAIN, true) && s2.chain == [NEWER, OLDER]
    ensures s2.streams == map[1 := true, 2 := false]
    ensures s2.wires == map[1 := Channel(PLAIN, [], false), 2 := Channel(PLAIN, [], false)]
  {
    s1 := AfterWatch(INIT, PLAIN, true);
    s2 := AfterWatch(s1, PLAIN, true);
  }

  lemma DrainOfTwo()
    ensures Drained([NEWER, OLDER]) == BOTH && BookmarkAudience(BOTH) == {}
    ensures BookmarkChain([NEWER, OLDER], QUIET) == [Node(2, BOTH, map[])]
  {
    assert [NEWER, OLDER][1..] == [OLDER] && [OLDER][1..] == [];
    assert Drained([OLDER]) == map[1 := PLAIN];
    assert BOTH - {} == BOTH;
  }

  lemma BookmarkForTwo(s2: State, stale: Resource) returns (s3: State)
    requires s2.chain == [NEWER, OLDER] && s2.streams == map[1 := true, 2 := false]
    requires s2.wires == map[1 := Channel(PLAIN, [], false), 2 := Channel(PLAIN, [], false)]
    ensures Enabled(s2, BookmarkStep(2, stale, QUIET)) && s3 == Next(s2, BookmarkStep(2, stale, QUIET))
    ensures s3.chain == [Node(2, BOTH, map[])]
    ensures !Wired(s3.chain, CloseAll(s3.wires, OLDER.clients.Keys))
  {
    DrainOfTwo();
    s3 := AfterBookmark(s2, stale, QUIET);
    assert s3.wires[1] == Channel(PLAIN, [], false);
  }

  /** Two steps from the beginning and one more are a run. */
  lemma RunOfThree(s1: State, s2: State, s3: State, a: Step, b: Step, c: Step)
    requires Enabled(INIT, a) && s1 == Next(INIT, a) && Enabled(s1, b) && s2 == Next(s1, b) && Enabled(s2, c) && s3 == Next(s2, c)
    ensures IsRun([INIT, s1, s2, s3], [a, b, c])
  {
  }

  /**
   Why a superseded notifier must not act: draining leaves its map as it was, so if its loop still
   ran the clean-up, it would close the channel of a client that the newest notifier now owns.
   */
  lemma StaleCleanupWouldCloseALiveClient(stale: Resource) returns (ss: seq<State>, steps: seq<Step>)
    ensures IsRun(ss, steps) && |steps| == 3
    ensures ss[1].chain == [OLDER] && 1 in ss[2].streams && ss[2].streams[1]
    ensures ss[3].chain == [Node(2, BOTH, map[])]
    ensures !Wired(ss[3].chain, CloseAll(ss[3].wires, OLDER.clients.Keys))
  {
    var s1, s2 := TwoWatches();
    var s3 := BookmarkForTwo(s2, stale);
    steps := [WatchStep(PLAIN, true), WatchStep(PLAIN, true), BookmarkStep(2, stale, QUIET)];
    ss := [INIT, s1, s2, s3];
    RunOfThree(s1, s2, s3, steps[0], steps[1], steps[2]);
  }
}
