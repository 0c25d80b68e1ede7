/**
 The shared watch handler of one namespace.  Its methods are the atomic steps of the state machine
 in FanoutRuns: called in a reachable state, each does exactly its step, so that `StepKeepsInv` and
 the theorems about runs apply to the class.
 */
module SharedHandlers {
  import opened Wrappers
  import opened WatchTypes
  import opened FanoutSpec
  import opened FanoutProps
  import opened FanoutRuns
  import opened FanoutTheorems
  import opened Notifiers
  import opened WatchLoops

  /** What a server-channel loop can receive in one turn. */
  datatype Received = ObjectEvent(event: ApiEvent) | ForeignEvent | ChannelClosed | ContextDone

  /** What the methods need of the state they are called in; every reachable state has it. */
  predicate Ready(s: State) {
    && s.count + 1 !in s.wires
    && (s.chain == [] ==> s.wires == map[])
    && (forall sid :: sid in s.streams && !s.streams[sid] ==> s.chain != [])
    && Disjoint(s.chain) && Wired(s.chain, s.wires)
  }

  lemma ReachableIsReady(s: State)
    requires Inv(s)
    ensures Ready(s)
  {
  }

  ghost predicate EvolvesAll(s: State, s': State) {
    s'.stopped == s.stopped && forall c :: c in s.wires ==> Evolves(s, s', c)
  }

  lemma TurnEvolves(s0: State, s: State, step: Step)
    requires Inv(s0) && Inv(s) && EvolvesAll(s0, s) && Enabled(s, step) && !step.StopStep?
    ensures Inv(Next(s, step)) && EvolvesAll(s0, Next(s, step))
  {
    StepKeepsInv(s, step);
    forall c | c in s0.wires ensures Evolves(s0, Next(s, step), c) {
      assert Evolves(s0, s, c);
      StepEvolves(s, step, c);
    }
  }

  /** The step for an object event: the event's own type, about its own object. */
  predicate StepOfEvent(sid: nat, ev: Event, step: Step) {
    if ev.typ == Bookmark then step.BookmarkStep? && step.sid == sid && step.obj == ev.obj
    else step.EventStep? && step.sid == sid && step.ev == ev
  }

  /** The step for what a channel carries; the text of an error is no object of the watched type. */
  predicate StepOfItem(sid: nat, item: Sent, step: Step) {
    match item
    case SentError(_) => step == ForeignStep(sid)
    case SentObject(typ, obj) => StepOfEvent(sid, Event(typ, obj), step)
  }

  /** From `s0` to `s`, one step for each of the first `n` things that the channel carried. */
  ghost predicate Served(sid: nat, serverChan: seq<Sent>, n: nat, ss: seq<State>, steps: seq<Step>, s0: State, s: State) {
    && IsPath(ss, steps) && |steps| == n <= |serverChan| && ss[0] == s0 && ss[n] == s
    && forall k :: 0 <= k < n ==> StepOfItem(sid, serverChan[k], steps[k])
  }

  lemma NothingServed(sid: nat, serverChan: seq<Sent>, s: State)
    ensures Served(sid, serverChan, 0, [s], [], s, s)
  {
  }

  lemma OneMoreServed(
    sid: nat, serverChan: seq<Sent>, n: nat, ss: seq<State>, steps: seq<Step>, s0: State, s: State, step: Step, s': State)
    requires Served(sid, serverChan, n, ss, steps, s0, s) && n < |serverChan|
    requires Enabled(s, step) && s' == Next(s, step) && StepOfItem(sid, serverChan[n], step)
    ensures Served(sid, serverChan, n + 1, ss + [s'], steps + [step], s0, s')
  {
    OneMoreStep(ss, steps, step, s');
  }

  /** The version in the last of the first `n` object events about `k`. */
  function LastCarried(serverChan: seq<Sent>, n: nat, k: Key): Option<string>
    requires n <= |serverChan|
  {
    if n == 0 then None
    else
      var item := serverChan[n - 1];
      if item.SentObject? && item.typ != Bookmark && item.obj.key == k then Some(item.obj.version)
      else LastCarried(serverChan, n - 1, k)
  }

  /**
   A stream reaches an unfiltered client that was up to date and is live throughout: without time-outs,
   the last event about `k` on its channel has the version of the last one that the stream carried.
   */
  lemma {:induction false} StreamReachesClient(
    ss: seq<State>, steps: seq<Step>, sid: nat, serverChan: seq<Sent>, n: nat, c: nat, k: Key)
    requires IsPath(ss, steps) && n <= |serverChan| && n <= |steps| && Follows(ss[0], c, k)
    requires forall i :: 0 <= i < n ==> StepOfItem(sid, serverChan[i], steps[i]) && NoTimeout(steps[i])
    requires forall t :: 0 <= t <= n ==> c in LiveIds(ss[t].chain)
    ensures Follows(ss[n], c, k)
    ensures LastLogged(ss[n].wires[c].log, k) ==
            if LastCarried(serverChan, n, k).Some? then LastCarried(serverChan, n, k) else LastLogged(ss[0].wires[c].log, k)
    decreases n
  {
    if n > 0 {
      StreamReachesClient(ss, steps, sid, serverChan, n - 1, c, k);
      StepReachesClient(ss[n - 1], steps[n - 1], ss[n], c, k);
    }
  }

  class SharedNamespaceHandler {
    var clientCount: nat
    var currentNotifier: Notifier?
    var currentCancel: Option<nat>
    var eventHandlerSet: bool
    var streams: map<nat, bool>
    const channels: ChannelTable
    ghost var notifiers: set<Notifier>  // the notifiers of the chain
    ghost var chain: Chain              // and what they hold, newest first
    ghost var stopped: set<nat>
    ghost var offered: map<nat, map<Key, string>>

    ghost predicate Valid()
      reads this, notifiers
    {
      if currentNotifier == null then notifiers == {} && chain == []
      else
        && currentNotifier in notifiers && currentNotifier.Repr == notifiers
        && currentNotifier.Valid() && currentNotifier.View() == chain
    }

    ghost function View(): State
      reads this, channels
    {
      State(clientCount, chain, channels.table, streams, currentCancel, eventHandlerSet, stopped, offered)
    }

    constructor ()
      ensures Valid() && View() == INIT && fresh(channels)
    {
      clientCount, currentNotifier, currentCancel := 0, null, None;
      eventHandlerSet, streams := false, map[];
      stopped, offered, notifiers, chain := {}, map[], {}, [];
      channels := new ChannelTable();
    }

    /** A new notifier that owns the client becomes the head of the chain. */
    method PushNotifier(id: nat, f: Filter)
      requires Valid()
      modifies this`currentNotifier, this`notifiers, this`chain
      ensures Valid() && fresh(notifiers - old(notifiers))
      ensures chain == [Node(id, map[id := f], map[])] + old(chain)
    {
      currentNotifier := new Notifier(id, id, f, currentNotifier);
      notifiers, chain := currentNotifier.Repr, currentNotifier.View();
    }

    /** Counts the client, cancels the stream whose cancel function is held and holds the new one. */
    method SwitchStream(upstreamOk: bool)
      modifies this`clientCount, this`streams, this`currentCancel, this`eventHandlerSet
      ensures View() == Connected(old(View()), upstreamOk)
    {
      clientCount := clientCount + 1;
      if currentCancel.Some? && currentCancel.value in streams {
        streams := streams[currentCancel.value := true];
      }
      currentCancel := Some(clientCount);
      eventHandlerSet := upstreamOk;
    }

    /** Opens the counted client's channel and pushes a notifier that owns it. */
    method Admit(f: Filter)
      requires Valid() && clientCount !in channels.table
      modifies this`currentNotifier, this`notifiers, this`chain, this`streams, this`offered, channels
      ensures Valid() && fresh(notifiers - old(notifiers))
      ensures View() == Admitted(old(View()), f)
    {
      PushNotifier(clientCount, f);
      channels.Make(clientCount, f);
      streams := streams[clientCount := false];
      offered := offered[clientCount := map[]];
    }

    /** `Watch`: cancels the running stream, opens a new one and pushes a notifier for the client. */
    method Watch(f: Filter, upstreamOk: bool) returns (client: Option<nat>)
      requires Valid() && Ready(View())
      modifies this, channels
      ensures Valid() && fresh(notifiers - old(notifiers))
      ensures View() == AfterWatch(old(View()), f, upstreamOk)
      ensures client == if upstreamOk then Some(old(clientCount) + 1) else None
      ensures client.Some? ==> client.value !in old(channels.table)
      ensures client.Some? ==> channels.table == old(channels.table)[client.value := Channel(f, [], false)]
      ensures client.Some? ==> chain == [Node(client.value, map[client.value := f], map[])] + old(chain)
      ensures client.Some? ==> client.value in streams && !streams[client.value] && currentCancel == client
      ensures client.None? ==> channels.table == old(channels.table) && chain == old(chain)
      ensures old(currentCancel).Some? && old(currentCancel).value in old(streams) && old(currentCancel) != client ==>
                old(currentCancel).value in streams && streams[old(currentCancel).value]
    {
      SwitchStream(upstreamOk);
      client := None;
      if upstreamOk {
        Admit(f);
        client := Some(clientCount);
      }
    }

    /** Takes the client off the chain. */
    method RemoveFromChain(c: nat)
      requires Valid() && currentNotifier != null
      modifies this`chain, this`stopped, notifiers
      ensures Valid()
      ensures View() == AfterStop(old(View()), c)
    {
      stopped := if c in LiveIds(chain) then stopped + {c} else stopped;
      currentNotifier.DeleteClient(c);
      chain := currentNotifier.View();
    }

    /** `delete`, behind a client's StopWatching; `stops` tells that the handler is to stop, `panics` that it is nil. */
    method Delete(c: nat) returns (stops: bool, panics: bool)
      requires Valid() && Ready(View()) && c in channels.table
      modifies this, notifiers
      ensures Valid() && notifiers == old(notifiers)
      ensures View() == AfterStop(old(View()), c)
      ensures channels.table == old(channels.table) && |chain| == |old(chain)|
      ensures forall i :: 0 <= i < |chain| ==> chain[i] == old(chain)[i].(clients := old(chain)[i].clients - {c})
      ensures stops <==> LiveIds(old(chain)) <= {c}
      ensures panics <==> stops && !eventHandlerSet
      ensures panics == StopPanics(old(View()), c)
    {
      NobodyLeftIff(chain, channels.table, c);
      forall i: nat | i < |chain| ensures RemoveClient(chain, c)[i] == chain[i].(clients := chain[i].clients - {c}) {
        RemoveClientAt(chain, c, i);
      }
      RemoveFromChain(c);
      var left := currentNotifier.ClientsCount();
      stops := left == 0;
      panics := stops && !eventHandlerSet;
    }

    /** One turn of `processServerChannel` for the stream `sid`. */
    method Serve(sid: nat, received: Received) returns (done: bool, ghost step: Step)
      requires Valid() && Ready(View()) && sid in streams
      requires received.ContextDone? ==> streams[sid]
      requires received.ObjectEvent? || received.ForeignEvent? ==> !streams[sid]
      modifies this, channels, notifiers, if received.ObjectEvent? then {received.event} else {}
      ensures Valid() && notifiers <= old(notifiers)
      ensures Enabled(old(View()), step) && View() == Next(old(View()), step)
      ensures done <==> received.ChannelClosed? || received.ContextDone?
      ensures received.ContextDone? ==> step == CancelStep(sid)
      ensures received.ChannelClosed? ==> step == EndStep(sid)
      ensures received.ForeignEvent? ==> step == ForeignStep(sid)
      ensures received.ObjectEvent? && old(received.event.typ) == Bookmark ==>
                step.BookmarkStep? && step.sid == sid && step.obj == received.event.obj
      ensures received.ObjectEvent? && old(received.event.typ) != Bookmark ==>
                step.EventStep? && step.sid == sid && step.ev == Event(old(received.event.typ), received.event.obj)
    {
      match received
      case ContextDone =>
        streams := streams - {sid};
        step, done := CancelStep(sid), true;
      case ForeignEvent =>
        step, done := ForeignStep(sid), false;
      case ChannelClosed =>
        step, done := EndStep(sid), true;
        if !streams[sid] {
          currentNotifier.Cleanup(channels);
          chain := currentNotifier.View();
        }
        streams := streams - {sid};
      case ObjectEvent(event) =>
        step := Accept(sid, event);
        done := false;
    }

    /** One turn, with what it means for the clients known since `s0`. */
    method ServeTurn(sid: nat, received: Received, ghost s0: State) returns (ghost step: Step)
      requires Valid() && Inv(View()) && sid in streams && !streams[sid] && !received.ContextDone?
      requires Inv(s0) && EvolvesAll(s0, View())
      modifies this, channels, notifiers, if received.ObjectEvent? then {received.event} else {}
      ensures Valid() && Inv(View()) && notifiers <= old(notifiers) && EvolvesAll(s0, View())
      ensures Enabled(old(View()), step) && View() == Next(old(View()), step)
      ensures received.ForeignEvent? ==> step == ForeignStep(sid)
      ensures received.ChannelClosed? ==> step == EndStep(sid)
      ensures received.ObjectEvent? ==> StepOfEvent(sid, Event(old(received.event.typ), received.event.obj), step)
      ensures if received.ChannelClosed? then sid !in streams && LiveIds(chain) == {} else sid in streams && !streams[sid]
    {
      ghost var s := View();
      ReachableIsReady(s);
      var done;
      done, step := Serve(sid, received);
      TurnEvolves(s0, s, step);
      if received.ChannelClosed? {
        EmptiedHasNobody(s.chain, s.wires);
      }
    }

    /** The branch of `acceptEvent` for bookmarks, entered at the newest notifier. */
    method TakeBookmark(event: ApiEvent) returns (ghost o: Outcome)
      requires Valid() && Ready(View()) && chain != [] && event.typ == Bookmark
      modifies this`notifiers, this`chain, channels, notifiers
      ensures Valid() && notifiers <= old(notifiers)
      ensures LegalOutcome(BookmarkAudience(Drained(old(chain))), o)
      ensures View() == AfterBookmark(old(View()), event.obj, o)
    {
      o := currentNotifier.AcceptBookmark(event, channels);
      notifiers, chain := currentNotifier.Repr, currentNotifier.View();
    }

    /** The branch for all other events. */
    method TakeEvent(event: ApiEvent) returns (ghost outs: seq<Outcome>)
      requires Valid() && Ready(View()) && chain != [] && event.typ != Bookmark
      modifies this`chain, this`offered, channels, notifiers, event
      ensures Valid()
      ensures LegalRound(old(chain), old(event.typ), event.obj, outs)
      ensures View() == AfterEvent(old(View()), Event(old(event.typ), event.obj), outs)
    {
      offered := Offer(offered, LiveIds(chain), event.obj);
      outs := currentNotifier.AcceptObjectEvent(event, channels);
      chain := currentNotifier.View();
    }

    /** An object event taken from the stream `sid`. */
    method Accept(sid: nat, event: ApiEvent) returns (ghost step: Step)
      requires Valid() && Ready(View()) && sid in streams && !streams[sid]
      modifies this`notifiers, this`chain, this`offered, channels, notifiers, event
      ensures Valid() && notifiers <= old(notifiers)
      ensures Enabled(old(View()), step) && View() == Next(old(View()), step)
      ensures old(event.typ) == Bookmark ==> step.BookmarkStep? && step.sid == sid && step.obj == event.obj
      ensures old(event.typ) != Bookmark ==> step.EventStep? && step.sid == sid && step.ev == Event(old(event.typ), event.obj)
    {
      if event.typ == Bookmark {
        ghost var o := TakeBookmark(event);
        step := BookmarkStep(sid, event.obj, o);
      } else {
        ghost var typ := event.typ;
        ghost var outs := TakeEvent(event);
        step := EventStep(sid, Event(typ, event.obj), outs);
      }
    }

    /** One thing that the channel of the stream carried. */
    method Turn(sid: nat, item: Sent, ghost s0: State) returns (ghost step: Step)
      requires Valid() && Inv(View()) && sid in streams && !streams[sid]
      requires Inv(s0) && EvolvesAll(s0, View())
      modifies this, channels, notifiers
      ensures Valid() && Inv(View()) && notifiers <= old(notifiers) && EvolvesAll(s0, View())
      ensures Enabled(old(View()), step) && View() == Next(old(View()), step) && StepOfItem(sid, item, step)
      ensures sid in streams && !streams[sid]
    {
      match item
      case SentError(_) =>
        step := ServeTurn(sid, ForeignEvent, s0);
      case SentObject(typ, obj) =>
        var event := new ApiEvent(typ, obj);
        step := ServeTurn(sid, ObjectEvent(event), s0);
    }

    /** The loop of `processServerChannel` as long as its channel is open: one step for each thing that comes. */
    method ServeAll(sid: nat, serverChan: seq<Sent>) returns (ghost ss: seq<State>, ghost steps: seq<Step>)
      requires Valid() && Inv(View()) && sid in streams && !streams[sid]
      modifies this, channels, notifiers
      ensures Valid() && Inv(View()) && notifiers <= old(notifiers) && sid in streams && !streams[sid]
      ensures EvolvesAll(old(View()), View())
      ensures Served(sid, serverChan, |serverChan|, ss, steps, old(View()), View())
    {
      ghost var s0 := View();
      ss, steps := [s0], [];
      NothingServed(sid, serverChan, s0);
      for i := 0 to |serverChan|
        invariant Valid() && notifiers <= old(notifiers)
        invariant Inv(View()) && EvolvesAll(s0, View()) && sid in streams && !streams[sid]
        invariant Served(sid, serverChan, i, ss, steps, s0, View())
      {
        ghost var s := View();
        ghost var step := Turn(sid, serverChan[i], s0);
        OneMoreServed(sid, serverChan, i, ss, steps, s0, s, step, View());
        ss, steps := ss + [View()], steps + [step];
      }
    }

    /**
     `processServerChannel` over what the watch loop sent on one stream, undisturbed by other steps:
     one step for each thing the channel carried, in order, and a last one if it was closed.  When the
     loop closed it, for whatever reason, nobody is left on the chain and every client that was live has
     been closed; a client is never touched after it left.
     */
    method ProcessServerChannel(sid: nat, serverChan: seq<Sent>, closed: bool) returns (ghost ss: seq<State>, ghost steps: seq<Step>)
      requires Valid() && Inv(View()) && sid in streams && !streams[sid]
      modifies this, channels, notifiers
      ensures Valid() && Inv(View()) && notifiers <= old(notifiers)
      ensures IsPath(ss, steps) && ss[0] == old(View()) && ss[|steps|] == View()
      ensures |steps| == |serverChan| + if closed then 1 else 0
      ensures forall k :: 0 <= k < |serverChan| ==> StepOfItem(sid, serverChan[k], steps[k])
      ensures closed ==> steps[|serverChan|] == EndStep(sid)
      ensures forall c :: c in old(channels.table) ==> Evolves(old(View()), View(), c)
      ensures closed ==> sid !in streams && LiveIds(chain) == {}
      ensures closed ==> forall c :: c in LiveIds(old(chain)) ==> c in channels.table && channels.table[c].closed
    {
      ghost var s0 := View();
      ss, steps := ServeAll(sid, serverChan);
      if closed {
        ghost var step := ServeTurn(sid, ChannelClosed, s0);
        OneMoreStep(ss, steps, step, View());
        ss, steps := ss + [View()], steps + [step];
      }
    }
  }
}
