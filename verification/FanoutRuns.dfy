/**
 The shared watch of one namespace as a state machine.  Steps are atomic: clients arriving and
 leaving, events and bookmarks taken from the upstream stream, and the end of a stream.  A stream
 whose context was cancelled handles no further event; it only notices and leaves.
 */
module FanoutRuns {
  import opened Wrappers
  import opened WatchTypes
  import opened FanoutSpec
  import opened FanoutProps

  datatype State = State(
    count: nat,                          // clientCount: the last id handed out
    chain: Chain,                        // currentNotifier and its predecessors
    wires: Wires,                        // the channels of all clients ever admitted
    streams: map<nat, bool>,             // running server-channel loops, and whether cancelled
    current: Option<nat>,                // the stream that currentCancelFunc cancels
    handlerSet: bool,                    // currentEventHandler is not nil
    stopped: set<nat>,                   // history: clients removed by StopWatching
    offered: map<nat, map<Key, string>>  // history: last version of each object that reached the client's notifier
  )

  datatype Step =
    | WatchStep(filter: Filter, upstreamOk: bool)
    | EventStep(sid: nat, ev: Event, outs: seq<Outcome>)
    | BookmarkStep(sid: nat, obj: Resource, out: Outcome)
    | ForeignStep(sid: nat)              // an event whose object is of another type, such as an ERROR
    | StopStep(c: nat)
    | EndStep(sid: nat)                  // the server channel was closed
    | CancelStep(sid: nat)               // the context was cancelled

  const INIT := State(0, [], map[], map[], None, false, {}, map[])

  predicate Running(s: State, sid: nat) {
    sid in s.streams && !s.streams[sid] && s.chain != []
  }

  predicate Enabled(s: State, step: Step) {
    match step
    case WatchStep(_, _) => true
    case EventStep(sid, ev, outs) => Running(s, sid) && ev.typ != Bookmark && LegalRound(s.chain, ev.typ, ev.obj, outs)
    case BookmarkStep(sid, _, out) => Running(s, sid) && LegalOutcome(BookmarkAudience(Drained(s.chain)), out)
    case ForeignStep(sid) => Running(s, sid)
    case StopStep(c) => c in s.wires
    case EndStep(sid) => sid in s.streams
    case CancelStep(sid) => sid in s.streams && s.streams[sid]
  }

  function CancelCurrent(s: State): map<nat, bool> {
    if s.current.Some? && s.current.value in s.streams then s.streams[s.current.value := true] else s.streams
  }

  /** The first half of Watch: count the client, cancel the old stream, ask for a new one. */
  function Connected(s: State, upstreamOk: bool): State {
    s.(count := s.count + 1, streams := CancelCurrent(s), current := Some(s.count + 1), handlerSet := upstreamOk)
  }

  /** The second half, with the stream at hand: a notifier owning the counted client heads the chain. */
  function Admitted(s: State, f: Filter): State {
    s.(chain := [Node(s.count, map[s.count := f], map[])] + s.chain,
       wires := s.wires[s.count := Channel(f, [], false)],
       streams := s.streams[s.count := false],
       offered := s.offered[s.count := map[]])
  }

  function AfterWatch(s: State, f: Filter, upstreamOk: bool): State {
    if upstreamOk then Admitted(Connected(s, true), f) else Connected(s, false)
  }

  function Offer(offered: map<nat, map<Key, string>>, ids: set<nat>, obj: Resource): map<nat, map<Key, string>> {
    map c | c in offered :: if c in ids then offered[c][obj.key := obj.version] else offered[c]
  }

  function AfterEvent(s: State, ev: Event, outs: seq<Outcome>): State
    requires |outs| == |s.chain|
  {
    s.(chain := AcceptChain(s.chain, ev.typ, ev.obj, outs),
       wires := AcceptWires(s.chain, s.wires, ev.typ, ev.obj, outs),
       offered := Offer(s.offered, LiveIds(s.chain), ev.obj))
  }

  function AfterBookmark(s: State, obj: Resource, out: Outcome): State
    requires s.chain != []
  {
    s.(chain := BookmarkChain(s.chain, out), wires := Deliver(s.wires, out, Event(Bookmark, obj)))
  }

  function AfterStop(s: State, c: nat): State {
    s.(chain := RemoveClient(s.chain, c),
       stopped := if c in LiveIds(s.chain) then s.stopped + {c} else s.stopped)
  }

  function AfterEnd(s: State, sid: nat): State
    requires sid in s.streams
  {
    var s1 := s.(streams := s.streams - {sid});
    if s.streams[sid] then s1
    else s1.(chain := Emptied(s.chain), wires := CloseAll(s.wires, LiveIds(s.chain)))
  }

  function Next(s: State, step: Step): State
    requires Enabled(s, step)
  {
    match step
    case WatchStep(f, upstreamOk) => AfterWatch(s, f, upstreamOk)
    case EventStep(_, ev, outs) => AfterEvent(s, ev, outs)
    case BookmarkStep(_, obj, out) => AfterBookmark(s, obj, out)
    case ForeignStep(_) => s
    case StopStep(c) => AfterStop(s, c)
    case EndStep(sid) => AfterEnd(s, sid)
    case CancelStep(sid) => s.(streams := s.streams - {sid})
  }

  /** Removing the last client stops the upstream handler, which a failed Watch has set to nil. */
  predicate StopPanics(s: State, c: nat) {
    ClientCount(RemoveClient(s.chain, c)) == 0 && !s.handlerSet
  }

  // ----- the invariant

  datatype Status = Live | Stopped | Closed

  /** A client is on the chain, or left by itself, or had its channel closed: exactly one of them. */
  ghost predicate Accounted(s: State) {
    && LiveIds(s.chain) <= s.wires.Keys && s.stopped <= s.wires.Keys
    && LiveIds(s.chain) !! s.stopped
    && (s.chain == [] ==> s.wires == map[])
    && (forall c :: c in s.wires ==> 1 <= c <= s.count)
    && (forall c :: c in s.wires ==> (s.wires[c].closed <==> c !in LiveIds(s.chain) && c !in s.stopped))
  }

  function StatusOf(s: State, c: nat): Status {
    if c in LiveIds(s.chain) then Live else if c in s.stopped then Stopped else Closed
  }

  /** At most one stream is not cancelled, and its notifier is the newest of the chain. */
  ghost predicate StreamsOk(s: State) {
    forall sid :: sid in s.streams ==>
      && sid <= s.count
      && (!s.streams[sid] ==> s.current == Some(sid) && s.chain != [] && s.chain[0].id == sid)
  }

  ghost predicate NodeRecalls(n: Node, offered: map<nat, map<Key, string>>) {
    forall c, k :: c in n.clients && k in n.processed ==>
      c in offered && k in offered[c] && offered[c][k] == n.processed[k].version
  }

  /** What a notifier has on record is what each of its clients was last offered. */
  ghost predicate Recalls(chain: Chain, offered: map<nat, map<Key, string>>) {
    chain == [] || (NodeRecalls(chain[0], offered) && Recalls(chain[1..], offered))
  }

  predicate Wanted(f: Filter, e: Event) {
    e.typ != Previous && if e.typ == Bookmark then f.watchBookmark else AcceptMeta(e.obj, f)
  }

  ghost predicate LogsWanted(wires: Wires) {
    forall c, i :: c in wires && 0 <= i < |wires[c].log| ==> Wanted(wires[c].filter, wires[c].log[i])
  }

  ghost predicate Inv(s: State) {
    && Agrees(s.chain) && Disjoint(s.chain) && Wired(s.chain, s.wires)
    && Accounted(s) && StreamsOk(s)
    && s.offered.Keys == s.wires.Keys && Recalls(s.chain, s.offered)
    && LogsWanted(s.wires)
  }

  lemma {:induction false} RecallsAt(chain: Chain, offered: map<nat, map<Key, string>>, i: nat)
    requires Recalls(chain, offered) && i < |chain|
    ensures NodeRecalls(chain[i], offered)
    decreases |chain|
  {
    if i > 0 {
      RecallsAt(chain[1..], offered, i - 1);
    }
  }

  lemma {:induction false} RecallsFromNodes(chain: Chain, offered: map<nat, map<Key, string>>)
    requires forall i :: 0 <= i < |chain| ==> NodeRecalls(chain[i], offered)
    ensures Recalls(chain, offered)
    decreases |chain|
  {
    if chain != [] {
      assert forall i :: 0 <= i < |chain[1..]| ==> chain[1..][i] == chain[i + 1];
      RecallsFromNodes(chain[1..], offered);
    }
  }

  lemma {:induction false} RecallsFrame(chain: Chain, offered: map<nat, map<Key, string>>, offered': map<nat, map<Key, string>>)
    requires Recalls(chain, offered)
    requires forall c :: c in LiveIds(chain) && c in offered ==> c in offered' && offered'[c] == offered[c]
    ensures Recalls(chain, offered')
    decreases |chain|
  {
    if chain != [] {
      RecallsFrame(chain[1..], offered, offered');
    }
  }

  lemma AgreesCons(n: Node, chain: Chain)
    requires Agrees(chain) && n.processed == map[]
    ensures Agrees([n] + chain)
  {
    var longer := [n] + chain;
    forall i | 0 <= i < |longer| - 1 ensures Covers(longer[i + 1], longer[i]) {
      if i > 0 { assert Covers(chain[i], chain[i - 1]); }
    }
  }

  /** The recursive predicates of a chain, one notifier longer. */
  lemma ConsShape(n: Node, chain: Chain, wires: Wires, offered: map<nat, map<Key, string>>)
    requires Disjoint(chain) && Wired(chain, wires) && Recalls(chain, offered)
    requires NodeWired(n.clients, wires) && NodeRecalls(n, offered) && n.clients.Keys !! LiveIds(chain)
    ensures LiveIds([n] + chain) == n.clients.Keys + LiveIds(chain)
    ensures Disjoint([n] + chain) && Wired([n] + chain, wires) && Recalls([n] + chain, offered)
  {
    assert ([n] + chain)[1..] == chain;
  }

  lemma WatchAccounted(s: State, f: Filter)
    requires Accounted(s) && StreamsOk(s) && LogsWanted(s.wires)
    requires LiveIds(AfterWatch(s, f, true).chain) == {s.count + 1} + LiveIds(s.chain)
    ensures Accounted(AfterWatch(s, f, true)) && LogsWanted(AfterWatch(s, f, true).wires)
    ensures StreamsOk(AfterWatch(s, f, true))
  {
    var s' := AfterWatch(s, f, true);
    assert s'.chain[0].id == s.count + 1;
  }

  lemma WatchShape(s: State, f: Filter)
    requires Agrees(s.chain) && Disjoint(s.chain) && Wired(s.chain, s.wires) && Recalls(s.chain, s.offered) && Accounted(s)
    ensures var s' := AfterWatch(s, f, true);
            && Agrees(s'.chain) && Disjoint(s'.chain) && Wired(s'.chain, s'.wires) && Recalls(s'.chain, s'.offered)
            && LiveIds(s'.chain) == {s.count + 1} + LiveIds(s.chain)
  {
    var id := s.count + 1;
    var n := Node(id, map[id := f], map[]);
    var wires', offered' := s.wires[id := Channel(f, [], false)], s.offered[id := map[]];
    AgreesCons(n, s.chain);
    assert id !in LiveIds(s.chain);
    WiredFrame(s.chain, s.wires, wires');
    RecallsFrame(s.chain, s.offered, offered');
    ConsShape(n, s.chain, wires', offered');
  }

  lemma WatchKeepsInv(s: State, f: Filter, upstreamOk: bool)
    requires Inv(s)
    ensures Inv(AfterWatch(s, f, upstreamOk))
  {
    if upstreamOk {
      WatchShape(s, f);
      WatchAccounted(s, f);
    }
  }

  /** Neither the internal type nor BOOKMARK comes out of a non-BOOKMARK event. */
  lemma {:induction false} VerdictTypes(chain: Chain, typ: EventType, obj: Resource)
    requires typ != Bookmark
    ensures FinalType(chain, typ, obj) != Bookmark
    ensures chain != [] && Verdict(chain, typ, obj).Some? ==> Verdict(chain, typ, obj).value !in {Previous, Bookmark}
    decreases |chain|
  {
    if chain != [] {
      VerdictTypes(chain[1..], typ, obj);
    }
  }

  /** What one event may do to one channel. */
  ghost predicate OneMore(ch: Channel, ch': Channel, obj: Resource) {
    && ch'.filter == ch.filter
    && (ch'.log == ch.log || exists t :: Wanted(ch.filter, Event(t, obj)) && ch'.log == ch.log + [Event(t, obj)])
  }

  lemma OwnerOnChannel(s: State, ev: Event, outs: seq<Outcome>, i: nat, c: nat)
    requires Agrees(s.chain) && Disjoint(s.chain) && Wired(s.chain, s.wires)
    requires ev.typ != Bookmark && LegalRound(s.chain, ev.typ, ev.obj, outs)
    requires i < |s.chain| && c in s.chain[i].clients && c in s.wires
    ensures OneMore(s.wires[c], AfterEvent(s, ev, outs).wires[c], ev.obj)
    ensures AfterEvent(s, ev, outs).wires[c].closed <==> c !in AfterEvent(s, ev, outs).chain[i].clients
  {
    var verdict := VerdictAt(s.chain, ev.typ, ev.obj, i);
    WiredAt(s.chain, s.wires, i);
    WiresAt(s.chain, s.wires, ev.typ, ev.obj, outs, i, c);
    LegalAt(s.chain, ev.typ, ev.obj, outs, i);
    VerdictTypes(s.chain[i..], TypeSeenBy(i, ev.typ, ev.obj), ev.obj);
    AcceptChainAt(s.chain, ev.typ, ev.obj, outs, i);
    if verdict.Some? && c in outs[i].served {
      assert Wanted(s.wires[c].filter, Event(verdict.value, ev.obj));
    }
  }

  lemma StillOwned(s: State, ev: Event, outs: seq<Outcome>, i: nat, c: nat)
    requires Disjoint(s.chain) && |outs| == |s.chain| && i < |s.chain| && c in s.chain[i].clients
    ensures c in LiveIds(AfterEvent(s, ev, outs).chain) <==> c in AfterEvent(s, ev, outs).chain[i].clients
  {
    var after := AfterEvent(s, ev, outs).chain;
    if c in after[i].clients {
      LiveAt(after, i, c);
    } else if c in LiveIds(after) {
      var j := LiveIndex(after, c);
      AcceptChainAt(s.chain, ev.typ, ev.obj, outs, j);
      OwnedOnce(s.chain, i, j, c);
    }
  }

  /** A channel after an event: untouched, one wanted event longer, or closed by its own notifier. */
  lemma EventOnChannel(s: State, ev: Event, outs: seq<Outcome>, c: nat)
    requires Agrees(s.chain) && Disjoint(s.chain) && Wired(s.chain, s.wires)
    requires ev.typ != Bookmark && LegalRound(s.chain, ev.typ, ev.obj, outs) && c in s.wires
    ensures var s' := AfterEvent(s, ev, outs);
            && OneMore(s.wires[c], s'.wires[c], ev.obj)
            && (c !in LiveIds(s.chain) ==> s'.wires[c] == s.wires[c])
            && (c in LiveIds(s.chain) ==> (s'.wires[c].closed <==> c !in LiveIds(s'.chain)))
  {
    if c in LiveIds(s.chain) {
      var i := LiveIndex(s.chain, c);
      OwnerOnChannel(s, ev, outs, i, c);
      StillOwned(s, ev, outs, i, c);
    } else {
      OtherWiresUntouched(s.chain, s.wires, ev.typ, ev.obj, outs, c);
    }
  }

  lemma {:induction false} OwnedOnce(chain: Chain, i: nat, j: nat, c: nat)
    requires Disjoint(chain) && i < |chain| && j < |chain|
    requires c in chain[i].clients && c in chain[j].clients
    ensures i == j
    decreases |chain|
  {
    if i > 0 && j > 0 {
      OwnedOnce(chain[1..], i - 1, j - 1, c);
    } else if i > 0 {
      LiveAt(chain[1..], i - 1, c);
    } else if j > 0 {
      LiveAt(chain[1..], j - 1, c);
    }
  }

  lemma EventKeepsInv(s: State, ev: Event, outs: seq<Outcome>)
    requires Inv(s) && ev.typ != Bookmark && LegalRound(s.chain, ev.typ, ev.obj, outs)
    ensures Inv(AfterEvent(s, ev, outs))
  {
    var s' := AfterEvent(s, ev, outs);
    AgreementKept(s.chain, ev.typ, ev.obj, outs);
    ChainStaysWired(s.chain, s.wires, ev.typ, ev.obj, outs);
    LiveIdsShrink(s.chain, ev.typ, ev.obj, outs);
    forall c | c in s.wires
      ensures s'.wires[c].closed <==> c !in LiveIds(s'.chain) && c !in s'.stopped
      ensures OneMore(s.wires[c], s'.wires[c], ev.obj)
    {
      EventOnChannel(s, ev, outs, c);
    }
    LogsGrow(s.wires, s'.wires, ev.obj);
    forall i | 0 <= i < |s'.chain| ensures NodeRecalls(s'.chain[i], s'.offered) {
      EventRecalled(s, ev, outs, i);
    }
    RecallsFromNodes(s'.chain, s'.offered);
    if s.chain != [] {
      AcceptChainAt(s.chain, ev.typ, ev.obj, outs, 0);
    }
  }

  lemma EventRecalled(s: State, ev: Event, outs: seq<Outcome>, i: nat)
    requires Inv(s) && |outs| == |s.chain| && i < |s.chain|
    ensures NodeRecalls(AfterEvent(s, ev, outs).chain[i], AfterEvent(s, ev, outs).offered)
  {
    var n, n' := s.chain[i], AfterEvent(s, ev, outs).chain[i];
    EveryNotifierRecords(s.chain, ev.typ, ev.obj, outs, i);
    AcceptChainAt(s.chain, ev.typ, ev.obj, outs, i);
    RecallsAt(s.chain, s.offered, i);
    forall c | c in n'.clients ensures c in LiveIds(s.chain) && c in s.offered {
      LiveAt(s.chain, i, c);
    }
  }

  lemma BookmarkRecalled(chain: Chain, offered: map<nat, map<Key, string>>, c: nat, k: Key)
    requires Agrees(chain) && Recalls(chain, offered) && chain != []
    requires c in LiveIds(chain) && k in chain[0].processed
    ensures c in offered && k in offered[c] && offered[c][k] == chain[0].processed[k].version
  {
    var i := LiveIndex(chain, c);
    AgreementReaches(chain, 0, i);
    RecallsAt(chain, offered, i);
  }

  /** A single notifier whose clients and records come from a chain. */
  lemma AdoptedRecalls(chain: Chain, offered: map<nat, map<Key, string>>, n: Node)
    requires Agrees(chain) && Recalls(chain, offered) && chain != []
    requires n.clients.Keys <= LiveIds(chain)
    requires forall k :: k in n.processed ==> k in chain[0].processed && chain[0].processed[k] == n.processed[k]
    ensures NodeRecalls(n, offered)
  {
    forall c, k | c in n.clients && k in n.processed
      ensures c in offered && k in offered[c] && offered[c][k] == n.processed[k].version
    {
      BookmarkRecalled(chain, offered, c, k);
    }
  }

  lemma SingleShape(n: Node, wires: Wires, offered: map<nat, map<Key, string>>)
    requires NodeWired(n.clients, wires) && NodeRecalls(n, offered)
    ensures Agrees([n]) && Disjoint([n]) && Wired([n], wires) && Recalls([n], offered) && LiveIds([n]) == n.clients.Keys
  {
    assert [n][1..] == [];
  }

  lemma BookmarkShape(chain: Chain, wires': Wires, offered: map<nat, map<Key, string>>, out: Outcome)
    requires Agrees(chain) && Recalls(chain, offered) && Disjoint(chain) && chain != []
    requires NodeWired(Drained(chain) - DroppedSet(out), wires')
    ensures var after := BookmarkChain(chain, out);
            && Agrees(after) && Disjoint(after) && Wired(after, wires') && Recalls(after, offered)
            && LiveIds(after) == LiveIds(chain) - DroppedSet(out)
  {
    var n := Node(chain[0].id, Drained(chain) - DroppedSet(out), Purged(chain[0].processed));
    DrainedIsTheUnion(chain);
    AdoptedRecalls(chain, offered, n);
    SingleShape(n, wires', offered);
  }

  /** A bookmark on the channels: one more wanted event, or closed by a time-out, or untouched. */
  lemma BookmarkOnChannel(clients: map<nat, Filter>, wires: Wires, obj: Resource, out: Outcome, c: nat)
    requires NodeWired(clients, wires) && LegalOutcome(BookmarkAudience(clients), out) && c in wires
    ensures var ch' := Deliver(wires, out, Event(Bookmark, obj))[c];
            && OneMore(wires[c], ch', obj)
            && (c !in clients ==> ch' == wires[c])
            && (c in clients ==> (ch'.closed <==> c in DroppedSet(out)))
  {
    if c in out.served {
      assert Wanted(wires[c].filter, Event(Bookmark, obj));
    }
  }

  lemma BookmarkOnChannels(s: State, obj: Resource, out: Outcome)
    requires Disjoint(s.chain) && Wired(s.chain, s.wires) && LogsWanted(s.wires)
    requires LegalOutcome(BookmarkAudience(Drained(s.chain)), out)
    ensures var wires' := Deliver(s.wires, out, Event(Bookmark, obj));
            && LogsWanted(wires') && NodeWired(Drained(s.chain) - DroppedSet(out), wires')
            && (forall c :: c in s.wires && c !in LiveIds(s.chain) ==> wires'[c] == s.wires[c])
            && (forall c :: c in s.wires && c in LiveIds(s.chain) ==> (wires'[c].closed <==> c in DroppedSet(out)))
  {
    var clients := Drained(s.chain);
    var wires' := Deliver(s.wires, out, Event(Bookmark, obj));
    DrainedIsTheUnion(s.chain);
    DrainedStaysWired(s.chain, s.wires);
    forall c | c in s.wires ensures
      && OneMore(s.wires[c], wires'[c], obj)
      && (c !in clients ==> wires'[c] == s.wires[c])
      && (c in clients ==> (wires'[c].closed <==> c in DroppedSet(out)))
    {
      BookmarkOnChannel(clients, s.wires, obj, out, c);
    }
    LogsGrow(s.wires, wires', obj);
  }

  lemma BookmarkAccounted(s: State, s': State, gone: set<nat>)
    requires Accounted(s) && StreamsOk(s) && s.chain != []
    requires s' == s.(chain := s'.chain, wires := s'.wires) && s'.chain != [] && s'.chain[0].id == s.chain[0].id
    requires LiveIds(s'.chain) == LiveIds(s.chain) - gone && s'.wires.Keys == s.wires.Keys
    requires forall c :: c in s.wires && c !in LiveIds(s.chain) ==> s'.wires[c] == s.wires[c]
    requires forall c :: c in s.wires && c in LiveIds(s.chain) ==> (s'.wires[c].closed <==> c in gone)
    ensures Accounted(s') && StreamsOk(s')
  {
  }

  lemma BookmarkKeepsInv(s: State, obj: Resource, out: Outcome)
    requires Inv(s) && s.chain != [] && LegalOutcome(BookmarkAudience(Drained(s.chain)), out)
    ensures Inv(AfterBookmark(s, obj, out))
    ensures LiveIds(AfterBookmark(s, obj, out).chain) == LiveIds(s.chain) - DroppedSet(out)
  {
    BookmarkOnChannels(s, obj, out);
    BookmarkShape(s.chain, Deliver(s.wires, out, Event(Bookmark, obj)), s.offered, out);
    BookmarkAccounted(s, AfterBookmark(s, obj, out), DroppedSet(out));
  }

  /** Logs stay wanted when every channel gets at most one more wanted event. */
  lemma LogsGrow(wires: Wires, wires': Wires, obj: Resource)
    requires LogsWanted(wires) && wires'.Keys == wires.Keys
    requires forall c :: c in wires ==> OneMore(wires[c], wires'[c], obj)
    ensures LogsWanted(wires')
  {
    forall c, i | c in wires' && 0 <= i < |wires'[c].log| ensures Wanted(wires'[c].filter, wires'[c].log[i]) {
      assert OneMore(wires[c], wires'[c], obj);
      if wires'[c].log != wires[c].log {
        var t :| Wanted(wires[c].filter, Event(t, obj)) && wires'[c].log == wires[c].log + [Event(t, obj)];
      }
    }
  }

  /** The same notifiers with fewer clients still agree, and still recall what was offered. */
  lemma FewerClientsShape(chain: Chain, chain': Chain, offered: map<nat, map<Key, string>>)
    requires Agrees(chain) && Recalls(chain, offered) && |chain'| == |chain|
    requires forall i :: 0 <= i < |chain| ==>
      chain'[i].processed == chain[i].processed && chain'[i].clients.Keys <= chain[i].clients.Keys
    ensures Agrees(chain') && Recalls(chain', offered)
  {
    AgreementOfSameRecords(chain, chain');
    forall i | 0 <= i < |chain'| ensures NodeRecalls(chain'[i], offered) {
      RecallsAt(chain, offered, i);
    }
    RecallsFromNodes(chain', offered);
  }

  lemma StopKeepsInv(s: State, c: nat)
    requires Inv(s) && c in s.wires
    ensures Inv(AfterStop(s, c))
  {
    var s' := AfterStop(s, c);
    RemoveClientKeepsShape(s.chain, s.wires, c);
    forall i | 0 <= i < |s.chain|
      ensures s'.chain[i] == s.chain[i].(clients := s.chain[i].clients - {c})
    {
      RemoveClientAt(s.chain, c, i);
    }
    FewerClientsShape(s.chain, s'.chain, s.offered);
  }

  lemma EndShape(chain: Chain, wires': Wires, offered: map<nat, map<Key, string>>)
    requires Agrees(chain) && Recalls(chain, offered)
    ensures var after := Emptied(chain);
            && Agrees(after) && Disjoint(after) && Wired(after, wires') && Recalls(after, offered) && LiveIds(after) == {}
            && (chain != [] ==> after != [] && after[0].id == chain[0].id)
  {
    EmptiedHasNobody(chain, wires');
    forall i | 0 <= i < |chain| ensures Emptied(chain)[i] == chain[i].(clients := map[]) {
      EmptiedAt(chain, i);
    }
    FewerClientsShape(chain, Emptied(chain), offered);
  }

  lemma EndKeepsInv(s: State, sid: nat)
    requires Inv(s) && sid in s.streams
    ensures Inv(AfterEnd(s, sid))
  {
    if !s.streams[sid] {
      EndShape(s.chain, CloseAll(s.wires, LiveIds(s.chain)), s.offered);
    }
  }

  lemma StepKeepsInv(s: State, step: Step)
    requires Inv(s) && Enabled(s, step)
    ensures Inv(Next(s, step))
  {
    match step
    case WatchStep(f, upstreamOk) => WatchKeepsInv(s, f, upstreamOk);
    case EventStep(_, ev, outs) => EventKeepsInv(s, ev, outs);
    case BookmarkStep(_, obj, out) => BookmarkKeepsInv(s, obj, out);
    case ForeignStep(_) =>
    case StopStep(c) => StopKeepsInv(s, c);
    case EndStep(sid) => EndKeepsInv(s, sid);
    case CancelStep(sid) =>
  }
}
