/** What holds of one event on a chain of any length. */
module FanoutProps {
  import opened Wrappers
  import opened WatchTypes
  import opened FanoutSpec

  // ----- agreement

  /** Agreement between neighbours reaches over the whole chain: knowledge only grows with age. */
  lemma {:induction false} AgreementReaches(chain: Chain, i: nat, j: nat)
    requires Agrees(chain) && i <= j < |chain|
    ensures Covers(chain[j], chain[i])
    decreases j - i
  {
    if i < j {
      AgreementReaches(chain, i + 1, j);
      assert Covers(chain[i + 1], chain[i]);
    }
  }

  lemma AgreesTail(chain: Chain)
    requires Agrees(chain) && chain != []
    ensures Agrees(chain[1..])
  {
    forall i | 0 <= i < |chain[1..]| - 1 ensures Covers(chain[1..][i + 1], chain[1..][i]) {
      assert Covers(chain[i + 2], chain[i + 1]);
    }
  }

  /** The type that the notifier at position `i` is called with. */
  function TypeSeenBy(i: nat, typ: EventType, obj: Resource): EventType {
    if i == 0 then typ else PassedType(typ, obj)
  }

  function VerdictAt(chain: Chain, typ: EventType, obj: Resource, i: nat): Option<EventType>
    requires i < |chain|
  {
    Verdict(chain[i..], TypeSeenBy(i, typ, obj), obj)
  }

  lemma VerdictAtTail(chain: Chain, typ: EventType, obj: Resource, i: nat)
    requires 0 < i < |chain|
    ensures VerdictAt(chain, typ, obj, i) == VerdictAt(chain[1..], PassedType(typ, obj), obj, i - 1)
  {
    assert chain[i..] == chain[1..][i - 1..];
  }

  /** The recursive calls touch each notifier once, each by its own verdict and its own sends. */
  lemma {:induction false} AcceptChainAt(chain: Chain, typ: EventType, obj: Resource, outs: seq<Outcome>, i: nat)
    requires |outs| == |chain| && i < |chain|
    ensures AcceptChain(chain, typ, obj, outs)[i] == NodeAfter(chain[i], VerdictAt(chain, typ, obj, i), obj, outs[i])
  {
    if i == 0 {
      assert chain[0..] == chain;
    } else {
      AcceptChainAt(chain[1..], PassedType(typ, obj), obj, outs[1..], i - 1);
      VerdictAtTail(chain, typ, obj, i);
    }
  }

  // ----- the round of a chain, from those of its parts

  /** What an event does to a chain, to the channels and to its own type. */
  predicate RoundDone(chain: Chain, wires: Wires, typ: EventType, obj: Resource, outs: seq<Outcome>, chain': Chain, wires': Wires, typ': EventType) {
    && LegalRound(chain, typ, obj, outs)
    && chain' == AcceptChain(chain, typ, obj, outs)
    && wires' == AcceptWires(chain, wires, typ, obj, outs)
    && typ' == FinalType(chain, typ, obj)
  }

  /** The same for the older notifiers; one that gets the event as PREVIOUS does not touch the type of ours. */
  predicate OlderDone(older: Chain, wires: Wires, typ: EventType, obj: Resource, outs: seq<Outcome>, older': Chain, wires': Wires, typ': EventType) {
    && LegalRound(older, PassedType(typ, obj), obj, outs)
    && older' == AcceptChain(older, PassedType(typ, obj), obj, outs)
    && wires' == AcceptWires(older, wires, PassedType(typ, obj), obj, outs)
    && typ' == if typ == Added && obj.generation > 1 then typ else FinalType(older, typ, obj)
  }

  /** What one notifier does: skip a version it has, or resolve the type, record and send. */
  predicate HereDone(n: Node, wires: Wires, typ: EventType, obj: Resource, o: Outcome, n': Node, wires': Wires, typ': EventType) {
    if Skips(n, obj) then o == QUIET && n' == n && wires' == wires && typ' == typ
    else
      && typ' == ResolvedType(n, typ, obj)
      && LegalOutcome(Audience(n.clients, obj), o)
      && n' == NodeAfter(n, Some(typ'), obj, o)
      && wires' == Deliver(wires, o, Event(typ', obj))
  }

  lemma NobodyOlder(wires: Wires, typ: EventType, obj: Resource)
    ensures OlderDone([], wires, typ, obj, [], [], wires, typ)
  {
  }

  lemma OlderRound(older: Chain, wires: Wires, typ: EventType, obj: Resource, outs: seq<Outcome>, older': Chain, wires': Wires, passed': EventType)
    requires RoundDone(older, wires, PassedType(typ, obj), obj, outs, older', wires', passed')
    ensures OlderDone(older, wires, typ, obj, outs, older', wires', if typ == Added && obj.generation > 1 then typ else passed')
  {
  }

  lemma ComposeRound(n: Node, older: Chain, wires: Wires, typ: EventType, obj: Resource, o: Outcome, outs: seq<Outcome>,
                     n': Node, older': Chain, wires1: Wires, wires2: Wires, typ1: EventType, typ2: EventType)
    requires OlderDone(older, wires, typ, obj, outs, older', wires1, typ1)
    requires HereDone(n, wires1, typ1, obj, o, n', wires2, typ2)
    ensures RoundDone([n] + older, wires, typ, obj, [o] + outs, [n'] + older', wires2, typ2)
  {
    var chain := [n] + older;
    assert chain[1..] == older && ([o] + outs)[1..] == outs;
    assert typ1 == TypeAfterOlder(chain, typ, obj);
    assert Verdict(chain, typ, obj) == if Skips(n, obj) then None else Some(typ2);
  }

  /** After an event every notifier on the chain records exactly that version of the object. */
  lemma EveryNotifierRecords(chain: Chain, typ: EventType, obj: Resource, outs: seq<Outcome>, i: nat)
    requires |outs| == |chain| && i < |chain|
    ensures var after := AcceptChain(chain, typ, obj, outs)[i];
            && Skips(after, obj)
            && after.processed.Keys == chain[i].processed.Keys + {obj.key}
            && (forall k :: k in chain[i].processed && k != obj.key ==> after.processed[k] == chain[i].processed[k])
  {
    AcceptChainAt(chain, typ, obj, outs, i);
  }

  /** Chain agreement survives every event, whichever sends time out. */
  lemma AgreementKept(chain: Chain, typ: EventType, obj: Resource, outs: seq<Outcome>)
    requires |outs| == |chain| && Agrees(chain)
    ensures Agrees(AcceptChain(chain, typ, obj, outs))
  {
    var after := AcceptChain(chain, typ, obj, outs);
    forall i | 0 <= i < |after| - 1 ensures Covers(after[i + 1], after[i]) {
      assert Covers(chain[i + 1], chain[i]);
      EveryNotifierRecords(chain, typ, obj, outs, i);
      EveryNotifierRecords(chain, typ, obj, outs, i + 1);
    }
  }

  // ----- how the internal type PREVIOUS is resolved

  /** The type an old notifier delivers for a re-listed object, read off the oldest record. */
  function RelistType(oldest: Node, obj: Resource): EventType {
    if VersionOf(oldest.processed, obj.key) == "" || Skips(oldest, obj) then Added else Modified
  }

  /**
   What the notifier at position `i` delivers, without following the recursion: the newest
   delivers the server's own type, the others too unless the object is re-listed (ADDED with a
   generation above 1), and then the oldest record alone decides between ADDED and MODIFIED.
   */
  function ExpectedVerdict(chain: Chain, typ: EventType, obj: Resource, i: nat): Option<EventType>
    requires i < |chain|
  {
    if Skips(chain[i], obj) then None
    else if i == 0 || PassedType(typ, obj) != Previous then Some(typ)
    else Some(RelistType(chain[|chain| - 1], obj))
  }

  predicate AllSkip(chain: Chain, obj: Resource) {
    forall i :: 0 <= i < |chain| ==> Skips(chain[i], obj)
  }

  /** Along agreeing notifiers a PREVIOUS event survives only if everybody had that version. */
  lemma {:induction false} PreviousIsResolvedByTheOldest(chain: Chain, obj: Resource)
    requires Agrees(chain) && chain != []
    ensures FinalType(chain, Previous, obj) ==
            if AllSkip(chain, obj) then Previous else RelistType(chain[|chain| - 1], obj)
    decreases |chain|
  {
    var tail := chain[1..];
    if tail == [] {
      assert FinalType(tail, Previous, obj) == Previous;
      assert AllSkip(chain, obj) <==> Skips(chain[0], obj);
    } else {
      AgreesTail(chain);
      PreviousIsResolvedByTheOldest(tail, obj);
      AgreementReaches(chain, 0, |chain| - 1);
      assert tail[|tail| - 1] == chain[|chain| - 1];
      assert AllSkip(chain, obj) <==> Skips(chain[0], obj) && AllSkip(tail, obj) by {
        assert forall i :: 0 <= i < |tail| ==> tail[i] == chain[i + 1];
        if Skips(chain[0], obj) && AllSkip(tail, obj) {
          forall i | 0 <= i < |chain| ensures Skips(chain[i], obj) {
            if i > 0 { assert Skips(tail[i - 1], obj); }
          }
        }
      }
      if AllSkip(tail, obj) {
        assert Skips(tail[|tail| - 1], obj);
      }
    }
  }

  lemma AgreesDrop(chain: Chain, i: nat)
    requires Agrees(chain) && i <= |chain|
    ensures Agrees(chain[i..])
  {
    forall j | 0 <= j < |chain[i..]| - 1 ensures Covers(chain[i..][j + 1], chain[i..][j]) {
      assert Covers(chain[i + j + 1], chain[i + j]);
    }
  }

  /** Only PREVIOUS is ever rewritten. */
  lemma {:induction false} TypeUnchanged(chain: Chain, typ: EventType, obj: Resource)
    requires typ != Previous
    ensures FinalType(chain, typ, obj) == typ
    decreases |chain|
  {
    if chain != [] {
      TypeUnchanged(chain[1..], typ, obj);
    }
  }

  /** The recursion through shared pointers computes exactly the closed form above. */
  lemma VerdictClosedForm(chain: Chain, typ: EventType, obj: Resource, i: nat)
    requires Agrees(chain) && i < |chain| && typ != Previous
    ensures VerdictAt(chain, typ, obj, i) == ExpectedVerdict(chain, typ, obj, i)
  {
    var rest := chain[i..];
    var tail := rest[1..];
    AgreesDrop(chain, i);
    AgreesTail(rest);
    AgreementReaches(chain, i, |chain| - 1);
    assert rest[0] == chain[i] && rest[|rest| - 1] == chain[|chain| - 1];
    var seen := TypeSeenBy(i, typ, obj);
    if seen != Previous {
      TypeUnchanged(tail, seen, obj);
    } else if tail != [] {
      PreviousIsResolvedByTheOldest(tail, obj);
      assert tail[|tail| - 1] == chain[|chain| - 1];
      if AllSkip(tail, obj) {
        assert Skips(tail[|tail| - 1], obj);
      }
    } else {
      assert FinalType(tail, Previous, obj) == Previous;
    }
  }

  /**
   The three cases of a re-listed object for the old notifiers, with versions that are never
   empty: unknown to the oldest, known at another version, known at this very version.
   */
  lemma RelistCases(chain: Chain, obj: Resource, i: nat)
    requires Agrees(chain) && 0 < i < |chain| && obj.generation > 1
    requires forall j, k :: 0 <= j < |chain| && k in chain[j].processed ==> chain[j].processed[k].version != ""
    ensures var oldest := chain[|chain| - 1].processed;
            && (obj.key !in oldest ==> VerdictAt(chain, Added, obj, i) == Some(Added))
            && (obj.key in oldest && oldest[obj.key].version != obj.version ==>
                  VerdictAt(chain, Added, obj, i) == Some(Modified))
            && (obj.key in oldest && oldest[obj.key].version == obj.version ==>
                  VerdictAt(chain, Added, obj, i) == if obj.key in chain[i].processed then None else Some(Added))
    ensures VerdictAt(chain, Added, obj, 0) == if Skips(chain[0], obj) then None else Some(Added)
  {
    VerdictClosedForm(chain, Added, obj, i);
    VerdictClosedForm(chain, Added, obj, 0);
    AgreementReaches(chain, i, |chain| - 1);
  }

  // ----- who receives the event

  lemma LegalAt(chain: Chain, typ: EventType, obj: Resource, outs: seq<Outcome>, i: nat)
    requires LegalRound(chain, typ, obj, outs) && i < |chain|
    ensures LegalOutcome(if VerdictAt(chain, typ, obj, i).None? then {} else Audience(chain[i].clients, obj), outs[i])
  {
    if i == 0 {
      assert chain[0..] == chain;
    } else {
      LegalAt(chain[1..], PassedType(typ, obj), obj, outs[1..], i - 1);
      VerdictAtTail(chain, typ, obj, i);
    }
  }

  lemma {:induction false} LiveAt(chain: Chain, i: nat, c: nat)
    requires i < |chain| && c in chain[i].clients
    ensures c in LiveIds(chain)
    decreases |chain|
  {
    if i > 0 {
      LiveAt(chain[1..], i - 1, c);
    }
  }

  /** Where a client of the chain is. */
  lemma {:induction false} LiveIndex(chain: Chain, c: nat) returns (i: nat)
    requires c in LiveIds(chain)
    ensures i < |chain| && c in chain[i].clients
    decreases |chain|
  {
    if c in chain[0].clients {
      i := 0;
    } else {
      var j := LiveIndex(chain[1..], c);
      i := j + 1;
    }
  }

  lemma {:induction false} OtherWiresUntouched(chain: Chain, wires: Wires, typ: EventType, obj: Resource, outs: seq<Outcome>, c: nat)
    requires LegalRound(chain, typ, obj, outs) && c in wires && c !in LiveIds(chain)
    ensures AcceptWires(chain, wires, typ, obj, outs)[c] == wires[c]
    decreases |chain|
  {
    if chain != [] {
      OtherWiresUntouched(chain[1..], wires, PassedType(typ, obj), obj, outs[1..], c);
    }
  }

  /** One channel after one round of sends of the notifier that owns it. */
  function ChannelAfter(ch: Channel, c: nat, verdict: Option<EventType>, obj: Resource, o: Outcome): Channel {
    if verdict.None? then ch
    else if c in o.served then ch.(log := ch.log + [Event(verdict.value, obj)])
    else if o.dropped == Some(c) then ch.(closed := true)
    else ch
  }

  lemma DeliverAt(wires: Wires, verdict: EventType, obj: Resource, o: Outcome, audience: set<nat>, c: nat)
    requires LegalOutcome(audience, o) && c in wires
    ensures Deliver(wires, o, Event(verdict, obj))[c] == ChannelAfter(wires[c], c, Some(verdict), obj, o)
    ensures c !in audience ==> Deliver(wires, o, Event(verdict, obj))[c] == wires[c]
  {
  }

  /** A client's channel changes by its own notifier's sends and by nothing else on the chain. */
  lemma {:induction false} WiresAt(chain: Chain, wires: Wires, typ: EventType, obj: Resource, outs: seq<Outcome>, i: nat, c: nat)
    requires LegalRound(chain, typ, obj, outs) && Disjoint(chain)
    requires i < |chain| && c in chain[i].clients && c in wires
    ensures AcceptWires(chain, wires, typ, obj, outs)[c] ==
            ChannelAfter(wires[c], c, VerdictAt(chain, typ, obj, i), obj, outs[i])
    decreases |chain|
  {
    var tail, passed := chain[1..], PassedType(typ, obj);
    var olderWires := AcceptWires(tail, wires, passed, obj, outs[1..]);
    var verdict := Verdict(chain, typ, obj);
    if verdict.Some? {
      DeliverAt(olderWires, verdict.value, obj, outs[0], Audience(chain[0].clients, obj), c);
    }
    if i == 0 {
      assert chain[0..] == chain;
      OtherWiresUntouched(tail, wires, passed, obj, outs[1..], c);
    } else {
      LiveAt(tail, i - 1, c);
      WiresAt(tail, wires, passed, obj, outs[1..], i - 1, c);
      VerdictAtTail(chain, typ, obj, i);
    }
  }

  /**
   One event without time-outs: a client gets exactly one copy when its filter accepts the object
   and its notifier had not recorded that version, and nothing otherwise.
   */
  lemma DeliveryWithoutTimeouts(chain: Chain, wires: Wires, typ: EventType, obj: Resource, outs: seq<Outcome>, i: nat, c: nat)
    requires LegalRound(chain, typ, obj, outs) && Disjoint(chain) && Agrees(chain) && typ != Previous
    requires i < |chain| && c in chain[i].clients && c in wires
    requires outs[i].dropped.None?
    ensures var v := ExpectedVerdict(chain, typ, obj, i);
            AcceptWires(chain, wires, typ, obj, outs)[c] ==
            if v.Some? && AcceptMeta(obj, chain[i].clients[c])
            then wires[c].(log := wires[c].log + [Event(v.value, obj)])
            else wires[c]
  {
    WiresAt(chain, wires, typ, obj, outs, i, c);
    VerdictClosedForm(chain, typ, obj, i);
    LegalAt(chain, typ, obj, outs, i);
  }

  /**
   With time-outs: every client gets at most one copy, never both a copy and a closed channel, and
   each notifier closes and removes at most the one client whose send timed out.
   */
  lemma DeliveryWithTimeouts(chain: Chain, wires: Wires, typ: EventType, obj: Resource, outs: seq<Outcome>, i: nat, c: nat)
    requires LegalRound(chain, typ, obj, outs) && Disjoint(chain) && Agrees(chain) && Wired(chain, wires) && typ != Previous
    requires i < |chain| && c in chain[i].clients && c in wires
    ensures var before := wires[c]; var after := AcceptWires(chain, wires, typ, obj, outs)[c];
            var v := ExpectedVerdict(chain, typ, obj, i);
            && after.filter == before.filter
            && (after.log == before.log || (v.Some? && !after.closed && AcceptMeta(obj, before.filter)
                                            && after.log == before.log + [Event(v.value, obj)]))
            && (after.closed <==> v.Some? && outs[i].dropped == Some(c))
            && (after.closed <==> c !in AcceptChain(chain, typ, obj, outs)[i].clients)
  {
    WiredAt(chain, wires, i);
    WiresAt(chain, wires, typ, obj, outs, i, c);
    VerdictClosedForm(chain, typ, obj, i);
    LegalAt(chain, typ, obj, outs, i);
    AcceptChainAt(chain, typ, obj, outs, i);
  }

  // ----- the chain stays well-formed

  lemma {:induction false} WiredAt(chain: Chain, wires: Wires, i: nat)
    requires Wired(chain, wires) && i < |chain|
    ensures NodeWired(chain[i].clients, wires)
    decreases |chain|
  {
    if i > 0 {
      WiredAt(chain[1..], wires, i - 1);
    }
  }

  /** Channels of other clients do not matter to a chain. */
  lemma {:induction false} WiredFrame(chain: Chain, wires: Wires, wires': Wires)
    requires Wired(chain, wires)
    requires forall c :: c in LiveIds(chain) && c in wires ==> c in wires' && wires'[c].closed == wires[c].closed && wires'[c].filter == wires[c].filter
    ensures Wired(chain, wires')
    decreases |chain|
  {
    if chain != [] {
      WiredFrame(chain[1..], wires, wires');
    }
  }

  lemma {:induction false} LiveIdsShrink(chain: Chain, typ: EventType, obj: Resource, outs: seq<Outcome>)
    requires |outs| == |chain|
    ensures LiveIds(AcceptChain(chain, typ, obj, outs)) <= LiveIds(chain)
    decreases |chain|
  {
    if chain != [] {
      LiveIdsShrink(chain[1..], PassedType(typ, obj), obj, outs[1..]);
      assert AcceptChain(chain, typ, obj, outs)[1..] == AcceptChain(chain[1..], PassedType(typ, obj), obj, outs[1..]);
    }
  }

  /** One round of sends leaves the notifier's remaining clients with open channels. */
  lemma SendKeepsWired(n: Node, wires: Wires, verdict: Option<EventType>, obj: Resource, o: Outcome)
    requires NodeWired(n.clients, wires)
    requires verdict.Some? ==> LegalOutcome(Audience(n.clients, obj), o)
    ensures var after := NodeAfter(n, verdict, obj, o);
            after.clients.Keys <= n.clients.Keys &&
            NodeWired(after.clients, if verdict.None? then wires else Deliver(wires, o, Event(verdict.value, obj)))
  {
  }

  /** The sends of the older notifiers leave the channels of the head's clients alone. */
  lemma HeadKeepsChannels(chain: Chain, wires: Wires, typ: EventType, obj: Resource, olderOuts: seq<Outcome>)
    requires chain != [] && Disjoint(chain) && Wired(chain, wires)
    requires LegalRound(chain[1..], PassedType(typ, obj), obj, olderOuts)
    ensures NodeWired(chain[0].clients, AcceptWires(chain[1..], wires, PassedType(typ, obj), obj, olderOuts))
  {
    forall c | c in chain[0].clients
      ensures AcceptWires(chain[1..], wires, PassedType(typ, obj), obj, olderOuts)[c] == wires[c]
    {
      OtherWiresUntouched(chain[1..], wires, PassedType(typ, obj), obj, olderOuts, c);
    }
  }

  /** After an event the chain still owns every client once, and every client has an open channel. */
  lemma {:induction false} ChainStaysWired(chain: Chain, wires: Wires, typ: EventType, obj: Resource, outs: seq<Outcome>)
    requires LegalRound(chain, typ, obj, outs) && Disjoint(chain) && Wired(chain, wires)
    ensures Disjoint(AcceptChain(chain, typ, obj, outs))
    ensures Wired(AcceptChain(chain, typ, obj, outs), AcceptWires(chain, wires, typ, obj, outs))
    decreases |chain|
  {
    if chain != [] {
      var tail, passed := chain[1..], PassedType(typ, obj);
      var after, olderAfter := AcceptChain(chain, typ, obj, outs), AcceptChain(tail, passed, obj, outs[1..]);
      var olderWires := AcceptWires(tail, wires, passed, obj, outs[1..]);
      var verdict := Verdict(chain, typ, obj);
      assert after == [NodeAfter(chain[0], verdict, obj, outs[0])] + olderAfter;
      ChainStaysWired(tail, wires, passed, obj, outs[1..]);
      LiveIdsShrink(tail, passed, obj, outs[1..]);
      HeadKeepsChannels(chain, wires, typ, obj, outs[1..]);
      HeadSendFrame(chain[0], olderAfter, olderWires, verdict, obj, outs[0]);
      assert after[1..] == olderAfter;
    }
  }

  /** The sends of the head leave a disjoint older part of the chain alone. */
  lemma HeadSendFrame(n: Node, older: Chain, wires: Wires, verdict: Option<EventType>, obj: Resource, o: Outcome)
    requires NodeWired(n.clients, wires) && Wired(older, wires) && n.clients.Keys !! LiveIds(older)
    requires LegalOutcome(if verdict.None? then {} else Audience(n.clients, obj), o)
    ensures var after := NodeAfter(n, verdict, obj, o);
            var wires' := if verdict.None? then wires else Deliver(wires, o, Event(verdict.value, obj));
            NodeWired(after.clients, wires') && Wired(older, wires') && after.clients.Keys <= n.clients.Keys
  {
    SendKeepsWired(n, wires, verdict, obj, o);
    if verdict.Some? {
      WiredFrame(older, wires, Deliver(wires, o, Event(verdict.value, obj)));
    }
  }

  // ----- BOOKMARK

  /** Draining collects every client of the chain, each once, and nobody else. */
  lemma {:induction false} DrainedIsTheUnion(chain: Chain)
    requires Disjoint(chain)
    ensures Drained(chain).Keys == LiveIds(chain)
    ensures |Drained(chain)| == ClientCount(chain)
    decreases |chain|
  {
    if chain != [] {
      DrainedIsTheUnion(chain[1..]);
      var older := Drained(chain[1..]);
      assert Drained(chain).Keys == older.Keys + chain[0].clients.Keys;
      assert |older.Keys| == |older| && |chain[0].clients.Keys| == |chain[0].clients| && |Drained(chain)| == |Drained(chain).Keys|;
    }
  }

  /** A drained client keeps the filter it came with. */
  lemma {:induction false} DrainedAt(chain: Chain, i: nat, c: nat)
    requires Disjoint(chain) && i < |chain| && c in chain[i].clients
    ensures c in Drained(chain) && Drained(chain)[c] == chain[i].clients[c]
    decreases |chain|
  {
    if i > 0 {
      LiveAt(chain[1..], i - 1, c);
      DrainedAt(chain[1..], i - 1, c);
    }
  }

  /**
   BOOKMARK hand-over.  One notifier is left; before the send it owns every client of the old chain
   under that client's filter, so the count is unchanged; and whatever record it keeps, the drained
   client's old notifier had recorded at the same version, so a repeat is suppressed for it too.
   */
  lemma BookmarkHandOver(chain: Chain, o: Outcome, i: nat, c: nat, k: Key)
    requires Agrees(chain) && Disjoint(chain)
    requires i < |chain| && c in chain[i].clients
    requires o.dropped.None?
    ensures var after := BookmarkChain(chain, o);
            && |after| == 1 && ClientCount(after) == ClientCount(chain)
            && after[0].clients.Keys == LiveIds(chain)
            && c in after[0].clients && after[0].clients[c] == chain[i].clients[c]
            && (k in after[0].processed <==> k in chain[0].processed && chain[0].processed[k].typ != Deleted)
            && (k in after[0].processed ==>
                  k in chain[i].processed && chain[i].processed[k].version == after[0].processed[k].version)
  {
    DrainedIsTheUnion(chain);
    DrainedAt(chain, i, c);
    AgreementReaches(chain, 0, i);
    var after := BookmarkChain(chain, o);
    assert Drained(chain) - {} == Drained(chain);
    assert after[1..] == [] && ClientCount(after[1..]) == 0;
  }

  /**
   Who gets a BOOKMARK: every client of the old chain that asked for bookmarks, and nobody else; with a
   time-out, one of those is closed instead and the others get it or not.
   */
  lemma BookmarkReaches(chain: Chain, wires: Wires, o: Outcome, obj: Resource, i: nat, c: nat)
    requires Disjoint(chain) && i < |chain| && c in chain[i].clients && c in wires
    requires LegalOutcome(BookmarkAudience(Drained(chain)), o)
    ensures var ch, ch' := wires[c], Deliver(wires, o, Event(Bookmark, obj))[c];
            var sent := ch.(log := ch.log + [Event(Bookmark, obj)]);
            && (!chain[i].clients[c].watchBookmark ==> ch' == ch)
            && (chain[i].clients[c].watchBookmark && o.dropped.None? ==> ch' == sent)
            && (o.dropped == Some(c) ==> chain[i].clients[c].watchBookmark && ch' == ch.(closed := true))
            && (o.dropped != Some(c) ==> ch' == ch || ch' == sent)
  {
    DrainedAt(chain, i, c);
  }

  lemma {:induction false} DrainedStaysWired(chain: Chain, wires: Wires)
    requires Wired(chain, wires)
    ensures NodeWired(Drained(chain), wires)
    decreases |chain|
  {
    if chain != [] {
      DrainedStaysWired(chain[1..], wires);
    }
  }

  // ----- deletion and clean-up

  lemma {:induction false} RemoveClientAt(chain: Chain, c: nat, i: nat)
    requires i < |chain|
    ensures RemoveClient(chain, c)[i] == chain[i].(clients := chain[i].clients - {c})
  {
    if i > 0 {
      RemoveClientAt(chain[1..], c, i - 1);
    }
  }

  lemma {:induction false} RemoveClientKeepsShape(chain: Chain, wires: Wires, c: nat)
    requires Disjoint(chain) && Wired(chain, wires)
    ensures LiveIds(RemoveClient(chain, c)) == LiveIds(chain) - {c}
    ensures Disjoint(RemoveClient(chain, c)) && Wired(RemoveClient(chain, c), wires)
    decreases |chain|
  {
    if chain != [] {
      RemoveClientKeepsShape(chain[1..], wires, c);
      assert RemoveClient(chain, c)[1..] == RemoveClient(chain[1..], c);
    }
  }

  lemma {:induction false} EmptiedAt(chain: Chain, i: nat)
    requires i < |chain|
    ensures Emptied(chain)[i] == chain[i].(clients := map[])
  {
    if i > 0 {
      EmptiedAt(chain[1..], i - 1);
    }
  }

  lemma {:induction false} EmptiedHasNobody(chain: Chain, wires: Wires)
    ensures LiveIds(Emptied(chain)) == {} && ClientCount(Emptied(chain)) == 0
    ensures Disjoint(Emptied(chain)) && Wired(Emptied(chain), wires)
    decreases |chain|
  {
    if chain != [] {
      EmptiedHasNobody(chain[1..], wires);
      assert Emptied(chain)[1..] == Emptied(chain[1..]);
    }
  }

  /** Agreement is about records only. */
  lemma AgreementOfSameRecords(chain: Chain, chain': Chain)
    requires Agrees(chain) && |chain'| == |chain|
    requires forall i :: 0 <= i < |chain| ==> chain'[i].processed == chain[i].processed
    ensures Agrees(chain')
  {
    forall i | 0 <= i < |chain'| - 1 ensures Covers(chain'[i + 1], chain'[i]) {
      assert Covers(chain[i + 1], chain[i]);
    }
  }

  /** The maps of a disjoint chain are as large together as the set of its clients. */
  lemma CountIsCardinality(chain: Chain)
    requires Disjoint(chain)
    ensures ClientCount(chain) == |LiveIds(chain)|
  {
    DrainedIsTheUnion(chain);
    assert |Drained(chain)| == |Drained(chain).Keys|;
  }

  /** Without `c` nobody is left exactly if nobody else was there. */
  lemma NobodyLeftIff(chain: Chain, wires: Wires, c: nat)
    requires Disjoint(chain) && Wired(chain, wires)
    ensures ClientCount(RemoveClient(chain, c)) == 0 <==> LiveIds(chain) <= {c}
  {
    RemoveClientKeepsShape(chain, wires, c);
    CountIsCardinality(RemoveClient(chain, c));
  }
}
