/**
 The notifiers on the heap: a linked chain whose methods update client maps, version records and
 the shared event object in place.  Every method is proved to do what the functions of FanoutSpec
 say, and never sends on or closes a channel that is already closed.
 */
module Notifiers {
  import opened Wrappers
  import opened WatchTypes
  import opened FanoutSpec
  import opened FanoutProps

  /** An event handed on by pointer: an older notifier may rewrite its type. */
  class ApiEvent {
    var typ: EventType
    const obj: Resource

    constructor (typ: EventType, obj: Resource)
      ensures this.typ == typ && this.obj == obj
    {
      this.typ := typ;
      this.obj := obj;
    }
  }

  /** The client channels.  Sending on a closed channel and closing it twice panic, hence the preconditions. */
  class ChannelTable {
    var table: Wires

    constructor ()
      ensures table == map[]
    {
      table := map[];
    }

    method Make(c: nat, f: Filter)
      requires c !in table
      modifies this
      ensures table == old(table)[c := Channel(f, [], false)]
    {
      table := table[c := Channel(f, [], false)];
    }

    method Send(c: nat, ev: Event)
      requires c in table && !table[c].closed
      modifies this
      ensures table == old(table)[c := old(table)[c].(log := old(table)[c].log + [ev])]
    {
      table := table[c := table[c].(log := table[c].log + [ev])];
    }

    method Close(c: nat)
      requires c in table && !table[c].closed
      modifies this
      ensures table == old(table)[c := old(table)[c].(closed := true)]
    {
      table := table[c := table[c].(closed := true)];
    }
  }

  lemma CloseAllTwice(wires: Wires, a: set<nat>, b: set<nat>)
    ensures CloseAll(CloseAll(wires, a), b) == CloseAll(wires, b + a)
  {
  }

  /** If nobody was too slow, exactly the clients of the old chain that asked for bookmarks got this one. */
  predicate BookmarkGiven(chain: Chain, wires: Wires, obj: Resource, inTime: bool, wires': Wires) {
    inTime ==> forall i, c :: 0 <= i < |chain| && c in chain[i].clients ==>
      c in wires && c in wires' && wires'[c] == WithBookmark(wires[c], chain[i].clients[c].watchBookmark, obj)
  }

  function WithBookmark(ch: Channel, asked: bool, obj: Resource): Channel {
    if asked then ch.(log := ch.log + [Event(Bookmark, obj)]) else ch
  }

  lemma BookmarkIsGiven(chain: Chain, wires: Wires, o: Outcome, obj: Resource)
    requires Disjoint(chain) && Wired(chain, wires) && LegalOutcome(BookmarkAudience(Drained(chain)), o)
    ensures BookmarkGiven(chain, wires, obj, o.dropped.None?, Deliver(wires, o, Event(Bookmark, obj)))
  {
    var wires' := Deliver(wires, o, Event(Bookmark, obj));
    forall i, c | 0 <= i < |chain| && c in chain[i].clients && o.dropped.None?
      ensures c in wires && c in wires' && wires'[c] == WithBookmark(wires[c], chain[i].clients[c].watchBookmark, obj)
    {
      WiredAt(chain, wires, i);
      BookmarkReaches(chain, wires, o, obj, i, c);
    }
  }

  class Notifier {
    const id: nat
    var previous: Notifier?
    var clients: map<nat, Filter>
    var processed: map<Key, Record>
    ghost var Repr: set<Notifier>
    ghost var Older: Chain  // what the older notifiers hold, newest first

    ghost predicate Valid()
      reads this, Repr
      decreases Repr
    {
      && this in Repr
      && (previous == null ==> Older == [])
      && (previous != null ==>
            && previous in Repr && previous.Repr < Repr && this !in previous.Repr
            && previous.Valid() && previous.View() == Older)
    }

    /** The chain from this notifier down to the oldest. */
    ghost function View(): Chain
      reads this
    {
      [Node(id, clients, processed)] + Older
    }

    constructor (id: nat, c: nat, f: Filter, previous: Notifier?)
      requires previous != null ==> previous.Valid()
      ensures Valid() && fresh(this)
      ensures Repr == {this} + (if previous == null then {} else previous.Repr)
      ensures View() == [Node(id, map[c := f], map[])] + (if previous == null then [] else previous.View())
    {
      this.id := id;
      this.previous := previous;
      clients := map[c := f];
      processed := map[];
      Repr := {this} + (if previous == null then {} else previous.Repr);
      Older := if previous == null then [] else previous.View();
    }

    /** `sendToClients`: visits the clients in any order and stops at the first that is too slow. */
    method SendToClients(ev: Event, accept: Filter -> bool, channels: ChannelTable) returns (ghost o: Outcome)
      requires NodeWired(clients, channels.table)
      modifies this`clients, channels
      ensures LegalOutcome((set c | c in old(clients) && accept(old(clients)[c])), o)
      ensures clients == old(clients) - DroppedSet(o)
      ensures channels.table == Deliver(old(channels.table), o, ev)
    {
      ghost var served: set<nat> := {};
      var todo := clients.Keys;
      while todo != {}
        invariant todo <= clients.Keys && served <= clients.Keys && served !! todo
        invariant clients == old(clients)
        invariant forall c :: c in clients ==> (c in served <==> c !in todo && accept(clients[c]))
        invariant channels.table == Deliver(old(channels.table), Outcome(served, None), ev)
      {
        var c :| c in todo;
        todo := todo - {c};
        if accept(clients[c]) {
          var timedOut: bool := *;
          if !timedOut {
            channels.Send(c, ev);
            served := served + {c};
          } else {
            channels.Close(c);
            clients := clients - {c};
            o := Outcome(served, Some(c));
            return;
          }
        }
      }
      o := Outcome(served, None);
      assert clients - DroppedSet(o) == clients;
    }

    /** `drainPrevious`: unlinks the older notifiers and collects their clients, leaving their maps alone. */
    method DrainPrevious() returns (result: map<nat, Filter>)
      requires Valid()
      modifies Repr
      ensures Valid() && Repr == {this} && previous == null
      ensures result == Drained(old(View()))
      ensures View() == [old(View())[0]]
      ensures forall n :: n in old(Repr) ==> n.clients == old(n.clients) && n.processed == old(n.processed)
      decreases Repr
    {
      assert View()[1..] == Older;
      if previous != null {
        result := previous.DrainPrevious();
        previous := null;
        result := result + clients;
      } else {
        result := clients;
        assert Drained(Older) == map[];
      }
      Repr, Older := {this}, [];
    }

    /** `deleteClient` */
    method DeleteClient(c: nat)
      requires Valid()
      modifies Repr
      ensures Valid() && Repr == old(Repr)
      ensures View() == RemoveClient(old(View()), c)
      decreases Repr
    {
      assert View()[1..] == Older;
      if previous != null {
        previous.DeleteClient(c);
        Older := previous.View();
      }
      ghost var before := clients;
      if c in clients {
        clients := clients - {c};
      }
      assert clients == before - {c};
    }

    /** The second half of `cleanup`: every own client is removed and its channel closed. */
    method CloseOwnClients(channels: ChannelTable)
      requires NodeWired(clients, channels.table)
      modifies this`clients, channels
      ensures clients == map[]
      ensures channels.table == CloseAll(old(channels.table), old(clients).Keys)
    {
      while clients != map[]
        invariant clients.Keys <= old(clients).Keys && NodeWired(clients, channels.table)
        invariant channels.table == CloseAll(old(channels.table), old(clients).Keys - clients.Keys)
        decreases clients.Keys
      {
        var c :| c in clients;
        clients := clients - {c};
        channels.Close(c);
      }
    }

    /** `cleanup`: the older notifiers first. */
    method Cleanup(channels: ChannelTable)
      requires Valid() && Disjoint(View()) && Wired(View(), channels.table)
      modifies Repr, channels
      ensures Valid() && Repr == old(Repr)
      ensures View() == Emptied(old(View()))
      ensures channels.table == CloseAll(old(channels.table), LiveIds(old(View())))
      decreases Repr
    {
      ghost var wires, older := channels.table, Older;
      assert View()[1..] == older;
      if previous != null {
        previous.Cleanup(channels);
        Older := previous.View();
      }
      assert channels.table == CloseAll(wires, LiveIds(older));
      CloseOwnClients(channels);
      CloseAllTwice(wires, LiveIds(older), old(clients).Keys);
    }

    /** The first two parts of a BOOKMARK: take over all older clients, whose old maps stay, and forget deletions. */
    method TakeOver()
      requires Valid()
      modifies Repr
      ensures Valid() && Repr == {this}
      ensures clients == Drained(old(View())) && processed == Purged(old(processed)) && Older == []
      ensures forall n :: n in old(Repr) && n != this ==> n.clients == old(n.clients)
    {
      var result := DrainPrevious();
      assert Older == View()[1..] == [];
      clients := result;
      processed := map k | k in processed && processed[k].typ != Deleted :: processed[k];
    }

    /** `acceptEvent` for a BOOKMARK: take over, then tell who asked. */
    method AcceptBookmark(event: ApiEvent, channels: ChannelTable) returns (ghost o: Outcome)
      requires Valid() && event.typ == Bookmark
      requires Disjoint(View()) && Wired(View(), channels.table)
      modifies Repr, channels
      ensures Valid() && Repr == {this}
      ensures LegalOutcome(BookmarkAudience(Drained(old(View()))), o)
      ensures View() == BookmarkChain(old(View()), o)
      ensures channels.table == Deliver(old(channels.table), o, Event(Bookmark, event.obj))
      ensures forall n :: n in old(Repr) && n != this ==> n.clients == old(n.clients)
      ensures BookmarkGiven(old(View()), old(channels.table), event.obj, o.dropped.None?, channels.table)
    {
      ghost var chain, wires := View(), channels.table;
      DrainedStaysWired(View(), channels.table);
      TakeOver();
      o := SendToClients(Event(event.typ, event.obj), (f: Filter) => f.watchBookmark, channels);
      BookmarkIsGiven(chain, wires, o, event.obj);
    }

    /** The recursion of `acceptEvent`: a re-listed object goes to the older notifiers as PREVIOUS. */
    method PassToOlder(event: ApiEvent, channels: ChannelTable) returns (ghost outs: seq<Outcome>)
      requires Valid() && event.typ != Bookmark
      requires Disjoint(Older) && Wired(Older, channels.table)
      modifies Repr - {this}, this`Older, event, channels
      ensures Valid() && Repr == old(Repr)
      ensures OlderDone(old(Older), old(channels.table), old(event.typ), event.obj, outs, Older, channels.table, event.typ)
      decreases Repr, 0
    {
      ghost var older, wires, typ := Older, channels.table, event.typ;
      if previous == null {
        outs := [];
        NobodyOlder(wires, typ, event.obj);
      } else {
        ghost var passed': EventType;
        if event.typ == Added && event.obj.generation > 1 {
          var relisted := new ApiEvent(Previous, event.obj);
          outs := previous.AcceptObjectEvent(relisted, channels);
          passed' := relisted.typ;
        } else {
          outs := previous.AcceptObjectEvent(event, channels);
          passed' := event.typ;
        }
        Older := previous.View();
        OlderRound(older, wires, typ, event.obj, outs, Older, channels.table, passed');
      }
    }

    /** This notifier's own node of the chain. */
    ghost function Self(): Node
      reads this
    {
      Node(id, clients, processed)
    }

    /** The rest of `acceptEvent`: skip a version already processed, or resolve, record and send. */
    method AcceptHere(event: ApiEvent, channels: ChannelTable) returns (ghost o: Outcome)
      requires NodeWired(clients, channels.table)
      modifies this`clients, this`processed, event, channels
      ensures HereDone(old(Self()), old(channels.table), old(event.typ), event.obj, o, Self(), channels.table, event.typ)
    {
      var obj := event.obj;
      if obj.key in processed && processed[obj.key].version == obj.version {
        o := QUIET;
        return;
      }
      if event.typ == Previous {
        event.typ := if obj.key !in processed || processed[obj.key].version == "" then Added else Modified;
      }
      processed := processed[obj.key := Record(obj.version, event.typ)];
      o := SendToClients(Event(event.typ, obj), (f: Filter) => AcceptMeta(obj, f), channels);
    }

    /** `acceptEvent` for every other type: the older notifiers first, then this one. */
    method AcceptObjectEvent(event: ApiEvent, channels: ChannelTable) returns (ghost outs: seq<Outcome>)
      requires Valid() && event.typ != Bookmark
      requires Disjoint(View()) && Wired(View(), channels.table)
      modifies Repr, event, channels
      ensures Valid() && Repr == old(Repr)
      ensures RoundDone(old(View()), old(channels.table), old(event.typ), event.obj, outs, View(), channels.table, event.typ)
      decreases Repr, 1
    {
      ghost var self, older, wires, typ := Self(), Older, channels.table, event.typ;
      assert View()[1..] == older;
      ghost var olderOuts := PassToOlder(event, channels);
      ghost var older', wires1, typ1 := Older, channels.table, event.typ;
      HeadKeepsChannels(old(View()), wires, typ, event.obj, olderOuts);
      ghost var o := AcceptHere(event, channels);
      ComposeRound(self, older, wires, typ, event.obj, o, olderOuts, Self(), older', wires1, channels.table, typ1, event.typ);
      outs := [o] + olderOuts;
    }

    /** `clientsCount` */
    method ClientsCount() returns (n: nat)
      requires Valid()
      ensures n == ClientCount(View())
      decreases Repr
    {
      assert View()[1..] == Older;
      n := |clients|;
      if previous != null {
        var older := previous.ClientsCount();
        n := n + older;
      }
    }
  }
}
