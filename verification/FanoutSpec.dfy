/**
 What one server event does to a chain of notifiers, as functions on values.  The newest
 notifier is the head of the chain; each call first recurses to the older notifiers and only
 then looks at its own record, so an older notifier may have rewritten the type in between.
 */
module FanoutSpec {
  import opened Wrappers
  import opened WatchTypes

  /** `versionAndType` */
  datatype Record = Record(version: string, typ: EventType)

  /** One notifier: the clients it owns and the last version it processed of each object. */
  datatype Node = Node(id: nat, clients: map<nat, Filter>, processed: map<Key, Record>)

  /** A client's channel: the events sent on it so far and whether it was closed. */
  datatype Channel = Channel(filter: Filter, log: seq<Event>, closed: bool)

  type Chain = seq<Node>
  type Wires = map<nat, Channel>

  /** What one round of sends did: who got the event, and whose send timed out (if any). */
  datatype Outcome = Outcome(served: set<nat>, dropped: Option<nat>)

  const QUIET := Outcome({}, None)

  // ----- one notifier

  function VersionOf(processed: map<Key, Record>, k: Key): string {
    if k in processed then processed[k].version else ""
  }

  /** The notifier has already processed this version of the object. */
  predicate Skips(n: Node, obj: Resource) {
    obj.key in n.processed && n.processed[obj.key].version == obj.version
  }

  /** The type a notifier sends, when the event reads `typ` after the older notifiers ran. */
  function ResolvedType(n: Node, typ: EventType, obj: Resource): EventType {
    if typ != Previous then typ
    else if VersionOf(n.processed, obj.key) == "" then Added
    else Modified
  }

  function DroppedSet(o: Outcome): set<nat> {
    match o.dropped
    case None => {}
    case Some(c) => {c}
  }

  /**
   The outcomes one round of sends can have.  The clients are visited in no fixed order and the
   round stops at the first client that does not receive in time, so any part of the others may
   have been served by then.
   */
  predicate LegalOutcome(audience: set<nat>, o: Outcome) {
    match o.dropped
    case None => o.served == audience
    case Some(c) => c in audience && o.served <= audience - {c}
  }

  function Audience(clients: map<nat, Filter>, obj: Resource): set<nat> {
    set c | c in clients && AcceptMeta(obj, clients[c])
  }

  function BookmarkAudience(clients: map<nat, Filter>): set<nat> {
    set c | c in clients && clients[c].watchBookmark
  }

  /** The channels after a round of sends. */
  function Deliver(wires: Wires, o: Outcome, ev: Event): Wires {
    map c | c in wires ::
      if c in o.served then wires[c].(log := wires[c].log + [ev])
      else if c in DroppedSet(o) then wires[c].(closed := true)
      else wires[c]
  }

  function NodeAfter(n: Node, verdict: Option<EventType>, obj: Resource, o: Outcome): Node {
    match verdict
    case None => n
    case Some(t) =>
      n.(clients := n.clients - DroppedSet(o),
         processed := n.processed[obj.key := Record(obj.version, t)])
  }

  // ----- a chain of notifiers

  /** The type handed to the next older notifier. */
  function PassedType(typ: EventType, obj: Resource): EventType {
    if typ == Added && obj.generation > 1 then Previous else typ
  }

  /** How the event reads for the head of the chain once the older notifiers returned. */
  function TypeAfterOlder(chain: Chain, typ: EventType, obj: Resource): EventType
    requires chain != []
    decreases |chain|, 0
  {
    if typ == Added && obj.generation > 1 then typ else FinalType(chain[1..], typ, obj)
  }

  /** How the event reads, through the pointer the chain was given, once the chain returned. */
  function FinalType(chain: Chain, typ: EventType, obj: Resource): EventType
    decreases |chain|, 1
  {
    if chain == [] then typ
    else
      var t := TypeAfterOlder(chain, typ, obj);
      if Skips(chain[0], obj) then t else ResolvedType(chain[0], t, obj)
  }

  /** What the head of the chain sends to its clients: nothing, or the event under some type. */
  function Verdict(chain: Chain, typ: EventType, obj: Resource): Option<EventType>
    requires chain != []
  {
    if Skips(chain[0], obj) then None
    else Some(ResolvedType(chain[0], TypeAfterOlder(chain, typ, obj), obj))
  }

  predicate LegalRound(chain: Chain, typ: EventType, obj: Resource, outs: seq<Outcome>)
    decreases |chain|
  {
    && |outs| == |chain|
    && (chain != [] ==>
      && LegalOutcome(if Verdict(chain, typ, obj).None? then {} else Audience(chain[0].clients, obj), outs[0])
      && LegalRound(chain[1..], PassedType(typ, obj), obj, outs[1..]))
  }

  function AcceptChain(chain: Chain, typ: EventType, obj: Resource, outs: seq<Outcome>): (r: Chain)
    requires |outs| == |chain|
    ensures |r| == |chain|
    decreases |chain|
  {
    if chain == [] then []
    else
      [NodeAfter(chain[0], Verdict(chain, typ, obj), obj, outs[0])]
      + AcceptChain(chain[1..], PassedType(typ, obj), obj, outs[1..])
  }

  function AcceptWires(chain: Chain, wires: Wires, typ: EventType, obj: Resource, outs: seq<Outcome>): (r: Wires)
    requires |outs| == |chain|
    ensures r.Keys == wires.Keys
    decreases |chain|
  {
    if chain == [] then wires
    else
      var older := AcceptWires(chain[1..], wires, PassedType(typ, obj), obj, outs[1..]);
      match Verdict(chain, typ, obj)
      case None => older
      case Some(t) => Deliver(older, outs[0], Event(t, obj))
  }

  // ----- BOOKMARK, deletion and clean-up

  /** All clients of a chain in one map, a newer notifier winning over an older one. */
  function Drained(chain: Chain): map<nat, Filter> {
    if chain == [] then map[] else Drained(chain[1..]) + chain[0].clients
  }

  /** The records that survive a BOOKMARK: everything but deletions. */
  function Purged(processed: map<Key, Record>): map<Key, Record> {
    map k | k in processed && processed[k].typ != Deleted :: processed[k]
  }

  function BookmarkChain(chain: Chain, o: Outcome): Chain
    requires chain != []
  {
    [Node(chain[0].id, Drained(chain) - DroppedSet(o), Purged(chain[0].processed))]
  }

  function RemoveClient(chain: Chain, c: nat): (r: Chain)
    ensures |r| == |chain|
  {
    if chain == [] then []
    else [chain[0].(clients := chain[0].clients - {c})] + RemoveClient(chain[1..], c)
  }

  function Emptied(chain: Chain): (r: Chain)
    ensures |r| == |chain|
  {
    if chain == [] then [] else [chain[0].(clients := map[])] + Emptied(chain[1..])
  }

  function CloseAll(wires: Wires, cs: set<nat>): Wires {
    map c | c in wires :: if c in cs then wires[c].(closed := true) else wires[c]
  }

  /** `clientsCount` */
  function ClientCount(chain: Chain): nat {
    if chain == [] then 0 else |chain[0].clients| + ClientCount(chain[1..])
  }

  // ----- agreement between notifiers

  /** Whatever the newer notifier recorded, the older one recorded at the same version. */
  ghost predicate Covers(older: Node, newer: Node) {
    forall k :: k in newer.processed ==>
      k in older.processed && older.processed[k].version == newer.processed[k].version
  }

  ghost predicate Agrees(chain: Chain) {
    forall i :: 0 <= i < |chain| - 1 ==> Covers(chain[i + 1], chain[i])
  }

  /** The ids of all clients on a chain. */
  function LiveIds(chain: Chain): set<nat> {
    if chain == [] then {} else chain[0].clients.Keys + LiveIds(chain[1..])
  }

  /** No client is owned by two notifiers. */
  predicate Disjoint(chain: Chain) {
    chain == [] || (chain[0].clients.Keys !! LiveIds(chain[1..]) && Disjoint(chain[1..]))
  }

  predicate NodeWired(clients: map<nat, Filter>, wires: Wires) {
    forall c :: c in clients ==> c in wires && !wires[c].closed && wires[c].filter == clients[c]
  }

  /** Every client on the chain has an open channel, made for its own filter. */
  predicate Wired(chain: Chain, wires: Wires) {
    chain == [] || (NodeWired(chain[0].clients, wires) && Wired(chain[1..], wires))
  }
}
