/**
 The cache that watch events feed.  All kinds share one store with string keys, which may lose any
 entry at any time and may refuse to take one.
 */
module ResourceCaches {
  import opened Wrappers
  import opened WatchTypes

  /** `cacheKey` */
  datatype Id = Id(kind: string, namespace: string, name: string)

  datatype Entity = Entity(id: Id, content: string)

  /** `cacheKey.String` */
  function KeyString(id: Id): string {
    id.kind + "/" + id.namespace + "/" + id.name
  }

  // ----- keys

  predicate NoSlash(s: string) {
    '/' !in s
  }

  function FirstSlash(s: string): nat {
    if s == "" || s[0] == '/' then 0 else 1 + FirstSlash(s[1..])
  }

  lemma {:induction false} FirstSlashOf(a: string, b: string)
    requires NoSlash(a)
    ensures FirstSlash(a + ("/" + b)) == |a|
    decreases |a|
  {
    if a == "" {
      assert a + ("/" + b) == "/" + b;
    } else {
      assert (a + ("/" + b))[1..] == a[1..] + ("/" + b);
      FirstSlashOf(a[1..], b);
    }
  }

  /** What stands before the first slash is determined. */
  lemma SplitAtSlash(a: string, b: string, c: string, d: string)
    requires NoSlash(a) && NoSlash(c) && a + ("/" + b) == c + ("/" + d)
    ensures a == c && b == d
  {
    var s := a + ("/" + b);
    FirstSlashOf(a, b);
    FirstSlashOf(c, d);
    assert s[..|a|] == a && s[..|c|] == c;
    assert s[|a| + 1..] == b && s[|c| + 1..] == d;
  }

  /** Objects whose kinds and namespaces have no slash never share a key. */
  lemma KeysDoNotCollide(x: Id, y: Id)
    requires NoSlash(x.kind) && NoSlash(x.namespace) && NoSlash(y.kind) && NoSlash(y.namespace)
    requires KeyString(x) == KeyString(y)
    ensures x == y
  {
    assert KeyString(x) == x.kind + ("/" + (x.namespace + ("/" + x.name)));
    assert KeyString(y) == y.kind + ("/" + (y.namespace + ("/" + y.name)));
    SplitAtSlash(x.kind, x.namespace + ("/" + x.name), y.kind, y.namespace + ("/" + y.name));
    SplitAtSlash(x.namespace, x.name, y.namespace, y.name);
  }

  lemma SlashAt(s: string) returns (a: string, b: string)
    requires !NoSlash(s)
    ensures s == a + "/" + b && |a| < |s|
  {
    var i :| 0 <= i < |s| && s[i] == '/';
    a, b := s[..i], s[i + 1..];
  }

  /** A slash anywhere is enough for another object to have the same key. */
  lemma SlashCollides(id: Id) returns (other: Id)
    requires !NoSlash(id.kind) || !NoSlash(id.namespace) || !NoSlash(id.name)
    ensures other != id && KeyString(other) == KeyString(id)
  {
    if !NoSlash(id.kind) {
      var a, b := SlashAt(id.kind);
      other := Id(a, b, id.namespace + "/" + id.name);
    } else if !NoSlash(id.namespace) {
      var a, b := SlashAt(id.namespace);
      other := Id(id.kind, a, b + "/" + id.name);
    } else {
      var a, b := SlashAt(id.name);
      other := Id(id.kind, id.namespace + "/" + a, b);
      assert |other.namespace| > |id.namespace|;
    }
  }

  // ----- the store

  /** How the store takes an entry: its size in bytes (if it marshals), whether it is accepted, and kept. */
  datatype SetEnv = SetEnv(bytes: Option<nat>, accepted: bool, kept: bool)

  const ITEM_OVERHEAD := 16

  /** An entry is refused if it does not marshal, is too large, or the store does not take it. */
  predicate Refused(maxItemSize: int, env: SetEnv) {
    || env.bytes.None?
    || (maxItemSize > 0 && env.bytes.value + ITEM_OVERHEAD > maxItemSize)
    || !env.accepted
  }

  /** The entry marshals, is not too large for a limit there may be, and the store takes it and keeps it. */
  predicate TakenAndKept(maxItemSize: int, env: SetEnv) {
    env.bytes.Some? && (maxItemSize <= 0 || env.bytes.value + 16 <= maxItemSize) && env.accepted && env.kept
  }

  type Store = map<string, Entity>

  datatype CacheEvent = Watched(typ: EventType, entity: Entity, env: SetEnv) | Lost(keys: set<string>)

  function StoreAfterSet(maxItemSize: int, store: Store, e: Entity, env: SetEnv): Store {
    if Refused(maxItemSize, env) then store
    else if env.kept then store[KeyString(e.id) := e]
    else store - {KeyString(e.id)}
  }

  function StoreAfter(maxItemSize: int, store: Store, ev: CacheEvent): Store {
    match ev
    case Lost(keys) => store - keys
    case Watched(typ, e, env) =>
      var without := store - {KeyString(e.id)};
      match typ
      case Added => StoreAfterSet(maxItemSize, store, e, env)
      case Modified => StoreAfterSet(maxItemSize, without, e, env)
      case Deleted => without
      case _ => store
  }

  // ----- the classes

  class ResourceCache {
    const maxItemSize: int
    var store: Store

    constructor (maxItemSize: int)
      ensures this.maxItemSize == maxItemSize && store == map[]
    {
      this.maxItemSize := maxItemSize;
      store := map[];
    }

    /** The per-entity and the shared adapter's `Set`. */
    method Set(e: Entity, env: SetEnv) returns (ok: bool)
      modifies this`store
      ensures ok <==> !Refused(maxItemSize, env)
      ensures !ok ==> store == old(store)
      ensures ok ==> forall k :: k != KeyString(e.id) ==>
                (k in store <==> k in old(store)) && (k in store ==> store[k] == old(store)[k])
      ensures ok ==> KeyString(e.id) !in store || store[KeyString(e.id)] == e
      ensures store == StoreAfterSet(maxItemSize, old(store), e, env)
    {
      if env.bytes.None? {
        return false;
      }
      var cost := env.bytes.value + ITEM_OVERHEAD;
      if maxItemSize > 0 && cost > maxItemSize {
        return false;
      }
      if env.accepted {
        store := if env.kept then store[KeyString(e.id) := e] else store - {KeyString(e.id)};
      }
      return env.accepted;
    }

    method Delete(id: Id)
      modifies this`store
      ensures store == old(store) - {KeyString(id)}
    {
      store := store - {KeyString(id)};
    }

    function Get(id: Id): Option<Entity>
      reads this
    {
      if KeyString(id) in store then Some(store[KeyString(id)]) else None
    }

    /** Evictions and expired entries. */
    method Lose(keys: set<string>)
      modifies this`store
      ensures store == old(store) - keys
    {
      store := store - keys;
    }

    /** `CacheAdapter.OnWatchEvent` */
    method OnWatchEvent(typ: EventType, e: Entity, env: SetEnv)
      modifies this`store
      ensures store == StoreAfter(maxItemSize, old(store), Watched(typ, e, env))
      ensures forall k :: k != KeyString(e.id) ==> (k in store <==> k in old(store)) && (k in store ==> store[k] == old(store)[k])
      ensures (typ == Added || typ == Modified) && TakenAndKept(maxItemSize, env) ==> Get(e.id) == Some(e)
      ensures typ == Modified && !TakenAndKept(maxItemSize, env) ==> Get(e.id) == None
      ensures typ == Deleted ==> Get(e.id) == None
      ensures typ != Added && typ != Modified && typ != Deleted ==> store == old(store)
    {
      match typ {
        case Added =>
          var _ := Set(e, env);
        case Modified =>
          Delete(e.id);
          var _ := Set(e, env);
        case Deleted =>
          Delete(e.id);
        case _ =>
      }
    }

    /**
     The loop of `watchloop` over the events it receives, with losses in between.  From an empty cache,
     and unless an addition is refused over another cached value, every lookup is empty or current.
     */
    method Watchloop(evs: seq<CacheEvent>)
      modifies this`store
      ensures store == StoreAfterAll(maxItemSize, old(store), evs)
      ensures old(store) == map[] && NeverStale(maxItemSize, evs) ==> Sound(store, TruthAfterAll(map[], evs))
    {
      for i := 0 to |evs|
        invariant store == StoreAfterAll(maxItemSize, old(store), evs[..i])
      {
        assert evs[..i + 1][..i] == evs[..i];
        match evs[i] {
          case Lost(keys) => Lose(keys);
          case Watched(typ, e, env) => OnWatchEvent(typ, e, env);
        }
      }
      assert evs[..|evs|] == evs;
      if NeverStale(maxItemSize, evs) {
        RunKeepsSound(maxItemSize, evs);
      }
    }
  }

  // ----- soundness

  /** The objects as the events tell them: what a cache that forgets nothing would hold. */
  function TruthAfter(truth: map<Id, Entity>, ev: CacheEvent): map<Id, Entity> {
    match ev
    case Lost(_) => truth
    case Watched(typ, e, _) =>
      match typ
      case Added => truth[e.id := e]
      case Modified => truth[e.id := e]
      case Deleted => truth - {e.id}
      case _ => truth
  }

  /** Every lookup is empty or the object's present value. */
  predicate SoundAt(store: Store, truth: map<Id, Entity>, id: Id) {
    KeyString(id) in store ==> id in truth && store[KeyString(id)] == truth[id]
  }

  predicate ProperId(id: Id) {
    NoSlash(id.kind) && NoSlash(id.namespace)
  }

  ghost predicate Sound(store: Store, truth: map<Id, Entity>) {
    forall id :: ProperId(id) ==> SoundAt(store, truth, id)
  }

  predicate ProperEvent(ev: CacheEvent) {
    ev.Watched? ==> ProperId(ev.entity.id)
  }

  /** An addition that is refused although another value of the object is cached. */
  predicate LeavesStale(maxItemSize: int, store: Store, ev: CacheEvent) {
    && ev.Watched? && ev.typ == Added && Refused(maxItemSize, ev.env)
    && KeyString(ev.entity.id) in store && store[KeyString(ev.entity.id)] != ev.entity
  }

  /** An event touches no lookup but its own object's; any of them may become empty by a loss. */
  lemma OtherLookups(maxItemSize: int, store: Store, truth: map<Id, Entity>, ev: CacheEvent, id: Id)
    requires ProperEvent(ev) && ProperId(id) && SoundAt(store, truth, id)
    requires ev.Watched? ==> id != ev.entity.id
    ensures SoundAt(StoreAfter(maxItemSize, store, ev), TruthAfter(truth, ev), id)
  {
    if ev.Watched? && KeyString(id) == KeyString(ev.entity.id) {
      KeysDoNotCollide(id, ev.entity.id);
    }
  }

  lemma OwnLookup(maxItemSize: int, store: Store, truth: map<Id, Entity>, ev: CacheEvent)
    requires ev.Watched? && SoundAt(store, truth, ev.entity.id)
    ensures SoundAt(StoreAfter(maxItemSize, store, ev), TruthAfter(truth, ev), ev.entity.id) <==>
              !LeavesStale(maxItemSize, store, ev)
  {
  }

  /** One event keeps the cache sound exactly when it is no addition refused over another cached value. */
  lemma EventKeepsSoundIff(maxItemSize: int, store: Store, truth: map<Id, Entity>, ev: CacheEvent)
    requires Sound(store, truth) && ProperEvent(ev)
    ensures Sound(StoreAfter(maxItemSize, store, ev), TruthAfter(truth, ev)) <==> !LeavesStale(maxItemSize, store, ev)
  {
    var store', truth' := StoreAfter(maxItemSize, store, ev), TruthAfter(truth, ev);
    if ev.Watched? {
      OwnLookup(maxItemSize, store, truth, ev);
    }
    if !LeavesStale(maxItemSize, store, ev) {
      forall id | ProperId(id) ensures SoundAt(store', truth', id) {
        if !ev.Watched? || id != ev.entity.id {
          OtherLookups(maxItemSize, store, truth, ev, id);
        }
      }
    } else {
      assert !SoundAt(store', truth', ev.entity.id);
    }
  }

  /** A modification or a deletion repairs the lookup of its object, whatever was cached. */
  lemma ModificationRepairs(maxItemSize: int, store: Store, truth: map<Id, Entity>, ev: CacheEvent)
    requires ev.Watched? && (ev.typ == Modified || ev.typ == Deleted)
    ensures SoundAt(StoreAfter(maxItemSize, store, ev), TruthAfter(truth, ev), ev.entity.id)
  {
  }

  function StoreAfterAll(maxItemSize: int, store: Store, evs: seq<CacheEvent>): Store {
    if evs == [] then store
    else StoreAfter(maxItemSize, StoreAfterAll(maxItemSize, store, evs[..|evs| - 1]), evs[|evs| - 1])
  }

  function TruthAfterAll(truth: map<Id, Entity>, evs: seq<CacheEvent>): map<Id, Entity> {
    if evs == [] then truth
    else TruthAfter(TruthAfterAll(truth, evs[..|evs| - 1]), evs[|evs| - 1])
  }

  /** No addition is refused over another value that is cached at that moment. */
  predicate NeverStale(maxItemSize: int, evs: seq<CacheEvent>) {
    forall i :: 0 <= i < |evs| ==>
      ProperEvent(evs[i]) && !LeavesStale(maxItemSize, StoreAfterAll(maxItemSize, map[], evs[..i]), evs[i])
  }

  /** Over any sequence of events and losses without such an addition, the cache is sound throughout. */
  lemma {:induction false} RunKeepsSound(maxItemSize: int, evs: seq<CacheEvent>)
    requires NeverStale(maxItemSize, evs)
    ensures Sound(StoreAfterAll(maxItemSize, map[], evs), TruthAfterAll(map[], evs))
    decreases |evs|
  {
    if evs != [] {
      var init := evs[..|evs| - 1];
      forall i | 0 <= i < |init|
        ensures ProperEvent(init[i]) && !LeavesStale(maxItemSize, StoreAfterAll(maxItemSize, map[], init[..i]), init[i])
      {
        assert init[..i] == evs[..i];
      }
      RunKeepsSound(maxItemSize, init);
      EventKeepsSoundIff(maxItemSize, StoreAfterAll(maxItemSize, map[], init), TruthAfterAll(map[], init), evs[|evs| - 1]);
    }
  }

  /** Too large a second addition: the first value stays, although it is no longer the object's. */
  lemma RefusedAdditionLeavesStale() returns (evs: seq<CacheEvent>, id: Id)
    ensures (forall ev :: ev in evs ==> ProperEvent(ev))
    ensures !SoundAt(StoreAfterAll(100, map[], evs), TruthAfterAll(map[], evs), id)
  {
    id := Id("Service", "ns", "s");
    var first := Watched(Added, Entity(id, "old"), SetEnv(Some(84), true, true));
    var second := Watched(Added, Entity(id, "new"), SetEnv(Some(85), true, true));
    evs := [first, second];
    assert evs[..1] == [first] && [first][..0] == [];
    assert StoreAfterAll(100, map[], [first]) == map[KeyString(id) := first.entity];
  }
}
