/**
 The cluster's stores of HTTPRoutes and policies, and what writing and deleting a route does to
 them.  The API server is a table with version-checked updates whose every call may fail instead.
 Fields that the server owns (uid, generation, resource version) are blank in what it stores;
 the resource version stands beside the object.
 */
module Stores {
  import opened Wrappers
  import opened Selectors
  import opened WatchTypes
  import opened Timeouts
  import opened Routes
  import opened RouteObjects

  datatype ApiError =
    | NotFound | AlreadyExists | Conflict | MethodNotSupported | NoKindMatch | NoResourceMatch
    | Invalid | BadRequest | CacheRefused | OtherError

  // ----- the API server

  datatype Stored<T> = Stored(value: T, version: nat)

  datatype Table<T> = Table(items: map<Key, Stored<T>>, version: nat)

  /** Versions are given once. */
  ghost predicate ValidTable<T>(t: Table<T>) {
    forall k :: k in t.items ==> t.items[k].version < t.version
  }

  function Slot<T>(t: Table<T>, k: Key): Option<Stored<T>> {
    if k in t.items then Some(t.items[k]) else None
  }

  /** A call may be made to fail, for any reason and before it had any effect. */
  type Fault = Option<ApiError>

  datatype Reply<T> = Reply(table: Table<T>, result: Result<T, ApiError>)

  function Write<T>(t: Table<T>, k: Key, x: T): Table<T> {
    Table(t.items[k := Stored(x, t.version)], t.version + 1)
  }

  function Get<T>(t: Table<T>, k: Key, fault: Fault): Result<Stored<T>, ApiError> {
    if fault.Some? then Failure(fault.value)
    else if k !in t.items then Failure(NotFound)
    else Success(t.items[k])
  }

  function Create<T>(t: Table<T>, k: Key, x: T, fault: Fault): Reply<T> {
    if fault.Some? then Reply(t, Failure(fault.value))
    else if k in t.items then Reply(t, Failure(AlreadyExists))
    else Reply(Write(t, k, x), Success(x))
  }

  function Update<T>(t: Table<T>, k: Key, x: T, version: nat, fault: Fault): Reply<T> {
    if fault.Some? then Reply(t, Failure(fault.value))
    else if k !in t.items then Reply(t, Failure(NotFound))
    else if t.items[k].version != version then Reply(t, Failure(Conflict))
    else Reply(Write(t, k, x), Success(x))
  }

  /** A deletion names no version. */
  function Delete<T>(t: Table<T>, k: Key, fault: Fault): (Table<T>, Option<ApiError>) {
    if fault.Some? then (t, fault)
    else if k !in t.items then (t, Some(NotFound))
    else (Table(t.items - {k}, t.version), None)
  }

  // ----- policies

  /** What somebody else does to the policy between our reading and our writing it. */
  datatype Foreign = Stays | Writes(policy: Policy) | Removes

  datatype PolicyEnv = PolicyEnv(client: bool, get: Fault, foreign: Foreign, write: Fault)

  function Interfere(t: Table<Policy>, k: Key, foreign: Foreign): Table<Policy> {
    match foreign
    case Stays => t
    case Writes(p) => Write(t, k, p)
    case Removes => Table(t.items - {k}, t.version)
  }

  /** `isIgnorablePolicyAbsence`: the policy, or its whole API, is not there. */
  predicate IsIgnorablePolicyAbsence(e: ApiError) {
    e == NotFound || e == MethodNotSupported || e == NoKindMatch || e == NoResourceMatch
  }

  datatype Applied = Applied(table: Table<Policy>, result: Result<Option<Policy>, ApiError>)

  function SkipOrWrapPolicyError(e: ApiError): Result<Option<Policy>, ApiError> {
    if IsIgnorablePolicyAbsence(e) then Success(None) else Failure(e)
  }

  /** The answer after a write of the policy. */
  function Settled(reply: Reply<Policy>): Applied {
    Applied(reply.table, match reply.result
                         case Success(p) => Success(Some(p))
                         case Failure(e) => SkipOrWrapPolicyError(e))
  }

  function DeletePolicy(t: Table<Policy>, k: Key, env: PolicyEnv): Applied {
    var got := Get(t, k, env.get);
    if !env.client || (got.Failure? && IsIgnorablePolicyAbsence(got.error)) then Applied(t, Success(None))
    else if got.Failure? then Applied(t, Failure(got.error))
    else if !IsManaged(got.value.value) then Applied(t, Success(Some(got.value.value)))
    else
      var (after, e) := Delete(Interfere(t, k, env.foreign), k, env.write);
      Applied(after, if e.None? then Success(None) else SkipOrWrapPolicyError(e.value))
  }

  function ApplyPolicy(t: Table<Policy>, k: Key, wanted: Option<Policy>, env: PolicyEnv): Applied {
    var got := Get(t, k, env.get);
    if wanted.None? then DeletePolicy(t, k, env)
    else if !env.client then Applied(t, Success(None))
    else if got.Failure? && IsIgnorablePolicyAbsence(got.error) then
      Settled(Create(Interfere(t, k, env.foreign), k, wanted.value, env.write))
    else if got.Failure? then Applied(t, Failure(got.error))
    else if !IsManaged(got.value.value) then Applied(t, Success(Some(got.value.value)))
    else Settled(Update(Interfere(t, k, env.foreign), k, wanted.value, got.value.version, env.write))
  }

  // ----- validation

  const CRITICAL_ANNOTATIONS: seq<string> := [
    "nginx.ingress.kubernetes.io/secure-backends", "nginx.ingress.kubernetes.io/auth-type",
    "nginx.ingress.kubernetes.io/ssl-passthrough", "nginx.ingress.kubernetes.io/configuration-snippet",
    "nginx.ingress.kubernetes.io/upstream-vhost", "nginx.ingress.kubernetes.io/proxy-redirect-from",
    "nginx.ingress.kubernetes.io/proxy-redirect-to"]

  /** What an HTTPRoute can express of the annotations of a route. */
  predicate AnnotationsFit(annotations: Labels) {
    && (forall i :: 0 <= i < |CRITICAL_ANNOTATIONS| ==> Lookup(annotations, CRITICAL_ANNOTATIONS[i]) == "")
    && (Lookup(annotations, BACKEND_PROTOCOL) == "" || IsGRPC(Lookup(annotations, BACKEND_PROTOCOL)))
  }

  // ----- routes

  datatype Config = Config(gateway: Gateway, idleTimeout: string)

  /** A route as it is written in a namespace: the server fills the namespace and owns three fields. */
  function In(route: Route, namespace: string): Route {
    var meta := route.metadata.meta.(namespace := namespace, uid := "", generation := 0, resourceVersion := "");
    route.(metadata := route.metadata.(meta := meta))
  }

  function KeyOf(route: Route, namespace: string): Key {
    Key(namespace, route.metadata.meta.name)
  }

  /** `backendTrafficPolicyFromRoute` */
  function PolicyFor(config: Config, route: Route, namespace: string): Result<Option<Policy>, ApiError> {
    if !AnnotationsFit(route.metadata.meta.annotations) then Failure(Invalid)
    else match ToBackendTrafficPolicy(In(route, namespace), config.idleTimeout)
      case Failure(_) => Failure(BadRequest)
      case Success(policy) => Success(policy)
  }

  datatype CacheEnv = NoCache | Accepts | Refuses

  /** `uid` is that of the HTTPRoute which an update finds. */
  datatype Env = Env(get: Fault, write: Fault, policy: PolicyEnv, cache: CacheEnv, uid: string)

  datatype World = World(http: Table<HTTPRoute>, policies: Table<Policy>, cache: map<Key, HTTPRoute>)

  datatype Outcome = Outcome(world: World, result: Result<Route, ApiError>)

  /** The server refuses an object of another namespace; otherwise the route may be stored there. */
  function NamespaceFault(route: Route, namespace: string, fault: Fault): Fault {
    var own := route.metadata.meta.namespace;
    if own != "" && own != namespace then Some(BadRequest) else fault
  }

  /** It refuses to update an object under the uid of an earlier one, which an update passes on as it is. */
  function UpdateFault(route: Route, namespace: string, env: Env): Fault {
    var uid := route.metadata.meta.uid;
    if uid != "" && uid != env.uid then Some(Conflict) else NamespaceFault(route, namespace, env.write)
  }

  /** Nor does it create an object that carries a resource version, which a creation passes on as it is. */
  function CreationFault(route: Route, namespace: string, fault: Fault): Fault {
    var version := route.metadata.meta.resourceVersion;
    if version != "" && version != "0" then Some(OtherError) else NamespaceFault(route, namespace, fault)
  }

  /** Once the HTTPRoute is written: its policy, the answer and the cache. */
  function Finish(w: World, k: Key, h: HTTPRoute, wanted: Option<Policy>, env: Env): Outcome {
    var applied := ApplyPolicy(w.policies, k, wanted, env.policy);
    var w1 := w.(policies := applied.table);
    match applied.result
    case Failure(e) => Outcome(w1, Failure(e))
    case Success(stored) =>
      var route := RouteFromHTTPRouteWithPolicy(h, stored);
      var after := AfterReading(h, h.meta.annotations != map[], stored);
      match env.cache
      case NoCache => Outcome(w1, Success(route))
      case Refuses => Outcome(w1, Failure(CacheRefused))
      case Accepts => Outcome(w1.(cache := w1.cache[k := after]), Success(route))
  }

  function CreateHTTPRoute(config: Config, w: World, route: Route, namespace: string, env: Env): Outcome {
    var k, h := KeyOf(route, namespace), ToHTTPRoute(In(route, namespace), config.gateway);
    match PolicyFor(config, route, namespace)
    case Failure(e) => Outcome(w, Failure(e))
    case Success(wanted) =>
      var reply := Create(w.http, k, h, CreationFault(route, namespace, env.write));
      if reply.result.Failure? then Outcome(w, Failure(reply.result.error))
      else Finish(w.(http := reply.table), k, h, wanted, env)
  }

  function UpsertHTTPRoute(config: Config, w: World, route: Route, namespace: string, env: Env): Outcome {
    var k, h := KeyOf(route, namespace), ToHTTPRoute(In(route, namespace), config.gateway);
    match Get(w.http, k, env.get)
    case Failure(e) =>
      if e == NotFound then CreateHTTPRoute(config, w, route, namespace, env) else Outcome(w, Failure(e))
    case Success(original) =>
      match PolicyFor(config, route, namespace)
      case Failure(e) => Outcome(w, Failure(e))
      case Success(wanted) =>
        var reply := Update(w.http, k, h, original.version, UpdateFault(route, namespace, env));
        if reply.result.Failure? then Outcome(w, Failure(reply.result.error))
        else Finish(w.(http := reply.table), k, h, wanted, env)
  }

  datatype Deletion = Deletion(world: World, error: Option<ApiError>)

  /** `deleteRouteHTTPRoute`: the policy goes with its route, also when the route was gone already. */
  function DeleteHTTPRoute(w: World, k: Key, env: Env): Deletion {
    var (after, e) := Delete(w.http, k, env.write);
    if e.Some? && e.value != NotFound then Deletion(w, e)
    else
      var cache := if e.None? && env.cache != NoCache then w.cache - {k} else w.cache;
      Deletion(World(after, DeletePolicy(w.policies, k, env.policy).table, cache), e)
  }

  /** A route read from the two stores, while they answer. */
  function ReadRouteAt(w: World, k: Key): Option<Route> {
    if k !in w.http.items then None
    else
      var policy := if k in w.policies.items then Some(w.policies.items[k].value) else None;
      Some(RouteFromHTTPRouteWithPolicy(w.http.items[k].value, policy))
  }
}
