/** Ownership of policies and their agreement with the routes, call by call and over whole runs. */
module StoreTheorems {
  import opened Wrappers
  import opened Selectors
  import opened WatchTypes
  import opened Timeouts
  import opened Routes
  import opened Stores

  predicate Unmanaged(slot: Option<Stored<Policy>>) {
    slot.Some? && !IsManaged(slot.value.value)
  }

  // ----- one call, with any faults and any interference

  lemma OtherSlotsStay(t: Table<Policy>, k: Key, wanted: Option<Policy>, env: PolicyEnv, other: Key)
    requires other != k
    ensures Slot(ApplyPolicy(t, k, wanted, env).table, other) == Slot(t, other)
    ensures Slot(DeletePolicy(t, k, env).table, other) == Slot(t, other)
  {
  }

  /** A policy that is not ours is neither changed nor removed, whatever fails. */
  lemma UnmanagedSurvives(t: Table<Policy>, k: Key, wanted: Option<Policy>, env: PolicyEnv)
    requires Unmanaged(Slot(t, k)) && env.foreign == Stays
    ensures Slot(ApplyPolicy(t, k, wanted, env).table, k) == Slot(t, k)
    ensures DeletePolicy(t, k, env).table == t
  {
  }

  /** Whether applying a policy comes to write it: none was found, or one of ours. */
  predicate ComesToWrite(t: Table<Policy>, k: Key, env: PolicyEnv) {
    var got := Get(t, k, env.get);
    env.client && if got.Success? then IsManaged(got.value.value) else IsIgnorablePolicyAbsence(got.error)
  }

  /**
   Even if it appears between our reading and our writing, an update or a creation does not hit it:
   the version of the one is stale by then, and the name of the other is taken.
   */
  lemma WritingNeverHitsUnmanaged(t: Table<Policy>, k: Key, wanted: Policy, env: PolicyEnv)
    requires ValidTable(t)
    ensures var before := Slot(Interfere(t, k, env.foreign), k);
            ComesToWrite(t, k, env) && Unmanaged(before) ==> Slot(ApplyPolicy(t, k, Some(wanted), env).table, k) == before
    ensures !ComesToWrite(t, k, env) ==> ApplyPolicy(t, k, Some(wanted), env).table == t
  {
  }

  /** The policy that a deletion finds when it strikes. */
  predicate Strikes(t: Table<Policy>, k: Key, env: PolicyEnv) {
    && env.client && env.get.None? && env.write.None?
    && k in t.items && IsManaged(t.items[k].value) && k in Interfere(t, k, env.foreign).items
  }

  /**
   A deletion carries no version.  It removes a policy that is not ours exactly when one was put in
   the place of ours between the reading and the deletion.
   */
  lemma DeletionHitsUnmanagedIff(t: Table<Policy>, k: Key, env: PolicyEnv)
    ensures Strikes(t, k, env) ==> Slot(DeletePolicy(t, k, env).table, k) == None
    ensures Strikes(t, k, env) ==>
              (Unmanaged(Slot(Interfere(t, k, env.foreign), k)) <==> env.foreign.Writes? && !IsManaged(env.foreign.policy))
    ensures !Strikes(t, k, env) ==>
              var after := DeletePolicy(t, k, env).table; after == t || after == Interfere(t, k, env.foreign)
  {
  }

  lemma DeletionCanHitUnmanaged() returns (t: Table<Policy>, k: Key, env: PolicyEnv)
    ensures ValidTable(t) && k in t.items && IsManaged(t.items[k].value)
    ensures Unmanaged(Slot(Interfere(t, k, env.foreign), k)) && Slot(DeletePolicy(t, k, env).table, k) == None
  {
    k := Key("ns", "r");
    var ours := Policy("r", "ns", map[MANAGED_BY := PAAS_MEDIATION], JNull);
    t := Table(map[k := Stored(ours, 0)], 1);
    env := PolicyEnv(true, None, Writes(Policy("r", "ns", map[], JNull)), None);
  }

  function ValueAt(t: Table<Policy>, k: Key): Option<Policy> {
    if k in t.items then Some(t.items[k].value) else None
  }

  predicate SaysAbsent(fault: Fault) {
    fault.Some? && IsIgnorablePolicyAbsence(fault.value)
  }

  /** Whether the wanted policy, or its absence, comes to be written. */
  predicate Attempts(t: Table<Policy>, k: Key, wanted: Option<Policy>, env: PolicyEnv) {
    ComesToWrite(t, k, env) && (Get(t, k, env.get).Success? || wanted.Some?)
  }

  /** The attempt succeeds: nothing was there and still is not, or what was read is still there, or it was to go anyway. */
  predicate Lands(t: Table<Policy>, k: Key, wanted: Option<Policy>, env: PolicyEnv) {
    && env.write.None?
    && (wanted.None? || if Get(t, k, env.get).Success? then env.foreign == Stays else k !in Interfere(t, k, env.foreign).items)
  }

  /**
   Whatever fails and whoever interferes: the wanted policy is there afterwards exactly if its writing
   lands, or if it was there anyway.
   */
  lemma AppliedIff(t: Table<Policy>, k: Key, wanted: Option<Policy>, env: PolicyEnv)
    requires ValidTable(t)
    ensures ValueAt(ApplyPolicy(t, k, wanted, env).table, k) == wanted <==>
              if Attempts(t, k, wanted, env)
              then Lands(t, k, wanted, env) || ValueAt(Interfere(t, k, env.foreign), k) == wanted
              else ValueAt(t, k) == wanted
  {
  }

  /** No attempt and no error: no client, a policy that is not ours, or nothing found where nothing is wanted. */
  predicate LeavesAsFound(t: Table<Policy>, k: Key, wanted: Option<Policy>, env: PolicyEnv) {
    var got := Get(t, k, env.get);
    || !env.client
    || (got.Success? && !IsManaged(got.value.value))
    || (got.Failure? && IsIgnorablePolicyAbsence(got.error) && wanted.None?)
  }

  /** An attempt whose failure is taken for absence: the API says so, or the policy to be updated was removed meanwhile. */
  predicate Swallows(t: Table<Policy>, k: Key, wanted: Option<Policy>, env: PolicyEnv) {
    && Attempts(t, k, wanted, env)
    && (SaysAbsent(env.write) || (env.write.None? && Get(t, k, env.get).Success? && env.foreign == Removes))
  }

  /**
   Success although another policy than the wanted one, or none, is there afterwards: exactly if the
   difference was found and left, or remains after an attempt whose failure is swallowed.
   */
  lemma SilentDifferenceIff(t: Table<Policy>, k: Key, wanted: Option<Policy>, env: PolicyEnv)
    requires ValidTable(t)
    ensures var applied := ApplyPolicy(t, k, wanted, env);
            applied.result.Success? && ValueAt(applied.table, k) != wanted <==>
              || (LeavesAsFound(t, k, wanted, env) && ValueAt(t, k) != wanted)
              || (Swallows(t, k, wanted, env) && ValueAt(Interfere(t, k, env.foreign), k) != wanted)
  {
  }

  /** No call fails, but the policy is removed between our reading and our update: success, and no policy. */
  lemma RemovedPolicyGoesUnreported() returns (t: Table<Policy>, k: Key, wanted: Policy, env: PolicyEnv)
    ensures ValidTable(t) && k in t.items && IsManaged(t.items[k].value)
    ensures env.client && env.get.None? && env.write.None?
    ensures ApplyPolicy(t, k, Some(wanted), env).result.Success?
    ensures k !in ApplyPolicy(t, k, Some(wanted), env).table.items
  {
    k := Key("ns", "r");
    wanted := Policy("r", "ns", map[MANAGED_BY := PAAS_MEDIATION], JNull);
    t := Table(map[k := Stored(wanted, 0)], 1);
    env := PolicyEnv(true, None, Removes, None);
  }

  /** So a whole update of a route answers with success, and its policy is missing. */
  lemma UpdateLosesPolicySilently(config: Config, w: World, route: Route, namespace: string, env: Env)
    requires var wanted := PolicyFor(config, route, namespace); wanted.Success? && wanted.value.Some?
    requires KeyOf(route, namespace) in w.http.items && env.get.None?
    requires UpdateFault(route, namespace, env).None? && env.cache != Refuses
    requires var k := KeyOf(route, namespace); k in w.policies.items && IsManaged(w.policies.items[k].value)
    requires env.policy == PolicyEnv(true, None, Removes, None)
    ensures var o := UpsertHTTPRoute(config, w, route, namespace, env);
            o.result.Success? && KeyOf(route, namespace) !in o.world.policies.items
  {
  }

  /** A route that validation or the translation of its timeout refuses leaves every store as it was. */
  lemma RejectedChangesNothing(config: Config, w: World, route: Route, namespace: string, env: Env)
    requires PolicyFor(config, route, namespace).Failure?
    ensures var o := CreateHTTPRoute(config, w, route, namespace, env); o.world == w && o.result.Failure?
    ensures var o := UpsertHTTPRoute(config, w, route, namespace, env); o.world == w && o.result.Failure?
  {
  }

  // ----- names, labels and errors, spelled out

  /** What is ours is told by the one label and its one value: of a calm deletion nothing else is the victim. */
  lemma OnlyOursIsDeleted(t: Table<Policy>, k: Key)
    requires k in t.items
    ensures var labels := t.items[k].value.labels;
            k !in DeletePolicy(t, k, PolicyEnv(true, None, Stays, None)).table.items <==>
              "app.kubernetes.io/managed-by" in labels && labels["app.kubernetes.io/managed-by"] == "paas-mediation-client"
  {
  }

  /** A policy write that fails is taken for absence for four reasons, and reported for any other. */
  lemma AbsenceIsSkipped(t: Table<Policy>, k: Key, wanted: Option<Policy>, e: ApiError)
    requires k in t.items && IsManaged(t.items[k].value)
    ensures var applied := ApplyPolicy(t, k, wanted, PolicyEnv(true, None, Stays, Some(e)));
            && applied.table == t
            && applied.result == if e == NotFound || e == MethodNotSupported || e == NoKindMatch || e == NoResourceMatch
                                 then Success(None) else Failure(e)
  {
  }

  /** So is a failure to read it, where none is wanted; where one is, its creation is tried. */
  lemma UnreadIsSkipped(t: Table<Policy>, k: Key, wanted: Option<Policy>, e: ApiError)
    ensures var applied := ApplyPolicy(t, k, wanted, PolicyEnv(true, Some(e), Stays, None));
            var absent := e == NotFound || e == MethodNotSupported || e == NoKindMatch || e == NoResourceMatch;
            && (!absent ==> applied.table == t && applied.result == Failure(e))
            && (absent && wanted.None? ==> applied.table == t && applied.result == Success(None))
            && (absent && wanted.Some? && k !in t.items ==> applied.result == Success(wanted) && k in applied.table.items && applied.table.items[k].value == wanted.value)
            && (absent && wanted.Some? && k in t.items ==> applied.table == t && applied.result == Failure(AlreadyExists))
  {
  }

  predicate AbsentOrEmpty(annotations: Labels, name: string) {
    name !in annotations || annotations[name] == ""
  }

  /** Seven annotations must not say anything, and the protocol nothing but GRPC. */
  lemma FitsIff(annotations: Labels)
    ensures AnnotationsFit(annotations) <==>
              && AbsentOrEmpty(annotations, "nginx.ingress.kubernetes.io/secure-backends")
              && AbsentOrEmpty(annotations, "nginx.ingress.kubernetes.io/auth-type")
              && AbsentOrEmpty(annotations, "nginx.ingress.kubernetes.io/ssl-passthrough")
              && AbsentOrEmpty(annotations, "nginx.ingress.kubernetes.io/configuration-snippet")
              && AbsentOrEmpty(annotations, "nginx.ingress.kubernetes.io/upstream-vhost")
              && AbsentOrEmpty(annotations, "nginx.ingress.kubernetes.io/proxy-redirect-from")
              && AbsentOrEmpty(annotations, "nginx.ingress.kubernetes.io/proxy-redirect-to")
              && (AbsentOrEmpty(annotations, "nginx.ingress.kubernetes.io/backend-protocol")
                  || IsGRPC(annotations["nginx.ingress.kubernetes.io/backend-protocol"]))
  {
    ProtocolName();
    assert CRITICAL_ANNOTATIONS[0] == "nginx.ingress.kubernetes.io/secure-backends";
    assert CRITICAL_ANNOTATIONS[1] == "nginx.ingress.kubernetes.io/auth-type";
    assert CRITICAL_ANNOTATIONS[2] == "nginx.ingress.kubernetes.io/ssl-passthrough";
    assert CRITICAL_ANNOTATIONS[3] == "nginx.ingress.kubernetes.io/configuration-snippet";
    assert CRITICAL_ANNOTATIONS[4] == "nginx.ingress.kubernetes.io/upstream-vhost";
    assert CRITICAL_ANNOTATIONS[5] == "nginx.ingress.kubernetes.io/proxy-redirect-from";
    assert CRITICAL_ANNOTATIONS[6] == "nginx.ingress.kubernetes.io/proxy-redirect-to";
  }

  /** Bad annotations are Invalid, a bad timeout is a BadRequest, and nothing else is refused. */
  lemma RejectionKinds(config: Config, route: Route, namespace: string)
    ensures var meta := route.metadata.meta;
            var timeout := ResolveStreamIdleTimeout(route.spec.streamIdleTimeout, config.idleTimeout, meta.annotations);
            var r := PolicyFor(config, route, namespace);
            && (!AnnotationsFit(meta.annotations) ==> r == Failure(Invalid))
            && (AnnotationsFit(meta.annotations) && timeout.Failure? ==> r == Failure(BadRequest))
            && (AnnotationsFit(meta.annotations) && timeout.Success? ==> r.Success?)
  {
  }

  /** What is written under a key bears that name and namespace, and is the route's otherwise. */
  lemma WrittenUnderItsKey(config: Config, route: Route, namespace: string)
    ensures var k, h := KeyOf(route, namespace), ToHTTPRoute(In(route, namespace), config.gateway);
            && (h.meta.name, h.meta.namespace) == (k.name, k.namespace) == (route.metadata.meta.name, namespace)
            && h.meta.labels == route.metadata.meta.labels
            && h.meta.annotations == ToHTTPRoute(route, config.gateway).meta.annotations
            && h.rules == ToHTTPRoute(route, config.gateway).rules && h.hostnames == [route.spec.host]
    ensures var k, wanted := KeyOf(route, namespace), PolicyFor(config, route, namespace);
            wanted.Success? && wanted.value.Some? ==> (wanted.value.value.name, wanted.value.value.namespace) == (k.name, k.namespace)
  {
  }

  // ----- the cache

  /** A deletion that went through takes the route out of the cache; nothing else is touched there. */
  lemma CacheAfterDeletion(w: World, k: Key, env: Env)
    ensures var d := DeleteHTTPRoute(w, k, env);
            && (d.error.None? && env.cache != NoCache ==> k !in d.world.cache)
            && (d.error.Some? || env.cache == NoCache ==> d.world.cache == w.cache)
            && (forall x :: x != k ==> (x in d.world.cache <==> x in w.cache))
            && (forall x :: x != k && x in w.cache ==> d.world.cache[x] == w.cache[x])
  {
  }

  ghost predicate SameElsewhere(before: map<Key, HTTPRoute>, after: map<Key, HTTPRoute>, k: Key) {
    && (forall x :: x != k ==> (x in after <==> x in before))
    && (forall x :: x != k && x in before ==> after[x] == before[x])
  }

  lemma CacheAfterFinish(w: World, k: Key, h: HTTPRoute, wanted: Option<Policy>, env: Env)
    ensures var o := Finish(w, k, h, wanted, env);
            && SameElsewhere(w.cache, o.world.cache, k)
            && (o.result.Success? && env.cache == Accepts ==> k in o.world.cache && o.world.cache[k].rules == h.rules)
            && (o.result.Failure? || env.cache != Accepts ==> o.world.cache == w.cache)
  {
  }

  /** A write is cached exactly if it succeeds and there is a cache; nothing else is touched there. */
  lemma CacheAfterWrite(config: Config, w: World, route: Route, namespace: string, env: Env, o: Outcome)
    requires o == CreateHTTPRoute(config, w, route, namespace, env) || o == UpsertHTTPRoute(config, w, route, namespace, env)
    ensures var k := KeyOf(route, namespace);
            && SameElsewhere(w.cache, o.world.cache, k)
            && (o.result.Success? && env.cache == Accepts ==> k in o.world.cache && o.world.cache[k].rules == ToHTTPRoute(In(route, namespace), config.gateway).rules)
            && (o.result.Failure? || env.cache != Accepts ==> o.world.cache == w.cache)
  {
    var k, h := KeyOf(route, namespace), ToHTTPRoute(In(route, namespace), config.gateway);
    var wanted := PolicyFor(config, route, namespace);
    if wanted.Success? {
      CacheAfterFinish(w.(http := Write(w.http, k, h)), k, h, wanted.value, env);
    }
  }

  /** A creation reports the failure of the call, or that the name is taken. */
  lemma CreationFailureIsReported(config: Config, w: World, route: Route, namespace: string, env: Env)
    requires PolicyFor(config, route, namespace).Success? && CreationFault(route, namespace, None).None?
    requires env.write.Some? || KeyOf(route, namespace) in w.http.items
    ensures var e := if env.write.Some? then env.write.value else AlreadyExists;
            CreateHTTPRoute(config, w, route, namespace, env) == Outcome(w, Failure(e))
  {
  }

  /** An update reports a failure to read, other than absence, and a failure to write. */
  lemma UpdateFailureIsReported(config: Config, w: World, route: Route, namespace: string, env: Env)
    requires PolicyFor(config, route, namespace).Success? && UpdateFault(route, namespace, env.(write := None)).None?
    requires KeyOf(route, namespace) in w.http.items && env.get != Some(NotFound) && (env.get.Some? || env.write.Some?)
    ensures var e := if env.get.Some? then env.get.value else env.write.value;
            UpsertHTTPRoute(config, w, route, namespace, env) == Outcome(w, Failure(e))
  {
  }

  lemma PolicyFailureIsReported(w: World, k: Key, h: HTTPRoute, wanted: Option<Policy>, env: Env)
    ensures var o, applied := Finish(w, k, h, wanted, env), ApplyPolicy(w.policies, k, wanted, env.policy);
            && (applied.result.Failure? ==> o.result == Failure(applied.result.error))
            && (applied.result.Success? && env.cache == Refuses ==> o.result == Failure(CacheRefused))
            && (applied.result.Success? && env.cache != Refuses ==> o.result.Success?)
  {
  }
}
