/** The client's methods for routes, which change the stores call by call as `Stores` specifies. */
module RouteClients {
  import opened Wrappers
  import opened Selectors
  import opened WatchTypes
  import opened Timeouts
  import opened Routes
  import opened RouteObjects
  import opened Stores
  import opened StoreTheorems
  import opened StoreRuns

  predicate Offends(annotations: Labels, key: string) {
    if key == BACKEND_PROTOCOL
    then Lookup(annotations, key) != "" && !IsGRPC(Lookup(annotations, key))
    else key in CRITICAL_ANNOTATIONS && Lookup(annotations, key) != ""
  }

  lemma ProtocolIsNotCritical()
    ensures BACKEND_PROTOCOL !in CRITICAL_ANNOTATIONS
  {
    ProtocolName();
    var n := |"nginx.ingress.kubernetes.io/"|;
    assert "nginx.ingress.kubernetes.io/configuration-snippet"[n] != BACKEND_PROTOCOL[n];
    assert |"nginx.ingress.kubernetes.io/secure-backends"| != |BACKEND_PROTOCOL|;
  }

  /** `validateAnnotationsForGatewayAPI`: the annotations that an HTTPRoute cannot express; none means valid. */
  method ValidateAnnotationsForGatewayAPI(annotations: Labels) returns (fieldErrors: seq<string>)
    ensures forall k :: k in fieldErrors <==> Offends(annotations, k)
    ensures fieldErrors == [] <==> AnnotationsFit(annotations)
  {
    fieldErrors := [];
    for i := 0 to |CRITICAL_ANNOTATIONS|
      invariant forall k :: k in fieldErrors <==> k in CRITICAL_ANNOTATIONS[..i] && Lookup(annotations, k) != ""
    {
      if Lookup(annotations, CRITICAL_ANNOTATIONS[i]) != "" {
        fieldErrors := fieldErrors + [CRITICAL_ANNOTATIONS[i]];
      }
    }
    assert CRITICAL_ANNOTATIONS[..|CRITICAL_ANNOTATIONS|] == CRITICAL_ANNOTATIONS;
    ProtocolIsNotCritical();
    var protocol := Lookup(annotations, BACKEND_PROTOCOL);
    if protocol != "" && !IsGRPC(protocol) {
      fieldErrors := fieldErrors + [BACKEND_PROTOCOL];
    }
    NoneOffendsIff(annotations);
    assert fieldErrors != [] ==> fieldErrors[0] in fieldErrors;
  }

  lemma NoneOffendsIff(annotations: Labels)
    ensures (forall k :: !Offends(annotations, k)) <==> AnnotationsFit(annotations)
  {
    ProtocolIsNotCritical();
    if forall k :: !Offends(annotations, k) {
      assert !Offends(annotations, BACKEND_PROTOCOL);
      forall i | 0 <= i < |CRITICAL_ANNOTATIONS| ensures Lookup(annotations, CRITICAL_ANNOTATIONS[i]) == "" {
        assert !Offends(annotations, CRITICAL_ANNOTATIONS[i]);
      }
    }
  }

  lemma WorkingApplyOnly(t: Table<Policy>, k: Key, wanted: Option<Policy>, env: PolicyEnv)
    ensures Unmanaged(Slot(t, k)) && env.foreign == Stays ==> ApplyPolicy(t, k, wanted, env).table == t
    ensures WorkingPolicyApi(env) && !Unmanaged(Slot(t, k)) ==> ValueAt(ApplyPolicy(t, k, wanted, env).table, k) == wanted
  {
    if WorkingPolicyApi(env) {
      WorkingApply(t, k, wanted, env);
    }
  }

  lemma AnswersAndRejections(config: Config, w: World, route: Route, namespace: string, env: Env, create: bool)
    ensures var o := if create then Stores.CreateHTTPRoute(config, w, route, namespace, env) else Stores.UpsertHTTPRoute(config, w, route, namespace, env);
            PolicyFor(config, route, namespace).Failure? ==> o.result.Failure? && o.world == w
    ensures var o := if create then Stores.CreateHTTPRoute(config, w, route, namespace, env) else Stores.UpsertHTTPRoute(config, w, route, namespace, env);
            o.result.Success? && WorkingPolicyApi(env.policy) && !Unmanaged(Slot(w.policies, KeyOf(route, namespace))) ==>
              IsNormalForm(config, In(route, namespace), o.result.value)
  {
    if PolicyFor(config, route, namespace).Failure? {
      RejectedChangesNothing(config, w, route, namespace, env);
    }
    if WorkingPolicyApi(env.policy) && !Unmanaged(Slot(w.policies, KeyOf(route, namespace))) {
      WriteAnswersNormalForm(config, w, route, namespace, env, create);
    }
  }

  class Kubernetes {
    const config: Config
    var http: Table<HTTPRoute>
    var policies: Table<Policy>
    var cache: map<Key, HTTPRoute>

    constructor (config: Config, w: World)
      ensures this.config == config && Current() == w
    {
      this.config := config;
      http, policies, cache := w.http, w.policies, w.cache;
    }

    function Current(): World
      reads this
    {
      World(http, policies, cache)
    }

    method BackendTrafficPolicyFromRoute(route: Route, namespace: string) returns (r: Result<Option<Policy>, ApiError>)
      ensures r == PolicyFor(config, route, namespace)
    {
      var fieldErrors := ValidateAnnotationsForGatewayAPI(route.metadata.meta.annotations);
      if fieldErrors != [] {
        return Failure(Invalid);
      }
      match ToBackendTrafficPolicy(In(route, namespace), config.idleTimeout)
      case Failure(_) => return Failure(BadRequest);
      case Success(policy) => return Success(policy);
    }

    method DeleteBackendTrafficPolicy(k: Key, env: PolicyEnv) returns (r: Result<Option<Policy>, ApiError>)
      modifies this`policies
      ensures Applied(policies, r) == DeletePolicy(old(policies), k, env)
      ensures Unmanaged(Slot(old(policies), k)) && env.foreign == Stays ==> policies == old(policies)
    {
      if !env.client {
        return Success(None);
      }
      var existing := Get(policies, k, env.get);
      if existing.Failure? {
        return if IsIgnorablePolicyAbsence(existing.error) then Success(None) else Failure(existing.error);
      }
      if !IsManaged(existing.value.value) {
        return Success(Some(existing.value.value));
      }
      policies := Interfere(policies, k, env.foreign);
      var (after, e) := Delete(policies, k, env.write);
      policies := after;
      if e.Some? {
        return SkipOrWrapPolicyError(e.value);
      }
      return Success(None);
    }

    method ApplyBackendTrafficPolicy(policy: Option<Policy>, k: Key, env: PolicyEnv) returns (r: Result<Option<Policy>, ApiError>)
      modifies this`policies
      ensures Applied(policies, r) == ApplyPolicy(old(policies), k, policy, env)
      ensures Unmanaged(Slot(old(policies), k)) && env.foreign == Stays ==> policies == old(policies)
      ensures WorkingPolicyApi(env) && !Unmanaged(Slot(old(policies), k)) ==> ValueAt(policies, k) == policy
    {
      WorkingApplyOnly(policies, k, policy, env);
      if !env.client {
        return Success(None);
      }
      if policy.None? {
        r := DeleteBackendTrafficPolicy(k, env);
        return;
      }
      var existing := Get(policies, k, env.get);
      if existing.Failure? {
        if existing.error != NotFound && !IsIgnorablePolicyAbsence(existing.error) {
          return Failure(existing.error);
        }
        policies := Interfere(policies, k, env.foreign);
        var created := Create(policies, k, policy.value, env.write);
        policies := created.table;
        if created.result.Failure? {
          return SkipOrWrapPolicyError(created.result.error);
        }
        return Success(Some(created.result.value));
      }
      if !IsManaged(existing.value.value) {
        return Success(Some(existing.value.value));
      }
      policies := Interfere(policies, k, env.foreign);
      var updated := Update(policies, k, policy.value, existing.value.version, env.write);
      policies := updated.table;
      if updated.result.Failure? {
        return SkipOrWrapPolicyError(updated.result.error);
      }
      return Success(Some(updated.result.value));
    }

    /** The end that creating and updating share: policy, answer, cache. */
    method FinishWriting(k: Key, h: HTTPRoute, policy: Option<Policy>, env: Env) returns (r: Result<Route, ApiError>)
      modifies this`policies, this`cache
      ensures Outcome(Current(), r) == Finish(old(Current()), k, h, policy, env)
    {
      var stored := ApplyBackendTrafficPolicy(policy, k, env.policy);
      if stored.Failure? {
        return Failure(stored.error);
      }
      var route := RouteFromHTTPRouteWithPolicy(h, stored.value);
      if env.cache != NoCache {
        if env.cache == Refuses {
          return Failure(CacheRefused);
        }
        cache := cache[k := AfterReading(h, h.meta.annotations != map[], stored.value)];
      }
      return Success(route);
    }

    method CreateHTTPRoute(route: Route, namespace: string, env: Env) returns (r: Result<Route, ApiError>)
      modifies this`http, this`policies, this`cache
      ensures Outcome(Current(), r) == Stores.CreateHTTPRoute(config, old(Current()), route, namespace, env)
      ensures PolicyFor(config, route, namespace).Failure? ==> r.Failure? && Current() == old(Current())
      ensures r.Success? && WorkingPolicyApi(env.policy) && !Unmanaged(Slot(old(policies), KeyOf(route, namespace))) ==>
                IsNormalForm(config, In(route, namespace), r.value)
    {
      AnswersAndRejections(config, Current(), route, namespace, env, true);
      var k, h := KeyOf(route, namespace), ToHTTPRoute(In(route, namespace), config.gateway);
      var policy := BackendTrafficPolicyFromRoute(route, namespace);
      if policy.Failure? {
        return Failure(policy.error);
      }
      var created := Create(http, k, h, CreationFault(route, namespace, env.write));
      http := created.table;
      if created.result.Failure? {
        return Failure(created.result.error);
      }
      r := FinishWriting(k, h, policy.value, env);
    }

    method UpsertHTTPRoute(route: Route, namespace: string, env: Env) returns (r: Result<Route, ApiError>)
      modifies this`http, this`policies, this`cache
      ensures Outcome(Current(), r) == Stores.UpsertHTTPRoute(config, old(Current()), route, namespace, env)
      ensures PolicyFor(config, route, namespace).Failure? ==> r.Failure? && Current() == old(Current())
      ensures r.Success? && WorkingPolicyApi(env.policy) && !Unmanaged(Slot(old(policies), KeyOf(route, namespace))) ==>
                IsNormalForm(config, In(route, namespace), r.value)
    {
      AnswersAndRejections(config, Current(), route, namespace, env, false);
      var k, h := KeyOf(route, namespace), ToHTTPRoute(In(route, namespace), config.gateway);
      var original := Get(http, k, env.get);
      if original.Failure? {
        if original.error == NotFound {
          r := CreateHTTPRoute(route, namespace, env);
          return;
        }
        return Failure(original.error);
      }
      var policy := BackendTrafficPolicyFromRoute(route, namespace);
      if policy.Failure? {
        return Failure(policy.error);
      }
      var updated := Update(http, k, h, original.value.version, UpdateFault(route, namespace, env));
      http := updated.table;
      if updated.result.Failure? {
        return Failure(updated.result.error);
      }
      r := FinishWriting(k, h, policy.value, env);
    }

    method DeleteRouteHTTPRoute(k: Key, env: Env) returns (e: Option<ApiError>)
      modifies this`http, this`policies, this`cache
      ensures Deletion(Current(), e) == DeleteHTTPRoute(old(Current()), k, env)
      ensures e.Some? && e.value != NotFound ==> Current() == old(Current())
      ensures (e.None? || e.value == NotFound) && WorkingPolicyApi(env.policy) && env.write != Some(NotFound) ==>
                k !in http.items && (k in policies.items ==> !IsManaged(policies.items[k].value))
      ensures e.None? && env.cache != NoCache ==> cache == old(cache) - {k}
      ensures e.Some? || env.cache == NoCache ==> cache == old(cache)
    {
      if WorkingPolicyApi(env.policy) && env.write != Some(NotFound) {
        DeletionHeals(Current(), k, env);
      }
      var (after, error) := Delete(http, k, env.write);
      http := after;
      if error.Some? && error.value != NotFound {
        return error;
      }
      if error.None? && env.cache != NoCache {
        cache := cache - {k};
      }
      // a failure to delete the policy is logged and not reported
      var _ := DeleteBackendTrafficPolicy(k, env.policy);
      return error;
    }
  }
}
