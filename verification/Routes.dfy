/**
 Translation of a route to an HTTPRoute with its companion BackendTrafficPolicy, and back.
 The translation loses information; what it keeps is stated on the route that is read back.
 A nil map and an empty one are the same value here (but see `RouteObjects`).
 */
module Routes {
  import opened Wrappers
  import opened Selectors
  import opened Durations
  import opened Timeouts

  // ----- entities

  datatype ObjectMeta = ObjectMeta(
    name: string, namespace: string, uid: string, generation: int, resourceVersion: string,
    annotations: Labels, labels: Labels)

  datatype Metadata = Metadata(kind: string, meta: ObjectMeta)

  /** A Gateway API filter; nothing here looks into it. */
  datatype HTTPRouteFilter = HTTPRouteFilter(content: string)

  datatype RouteSpec = RouteSpec(
    host: string, pathType: string, path: string, service: string, targetPort: int,
    ingressClassName: Option<string>, filters: seq<HTTPRouteFilter>, streamIdleTimeout: string)

  datatype Route = Route(metadata: Metadata, spec: RouteSpec)

  datatype Gateway = Gateway(namespace: string, name: string)

  datatype ParentReference = ParentReference(group: string, kind: string, gateway: Gateway)

  datatype PathMatch = PathMatch(typ: Option<string>, value: Option<string>)

  datatype BackendRef = BackendRef(group: string, kind: string, name: string, port: Option<int>, weight: int)

  datatype SessionPersistence = SessionPersistence(
    typ: string, sessionName: Option<string>, absoluteTimeout: Option<string>)

  datatype Rule = Rule(
    matches: seq<Option<PathMatch>>, backendRefs: seq<BackendRef>, filters: seq<HTTPRouteFilter>,
    sessionPersistence: Option<SessionPersistence>)

  datatype HTTPRoute = HTTPRoute(
    meta: ObjectMeta, parentRefs: seq<ParentReference>, hostnames: seq<string>, rules: seq<Rule>)

  /** Unstructured content, as far as this code builds or reads it. */
  datatype Json = JNull | JBool(b: bool) | JString(s: string) | JArray(items: seq<Json>) | JObject(fields: map<string, Json>)

  datatype Policy = Policy(name: string, namespace: string, labels: Labels, content: Json)

  const AFFINITY := NGINX + "affinity"
  const SESSION_COOKIE_NAME := NGINX + "session-cookie-name"
  const SESSION_COOKIE_MAX_AGE := NGINX + "session-cookie-max-age"
  const BACKEND_PROTOCOL := NGINX + "backend-protocol"
  const MANAGED_BY := "app.kubernetes.io/managed-by"
  const PAAS_MEDIATION := "paas-mediation-client"
  const GATEWAY_GROUP := "gateway.networking.k8s.io"

  // ----- to the cluster

  predicate HasPrefix(s: string, prefix: string) {
    |prefix| <= |s| && s[..|prefix|] == prefix
  }

  function NonNginx(annotations: Labels): Labels {
    map k | k in annotations && !HasPrefix(k, NGINX) :: annotations[k]
  }

  /** `httpRouteMetadataAnnotations` */
  method HttpRouteMetadataAnnotations(annotations: Labels) returns (out: Labels)
    ensures out == NonNginx(annotations)
  {
    out := map[];
    var todo := annotations.Keys;
    while todo != {}
      invariant todo <= annotations.Keys
      invariant forall k :: k in out <==> k in annotations && k !in todo && !HasPrefix(k, NGINX)
      invariant forall k :: k in out ==> out[k] == annotations[k]
    {
      var k :| k in todo;
      if !HasPrefix(k, NGINX) {
        out := out[k := annotations[k]];
      }
      todo := todo - {k};
    }
  }

  function PathMatchType(pathType: string): string {
    if pathType == "Exact" then "Exact" else "PathPrefix"
  }

  function RoutePathValue(path: string): string {
    if path == "" then "/" else path
  }

  function RouteBackendPort(targetPort: int): int {
    if targetPort == 0 then 8080 else targetPort
  }

  /** `strings.EqualFold(s, "GRPC")`: none of these four letters folds to anything but its two cases. */
  predicate IsGRPC(s: string) {
    && |s| == 4 && (s[0] == 'G' || s[0] == 'g') && (s[1] == 'R' || s[1] == 'r')
    && (s[2] == 'P' || s[2] == 'p') && (s[3] == 'C' || s[3] == 'c')
  }

  function Present(s: string): Option<string> {
    if s == "" then None else Some(s)
  }

  function BuildSessionPersistence(annotations: Labels): SessionPersistence {
    var maxAge := Lookup(annotations, SESSION_COOKIE_MAX_AGE);
    SessionPersistence("Cookie", Present(Lookup(annotations, SESSION_COOKIE_NAME)),
                       if maxAge == "" then None else Some(maxAge + "s"))
  }

  function BuildHTTPRouteRule(spec: RouteSpec, annotations: Labels): Rule {
    Rule([Some(PathMatch(Some(PathMatchType(spec.pathType)), Some(RoutePathValue(spec.path))))],
         [BackendRef("", "Service", spec.service, Some(RouteBackendPort(spec.targetPort)), 1)],
         spec.filters,
         if Lookup(annotations, AFFINITY) == "cookie" then Some(BuildSessionPersistence(annotations)) else None)
  }

  function ToHTTPRoute(route: Route, gateway: Gateway): HTTPRoute {
    var meta := route.metadata.meta;
    HTTPRoute(meta.(annotations := NonNginx(meta.annotations)),
              [ParentReference(GATEWAY_GROUP, "Gateway", gateway)],
              [route.spec.host],
              [BuildHTTPRouteRule(route.spec, meta.annotations)])
  }

  function ResolvedTimeout(route: Route, defaultTimeout: string): Result<string, TimeoutError> {
    ResolveStreamIdleTimeout(route.spec.streamIdleTimeout, defaultTimeout, route.metadata.meta.annotations)
  }

  predicate WantsGRPC(route: Route) {
    IsGRPC(Lookup(route.metadata.meta.annotations, BACKEND_PROTOCOL))
  }

  function PolicySpec(name: string, grpc: bool, timeout: string): Json {
    var base := map[
      "mergeType" := JString("StrategicMerge"),
      "targetRefs" := JArray([JObject(map["group" := JString(GATEWAY_GROUP), "kind" := JString("HTTPRoute"), "name" := JString(name)])])];
    var withProtocol := if grpc then base["useClientProtocol" := JBool(true)] else base;
    JObject(if timeout == "" then withProtocol
            else withProtocol["timeout" := JObject(map["http" := JObject(map["streamIdleTimeout" := JString(timeout)])])])
  }

  /** The labels of a policy: those of its route, and the mark of ownership over whatever stood there. */
  method PolicyLabels(labels: Labels) returns (out: Labels)
    ensures out == labels[MANAGED_BY := PAAS_MEDIATION]
  {
    out := map[];
    var todo := labels.Keys;
    while todo != {}
      invariant todo <= labels.Keys
      invariant forall k :: k in out <==> k in labels && k !in todo
      invariant forall k :: k in out ==> out[k] == labels[k]
    {
      var k :| k in todo;
      out := out[k := labels[k]];
      todo := todo - {k};
    }
    out := out[MANAGED_BY := PAAS_MEDIATION];
  }

  function ToBackendTrafficPolicy(route: Route, defaultTimeout: string): Result<Option<Policy>, TimeoutError> {
    match ResolvedTimeout(route, defaultTimeout)
    case Failure(e) => Failure(e)
    case Success(timeout) =>
      var meta := route.metadata.meta;
      if !WantsGRPC(route) && timeout == "" then Success(None)
      else Success(Some(Policy(
        meta.name, meta.namespace, meta.labels[MANAGED_BY := PAAS_MEDIATION],
        JObject(map[
          "apiVersion" := JString("gateway.envoyproxy.io/v1alpha1"),
          "kind" := JString("BackendTrafficPolicy"),
          "spec" := PolicySpec(meta.name, WantsGRPC(route), timeout)]))))
  }

  // ----- and back

  predicate IsManaged(policy: Policy) {
    Lookup(policy.labels, MANAGED_BY) == PAAS_MEDIATION
  }

  /** One step of the nested lookups of unstructured content; absence and a wrong type are both `None`. */
  function Field(value: Option<Json>, name: string): Option<Json> {
    if value.Some? && value.value.JObject? && name in value.value.fields then Some(value.value.fields[name]) else None
  }

  /** The timeout that a policy sets; "" if it sets none. */
  function TimeoutIn(policy: Policy): string {
    var f := Field(Field(Field(Field(Some(policy.content), "spec"), "timeout"), "http"), "streamIdleTimeout");
    if f.Some? && f.value.JString? then f.value.s else ""
  }

  predicate UsesClientProtocol(policy: Policy) {
    Field(Field(Some(policy.content), "spec"), "useClientProtocol") == Some(JBool(true))
  }

  function WithManagedPolicy(route: Route, policy: Option<Policy>): Route {
    if policy.None? || !IsManaged(policy.value) then route
    else
      var timeout := TimeoutIn(policy.value);
      var r := if timeout == "" then route else route.(spec := route.spec.(streamIdleTimeout := timeout));
      if !UsesClientProtocol(policy.value) then r
      else
        var meta := r.metadata.meta;
        r.(metadata := r.metadata.(meta := meta.(annotations := meta.annotations[BACKEND_PROTOCOL := "GRPC"])))
  }

  const NO_SPEC := RouteSpec("", "", "", "", 0, None, [], "")

  function Or<T>(o: Option<T>, default: T): T {
    if o.Some? then o.value else default
  }

  /** What is read of the first rule; an HTTPRoute without rule, backend or match reads as empty. */
  function SpecFromHTTPRoute(h: HTTPRoute): RouteSpec {
    if h.rules == [] || h.rules[0].backendRefs == [] || h.rules[0].matches == [] then NO_SPEC
    else
      var backend, path := h.rules[0].backendRefs[0], h.rules[0].matches[0];
      RouteSpec(if h.hostnames == [] then "" else h.hostnames[0],
                if path.None? then "" else Or(path.value.typ, ""),
                if path.None? then "" else Or(path.value.value, ""),
                backend.name, Or(backend.port, 0), None, h.rules[0].filters, "")
  }

  function RouteFromHTTPRouteWithPolicy(h: HTTPRoute, policy: Option<Policy>): Route {
    WithManagedPolicy(Route(Metadata("Route", h.meta), SpecFromHTTPRoute(h)), policy)
  }

  // ----- what writing and reading back makes of a route

  /** The annotations that come back: those of nginx are gone, but for the protocol. */
  function KeptAnnotations(annotations: Labels): Labels {
    if IsGRPC(Lookup(annotations, BACKEND_PROTOCOL))
    then NonNginx(annotations)[BACKEND_PROTOCOL := "GRPC"]
    else NonNginx(annotations)
  }

  function Normalised(route: Route, timeout: string): Route {
    var meta, spec := route.metadata.meta, route.spec;
    Route(Metadata("Route", meta.(annotations := KeptAnnotations(meta.annotations))),
          RouteSpec(spec.host, PathMatchType(spec.pathType), RoutePathValue(spec.path), spec.service,
                    RouteBackendPort(spec.targetPort), None, spec.filters, timeout))
  }

  /** Writing a route and reading it back. */
  function WrittenAndRead(route: Route, gateway: Gateway, defaultTimeout: string): Result<Route, TimeoutError> {
    match ToBackendTrafficPolicy(route, defaultTimeout)
    case Failure(e) => Failure(e)
    case Success(policy) => Success(RouteFromHTTPRouteWithPolicy(ToHTTPRoute(route, gateway), policy))
  }

  /** A policy carries its timeout and its protocol, and is marked as managed. */
  lemma PolicyCarries(route: Route, defaultTimeout: string)
    requires ToBackendTrafficPolicy(route, defaultTimeout).Success?
    ensures ToBackendTrafficPolicy(route, defaultTimeout).value.Some? <==>
              WantsGRPC(route) || ResolvedTimeout(route, defaultTimeout) != Success("")
    ensures var policy := ToBackendTrafficPolicy(route, defaultTimeout).value;
            policy.Some? ==>
              IsManaged(policy.value) && UsesClientProtocol(policy.value) == WantsGRPC(route)
    ensures var policy := ToBackendTrafficPolicy(route, defaultTimeout).value;
            policy.Some? ==> Success(TimeoutIn(policy.value)) == ResolvedTimeout(route, defaultTimeout)
  {
    var timeout := ResolvedTimeout(route, defaultTimeout).value;
    SpecCarries(route.metadata.meta.name, WantsGRPC(route), timeout);
  }

  lemma SpecCarries(name: string, grpc: bool, timeout: string)
    ensures var spec := Some(PolicySpec(name, grpc, timeout));
            (Field(spec, "useClientProtocol") == Some(JBool(true))) == grpc
    ensures var timeoutField := Field(Field(Field(Some(PolicySpec(name, grpc, timeout)), "timeout"), "http"), "streamIdleTimeout");
            timeoutField == if timeout == "" then None else Some(JString(timeout))
  {
  }

  // ----- the same, without the functions that compute it

  function Upper(c: char): char {
    if 'a' <= c <= 'z' then c - ' ' else c
  }

  /** A protocol is GRPC whatever the case of its letters, and nothing else is. */
  lemma GrpcInAnyCase(s: string)
    ensures IsGRPC(s) <==> |s| == 4 && forall i :: 0 <= i < 4 ==> Upper(s[i]) == "GRPC"[i]
  {
    if |s| == 4 && forall i :: 0 <= i < 4 ==> Upper(s[i]) == "GRPC"[i] {
      assert Upper(s[0]) == 'G' && Upper(s[1]) == 'R' && Upper(s[2]) == 'P' && Upper(s[3]) == 'C';
    }
  }

  predicate IsFromNginx(key: string) {
    |"nginx.ingress.kubernetes.io/"| <= |key| && key[..|"nginx.ingress.kubernetes.io/"|] == "nginx.ingress.kubernetes.io/"
  }

  lemma AffinityName()
    ensures AFFINITY == "nginx.ingress.kubernetes.io/affinity"
  {
  }

  lemma CookieName()
    ensures SESSION_COOKIE_NAME == "nginx.ingress.kubernetes.io/session-cookie-name"
  {
  }

  lemma CookieMaxAge()
    ensures SESSION_COOKIE_MAX_AGE == "nginx.ingress.kubernetes.io/session-cookie-max-age"
  {
  }

  lemma ProtocolName()
    ensures BACKEND_PROTOCOL == "nginx.ingress.kubernetes.io/backend-protocol"
  {
  }

  /** The one rule: the path and its match type, the backend with its port, and the route's filters. */
  lemma WrittenRule(route: Route, gateway: Gateway)
    ensures var h, spec := ToHTTPRoute(route, gateway), route.spec;
            && h.hostnames == [spec.host] && |h.rules| == 1 && h.rules[0].filters == spec.filters
            && h.rules[0].matches == [Some(PathMatch(Some(if spec.pathType == "Exact" then "Exact" else "PathPrefix"),
                                                     Some(if spec.path == "" then "/" else spec.path)))]
            && h.rules[0].backendRefs ==
               [BackendRef("", "Service", spec.service, Some(if spec.targetPort == 0 then 8080 else spec.targetPort), 1)]
  {
  }

  /** Session persistence is by cookie, under the name and with the age that the annotations give, if any. */
  lemma WrittenPersistence(route: Route, gateway: Gateway)
    ensures var annotations, p := route.metadata.meta.annotations, ToHTTPRoute(route, gateway).rules[0].sessionPersistence;
            && (p.Some? <==> "nginx.ingress.kubernetes.io/affinity" in annotations && annotations["nginx.ingress.kubernetes.io/affinity"] == "cookie")
            && (p.Some? ==> p.value.typ == "Cookie")
    ensures var annotations, p := route.metadata.meta.annotations, ToHTTPRoute(route, gateway).rules[0].sessionPersistence;
            var name, age := "nginx.ingress.kubernetes.io/session-cookie-name", "nginx.ingress.kubernetes.io/session-cookie-max-age";
            && (p.Some? && name in annotations && annotations[name] != "" ==> p.value.sessionName == Some(annotations[name]))
            && (p.Some? && (name !in annotations || annotations[name] == "") ==> p.value.sessionName == None)
            && (p.Some? && age in annotations && annotations[age] != "" ==> p.value.absoluteTimeout == Some(annotations[age] + "s"))
            && (p.Some? && (age !in annotations || annotations[age] == "") ==> p.value.absoluteTimeout == None)
  {
    AffinityName();
    CookieName();
    CookieMaxAge();
  }

  /** The metadata is the route's, without the annotations for nginx. */
  lemma WrittenMetadata(route: Route, gateway: Gateway)
    ensures var before, after := route.metadata.meta, ToHTTPRoute(route, gateway).meta;
            && after == before.(annotations := after.annotations)
            && (forall k :: k in after.annotations <==> k in before.annotations && !IsFromNginx(k))
            && (forall k :: k in after.annotations ==> after.annotations[k] == before.annotations[k])
  {
  }

  /** Of any HTTPRoute the first rule is read, with its first backend and match; without one, nothing is. */
  lemma FirstRuleIsRead(h: HTTPRoute)
    ensures var spec := RouteFromHTTPRouteWithPolicy(h, None).spec;
            if |h.rules| > 0 && |h.rules[0].backendRefs| > 0 && |h.rules[0].matches| > 0
            then
              var rule := h.rules[0];
              && spec.service == rule.backendRefs[0].name && spec.filters == rule.filters
              && (|h.hostnames| > 0 ==> spec.host == h.hostnames[0]) && (|h.hostnames| == 0 ==> spec.host == "")
              && (rule.backendRefs[0].port.Some? ==> spec.targetPort == rule.backendRefs[0].port.value)
              && (rule.backendRefs[0].port.None? ==> spec.targetPort == 0)
              && (rule.matches[0].None? ==> spec.path == "" && spec.pathType == "")
              && (rule.matches[0].Some? && rule.matches[0].value.typ.Some? ==> spec.pathType == rule.matches[0].value.typ.value)
              && (rule.matches[0].Some? && rule.matches[0].value.typ.None? ==> spec.pathType == "")
              && (rule.matches[0].Some? && rule.matches[0].value.value.Some? ==> spec.path == rule.matches[0].value.value.value)
              && (rule.matches[0].Some? && rule.matches[0].value.value.None? ==> spec.path == "")
              && spec.ingressClassName == None && spec.streamIdleTimeout == ""
            else spec == RouteSpec("", "", "", "", 0, None, [], "")
    ensures RouteFromHTTPRouteWithPolicy(h, None).metadata == Metadata("Route", h.meta)
  {
  }

  /** Of a policy of ours the timeout and the protocol flag are read, if they have the right types. */
  lemma PolicyIsRead(h: HTTPRoute, policy: Policy, spec: map<string, Json>, http: map<string, Json>)
    requires IsManaged(policy) && policy.content == JObject(map["spec" := JObject(spec)])
    requires "timeout" in spec ==> spec["timeout"] == JObject(map["http" := JObject(http)])
    ensures var bare, r := RouteFromHTTPRouteWithPolicy(h, None), RouteFromHTTPRouteWithPolicy(h, Some(policy));
            var key := "streamIdleTimeout";
            r.spec == if "timeout" in spec && key in http && http[key].JString? && http[key].s != ""
                      then bare.spec.(streamIdleTimeout := http[key].s) else bare.spec
    ensures var bare, r := RouteFromHTTPRouteWithPolicy(h, None), RouteFromHTTPRouteWithPolicy(h, Some(policy));
            var annotations := r.metadata.meta.annotations;
            if "useClientProtocol" in spec && spec["useClientProtocol"] == JBool(true)
            then annotations == bare.metadata.meta.annotations["nginx.ingress.kubernetes.io/backend-protocol" := "GRPC"]
            else r.metadata == bare.metadata
  {
    ProtocolName();
  }

  /** Of a policy that is not ours nothing is read. */
  lemma OthersAreNotRead(h: HTTPRoute, policy: Policy)
    requires "app.kubernetes.io/managed-by" !in policy.labels || policy.labels["app.kubernetes.io/managed-by"] != "paas-mediation-client"
    ensures RouteFromHTTPRouteWithPolicy(h, Some(policy)) == RouteFromHTTPRouteWithPolicy(h, None)
  {
  }

  /** The specification that comes back: as written, but for the ingress class, and with the timeout in force. */
  lemma ReadBackSpec(route: Route, gateway: Gateway, defaultTimeout: string)
    requires ResolvedTimeout(route, defaultTimeout).Success?
    ensures WrittenAndRead(route, gateway, defaultTimeout).Success?
    ensures var before, after := route.spec, WrittenAndRead(route, gateway, defaultTimeout).value.spec;
            && after.host == before.host && after.service == before.service && after.filters == before.filters
            && after.path == (if before.path == "" then "/" else before.path)
            && after.pathType == (if before.pathType == "Exact" then "Exact" else "PathPrefix")
            && after.targetPort == (if before.targetPort == 0 then 8080 else before.targetPort)
            && after.ingressClassName == None
            && after.streamIdleTimeout == ResolvedTimeout(route, defaultTimeout).value
  {
    ReadBackIsNormalised(route, gateway, defaultTimeout);
  }

  /** The metadata that comes back: as written, the kind apart, and of the nginx annotations only GRPC. */
  lemma ReadBackMetadata(route: Route, gateway: Gateway, defaultTimeout: string)
    requires ResolvedTimeout(route, defaultTimeout).Success?
    ensures var before, back := route.metadata.meta, WrittenAndRead(route, gateway, defaultTimeout).value.metadata;
            back.kind == "Route" && back.meta == before.(annotations := back.meta.annotations)
    ensures var before, after := route.metadata.meta.annotations, WrittenAndRead(route, gateway, defaultTimeout).value.metadata.meta.annotations;
            var protocol := "nginx.ingress.kubernetes.io/backend-protocol";
            && (forall k :: k != protocol ==> (k in after <==> k in before && !IsFromNginx(k)))
            && (forall k :: k != protocol && k in after ==> after[k] == before[k])
            && (protocol in after <==> protocol in before && IsGRPC(before[protocol]))
            && (protocol in after ==> after[protocol] == "GRPC")
  {
    ProtocolName();
    BackendProtocolIsNginx();
    ReadBackIsNormalised(route, gateway, defaultTimeout);
  }

  /** What comes back is the normal form, whenever the timeout resolves at all. */
  lemma ReadBackIsNormalised(route: Route, gateway: Gateway, defaultTimeout: string)
    ensures var t := ResolvedTimeout(route, defaultTimeout);
            WrittenAndRead(route, gateway, defaultTimeout) ==
              if t.Failure? then Failure(t.error) else Success(Normalised(route, t.value))
  {
    var t := ResolvedTimeout(route, defaultTimeout);
    if t.Success? {
      PolicyCarries(route, defaultTimeout);
      BackendProtocolIsNginx();
    }
  }

  lemma BackendProtocolIsNginx()
    ensures HasPrefix(BACKEND_PROTOCOL, NGINX)
    ensures BACKEND_PROTOCOL != PROXY_READ_TIMEOUT && BACKEND_PROTOCOL != PROXY_SEND_TIMEOUT
    ensures HasPrefix(PROXY_READ_TIMEOUT, NGINX) && HasPrefix(PROXY_SEND_TIMEOUT, NGINX)
  {
    assert |BACKEND_PROTOCOL| < |PROXY_READ_TIMEOUT|;
  }

  lemma LegacyTimeoutsAreDropped(annotations: Labels)
    ensures LegacySeconds(KeptAnnotations(annotations)) == 0
  {
    BackendProtocolIsNginx();
    assert TrimSpace("") == "";
  }

  lemma ProtocolIsKept(annotations: Labels)
    ensures IsGRPC(Lookup(KeptAnnotations(annotations), BACKEND_PROTOCOL)) <==> IsGRPC(Lookup(annotations, BACKEND_PROTOCOL))
    ensures KeptAnnotations(KeptAnnotations(annotations)) == KeptAnnotations(annotations)
  {
    BackendProtocolIsNginx();
  }

  /** The defaults are filled once. */
  lemma NormalisedTwice(route: Route, timeout: string, timeout2: string)
    ensures Normalised(Normalised(route, timeout), timeout2) == Normalised(route, timeout2)
  {
    ProtocolIsKept(route.metadata.meta.annotations);
  }

  /**
   A route that came back is written and read back unchanged exactly when it carries a timeout
   already, or the default in force at the second writing is blank.
   */
  lemma ReadBackIsFixedPoint(route: Route, gateway: Gateway, default1: string, default2: string)
    requires ResolvedTimeout(route, default1).Success?
    ensures var back := WrittenAndRead(route, gateway, default1).value;
            WrittenAndRead(back, gateway, default2) == Success(back) <==>
              back.spec.streamIdleTimeout != "" || AllSpace(default2)
  {
    var t := ResolvedTimeout(route, default1).value;
    var meta := route.metadata.meta;
    ReadBackIsNormalised(route, gateway, default1);
    var back := Normalised(route, t);
    ReadBackIsNormalised(back, gateway, default2);
    LegacyTimeoutsAreDropped(meta.annotations);
    ResolvedIsInGrammar(back.spec.streamIdleTimeout, default2, back.metadata.meta.annotations);
    if ResolvedTimeout(back, default2).Success? {
      NormalisedTwice(route, t, ResolvedTimeout(back, default2).value);
    }
    ResolvedIsStable(route.spec.streamIdleTimeout, default1, meta.annotations, default2, back.metadata.meta.annotations);
  }

  /** With one default throughout, the second writing changes neither the route nor its policy. */
  lemma SecondWritingChangesNothing(route: Route, gateway: Gateway, defaultTimeout: string)
    requires ResolvedTimeout(route, defaultTimeout).Success?
    ensures var back := WrittenAndRead(route, gateway, defaultTimeout).value;
            WrittenAndRead(back, gateway, defaultTimeout) == Success(back)
            && ToBackendTrafficPolicy(back, defaultTimeout) == ToBackendTrafficPolicy(route, defaultTimeout)
  {
    var t := ResolvedTimeout(route, defaultTimeout).value;
    var annotations := route.metadata.meta.annotations;
    ReadBackIsNormalised(route, gateway, defaultTimeout);
    ResolvedIsInGrammar(route.spec.streamIdleTimeout, defaultTimeout, annotations);
    ReadBackIsFixedPoint(route, gateway, defaultTimeout, defaultTimeout);
    ResolvedIsStable(route.spec.streamIdleTimeout, defaultTimeout, annotations, defaultTimeout, KeptAnnotations(annotations));
    LegacyTimeoutsAreDropped(annotations);
    ResolvedIsInGrammar(t, defaultTimeout, KeptAnnotations(annotations));
    ProtocolIsKept(annotations);
  }

  /**
   Cookie affinity is translated but not read back: the route that comes back is written without
   session persistence.
   */
  lemma AffinityIsLost(route: Route, gateway: Gateway, defaultTimeout: string)
    requires ResolvedTimeout(route, defaultTimeout).Success?
    ensures ToHTTPRoute(route, gateway).rules[0].sessionPersistence.Some? <==>
              Lookup(route.metadata.meta.annotations, AFFINITY) == "cookie"
    ensures ToHTTPRoute(WrittenAndRead(route, gateway, defaultTimeout).value, gateway).rules[0].sessionPersistence.None?
  {
    ReadBackIsNormalised(route, gateway, defaultTimeout);
    assert |AFFINITY| < |BACKEND_PROTOCOL|;
    assert HasPrefix(AFFINITY, NGINX);
  }

  /** The two objects belong together: the policy aims at the HTTPRoute, which hangs on the gateway. */
  lemma PolicyTargetsItsHTTPRoute(route: Route, gateway: Gateway, defaultTimeout: string)
    requires ToBackendTrafficPolicy(route, defaultTimeout).Success? && ToBackendTrafficPolicy(route, defaultTimeout).value.Some?
    ensures var h, policy := ToHTTPRoute(route, gateway), ToBackendTrafficPolicy(route, defaultTimeout).value.value;
            var target := JObject(map["group" := JString(h.parentRefs[0].group), "kind" := JString("HTTPRoute"), "name" := JString(h.meta.name)]);
            && (policy.name, policy.namespace) == (h.meta.name, h.meta.namespace)
            && Field(Field(Some(policy.content), "spec"), "targetRefs") == Some(JArray([target]))
            && |h.parentRefs| == 1 && h.parentRefs[0].gateway == gateway
    ensures var h, policy := ToHTTPRoute(route, gateway), ToBackendTrafficPolicy(route, defaultTimeout).value.value;
            && (forall k :: k in policy.labels <==> k in h.meta.labels || k == "app.kubernetes.io/managed-by")
            && (forall k :: k in policy.labels && k != "app.kubernetes.io/managed-by" ==> policy.labels[k] == h.meta.labels[k])
            && policy.labels["app.kubernetes.io/managed-by"] == "paas-mediation-client"
    ensures var content := Some(ToBackendTrafficPolicy(route, defaultTimeout).value.value.content);
            && Field(content, "apiVersion") == Some(JString("gateway.envoyproxy.io/v1alpha1"))
            && Field(content, "kind") == Some(JString("BackendTrafficPolicy"))
            && Field(Field(content, "spec"), "mergeType") == Some(JString("StrategicMerge"))
  {
    var name, grpc, timeout := route.metadata.meta.name, WantsGRPC(route), ResolvedTimeout(route, defaultTimeout).value;
    SpecTargets(name, grpc, timeout);
  }

  lemma SpecTargets(name: string, grpc: bool, timeout: string)
    ensures Field(Some(PolicySpec(name, grpc, timeout)), "mergeType") == Some(JString("StrategicMerge"))
    ensures Field(Some(PolicySpec(name, grpc, timeout)), "targetRefs") ==
            Some(JArray([JObject(map["group" := JString(GATEWAY_GROUP), "kind" := JString("HTTPRoute"), "name" := JString(name)])]))
  {
  }

  function CookieTimeout(route: Route, gateway: Gateway): Option<string> {
    var persistence := ToHTTPRoute(route, gateway).rules[0].sessionPersistence;
    if persistence.None? then None else persistence.value.absoluteTimeout
  }

  /**
   The age of a session cookie becomes a duration without being checked.  Whatever the annotation says,
   the HTTPRoute has a timeout in the grammar, or none, exactly if the age is in a grammar of its own.
   */
  lemma CookieTimeoutIsValidIff(route: Route, gateway: Gateway)
    ensures var annotations := route.metadata.meta.annotations;
            CookieTimeout(route, gateway).None? <==>
              Lookup(annotations, AFFINITY) != "cookie" || Lookup(annotations, SESSION_COOKIE_MAX_AGE) == ""
    ensures var timeout := CookieTimeout(route, gateway);
            timeout.Some? ==>
              (InGrammar(timeout.value) <==> AgeInGrammar(Lookup(route.metadata.meta.annotations, SESSION_COOKIE_MAX_AGE)))
  {
    AgeBecomesDuration(Lookup(route.metadata.meta.annotations, SESSION_COOKIE_MAX_AGE));
  }

  /** For digits alone their number decides, zeros in front included; for a number without those, 99999 is the limit. */
  lemma CookieSecondsAreValidIff(route: Route, gateway: Gateway)
    ensures var age, timeout := Lookup(route.metadata.meta.annotations, SESSION_COOKIE_MAX_AGE), CookieTimeout(route, gateway);
            timeout.Some? && AllDigits(age) ==> (InGrammar(timeout.value) <==> |age| <= 5)
    ensures var age, timeout := Lookup(route.metadata.meta.annotations, SESSION_COOKIE_MAX_AGE), CookieTimeout(route, gateway);
            forall n: nat :: timeout.Some? && age == Decimal(n) ==> (InGrammar(timeout.value) <==> n <= 99999)
  {
    var age := Lookup(route.metadata.meta.annotations, SESSION_COOKIE_MAX_AGE);
    MatcherIsGrammar(age + "s");
    if AllDigits(age) {
      DigitsOfSeconds(age);
    }
    forall n: nat | age == Decimal(n) ensures IsValidGatewayAPIDuration(age + "s") <==> n <= 99999 {
      SecondsFitUpTo99999(n);
    }
  }

  const NO_METADATA := Metadata("Route", ObjectMeta("r", "ns", "", 0, "", map[], map[]))

  function RouteWith(annotations: Labels): Route {
    Route(NO_METADATA.(meta := NO_METADATA.meta.(annotations := annotations)), NO_SPEC)
  }

  /** 100000 seconds, a little over a day: one digit too many. */
  lemma CookieAgeTooLong(gateway: Gateway) returns (route: Route)
    ensures CookieTimeout(route, gateway) == Some("100000s") && !InGrammar("100000s")
  {
    route := RouteWith(map[AFFINITY := "cookie", SESSION_COOKIE_MAX_AGE := "100000"]);
    assert |AFFINITY| < |SESSION_COOKIE_MAX_AGE|;
    assert "100000" + "s" == "100000s";
    CookieSecondsAreValidIff(route, gateway);
  }

  /** Read back while no default was set, a route changes when it is written again under one. */
  lemma LaterDefaultChangesTheRoute(gateway: Gateway) returns (route: Route, back: Route)
    ensures WrittenAndRead(route, gateway, "") == Success(back)
    ensures WrittenAndRead(back, gateway, "5s") != Success(back)
  {
    route := RouteWith(map[]);
    assert LegacySeconds(map[]) == 0 by {
      assert TrimSpace("") == "";
    }
    ResolvedIsInGrammar("", "", map[]);
    ReadBackIsNormalised(route, gateway, "");
    back := Normalised(route, "");
    ReadBackIsFixedPoint(route, gateway, "", "5s");
    assert !IsSpace("5s"[0]);
  }
}
