/**
 Reading a route back, with the objects shared as they are in memory: the route that is made from
 an HTTPRoute has that object's own annotation map, and the managed policy is written into it.
 */
module RouteObjects {
  import opened Wrappers
  import opened Selectors
  import opened Timeouts
  import opened Routes

  class AnnotationMap {
    var entries: Labels

    constructor (entries: Labels)
      ensures this.entries == entries
    {
      this.entries := entries;
    }
  }

  /** A nil map has no entries. */
  function Entries(annotations: AnnotationMap?): Labels
    reads annotations
  {
    if annotations == null then map[] else annotations.entries
  }

  function Shared(annotations: AnnotationMap?): set<AnnotationMap> {
    if annotations == null then {} else {annotations}
  }

  /** An HTTPRoute in memory; of its fields only the annotations are ever changed. */
  class HTTPRouteObject {
    const content: HTTPRoute
    const annotations: AnnotationMap?

    constructor (content: HTTPRoute, annotations: AnnotationMap?)
      ensures this.content == content && this.annotations == annotations
    {
      this.content := content;
      this.annotations := annotations;
    }

    function Value(): HTTPRoute
      reads this, annotations
    {
      content.(meta := content.meta.(annotations := Entries(annotations)))
    }
  }

  class RouteObject {
    var metadata: Metadata
    var annotations: AnnotationMap?
    var spec: RouteSpec

    constructor (metadata: Metadata, annotations: AnnotationMap?, spec: RouteSpec)
      ensures this.metadata == metadata && this.annotations == annotations && this.spec == spec
    {
      this.metadata := metadata;
      this.annotations := annotations;
      this.spec := spec;
    }

    function Value(): Route
      reads this, annotations
    {
      Route(metadata.(meta := metadata.meta.(annotations := Entries(annotations))), spec)
    }

    /** `applyManagedBackendTrafficPolicy`: the annotation goes into the map at hand, or into a new one. */
    method ApplyManagedBackendTrafficPolicy(policy: Option<Policy>)
      modifies this`annotations, this`spec, Shared(annotations)
      ensures Value() == WithManagedPolicy(old(Value()), policy)
      ensures old(annotations) != null ==> annotations == old(annotations)
      ensures old(annotations) == null && annotations != null ==> fresh(annotations)
    {
      if policy.None? || !IsManaged(policy.value) {
        return;
      }
      var timeout := TimeoutIn(policy.value);
      if timeout != "" {
        spec := spec.(streamIdleTimeout := timeout);
      }
      if UsesClientProtocol(policy.value) {
        if annotations == null {
          annotations := new AnnotationMap(map[]);
        }
        annotations.entries := annotations.entries[BACKEND_PROTOCOL := "GRPC"];
      }
    }
  }

  /** What is left of an HTTPRoute after a route was read from it: its non-nil map got the protocol. */
  function AfterReading(h: HTTPRoute, hasMap: bool, policy: Option<Policy>): HTTPRoute {
    if hasMap && policy.Some? && IsManaged(policy.value) && UsesClientProtocol(policy.value)
    then h.(meta := h.meta.(annotations := h.meta.annotations[BACKEND_PROTOCOL := "GRPC"]))
    else h
  }

  /** `RouteFromHTTPRouteWithPolicy`: the route is as specified, and the HTTPRoute may change too. */
  method ReadRoute(h: HTTPRouteObject, policy: Option<Policy>) returns (route: RouteObject)
    modifies Shared(h.annotations)
    ensures fresh(route) && route.Value() == RouteFromHTTPRouteWithPolicy(old(h.Value()), policy)
    ensures h.annotations != null ==> route.annotations == h.annotations
    ensures h.Value() == AfterReading(old(h.Value()), h.annotations != null, policy)
  {
    route := new RouteObject(Metadata("Route", h.content.meta), h.annotations, SpecFromHTTPRoute(h.content));
    route.ApplyManagedBackendTrafficPolicy(policy);
  }

  /**
   Reading leaves the HTTPRoute as it was exactly when it has no map, or the policy asks for no
   protocol, or the annotation says so already.  What goes into the cache afterwards is `AfterReading`.
   */
  lemma ReadingChangesTheObject(h: HTTPRoute, hasMap: bool, policy: Option<Policy>)
    ensures AfterReading(h, hasMap, policy) == h <==>
              || !hasMap || policy.None? || !IsManaged(policy.value) || !UsesClientProtocol(policy.value)
              || (BACKEND_PROTOCOL in h.meta.annotations && h.meta.annotations[BACKEND_PROTOCOL] == "GRPC")
  {
    if BACKEND_PROTOCOL in h.meta.annotations && h.meta.annotations[BACKEND_PROTOCOL] == "GRPC" {
      assert h.meta.annotations[BACKEND_PROTOCOL := "GRPC"] == h.meta.annotations;
    }
    if h.meta.annotations[BACKEND_PROTOCOL := "GRPC"] == h.meta.annotations {
      assert BACKEND_PROTOCOL in h.meta.annotations;
    }
  }

  /** A GRPC route with one annotation of its own: its HTTPRoute, once read, says so too. */
  lemma ReadingChangesAnObject(gateway: Gateway) returns (route: Route, h: HTTPRoute, policy: Option<Policy>)
    ensures h == ToHTTPRoute(route, gateway) && h.meta.annotations != map[]
    ensures ToBackendTrafficPolicy(route, "") == Success(policy)
    ensures AfterReading(h, true, policy) != h
  {
    route := RouteWith(map[BACKEND_PROTOCOL := "GRPC", "team" := "a"]);
    h := ToHTTPRoute(route, gateway);
    BackendProtocolIsNginx();
    assert |"team"| < |NGINX|;
    assert "team" in h.meta.annotations && BACKEND_PROTOCOL !in h.meta.annotations;
    assert LegacySeconds(route.metadata.meta.annotations) == 0 by {
      assert TrimSpace("") == "" && |"team"| < |PROXY_READ_TIMEOUT|;
    }
    ResolvedIsInGrammar("", "", route.metadata.meta.annotations);
    PolicyCarries(route, "");
    policy := ToBackendTrafficPolicy(route, "").value;
    ReadingChangesTheObject(h, true, policy);
  }

  /** Reading a second time, with the policy or without it, gives the same route but for the timeout. */
  lemma ReadingTwice(h: HTTPRoute, policy: Option<Policy>)
    ensures RouteFromHTTPRouteWithPolicy(AfterReading(h, true, policy), policy) == RouteFromHTTPRouteWithPolicy(h, policy)
    ensures RouteFromHTTPRouteWithPolicy(AfterReading(h, true, policy), None).metadata
              == RouteFromHTTPRouteWithPolicy(h, policy).metadata
  {
    if policy.Some? && UsesClientProtocol(policy.value) {
      var annotations := h.meta.annotations[BACKEND_PROTOCOL := "GRPC"];
      assert annotations[BACKEND_PROTOCOL := "GRPC"] == annotations;
    }
  }
}
