/** Whole runs of creations, updates and deletions, with other clients writing policies between them. */
module StoreRuns {
  import opened Wrappers
  import opened WatchTypes
  import opened Timeouts
  import opened Routes
  import opened RouteObjects
  import opened Stores
  import opened StoreTheorems

  datatype Op =
    | DoCreate(route: Route, namespace: string, env: Env)
    | DoUpsert(route: Route, namespace: string, env: Env)
    | DoDelete(key: Key, env: Env)
    | Elsewhere(key: Key, foreign: Foreign)

  function OpKey(op: Op): Key {
    match op
    case DoCreate(route, namespace, _) => KeyOf(route, namespace)
    case DoUpsert(route, namespace, _) => KeyOf(route, namespace)
    case DoDelete(k, _) => k
    case Elsewhere(k, _) => k
  }

  function NextWorld(config: Config, w: World, op: Op): World {
    match op
    case DoCreate(route, namespace, env) => CreateHTTPRoute(config, w, route, namespace, env).world
    case DoUpsert(route, namespace, env) => UpsertHTTPRoute(config, w, route, namespace, env).world
    case DoDelete(k, env) => DeleteHTTPRoute(w, k, env).world
    case Elsewhere(k, foreign) => w.(policies := Interfere(w.policies, k, foreign))
  }

  /** The stores, with the last route written under each name and the places where others wrote policies. */
  datatype Tracked = Tracked(world: World, last: map<Key, Route>, touched: set<Key>)

  /** Somebody else may have touched the policy at the operation's own place. */
  predicate Meddled(op: Op) {
    op.Elsewhere? || op.env.policy.foreign != Stays
  }

  function Next(config: Config, t: Tracked, op: Op): Tracked {
    var w, k := NextWorld(config, t.world, op), OpKey(op);
    var touched := if Meddled(op) then t.touched + {k} else t.touched;
    match op
    case DoDelete(_, _) => Tracked(w, if k in w.http.items then t.last else t.last - {k}, touched)
    case Elsewhere(_, _) => Tracked(w, t.last, touched)
    case _ =>
      var written := w.http.version != t.world.http.version;
      Tracked(w, if written then t.last[k := In(op.route, op.namespace)] else t.last, touched)
  }

  function After(config: Config, t: Tracked, ops: seq<Op>): Tracked
    decreases |ops|
  {
    if ops == [] then t else After(config, Next(config, t, ops[0]), ops[1..])
  }

  // ----- one place at a time

  lemma DeleteStaysInPlace(w: World, k: Key, env: Env, other: Key)
    requires other != k
    ensures var w' := DeleteHTTPRoute(w, k, env).world;
            Slot(w'.http, other) == Slot(w.http, other) && Slot(w'.policies, other) == Slot(w.policies, other)
  {
    OtherSlotsStay(w.policies, k, None, env.policy, other);
  }

  /** What creating or updating a route comes to, for the two stores: nothing, or both writes. */
  predicate Wrote(config: Config, w: World, route: Route, namespace: string, env: PolicyEnv, w': World) {
    var k, wanted := KeyOf(route, namespace), PolicyFor(config, route, namespace);
    && wanted.Success?
    && w'.http == Write(w.http, k, ToHTTPRoute(In(route, namespace), config.gateway))
    && w'.policies == ApplyPolicy(w.policies, k, wanted.value, env).table
  }

  lemma FinishOutcome(w: World, k: Key, h: HTTPRoute, wanted: Option<Policy>, env: Env)
    ensures var w' := Finish(w, k, h, wanted, env).world;
            w'.http == w.http && w'.policies == ApplyPolicy(w.policies, k, wanted, env.policy).table
  {
  }

  lemma CreateOutcome(config: Config, w: World, route: Route, namespace: string, env: Env)
    ensures var w' := CreateHTTPRoute(config, w, route, namespace, env).world;
            w' == w || Wrote(config, w, route, namespace, env.policy, w')
  {
    var k, h := KeyOf(route, namespace), ToHTTPRoute(In(route, namespace), config.gateway);
    var wanted := PolicyFor(config, route, namespace);
    if wanted.Success? {
      FinishOutcome(w.(http := Write(w.http, k, h)), k, h, wanted.value, env);
    }
  }

  lemma UpsertOutcome(config: Config, w: World, route: Route, namespace: string, env: Env)
    ensures var w' := UpsertHTTPRoute(config, w, route, namespace, env).world;
            w' == w || Wrote(config, w, route, namespace, env.policy, w')
  {
    var k, h := KeyOf(route, namespace), ToHTTPRoute(In(route, namespace), config.gateway);
    var wanted := PolicyFor(config, route, namespace);
    CreateOutcome(config, w, route, namespace, env);
    if wanted.Success? {
      FinishOutcome(w.(http := Write(w.http, k, h)), k, h, wanted.value, env);
    }
  }

  lemma WriteOutcome(config: Config, w: World, op: Op)
    requires op.DoCreate? || op.DoUpsert?
    ensures NextWorld(config, w, op) == w || Wrote(config, w, op.route, op.namespace, op.env.policy, NextWorld(config, w, op))
  {
    if op.DoCreate? {
      CreateOutcome(config, w, op.route, op.namespace, op.env);
    } else {
      UpsertOutcome(config, w, op.route, op.namespace, op.env);
    }
  }

  lemma WroteInPlace(config: Config, w: World, route: Route, namespace: string, env: PolicyEnv, w': World, other: Key)
    requires Wrote(config, w, route, namespace, env, w') && other != KeyOf(route, namespace)
    ensures Slot(w'.http, other) == Slot(w.http, other) && Slot(w'.policies, other) == Slot(w.policies, other)
  {
    OtherSlotsStay(w.policies, KeyOf(route, namespace), PolicyFor(config, route, namespace).value, env, other);
  }

  /** An operation leaves both stores alone everywhere but in its own place. */
  lemma StaysInPlace(config: Config, w: World, op: Op, other: Key)
    requires other != OpKey(op)
    ensures var w' := NextWorld(config, w, op);
            Slot(w'.http, other) == Slot(w.http, other) && Slot(w'.policies, other) == Slot(w.policies, other)
  {
    match op
    case DoDelete(k, env) => DeleteStaysInPlace(w, k, env, other);
    case Elsewhere(_, _) =>
    case _ =>
      var w' := NextWorld(config, w, op);
      WriteOutcome(config, w, op);
      if w' != w {
        WroteInPlace(config, w, op.route, op.namespace, op.env.policy, w', other);
      }
  }

  // ----- ownership, whatever fails

  /** Nobody else writes at `k`, neither between two operations nor within one. */
  predicate LeftAlone(op: Op, k: Key) {
    OpKey(op) == k ==> !Meddled(op)
  }

  lemma UnmanagedSurvivesOp(config: Config, w: World, op: Op, k: Key)
    requires Unmanaged(Slot(w.policies, k)) && LeftAlone(op, k)
    ensures Slot(NextWorld(config, w, op).policies, k) == Slot(w.policies, k)
  {
    if OpKey(op) != k {
      StaysInPlace(config, w, op, k);
    } else if op.DoDelete? {
      UnmanagedSurvives(w.policies, k, None, op.env.policy);
    } else {
      WriteOutcome(config, w, op);
      if NextWorld(config, w, op) != w {
        UnmanagedSurvives(w.policies, k, PolicyFor(config, op.route, op.namespace).value, op.env.policy);
      }
    }
  }

  /** Over any run and any faults: a policy that does not carry our label stays as it is. */
  lemma {:induction false} UnmanagedSurvivesRun(config: Config, t: Tracked, ops: seq<Op>, k: Key)
    requires Unmanaged(Slot(t.world.policies, k)) && forall op :: op in ops ==> LeftAlone(op, k)
    ensures Slot(After(config, t, ops).world.policies, k) == Slot(t.world.policies, k)
    decreases |ops|
  {
    if ops != [] {
      UnmanagedSurvivesOp(config, t.world, ops[0], k);
      UnmanagedSurvivesRun(config, Next(config, t, ops[0]), ops[1..], k);
    }
  }

  /** At `k`, others only ever write policies without our label, and we write routes that need a policy. */
  predicate OnlyWritten(config: Config, op: Op, k: Key) {
    OpKey(op) == k ==>
      match op
      case DoDelete(_, _) => false
      case Elsewhere(_, foreign) => ForeignUnmanaged(foreign) && foreign != Removes
      case _ =>
        && ForeignUnmanaged(op.env.policy.foreign) && op.env.policy.foreign != Removes
        && PolicyFor(config, op.route, op.namespace) != Success(None)
  }

  predicate ForeignUnmanaged(foreign: Foreign) {
    foreign.Writes? ==> !IsManaged(foreign.policy)
  }

  lemma WritingLeavesUnmanaged(t: Table<Policy>, k: Key, wanted: Policy, env: PolicyEnv)
    requires Unmanaged(Slot(t, k)) && ForeignUnmanaged(env.foreign) && env.foreign != Removes
    ensures Unmanaged(Slot(ApplyPolicy(t, k, Some(wanted), env).table, k))
  {
  }

  lemma UnmanagedStaysUnmanagedOp(config: Config, w: World, op: Op, k: Key)
    requires Unmanaged(Slot(w.policies, k)) && OnlyWritten(config, op, k)
    ensures Unmanaged(Slot(NextWorld(config, w, op).policies, k))
  {
    if OpKey(op) != k {
      StaysInPlace(config, w, op, k);
    } else if !op.Elsewhere? {
      WriteOutcome(config, w, op);
      if NextWorld(config, w, op) != w {
        WritingLeavesUnmanaged(w.policies, k, PolicyFor(config, op.route, op.namespace).value.value, op.env.policy);
      }
    }
  }

  /**
   Over any run of creations and updates that need a policy, with any faults and with others writing
   even between our reading and our writing: a place that is not ours never becomes ours.
   */
  lemma {:induction false} UnmanagedStaysUnmanaged(config: Config, t: Tracked, ops: seq<Op>, k: Key)
    requires Unmanaged(Slot(t.world.policies, k)) && forall op :: op in ops ==> OnlyWritten(config, op, k)
    ensures Unmanaged(Slot(After(config, t, ops).world.policies, k))
    decreases |ops|
  {
    if ops != [] {
      UnmanagedStaysUnmanagedOp(config, t.world, ops[0], k);
      UnmanagedStaysUnmanaged(config, Next(config, t, ops[0]), ops[1..], k);
    }
  }

  // ----- agreement, with a working policy API

  function Wanted(config: Config, route: Route): Result<Option<Policy>, TimeoutError> {
    ToBackendTrafficPolicy(route, config.idleTimeout)
  }

  predicate KeyInSync(config: Config, t: Tracked, k: Key) {
    var http, policy := t.world.http.items, t.world.policies.items;
    && (k in t.last ==> k in http && http[k].value == ToHTTPRoute(t.last[k], config.gateway) && Wanted(config, t.last[k]).Success?)
    && (k in policy && IsManaged(policy[k].value) ==> k in t.last && Wanted(config, t.last[k]) == Success(Some(policy[k].value)))
    && (k in policy && !IsManaged(policy[k].value) ==> k in t.touched)
    && (k in t.last && k !in t.touched && Wanted(config, t.last[k]) != Success(None) ==> k in policy)
  }

  /** The stores agree with the routes written last, but for what others did. */
  ghost predicate InSync(config: Config, t: Tracked) {
    ValidTable(t.world.policies) && forall k :: KeyInSync(config, t, k)
  }

  /** Nothing about policies fails, but others may remove them or put their own in place, at any time. */
  predicate Answering(env: PolicyEnv) {
    env.client && env.get.None? && env.write.None? && ForeignUnmanaged(env.foreign)
  }

  /** The calls about HTTPRoutes may fail, but do not say falsely that one is not there. */
  predicate Working(op: Op) {
    match op
    case Elsewhere(_, foreign) => ForeignUnmanaged(foreign)
    case _ => Answering(op.env.policy) && op.env.get != Some(NotFound) && op.env.write != Some(NotFound)
  }

  lemma SameSlotsInSync(config: Config, t: Tracked, t': Tracked, k: Key)
    requires KeyInSync(config, t, k)
    requires Slot(t'.world.http, k) == Slot(t.world.http, k) && Slot(t'.world.policies, k) == Slot(t.world.policies, k)
    requires (k in t'.last <==> k in t.last) && (k in t.last ==> t'.last[k] == t.last[k])
    requires k in t.touched ==> k in t'.touched
    ensures KeyInSync(config, t', k)
  {
  }

  /** What is there afterwards: the wanted policy, or one that is not ours, or none because somebody meddled. */
  predicate Settles(t: Table<Policy>, k: Key, wanted: Option<Policy>, foreign: Foreign, after: Option<Policy>) {
    && (after.Some? && IsManaged(after.value) ==> after == wanted)
    && (after.Some? && !IsManaged(after.value) ==> Unmanaged(Slot(t, k)) || foreign != Stays)
    && (foreign == Stays && !Unmanaged(Slot(t, k)) ==> after == wanted)
  }

  lemma AnsweringApply(t: Table<Policy>, k: Key, wanted: Option<Policy>, env: PolicyEnv)
    requires ValidTable(t) && Answering(env) && (wanted.Some? ==> IsManaged(wanted.value))
    ensures Settles(t, k, wanted, env.foreign, ValueAt(ApplyPolicy(t, k, wanted, env).table, k))
  {
  }

  lemma StaysValid(t: Table<Policy>, k: Key, wanted: Option<Policy>, env: PolicyEnv)
    requires ValidTable(t)
    ensures ValidTable(ApplyPolicy(t, k, wanted, env).table) && ValidTable(Interfere(t, k, env.foreign))
  {
  }

  lemma StepStaysValid(config: Config, w: World, op: Op)
    requires ValidTable(w.policies)
    ensures ValidTable(NextWorld(config, w, op).policies)
  {
    match op
    case Elsewhere(k, foreign) => StaysValid(w.policies, k, None, PolicyEnv(true, None, foreign, None));
    case DoDelete(k, env) => StaysValid(w.policies, k, None, env.policy);
    case _ =>
      WriteOutcome(config, w, op);
      if NextWorld(config, w, op) != w {
        StaysValid(w.policies, OpKey(op), PolicyFor(config, op.route, op.namespace).value, op.env.policy);
      }
  }

  /** After both writes, the place agrees with the route. */
  lemma WrittenIsInSync(config: Config, t: Tracked, t': Tracked, k: Key, route: Route, wanted: Option<Policy>, foreign: Foreign)
    requires KeyInSync(config, t, k)
    requires k in t'.world.http.items && t'.world.http.items[k].value == ToHTTPRoute(route, config.gateway)
    requires Wanted(config, route) == Success(wanted)
    requires Settles(t.world.policies, k, wanted, foreign, ValueAt(t'.world.policies, k))
    requires t'.last == t.last[k := route]
    requires t'.touched == if foreign != Stays then t.touched + {k} else t.touched
    ensures KeyInSync(config, t', k)
  {
  }

  lemma PolicyForIsWanted(config: Config, route: Route, namespace: string)
    requires PolicyFor(config, route, namespace).Success?
    ensures var wanted := PolicyFor(config, route, namespace).value;
            Wanted(config, In(route, namespace)) == Success(wanted) && (wanted.Some? ==> IsManaged(wanted.value))
  {
    PolicyCarries(In(route, namespace), config.idleTimeout);
  }

  lemma WriteKeepsInSync(config: Config, t: Tracked, op: Op)
    requires (op.DoCreate? || op.DoUpsert?) && Working(op) && KeyInSync(config, t, OpKey(op)) && ValidTable(t.world.policies)
    ensures KeyInSync(config, Next(config, t, op), OpKey(op))
  {
    var k, w, w' := OpKey(op), t.world, NextWorld(config, t.world, op);
    WriteOutcome(config, w, op);
    if w' != w {
      var wanted := PolicyFor(config, op.route, op.namespace).value;
      PolicyForIsWanted(config, op.route, op.namespace);
      AnsweringApply(w.policies, k, wanted, op.env.policy);
      WrittenIsInSync(config, t, Next(config, t, op), k, In(op.route, op.namespace), wanted, op.env.policy.foreign);
    }
  }

  lemma DeleteKeepsInSync(config: Config, t: Tracked, op: Op)
    requires op.DoDelete? && Working(op) && KeyInSync(config, t, OpKey(op)) && ValidTable(t.world.policies)
    ensures KeyInSync(config, Next(config, t, op), OpKey(op))
  {
    AnsweringApply(t.world.policies, op.key, None, op.env.policy);
  }

  lemma StepKeepsInSync(config: Config, t: Tracked, op: Op)
    requires InSync(config, t) && Working(op)
    ensures InSync(config, Next(config, t, op))
  {
    var t' := Next(config, t, op);
    StepStaysValid(config, t.world, op);
    forall k ensures KeyInSync(config, t', k) {
      assert KeyInSync(config, t, k);
      if k != OpKey(op) {
        StaysInPlace(config, t.world, op, k);
        SameSlotsInSync(config, t, t', k);
      } else if op.DoDelete? {
        DeleteKeepsInSync(config, t, op);
      } else if !op.Elsewhere? {
        WriteKeepsInSync(config, t, op);
      }
    }
  }

  lemma {:induction false} RunKeepsInSync(config: Config, t: Tracked, ops: seq<Op>)
    requires InSync(config, t) && forall op :: op in ops ==> Working(op)
    ensures InSync(config, After(config, t, ops))
    decreases |ops|
  {
    if ops != [] {
      StepKeepsInSync(config, t, ops[0]);
      RunKeepsInSync(config, Next(config, t, ops[0]), ops[1..]);
    }
  }

  /** A cluster to begin with: whatever HTTPRoutes, and policies of others only. */
  ghost predicate OnlyTheirs(w: World) {
    ValidTable(w.policies) && forall x :: x in w.policies.items ==> !IsManaged(w.policies.items[x].value)
  }

  function Begin(w: World): Tracked {
    Tracked(w, map[], w.policies.items.Keys)
  }

  /**
   After any run, with others writing or removing policies even between our reading and our writing:
   a policy of ours is the translation of the last route written under its name, whose HTTPRoute is
   there; and where nobody meddled, it is missing only if none is needed.
   */
  lemma PoliciesFollowRoutes(config: Config, w: World, ops: seq<Op>, k: Key)
    requires OnlyTheirs(w)
    requires forall op :: op in ops ==> Working(op)
    ensures var t := After(config, Begin(w), ops);
            k in t.world.policies.items && IsManaged(t.world.policies.items[k].value) ==>
              && k in t.last && k in t.world.http.items
              && t.world.http.items[k].value == ToHTTPRoute(t.last[k], config.gateway)
              && Success(Some(t.world.policies.items[k].value)) == Wanted(config, t.last[k])
    ensures var t := After(config, Begin(w), ops);
            k in t.last && k !in t.touched ==> Success(ValueAt(t.world.policies, k)) == Wanted(config, t.last[k])
  {
    assert InSync(config, Begin(w));
    RunKeepsInSync(config, Begin(w), ops);
    assert KeyInSync(config, After(config, Begin(w), ops), k);
  }

  lemma SameMetadataNeedsProtocol(route: Route, timeout: string, h: HTTPRoute)
    requires h.meta.annotations == NonNginx(route.metadata.meta.annotations) && WantsGRPC(route)
    ensures RouteFromHTTPRouteWithPolicy(h, None) != Normalised(route, timeout)
  {
    BackendProtocolIsNginx();
    assert BACKEND_PROTOCOL !in h.meta.annotations;
    assert BACKEND_PROTOCOL in KeptAnnotations(route.metadata.meta.annotations);
  }

  /** Without its policy, a route that needs one does not come back in its normal form. */
  lemma PolicyIsNeeded(route: Route, gateway: Gateway, defaultTimeout: string)
    requires ToBackendTrafficPolicy(route, defaultTimeout).Success?
    ensures var timeout := ResolvedTimeout(route, defaultTimeout).value;
            RouteFromHTTPRouteWithPolicy(ToHTTPRoute(route, gateway), None) == Normalised(route, timeout) <==>
              ToBackendTrafficPolicy(route, defaultTimeout) == Success(None)
  {
    var timeout := ResolvedTimeout(route, defaultTimeout).value;
    ReadBackIsNormalised(route, gateway, defaultTimeout);
    PolicyCarries(route, defaultTimeout);
    if WantsGRPC(route) {
      SameMetadataNeedsProtocol(route, timeout, ToHTTPRoute(route, gateway));
    } else if timeout != "" {
      assert RouteFromHTTPRouteWithPolicy(ToHTTPRoute(route, gateway), None).spec.streamIdleTimeout == "";
    }
  }

  /**
   Reading gives the normal form of the route written last, exactly when it needs no policy or its
   policy is there and ours.
   */
  lemma ReadsBackNormalisedIff(config: Config, w: World, ops: seq<Op>, k: Key)
    requires OnlyTheirs(w)
    requires forall op :: op in ops ==> Working(op)
    requires k in After(config, Begin(w), ops).last
    ensures var t := After(config, Begin(w), ops);
            var timeout := ResolvedTimeout(t.last[k], config.idleTimeout);
            timeout.Success? &&
            (ReadRouteAt(t.world, k) == Some(Normalised(t.last[k], timeout.value)) <==>
             Wanted(config, t.last[k]) == Success(None)
             || (k in t.world.policies.items && IsManaged(t.world.policies.items[k].value)))
  {
    var t := After(config, Begin(w), ops);
    assert InSync(config, Begin(w));
    RunKeepsInSync(config, Begin(w), ops);
    assert KeyInSync(config, t, k);
    var route := t.last[k];
    ReadBackIsNormalised(route, config.gateway, config.idleTimeout);
    PolicyIsNeeded(route, config.gateway, config.idleTimeout);
    if Unmanaged(Slot(t.world.policies, k)) {
      UnmanagedIsNotRead(t.world.http.items[k].value, t.world.policies.items[k].value);
    }
  }

  lemma UnmanagedIsNotRead(h: HTTPRoute, policy: Policy)
    requires !IsManaged(policy)
    ensures RouteFromHTTPRouteWithPolicy(h, Some(policy)) == RouteFromHTTPRouteWithPolicy(h, None)
  {
  }

  // ----- healing, from whatever state failures left behind

  /** Nothing about policies fails, and nobody interferes. */
  predicate WorkingPolicyApi(env: PolicyEnv) {
    env.client && env.get.None? && env.write.None? && env.foreign == Stays
  }

  /** With a working API the wanted policy is what is there afterwards, unless the place is not ours. */
  lemma WorkingApply(t: Table<Policy>, k: Key, wanted: Option<Policy>, env: PolicyEnv)
    requires WorkingPolicyApi(env)
    ensures var after := ApplyPolicy(t, k, wanted, env).table;
            ValueAt(after, k) == if Unmanaged(Slot(t, k)) then ValueAt(t, k) else wanted
  {
    if Unmanaged(Slot(t, k)) {
      UnmanagedSurvives(t, k, wanted, env);
    }
  }

  /** A write that reaches a working policy API puts both objects right, unless the place is not ours. */
  lemma WriteHeals(config: Config, w: World, op: Op)
    requires (op.DoCreate? || op.DoUpsert?) && WorkingPolicyApi(op.env.policy)
    requires NextWorld(config, w, op) != w && !Unmanaged(Slot(w.policies, OpKey(op)))
    ensures var w', k, written := NextWorld(config, w, op), OpKey(op), In(op.route, op.namespace);
            && k in w'.http.items && w'.http.items[k].value == ToHTTPRoute(written, config.gateway)
            && Wanted(config, written) == Success(ValueAt(w'.policies, k))
  {
    WriteOutcome(config, w, op);
    PolicyForIsWanted(config, op.route, op.namespace);
    WorkingApply(w.policies, OpKey(op), PolicyFor(config, op.route, op.namespace).value, op.env.policy);
  }

  /** So does a deletion, also one that finds the HTTPRoute gone already; any other error changes nothing. */
  lemma DeletionHeals(w: World, k: Key, env: Env)
    requires WorkingPolicyApi(env.policy) && env.write != Some(NotFound)
    ensures var d := DeleteHTTPRoute(w, k, env);
            if d.error == None || d.error == Some(NotFound)
            then k !in d.world.http.items && (k in d.world.policies.items ==> !IsManaged(d.world.policies.items[k].value))
            else d.world == w
    ensures DeleteHTTPRoute(w, k, env).error == if env.write.Some? then env.write else if k in w.http.items then None else Some(NotFound)
  {
    WorkingApply(w.policies, k, None, env.policy);
  }

  /**
   A deletion that went through, or found no HTTPRoute, reports nothing about the policy.  One of ours
   outlives its HTTPRoute exactly if it was not deleted: because nothing was attempted, or because the
   attempt failed and what others left in its place in the meantime is ours again.
   */
  lemma DeletionLeavesPolicyIff(w: World, k: Key, env: Env)
    requires var e := DeleteHTTPRoute(w, k, env).error; e == None || e == Some(NotFound)
    ensures var after := ValueAt(DeleteHTTPRoute(w, k, env).world.policies, k);
            after.Some? && IsManaged(after.value) <==>
              var before, meanwhile := ValueAt(w.policies, k), ValueAt(Interfere(w.policies, k, env.policy.foreign), k);
              && before.Some? && IsManaged(before.value)
              && (!env.policy.client || env.policy.get.Some?
                  || (env.policy.write.Some? && meanwhile.Some? && IsManaged(meanwhile.value)))
  {
  }

  /** The API refuses the deletion of the policy: its HTTPRoute is gone, it is not, and no error says so. */
  lemma DeletionLeavesAPolicy(h: HTTPRoute) returns (w: World, k: Key, env: Env)
    ensures k in w.http.items && DeleteHTTPRoute(w, k, env).error == None
    ensures var after := DeleteHTTPRoute(w, k, env).world;
            k !in after.http.items && k in after.policies.items && IsManaged(after.policies.items[k].value)
  {
    k := Key("ns", "r");
    var ours := Policy("r", "ns", map[MANAGED_BY := PAAS_MEDIATION], JNull);
    w := World(Table(map[k := Stored(h, 0)], 1), Table(map[k := Stored(ours, 0)], 1), map[]);
    env := Env(None, None, PolicyEnv(true, None, Stays, Some(OtherError)), NoCache, "");
  }

  // ----- answers

  /** Nothing fails, and nobody interferes. */
  predicate Calm(env: Env) {
    WorkingPolicyApi(env.policy) && env.get.None? && env.write.None? && env.cache != Refuses
  }

  predicate Writable(config: Config, route: Route, namespace: string) {
    && PolicyFor(config, route, namespace).Success?
    && (route.metadata.meta.namespace == "" || route.metadata.meta.namespace == namespace)
  }

  /** The server creates no object that carries a resource version. */
  predicate Creatable(route: Route) {
    route.metadata.meta.resourceVersion == "" || route.metadata.meta.resourceVersion == "0"
  }

  /** Nor does it update one under the uid of another. */
  predicate Updatable(route: Route, env: Env) {
    route.metadata.meta.uid == "" || route.metadata.meta.uid == env.uid
  }

  /**
   In calm weather a write fails only for the route's own sake: a creation also if the name is taken, an
   update also if the route carries the uid of another object or, when it has to create, any version.
   */
  lemma CalmWrites(config: Config, w: World, route: Route, namespace: string, env: Env)
    requires Calm(env)
    ensures UpsertHTTPRoute(config, w, route, namespace, env).result.Success? <==>
              && Writable(config, route, namespace)
              && if KeyOf(route, namespace) in w.http.items then Updatable(route, env) else Creatable(route)
    ensures CreateHTTPRoute(config, w, route, namespace, env).result.Success? <==>
              Writable(config, route, namespace) && Creatable(route) && KeyOf(route, namespace) !in w.http.items
  {
    var k, h := KeyOf(route, namespace), ToHTTPRoute(In(route, namespace), config.gateway);
    var wanted := PolicyFor(config, route, namespace);
    if wanted.Success? {
      CalmFinish(w.(http := Write(w.http, k, h)), k, h, wanted.value, env);
    }
  }

  lemma CalmFinish(w: World, k: Key, h: HTTPRoute, wanted: Option<Policy>, env: Env)
    requires Calm(env)
    ensures Finish(w, k, h, wanted, env).result.Success?
  {
  }

  lemma AppliedAnswer(t: Table<Policy>, k: Key, wanted: Option<Policy>, env: PolicyEnv)
    requires WorkingPolicyApi(env) && !Unmanaged(Slot(t, k))
    ensures ApplyPolicy(t, k, wanted, env).result == Success(wanted)
  {
  }

  predicate IsNormalForm(config: Config, route: Route, answer: Route) {
    var timeout := ResolvedTimeout(route, config.idleTimeout);
    timeout.Success? && answer == Normalised(route, timeout.value)
  }

  lemma FinishAnswers(config: Config, w: World, route: Route, namespace: string, env: Env)
    requires PolicyFor(config, route, namespace).Success?
    requires WorkingPolicyApi(env.policy) && !Unmanaged(Slot(w.policies, KeyOf(route, namespace)))
    ensures var k, written := KeyOf(route, namespace), In(route, namespace);
            var o := Finish(w, k, ToHTTPRoute(written, config.gateway), PolicyFor(config, route, namespace).value, env);
            o.result.Success? ==> IsNormalForm(config, written, o.result.value)
  {
    PolicyForIsWanted(config, route, namespace);
    AppliedAnswer(w.policies, KeyOf(route, namespace), PolicyFor(config, route, namespace).value, env.policy);
    ReadBackIsNormalised(In(route, namespace), config.gateway, config.idleTimeout);
  }

  /** The answer to a write is the normal form of the route, which is what a later reading gives. */
  lemma WriteAnswersNormalForm(config: Config, w: World, route: Route, namespace: string, env: Env, create: bool)
    requires WorkingPolicyApi(env.policy) && !Unmanaged(Slot(w.policies, KeyOf(route, namespace)))
    ensures var written := In(route, namespace);
            var o := if create then CreateHTTPRoute(config, w, route, namespace, env) else UpsertHTTPRoute(config, w, route, namespace, env);
            o.result.Success? ==> IsNormalForm(config, written, o.result.value)
  {
    var k, h := KeyOf(route, namespace), ToHTTPRoute(In(route, namespace), config.gateway);
    if PolicyFor(config, route, namespace).Success? {
      FinishAnswers(config, w.(http := Write(w.http, k, h)), route, namespace, env);
    }
  }

  /**
   What is cached is the HTTPRoute written, but for the annotation that reading may have added; a route
   read from it with the same policy is the answer.
   */
  lemma CachedReadsAsAnswered(w: World, k: Key, h: HTTPRoute, wanted: Option<Policy>, env: Env)
    requires env.cache == Accepts && Finish(w, k, h, wanted, env).result.Success?
    ensures var o := Finish(w, k, h, wanted, env);
            k in o.world.cache && o.world.cache[k].(meta := h.meta) == h
            && RouteFromHTTPRouteWithPolicy(o.world.cache[k], ApplyPolicy(w.policies, k, wanted, env.policy).result.value) == o.result.value
  {
    ReadingTwice(h, ApplyPolicy(w.policies, k, wanted, env.policy).result.value);
  }
}
