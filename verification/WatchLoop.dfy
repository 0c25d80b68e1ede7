/**
 The reconnecting watch loop.  What the API server and the environment do is given as two
 scripts: what each `select` observes while running and what each reconnect attempt returns.
 The loop is stopped where a script ends: it is then still waiting for the next observation.
 */
module WatchLoops {
  import opened WatchTypes

  /** The object of a server event: of the watched type, or anything else with or without a version. */
  datatype Raw = Typed(obj: Resource) | Versioned(version: string) | Untyped

  datatype Observed =
    | Cancelled
    | ServerClosed
    | Received(typ: EventType, raw: Raw)

  datatype Reconnect = Opened | SameChannel | Failed(msg: string)

  datatype Sent = SentObject(typ: EventType, obj: Resource) | SentError(msg: string)

  /** The loop's states; `Panicked` stands for the failed type assertion on a bookmark. */
  datatype LoopState = Connect | Running | ServerSideClosure | ServerSideError | ClientSideCancel | Panicked

  /** `ok` */
  predicate Ok(s: LoopState) {
    s == Connect || s == Running
  }

  /** How one watch is set up: the filter's bookmark flag and the converter. */
  datatype Setup = Setup(watchBookmark: bool, convert: Resource -> Resource)

  // ----- what is to be sent and requested, read off the script

  predicate IsError(o: Observed) {
    o.Received? && o.typ == ERROR_TYPE
  }

  predicate IsBookmark(o: Observed) {
    o.Received? && o.typ == Bookmark
  }

  predicate IsChange(o: Observed) {
    o.Received? && o.typ != ERROR_TYPE && o.typ != Bookmark
  }

  /** Observations after which the loop never turns again. */
  predicate Final(o: Observed, watchBookmark: bool) {
    || o.Cancelled?
    || (IsChange(o) && !o.raw.Typed?)
    || (IsBookmark(o) && o.raw.Versioned? && watchBookmark)
  }

  /** Observations after which the loop reconnects. */
  predicate Reconnects(o: Observed) {
    o.ServerClosed? || IsError(o)
  }

  function Emit(o: Observed, setup: Setup): seq<Sent> {
    if o.Received? && o.raw.Typed? && (IsChange(o) || (IsBookmark(o) && setup.watchBookmark)) then
      [SentObject(o.typ, setup.convert(o.raw.obj))]
    else []
  }

  /** The converted events among the first `n` observations, in the server's order. */
  function Emitted(os: seq<Observed>, n: nat, setup: Setup): seq<Sent>
    requires n <= |os|
  {
    if n == 0 then [] else Emitted(os, n - 1, setup) + Emit(os[n - 1], setup)
  }

  /** The version a bookmark carries; none if its object has no version to read. */
  function VersionIn(raw: Raw): string {
    match raw
    case Typed(obj) => obj.version
    case Versioned(v) => v
    case Untyped => ""
  }

  /**
   Looking back from the `n`-th observation: the version of the last bookmark, unless an error or
   an unsupported bookmark came after it.
   */
  function LastBookmark(os: seq<Observed>, n: nat): string
    requires n <= |os|
  {
    if n == 0 then ""
    else if IsError(os[n - 1]) then ""
    else if IsBookmark(os[n - 1]) then VersionIn(os[n - 1].raw)
    else LastBookmark(os, n - 1)
  }

  /** The versions that the reconnects among the first `n` observations ask for. */
  function Requested(os: seq<Observed>, n: nat): seq<string>
    requires n <= |os|
  {
    if n == 0 then []
    else Requested(os, n - 1) + if Reconnects(os[n - 1]) then [LastBookmark(os, n)] else []
  }

  /** The version at hand is that of the last bookmark since the last error or unsupported bookmark, if any. */
  lemma {:induction false} LastBookmarkIs(os: seq<Observed>, k: nat, n: nat)
    requires k < n <= |os| && os[k].Received?
    requires forall j :: k < j < n && os[j].Received? ==> os[j].typ != ERROR_TYPE && os[j].typ != Bookmark
    ensures os[k].typ == ERROR_TYPE ==> LastBookmark(os, n) == ""
    ensures os[k].typ == Bookmark && os[k].raw.Typed? ==> LastBookmark(os, n) == os[k].raw.obj.version
    ensures os[k].typ == Bookmark && os[k].raw.Versioned? ==> LastBookmark(os, n) == os[k].raw.version
    ensures os[k].typ == Bookmark && os[k].raw.Untyped? ==> LastBookmark(os, n) == ""
    decreases n
  {
    if k + 1 < n {
      LastBookmarkIs(os, k, n - 1);
    }
  }

  lemma {:induction false} NoBookmarkYet(os: seq<Observed>, n: nat)
    requires n <= |os| && forall j :: 0 <= j < n && os[j].Received? ==> os[j].typ != ERROR_TYPE && os[j].typ != Bookmark
    ensures LastBookmark(os, n) == ""
  {
    if n > 0 {
      NoBookmarkYet(os, n - 1);
    }
  }

  /** Which reconnect an observation leads to, counted from 0. */
  function ReconnectsBefore(os: seq<Observed>, n: nat): nat
    requires n <= |os|
  {
    if n == 0 then 0 else ReconnectsBefore(os, n - 1) + if Reconnects(os[n - 1]) then 1 else 0
  }

  /** Every closed server channel and every error leads to one request, for the version at hand then. */
  lemma {:induction false} RequestAt(os: seq<Observed>, k: nat, n: nat)
    requires k < n <= |os| && (os[k].ServerClosed? || (os[k].Received? && os[k].typ == ERROR_TYPE))
    ensures |Requested(os, n)| == ReconnectsBefore(os, n) > ReconnectsBefore(os, k)
    ensures Requested(os, n)[ReconnectsBefore(os, k)] == if os[k].ServerClosed? then LastBookmark(os, k) else ""
    decreases n
  {
    RequestsCounted(os, n - 1);
    if k < n - 1 {
      RequestAt(os, k, n - 1);
    }
  }

  lemma {:induction false} RequestsCounted(os: seq<Observed>, n: nat)
    requires n <= |os|
    ensures |Requested(os, n)| == ReconnectsBefore(os, n)
  {
    if n > 0 {
      RequestsCounted(os, n - 1);
    }
  }

  // ----- what is sent, in terms of the observations alone

  /**
   An observation that the client is to see: an event of the watched type, other than an error, and a
   bookmark only on request.
   */
  predicate IsForClient(o: Observed, watchBookmark: bool) {
    o.Received? && o.raw.Typed? && o.typ != ERROR_TYPE && (o.typ == Bookmark ==> watchBookmark)
  }

  /** Each of the first `n` observations for the client stands at its place `p`, in their order, converted. */
  predicate PlacedAt(os: seq<Observed>, n: nat, setup: Setup, sent: seq<Sent>, p: seq<nat>) {
    && n <= |os| && |p| == n
    && (forall k :: 0 <= k < n && IsForClient(os[k], setup.watchBookmark) ==>
          p[k] < |sent| && sent[p[k]] == SentObject(os[k].typ, setup.convert(os[k].raw.obj)))
    && (forall j, k :: 0 <= j < k < n && IsForClient(os[j], setup.watchBookmark) && IsForClient(os[k], setup.watchBookmark) ==>
          p[j] < p[k])
  }

  /** The entry at `x` comes from one of them. */
  predicate ComesFrom(os: seq<Observed>, n: nat, setup: Setup, p: seq<nat>, x: nat)
    requires n <= |os| && |p| == n
  {
    exists k :: 0 <= k < n && IsForClient(os[k], setup.watchBookmark) && p[k] == x
  }

  lemma PlaceOneMore(os: seq<Observed>, n: nat, setup: Setup, sent: seq<Sent>, p: seq<nat>)
    requires n < |os| && PlacedAt(os, n, setup, sent, p)
    requires forall k :: 0 <= k < n && IsForClient(os[k], setup.watchBookmark) ==> p[k] < |sent|
    ensures PlacedAt(os, n + 1, setup, sent + Emit(os[n], setup), p + [|sent|])
  {
  }

  lemma ComesFromStill(os: seq<Observed>, n: nat, setup: Setup, p: seq<nat>, q: nat, x: nat)
    requires n < |os| && |p| == n && ComesFrom(os, n, setup, p, x)
    ensures ComesFrom(os, n + 1, setup, p + [q], x)
  {
    var k :| 0 <= k < n && IsForClient(os[k], setup.watchBookmark) && p[k] == x;
    assert (p + [q])[k] == x;
  }

  /** What is emitted is the observations for the client, each once, in order, and nothing else. */
  lemma {:induction false} EmittedPlaces(os: seq<Observed>, n: nat, setup: Setup) returns (p: seq<nat>)
    requires n <= |os|
    ensures PlacedAt(os, n, setup, Emitted(os, n, setup), p)
    ensures forall x: nat :: x < |Emitted(os, n, setup)| ==> ComesFrom(os, n, setup, p, x)
  {
    if n == 0 {
      p := [];
    } else {
      var before := EmittedPlaces(os, n - 1, setup);
      var sent := Emitted(os, n - 1, setup);
      p := before + [|sent|];
      PlaceOneMore(os, n - 1, setup, sent, before);
      forall x: nat | x < |Emitted(os, n, setup)| ensures ComesFrom(os, n, setup, p, x) {
        if x < |sent| {
          ComesFromStill(os, n - 1, setup, before, |sent|, x);
        } else {
          assert p[n - 1] == x && IsForClient(os[n - 1], setup.watchBookmark);
        }
      }
    }
  }

  /** What an observation emits stands right behind what the earlier ones emitted: nothing is lost or reordered. */
  lemma {:induction false} EmittedInOrder(os: seq<Observed>, setup: Setup, k: nat, n: nat)
    requires k < n <= |os|
    ensures Emitted(os, k, setup) + Emit(os[k], setup) <= Emitted(os, n, setup)
    decreases n
  {
    if k < n - 1 {
      EmittedInOrder(os, setup, k, n - 1);
    }
  }

  /** A client that did not ask for bookmarks gets none, and ERROR is never forwarded from the server. */
  lemma {:induction false} EmittedTypes(os: seq<Observed>, setup: Setup, n: nat, i: nat)
    requires n <= |os| && i < |Emitted(os, n, setup)|
    ensures var s := Emitted(os, n, setup)[i];
            s.SentObject? && s.typ != ERROR_TYPE && (s.typ == Bookmark ==> setup.watchBookmark)
  {
    if i < |Emitted(os, n - 1, setup)| {
      EmittedTypes(os, setup, n - 1, i);
    }
  }

  predicate LastFailed(connects: seq<Reconnect>, reconnects: nat) {
    0 < reconnects <= |connects| && connects[reconnects - 1].Failed?
  }

  predicate LastGaveUp(connects: seq<Reconnect>, reconnects: nat) {
    0 < reconnects <= |connects| && !connects[reconnects - 1].Opened?
  }

  /** The `select` of a running loop: what one observation sends, remembers and leads to. */
  method OnSelect(setup: Setup, o: Observed, bookmark: string)
    returns (sent: seq<Sent>, bookmark': string, state: LoopState)
    ensures sent == Emit(o, setup)
    ensures bookmark' == if IsError(o) then "" else if IsBookmark(o) then VersionIn(o.raw) else bookmark
    ensures Final(o, setup.watchBookmark) <==> !Ok(state)
    ensures Reconnects(o) <==> state == Connect
    ensures sent == if IsForClient(o, setup.watchBookmark) then [SentObject(o.typ, setup.convert(o.raw.obj))] else []
    ensures o.Cancelled? <==> state == ClientSideCancel
    ensures o.ServerClosed? || (o.Received? && o.typ == ERROR_TYPE) <==> state == Connect
    ensures o.Received? && o.typ != ERROR_TYPE && o.typ != Bookmark && !o.raw.Typed? <==> state == ServerSideClosure
    ensures o.Received? && o.typ == Bookmark && o.raw.Versioned? && setup.watchBookmark <==> state == Panicked
    ensures state != ServerSideError
  {
    sent, bookmark', state := [], bookmark, Running;
    match o
    case Cancelled =>
      state := ClientSideCancel;
    case ServerClosed =>
      state := Connect;
    case Received(typ, raw) =>
      if typ == ERROR_TYPE {
        bookmark' := "";
        state := Connect;
      } else if typ == Bookmark {
        match raw
        case Typed(obj) =>
          bookmark' := obj.version;
          if setup.watchBookmark {
            sent := [SentObject(typ, setup.convert(obj))];
          }
        case Versioned(v) =>
          bookmark' := v;
          if setup.watchBookmark {
            state := Panicked;
          }
        case Untyped =>
          bookmark' := "";
      } else {
        match raw
        case Typed(obj) => sent := [SentObject(typ, setup.convert(obj))];
        case _ => state := ServerSideClosure;
      }
  }

  /** A reconnect: a failure is told to the client, and only a fresh channel lets the loop go on. */
  method OnReconnect(answer: Reconnect) returns (sent: seq<Sent>, state: LoopState)
    ensures sent == if answer.Failed? then [SentError(answer.msg)] else []
    ensures state == if answer.Opened? then Running else ServerSideError
  {
    sent, state := [], ServerSideError;
    match answer
    case Failed(msg) => sent := [SentError(msg)];
    case SameChannel =>
    case Opened => state := Running;
  }

  /** The single ERROR event of a failed reconnect. */
  function ErrorTail(connects: seq<Reconnect>, reconnects: nat): seq<Sent> {
    if LastFailed(connects, reconnects) then [SentError(connects[reconnects - 1].msg)] else []
  }

  /** The bookmark at hand, and what was asked for; in state `Connect` one request is still to be made. */
  predicate Asked(os: seq<Observed>, n: nat, bookmark: string, state: LoopState, asked: seq<string>)
    requires n <= |os|
  {
    bookmark == LastBookmark(os, n) && Requested(os, n) == if state == Connect then asked + [bookmark] else asked
  }

  lemma SelectAsks(os: seq<Observed>, n: nat, bookmark: string, asked: seq<string>, bookmark': string, state: LoopState)
    requires n < |os| && Asked(os, n, bookmark, Running, asked)
    requires bookmark' == if IsError(os[n]) then "" else if IsBookmark(os[n]) then VersionIn(os[n].raw) else bookmark
    requires Reconnects(os[n]) <==> state == Connect
    ensures Asked(os, n + 1, bookmark', state, asked)
  {
    assert LastBookmark(os, n + 1) == bookmark';
  }

  lemma ReconnectAsks(os: seq<Observed>, n: nat, bookmark: string, asked: seq<string>, state: LoopState)
    requires n <= |os| && Asked(os, n, bookmark, Connect, asked) && state != Connect
    ensures Asked(os, n, bookmark, state, asked + [bookmark])
  {
  }

  lemma SelectEmits(os: seq<Observed>, n: nat, setup: Setup)
    requires n < |os|
    ensures Emitted(os, n + 1, setup) == Emitted(os, n, setup) + Emit(os[n], setup)
  {
  }

  /** Why a loop has stopped: the last reconnect gave up, or the last observation was a final one. */
  predicate Stopped(selects: seq<Observed>, connects: seq<Reconnect>, setup: Setup, taken: nat, reconnects: nat) {
    || LastGaveUp(connects, reconnects)
    || (0 < taken <= |selects| && Final(selects[taken - 1], setup.watchBookmark))
  }

  /** The variables of the loop. */
  datatype Vars = Vars(
    sent: seq<Sent>, bookmark: string, requests: seq<string>, taken: nat, reconnects: nat, state: LoopState)

  predicate InScript(v: Vars, selects: seq<Observed>, connects: seq<Reconnect>) {
    v.taken <= |selects| && v.reconnects <= |connects|
  }

  /** The requests made so far, without the first. */
  predicate RequestsOk(v: Vars, selects: seq<Observed>, connects: seq<Reconnect>)
    requires InScript(v, selects, connects)
  {
    && |v.requests| == v.reconnects + 1 && v.requests[0] == ""
    && Asked(selects, v.taken, v.bookmark, v.state, v.requests[1..])
  }

  predicate StreamOk(v: Vars, setup: Setup, selects: seq<Observed>, connects: seq<Reconnect>)
    requires InScript(v, selects, connects)
  {
    v.sent == Emitted(selects, v.taken, setup) + if Ok(v.state) then [] else ErrorTail(connects, v.reconnects)
  }

  predicate StopOk(v: Vars, setup: Setup, selects: seq<Observed>, connects: seq<Reconnect>)
    requires InScript(v, selects, connects)
  {
    && (!Ok(v.state) <==> Stopped(selects, connects, setup, v.taken, v.reconnects))
    && (forall k :: 0 <= k < v.taken - 1 ==> !Final(selects[k], setup.watchBookmark))
    && (forall k :: 0 <= k < v.reconnects - 1 ==> connects[k].Opened?)
  }

  predicate LoopInv(v: Vars, setup: Setup, selects: seq<Observed>, connects: seq<Reconnect>) {
    InScript(v, selects, connects) && RequestsOk(v, selects, connects)
    && StreamOk(v, setup, selects, connects) && StopOk(v, setup, selects, connects)
  }

  /** What a turn with `select` makes of the variables. */
  predicate SelectTurn(v: Vars, v': Vars, o: Observed, setup: Setup) {
    && v' == v.(sent := v.sent + Emit(o, setup), bookmark := v'.bookmark, taken := v.taken + 1, state := v'.state)
    && v'.bookmark == (if IsError(o) then "" else if IsBookmark(o) then VersionIn(o.raw) else v.bookmark)
    && (Final(o, setup.watchBookmark) <==> !Ok(v'.state))
    && (Reconnects(o) <==> v'.state == Connect)
  }

  lemma SelectKeepsInv(v: Vars, v': Vars, setup: Setup, selects: seq<Observed>, connects: seq<Reconnect>)
    requires LoopInv(v, setup, selects, connects) && v.state == Running && v.taken < |selects|
    requires SelectTurn(v, v', selects[v.taken], setup)
    ensures LoopInv(v', setup, selects, connects)
  {
    SelectAsks(selects, v.taken, v.bookmark, v.requests[1..], v'.bookmark, v'.state);
    SelectKeepsStream(v, v', setup, selects, connects);
    SelectKeepsStop(v, v', setup, selects, connects);
  }

  lemma SelectKeepsStop(v: Vars, v': Vars, setup: Setup, selects: seq<Observed>, connects: seq<Reconnect>)
    requires InScript(v, selects, connects) && StopOk(v, setup, selects, connects) && v.state == Running && v.taken < |selects|
    requires SelectTurn(v, v', selects[v.taken], setup)
    ensures StopOk(v', setup, selects, connects) && !LastGaveUp(connects, v.reconnects)
  {
  }

  lemma SelectKeepsStream(v: Vars, v': Vars, setup: Setup, selects: seq<Observed>, connects: seq<Reconnect>)
    requires InScript(v, selects, connects) && StreamOk(v, setup, selects, connects) && StopOk(v, setup, selects, connects)
    requires v.state == Running && v.taken < |selects| && SelectTurn(v, v', selects[v.taken], setup)
    ensures StreamOk(v', setup, selects, connects)
  {
    SelectEmits(selects, v.taken, setup);
    assert ErrorTail(connects, v.reconnects) == [];
  }

  /** What a turn with a reconnect makes of them. */
  predicate ReconnectTurn(v: Vars, v': Vars, answer: Reconnect) {
    && v' == v.(sent := v.sent + (if answer.Failed? then [SentError(answer.msg)] else []),
                requests := v.requests + [v.bookmark], reconnects := v.reconnects + 1, state := v'.state)
    && v'.state == if answer.Opened? then Running else ServerSideError
  }

  lemma ReconnectKeepsInv(v: Vars, v': Vars, setup: Setup, selects: seq<Observed>, connects: seq<Reconnect>)
    requires LoopInv(v, setup, selects, connects) && v.state == Connect && v.reconnects < |connects|
    requires ReconnectTurn(v, v', connects[v.reconnects])
    ensures LoopInv(v', setup, selects, connects)
  {
    assert v'.requests[1..] == v.requests[1..] + [v.bookmark];
    ReconnectAsks(selects, v.taken, v.bookmark, v.requests[1..], v'.state);
    assert v'.sent == Emitted(selects, v.taken, setup) + if Ok(v'.state) then [] else ErrorTail(connects, v'.reconnects);
  }

  lemma LoopBegins(setup: Setup, selects: seq<Observed>, connects: seq<Reconnect>)
    ensures LoopInv(Vars([], "", [""], 0, 0, Running), setup, selects, connects)
  {
    assert [""][1..] == [];
  }

  /** The invariant, in terms of the scripts alone. */
  lemma LoopEnds(v: Vars, setup: Setup, selects: seq<Observed>, connects: seq<Reconnect>)
    requires LoopInv(v, setup, selects, connects)
    ensures v.sent == Emitted(selects, v.taken, setup) + ErrorTail(connects, v.reconnects)
    ensures |Requested(selects, v.taken)| == if v.state == Connect then v.reconnects + 1 else v.reconnects
    ensures v.requests == [""] + Requested(selects, v.taken)[..v.reconnects]
  {
    var asked := v.requests[1..];
    assert Requested(selects, v.taken)[..v.reconnects] == asked;
    assert v.requests == [""] + asked;
    assert Ok(v.state) ==> ErrorTail(connects, v.reconnects) == [];
  }

  /** The last entry is the error of the last reconnect. */
  predicate EndsWithError(sent: seq<Sent>, connects: seq<Reconnect>, reconnects: nat) {
    && 0 < reconnects <= |connects| && connects[reconnects - 1].Failed?
    && sent != [] && sent[|sent| - 1] == SentError(connects[reconnects - 1].msg)
  }

  /** The channel carries the observations for the client, and the error of a failed reconnect at the end. */
  predicate CarriesExactly(sent: seq<Sent>, setup: Setup, selects: seq<Observed>, taken: nat, connects: seq<Reconnect>, reconnects: nat, p: seq<nat>) {
    && PlacedAt(selects, taken, setup, sent, p)
    && (forall x: nat :: x < |sent| ==>
          ComesFrom(selects, taken, setup, p, x) || (x == |sent| - 1 && EndsWithError(sent, connects, reconnects)))
    && (0 < reconnects <= |connects| && connects[reconnects - 1].Failed? ==> EndsWithError(sent, connects, reconnects))
  }

  lemma PlacesOfAll(v: Vars, setup: Setup, selects: seq<Observed>, connects: seq<Reconnect>) returns (p: seq<nat>)
    requires LoopInv(v, setup, selects, connects)
    ensures CarriesExactly(v.sent, setup, selects, v.taken, connects, v.reconnects, p)
  {
    LoopEnds(v, setup, selects, connects);
    p := EmittedPlaces(selects, v.taken, setup);
    var emitted, tail := Emitted(selects, v.taken, setup), ErrorTail(connects, v.reconnects);
    assert v.sent == emitted + tail;
    forall x: nat | x < |v.sent|
      ensures ComesFrom(selects, v.taken, setup, p, x) || (x == |v.sent| - 1 && EndsWithError(v.sent, connects, v.reconnects))
    {
      if x < |emitted| {
        assert ComesFrom(selects, v.taken, setup, p, x);
      }
    }
  }

  /**
   The goroutine of `Watch`, entered once the first request (for no version) has been granted.
   It reports what was sent on the client channel, how often that channel was closed, the
   versions requested, and how much of the scripts was used.
   */
  method Loop(setup: Setup, selects: seq<Observed>, connects: seq<Reconnect>)
    returns (sent: seq<Sent>, closes: nat, requests: seq<string>, taken: nat, reconnects: nat, state: LoopState, ghost p: seq<nat>)
    ensures taken <= |selects| && reconnects <= |connects|
    ensures sent == Emitted(selects, taken, setup) + ErrorTail(connects, reconnects)
    ensures |Requested(selects, taken)| == if state == Connect then reconnects + 1 else reconnects
    ensures requests == [""] + Requested(selects, taken)[..reconnects]
    ensures CarriesExactly(sent, setup, selects, taken, connects, reconnects, p)
    ensures closes == if state == Running || state == Connect then 0 else 1
    ensures !Ok(state) <==> Stopped(selects, connects, setup, taken, reconnects)
    ensures forall k :: 0 <= k < taken - 1 ==> !Final(selects[k], setup.watchBookmark)
    ensures forall k :: 0 <= k < reconnects - 1 ==> connects[k].Opened?
    ensures state == Running ==> taken == |selects|
    ensures state == Connect ==> reconnects == |connects|
  {
    var bookmark := "";
    state, sent, closes, requests, taken, reconnects := Running, [], 0, [""], 0, 0;
    LoopBegins(setup, selects, connects);
    while (state == Running && taken < |selects|) || (state == Connect && reconnects < |connects|)
      invariant LoopInv(Vars(sent, bookmark, requests, taken, reconnects, state), setup, selects, connects)
      decreases |selects| - taken + |connects| - reconnects
    {
      ghost var v := Vars(sent, bookmark, requests, taken, reconnects, state);
      var more;
      if state == Connect {
        requests := requests + [bookmark];
        more, state := OnReconnect(connects[reconnects]);
        sent, reconnects := sent + more, reconnects + 1;
        ReconnectKeepsInv(v, Vars(sent, bookmark, requests, taken, reconnects, state), setup, selects, connects);
      } else {
        more, bookmark, state := OnSelect(setup, selects[taken], bookmark);
        sent, taken := sent + more, taken + 1;
        SelectKeepsInv(v, Vars(sent, bookmark, requests, taken, reconnects, state), setup, selects, connects);
      }
    }
    LoopEnds(Vars(sent, bookmark, requests, taken, reconnects, state), setup, selects, connects);
    p := PlacesOfAll(Vars(sent, bookmark, requests, taken, reconnects, state), setup, selects, connects);
    if !Ok(state) {
      closes := closes + 1;
    }
  }
}
