/** Collecting one component signature per target, one request per (client, key) pair. */
module Gathering {
  import opened Basics
  import opened Requests
  import opened Exchange

  datatype Target = Target(
    index: int,
    account: string,
    publicKey: string,
    keyType: string,
    componentKey: string,
    runtimeArgs: seq<string>,
    resources: Option<Resources>,
    appCallInfo: Pairs)

  datatype Route = Route(client: Client, key: string)

  type Routing = Target -> Option<Route>

  /** A signature and the request that produced it. */
  datatype Sourced = Sourced(signature: string, requestId: string)

  ghost predicate DistinctTargets(targets: seq<Target>) {
    forall i, j :: 0 <= i < j < |targets| ==> targets[i].index != targets[j].index
  }

  // ---- Grouping by route ---------------------------------------------------

  function Routed(targets: seq<Target>, routing: Routing, route: Route): seq<int> {
    if targets == [] then []
    else
      var last := targets[|targets| - 1];
      Routed(targets[..|targets| - 1], routing, route) + (if routing(last) == Some(route) then [last.index] else [])
  }

  lemma {:induction false} RoutedExactly(targets: seq<Target>, routing: Routing, route: Route)
    requires DistinctTargets(targets)
    ensures Distinct(Routed(targets, routing, route))
    ensures forall t :: t in targets && routing(t) == Some(route) ==> t.index in Routed(targets, routing, route)
    ensures forall i :: i in Routed(targets, routing, route) ==>
      exists t :: t in targets && t.index == i && routing(t) == Some(route)
  {
    if targets != [] {
      var front, last := targets[..|targets| - 1], targets[|targets| - 1];
      RoutedExactly(front, routing, route);
      assert forall t :: t in targets <==> t in front || t == last;
      assert forall t :: t in front ==> t.index != last.index;
      assert last.index !in Routed(front, routing, route);
    }
  }

  method GroupByRoute(targets: seq<Target>, routing: Routing) returns (r: Option<map<Route, seq<int>>>)
    ensures r.Some? <==> forall t :: t in targets ==> routing(t).Some?
    ensures r.Some? ==> forall t :: t in targets ==> routing(t).value in r.value
    ensures r.Some? ==> forall g :: g in r.value ==> r.value[g] == Routed(targets, routing, g) && r.value[g] != []
  {
    var groups: map<Route, seq<int>> := map[];
    for i := 0 to |targets|
      invariant forall k :: 0 <= k < i ==> routing(targets[k]).Some? && routing(targets[k]).value in groups
      invariant forall g :: g in groups ==> groups[g] == Routed(targets[..i], routing, g) && groups[g] != []
      invariant forall g :: g !in groups ==> Routed(targets[..i], routing, g) == []
    {
      var resolved := routing(targets[i]);
      if resolved.None? {
        return None;
      }
      var route := resolved.value;
      var already := if route in groups then groups[route] else [];
      assert targets[..i + 1][..i] == targets[..i];
      groups := groups[route := already + [targets[i].index]];
    }
    assert targets[..|targets|] == targets;
    return Some(groups);
  }

  // ---- Reading signatures out of a reply -----------------------------------

  function SignaturesOf(cs: seq<Component>, id: string): map<int, Sourced> {
    if cs == [] then map[]
    else SignaturesOf(cs[..|cs| - 1], id)[cs[|cs| - 1].index := Sourced(cs[|cs| - 1].signature, id)]
  }

  lemma {:induction false} SignaturesExactly(cs: seq<Component>, id: string)
    requires DistinctComponents(cs)
    ensures SignaturesOf(cs, id).Keys == Kinds(KindedComponents(cs)).Keys
    ensures forall i :: 0 <= i < |cs| ==>
      cs[i].index in SignaturesOf(cs, id) && SignaturesOf(cs, id)[cs[i].index] == Sourced(cs[i].signature, id)
  {
    if cs != [] {
      var front := cs[..|cs| - 1];
      SignaturesExactly(front, id);
      assert KindedComponents(cs)[..|cs| - 1] == KindedComponents(front);
    }
  }

  function KeyOf(t: ComponentTarget): string {
    if t.kind == User then t.authAddress else t.componentKey
  }

  function RouteOf(e: Event): Route
    requires e.Components? && e.request.targets != []
  {
    Route(e.to, KeyOf(e.request.targets[0]))
  }

  /** The reply in `e` is accepted and answers a request that listed `index` under `route`. */
  ghost predicate Provides(e: Event, kind: ComponentKind, route: Route, index: int, s: Sourced) {
    && e.Components?
    && e.components.Answer?
    && Accepted(e.request, e.components.body)
    && e.to == route.client
    && s.requestId == e.request.requestId
    && Lists(e.request, kind, route.key, index)
    && exists c :: c in e.components.body.components && c.index == index && c.kind == kind && c.signature == s.signature
  }

  ghost predicate Lists(request: ComponentRequest, kind: ComponentKind, key: string, index: int) {
    exists t :: t in request.targets && t.index == index && t.kind == kind && KeyOf(t) == key
  }

  ghost predicate Sources(log: seq<Event>, kind: ComponentKind, route: Route, index: int, s: Sourced) {
    exists k :: 0 <= k < |log| && Provides(log[k], kind, route, index, s)
  }

  lemma SourcesExtend(log: seq<Event>, more: seq<Event>, kind: ComponentKind, route: Route, index: int, s: Sourced)
    requires Sources(log, kind, route, index, s)
    ensures Sources(log + more, kind, route, index, s)
  {
    var k :| 0 <= k < |log| && Provides(log[k], kind, route, index, s);
    assert (log + more)[k] == log[k];
  }

  /** The kinds asked for are exactly `kind` at each of `indices`. */
  lemma AskedKinds(targets: seq<ComponentTarget>, indices: seq<int>, kind: ComponentKind)
    requires Distinct(indices) && |targets| == |indices|
    requires forall k :: 0 <= k < |targets| ==> targets[k].index == indices[k] && targets[k].kind == kind
    ensures forall i :: i in Kinds(KindedTargets(targets)) <==> i in indices
    ensures forall i :: i in indices ==> Kinds(KindedTargets(targets))[i] == kind
  {
    var wanted := KindedTargets(targets);
    KindsOf(wanted);
    forall i | i in Kinds(wanted) ensures i in indices {
      var k :| 0 <= k < |wanted| && wanted[k] == Kinded(i, Kinds(wanted)[i]);
      assert indices[k] == i;
    }
    forall i | i in indices ensures i in Kinds(wanted) && Kinds(wanted)[i] == kind {
      var k :| 0 <= k < |indices| && indices[k] == i;
      assert wanted[k] == Kinded(i, kind);
    }
  }

  /** A component of each promised kind is present, with its signature recorded. */
  lemma ComponentFor(cs: seq<Component>, id: string, i: int)
    requires DistinctComponents(cs) && i in Kinds(KindedComponents(cs))
    ensures i in SignaturesOf(cs, id)
    ensures exists c ::
      c in cs && c.index == i && c.kind == Kinds(KindedComponents(cs))[i] && c.signature == SignaturesOf(cs, id)[i].signature
  {
    var given := KindedComponents(cs);
    SignaturesExactly(cs, id);
    KindsOf(given);
    var j :| 0 <= j < |given| && given[j] == Kinded(i, Kinds(given)[i]);
    assert cs[j] in cs && cs[j].index == i && cs[j].kind == Kinds(given)[i];
  }

  /** An accepted reply to a request for `indices` supplies exactly those positions. */
  lemma ReplySupplies(
    e: Event, group: seq<string>, indices: seq<int>, dummies: seq<int>,
    kind: ComponentKind, route: Route, info: map<int, Pairs>)
    requires e.Components? && e.components.Answer? && Accepted(e.request, e.components.body)
    requires kind == User || kind == Cosigner
    requires e.to == route.client && Distinct(indices)
    requires e.request ==
      ComponentRequestFor(group, indices, dummies, kind, route.key, info).(requestId := e.request.requestId)
    ensures
      var sigs := SignaturesOf(e.components.body.components, e.components.body.requestId);
      && (forall i :: i in sigs <==> i in indices)
      && forall i :: i in indices ==> Provides(e, kind, route, i, sigs[i])
  {
    var cs, id := e.components.body.components, e.components.body.requestId;
    assert forall k :: 0 <= k < |indices| ==> e.request.targets[k] == TargetFor(indices[k], kind, route.key, info);
    AskedKinds(e.request.targets, indices, kind);
    SignaturesExactly(cs, id);
    assert forall i :: i in SignaturesOf(cs, id).Keys <==> i in Kinds(KindedComponents(cs)).Keys;
    forall i | i in indices ensures Provides(e, kind, route, i, SignaturesOf(cs, id)[i]) {
      ComponentFor(cs, id, i);
      ListsIndex(e.request, indices, kind, route.key, info, i);
      SignatureSource(cs, id, i);
    }
  }

  lemma ListsIndex(request: ComponentRequest, indices: seq<int>, kind: ComponentKind, key: string, info: map<int, Pairs>, i: int)
    requires |request.targets| == |indices| && i in indices
    requires kind == User || kind == Cosigner
    requires forall k :: 0 <= k < |indices| ==> request.targets[k] == TargetFor(indices[k], kind, key, info)
    ensures Lists(request, kind, key, i)
  {
    var k :| 0 <= k < |indices| && indices[k] == i;
    assert request.targets[k] in request.targets;
  }

  lemma {:induction false} SignatureSource(cs: seq<Component>, id: string, i: int)
    requires i in SignaturesOf(cs, id)
    ensures SignaturesOf(cs, id)[i].requestId == id
  {
    if i != cs[|cs| - 1].index {
      SignatureSource(cs[..|cs| - 1], id, i);
    }
  }

  // ---- The gathering loop --------------------------------------------------

  /** Everything from `originals` on is a dummy. The request shows the approver, for each target and each contextual position, what `info` lists for it. */
  ghost predicate Shows(r: ComponentRequest, originals: int, info: map<int, Pairs>) {
    && |r.group| - |r.dummies| == originals
    && (forall t :: t in r.targets ==> t.appCallInfo == (if t.index in info then info[t.index] else []))
    && (forall p :: p in r.context ==>
          p == ContextPosition(p.index, None, "", if p.index in info then info[p.index] else []))
  }

  /** `e` asks `route`'s client, over the given group, only about targets routed there. */
  ghost predicate Asks(
    e: Event, kind: ComponentKind, group: seq<string>, targets: seq<Target>, routing: Routing,
    originals: int, info: map<int, Pairs>)
  {
    && e.Components?
    && ComponentRequestOk(e.request)
    && e.request.group == group
    && Shows(e.request, originals, info)
    && forall t :: t in e.request.targets ==>
         && t.kind == kind
         && exists x :: x in targets && x.index == t.index && routing(x) == Some(Route(e.to, KeyOf(t)))
  }

  /** A best-effort cancellation of the unanswered request just before it. */
  ghost predicate CancelsLast(e: Event, past: seq<Event>) {
    && e.Cancelled?
    && past != []
    && var last := past[|past| - 1];
    && e.to == last.to
    && match last
       case Components(_, request, reply) =>
         reply.NoConnection? && e.requestId == request.requestId && request.targets != [] && request.targets[0].kind != Cosigner
       case Signed(_, id, _, reply) => reply.NoConnection? && e.requestId == id
       case _ => false
  }

  /** After `past`, `e` asks one more route, or cancels the user's request just left unanswered. */
  ghost predicate GatherStep(
    past: seq<Event>, e: Event, kind: ComponentKind, group: seq<string>, targets: seq<Target>, routing: Routing,
    originals: int, info: map<int, Pairs>)
  {
    Asks(e, kind, group, targets, routing, originals, info) || (kind != Cosigner && CancelsLast(e, past))
  }

  ghost predicate GatherLog(
    log: seq<Event>, kind: ComponentKind, group: seq<string>, targets: seq<Target>, routing: Routing,
    originals: int, info: map<int, Pairs>)
  {
    log == [] ||
    var front := log[..|log| - 1];
    && GatherLog(front, kind, group, targets, routing, originals, info)
    && GatherStep(front, log[|log| - 1], kind, group, targets, routing, originals, info)
  }

  /** A cosigner is never sent a cancellation: every message to one asks. */
  lemma CosignerAsked(
    log: seq<Event>, group: seq<string>, targets: seq<Target>, routing: Routing, originals: int, info: map<int, Pairs>)
    requires GatherLog(log, Cosigner, group, targets, routing, originals, info) && log != []
    ensures GatherLog(log[..|log| - 1], Cosigner, group, targets, routing, originals, info)
    ensures Asks(log[|log| - 1], Cosigner, group, targets, routing, originals, info)
  {
  }

  /** A gathering log in which nothing unanswered is left to wait. */
  ghost predicate Gathering(
    log: seq<Event>, kind: ComponentKind, group: seq<string>, targets: seq<Target>, routing: Routing,
    originals: int, info: map<int, Pairs>)
  {
    GatherLog(log, kind, group, targets, routing, originals, info) && Settled(log) && (log == [] || !log[0].Cancelled?)
  }

  /** No (client, key) pair is asked twice, so no position is requested twice. */
  ghost predicate AskedOnce(log: seq<Event>) {
    && (forall k :: 0 <= k < |log| ==> log[k].Components? && log[k].request.targets != [])
    && forall j, k :: 0 <= j < k < |log| ==> RouteOf(log[j]) != RouteOf(log[k])
  }

  /** Each target's entry comes from an accepted reply to a request that listed it under its own route. */
  ghost predicate Gathered(
    log: seq<Event>, kind: ComponentKind, targets: seq<Target>, routing: Routing, sigs: map<int, Sourced>)
  {
    && (forall t :: t in targets ==>
          && routing(t).Some?
          && t.index in sigs
          && Sources(log, kind, routing(t).value, t.index, sigs[t.index]))
    && forall i :: i in sigs ==> exists t :: t in targets && t.index == i
  }

  lemma GatheredBefore(
    log: seq<Event>, more: seq<Event>, kind: ComponentKind, targets: seq<Target>, routing: Routing, sigs: map<int, Sourced>)
    requires Gathered(log, kind, targets, routing, sigs)
    ensures Gathered(log + more, kind, targets, routing, sigs)
  {
    forall t | t in targets ensures Sources(log + more, kind, routing(t).value, t.index, sigs[t.index]) {
      SourcesExtend(log, more, kind, routing(t).value, t.index, sigs[t.index]);
    }
  }

  lemma GatheredAfter(
    past: seq<Event>, log: seq<Event>, kind: ComponentKind, targets: seq<Target>, routing: Routing, sigs: map<int, Sourced>)
    requires Gathered(log, kind, targets, routing, sigs)
    ensures Gathered(past + log, kind, targets, routing, sigs)
  {
    forall t | t in targets ensures Sources(past + log, kind, routing(t).value, t.index, sigs[t.index]) {
      var k :| 0 <= k < |log| && Provides(log[k], kind, routing(t).value, t.index, sigs[t.index]);
      assert (past + log)[|past| + k] == log[k];
    }
  }

  /** Everything a gathering request needs to pass its own check. */
  ghost predicate Gatherable(
    group: seq<string>, dummies: seq<int>, kind: ComponentKind, targets: seq<Target>, routing: Routing)
  {
    && GroupOk(group)
    && SuffixOf(dummies, |group|)
    && (forall t :: t in targets ==> 0 <= t.index < |group| - |dummies|)
    && (kind == User ==> forall t :: t in targets && routing(t).Some? ==> routing(t).value.key != "")
  }

  /** The routes no longer pending have been asked, each once, and their targets served. */
  ghost predicate ServedBut(
    log: seq<Event>, kind: ComponentKind, targets: seq<Target>, routing: Routing, pending: set<Route>,
    sigs: map<int, Sourced>)
  {
    && AskedOnce(log)
    && (forall k :: 0 <= k < |log| ==> RouteOf(log[k]) !in pending)
    && SignedBut(log, kind, targets, routing, pending, sigs)
  }

  ghost predicate SignedBut(
    log: seq<Event>, kind: ComponentKind, targets: seq<Target>, routing: Routing, pending: set<Route>,
    sigs: map<int, Sourced>)
  {
    && (forall t :: t in targets ==> routing(t).Some?)
    && (forall i :: i in sigs ==> exists t :: t in targets && t.index == i && routing(t).value !in pending)
    && (forall t :: t in targets && routing(t).value !in pending ==>
          t.index in sigs && Sources(log, kind, routing(t).value, t.index, sigs[t.index]))
  }

  method GatherSignatures(
    w: World, past: seq<Event>, group: seq<string>, dummies: seq<int>, kind: ComponentKind,
    targets: seq<Target>, routing: Routing, info: map<int, Pairs>)
    returns (log: seq<Event>, r: Result<map<int, Sourced>, Error>)
    requires w.Lawful()
    requires kind == User || kind == Cosigner
    requires DistinctTargets(targets)
    ensures Gathering(log, kind, group, targets, routing, |group| - |dummies|, info)
    ensures r.Success? ==> Gathered(log, kind, targets, routing, r.value) && AskedOnce(log)
    ensures Gatherable(group, dummies, kind, targets, routing) ==> r != Failure(InvalidRequest)
    ensures r == Failure(NoRoute) <==> exists t :: t in targets && routing(t).None?
    ensures r == Failure(NoRoute) ==> log == []
    ensures r.Failure? ==> r.error == NoRoute || r.error == InvalidRequest || EndsFailed(log, r.error)
    ensures r.Failure? ==> r.error == NoRoute || CallError(r.error)
  {
    log := [];
    var grouped := GroupByRoute(targets, routing);
    if grouped.None? {
      return log, Failure(NoRoute);
    }
    var groups := grouped.value;
    var pending := groups.Keys;
    var sigs: map<int, Sourced> := map[];
    while pending != {}
      invariant pending <= groups.Keys
      invariant Gathering(log, kind, group, targets, routing, |group| - |dummies|, info)
      invariant ServedBut(log, kind, targets, routing, pending, sigs)
      decreases |pending|
    {
      var route := Pick(pending);
      var reply;
      log, reply := ServeRoute(w, past, log, group, groups[route], dummies, kind, route, targets, routing, info, pending, sigs);
      if reply.Failure? {
        return log, Failure(reply.error);
      }
      sigs := reply.value;
      pending := pending - {route};
    }
    r := Success(sigs);
  }

  /** Asks one more route after what the log holds already. */
  method AskNext(
    w: World, past: seq<Event>, before: seq<Event>, group: seq<string>, indices: seq<int>, dummies: seq<int>,
    kind: ComponentKind, route: Route, targets: seq<Target>, routing: Routing, info: map<int, Pairs>)
    returns (log: seq<Event>, ghost sent: seq<Event>, r: Result<map<int, Sourced>, Error>)
    requires w.Lawful()
    requires kind == User || kind == Cosigner
    requires DistinctTargets(targets)
    requires indices == Routed(targets, routing, route) && indices != []
    requires Gathering(before, kind, group, targets, routing, |group| - |dummies|, info)
    ensures log == before + sent && Gathering(log, kind, group, targets, routing, |group| - |dummies|, info)
    ensures r.Success? ==> Supplied(sent, kind, route, indices, r.value)
    ensures Gatherable(group, dummies, kind, targets, routing) ==> r != Failure(InvalidRequest)
    ensures r.Failure? ==> CallError(r.error) && (r.error == InvalidRequest || EndsFailed(log, r.error))
  {
    var asked;
    asked, r := AskRoute(w, past + before, group, indices, dummies, kind, route, targets, routing, info);
    log, sent := before + asked, asked;
    AskedExtends(before, asked, kind, group, targets, routing, |group| - |dummies|, info);
    if r.Failure? && r.error != InvalidRequest {
      EndsFailedConcat(before, asked, r.error);
    }
  }

  /** Asks one pending route and adds what it supplies. */
  method ServeRoute(
    w: World, past: seq<Event>, before: seq<Event>, group: seq<string>, indices: seq<int>, dummies: seq<int>,
    kind: ComponentKind, route: Route, targets: seq<Target>, routing: Routing, info: map<int, Pairs>,
    ghost pending: set<Route>, sigs: map<int, Sourced>)
    returns (log: seq<Event>, r: Result<map<int, Sourced>, Error>)
    requires w.Lawful()
    requires kind == User || kind == Cosigner
    requires DistinctTargets(targets)
    requires indices == Routed(targets, routing, route) && indices != [] && route in pending
    requires Gathering(before, kind, group, targets, routing, |group| - |dummies|, info)
    requires ServedBut(before, kind, targets, routing, pending, sigs)
    ensures Gathering(log, kind, group, targets, routing, |group| - |dummies|, info)
    ensures r.Success? ==> ServedBut(log, kind, targets, routing, pending - {route}, r.value)
    ensures Gatherable(group, dummies, kind, targets, routing) ==> r != Failure(InvalidRequest)
    ensures r.Failure? ==> CallError(r.error) && (r.error == InvalidRequest || EndsFailed(log, r.error))
  {
    ghost var sent;
    log, sent, r := AskNext(w, past, before, group, indices, dummies, kind, route, targets, routing, info);
    if r.Success? {
      var all := Merge(before, sent, kind, targets, routing, route, pending, sigs, r.value);
      r := Success(all);
    }
  }

  lemma AskedExtends(
    before: seq<Event>, sent: seq<Event>, kind: ComponentKind, group: seq<string>, targets: seq<Target>, routing: Routing,
    originals: int, info: map<int, Pairs>)
    requires Gathering(before, kind, group, targets, routing, originals, info)
    requires Gathering(sent, kind, group, targets, routing, originals, info)
    ensures Gathering(before + sent, kind, group, targets, routing, originals, info)
  {
    GatherLogExtends(before, sent, kind, group, targets, routing, originals, info);
    SettledConcat(before, sent);
    assert before == [] ==> before + sent == sent;
  }

  /** The log is one answered request along the route, and the signatures it supplied are those asked for. */
  ghost predicate Supplied(log: seq<Event>, kind: ComponentKind, route: Route, indices: seq<int>, sigs: map<int, Sourced>) {
    && |log| == 1 && log[0].Components? && log[0].request.targets != [] && RouteOf(log[0]) == route
    && (forall i :: i in sigs <==> i in indices)
    && (forall i :: i in indices ==> Provides(log[0], kind, route, i, sigs[i]))
  }

  /** One request for all the targets of one route. */
  method AskRoute(
    w: World, past: seq<Event>, group: seq<string>, indices: seq<int>, dummies: seq<int>, kind: ComponentKind,
    route: Route, targets: seq<Target>, routing: Routing, info: map<int, Pairs>)
    returns (log: seq<Event>, r: Result<map<int, Sourced>, Error>)
    requires w.Lawful()
    requires kind == User || kind == Cosigner
    requires DistinctTargets(targets)
    requires indices == Routed(targets, routing, route) && indices != []
    ensures Gathering(log, kind, group, targets, routing, |group| - |dummies|, info)
    ensures Gatherable(group, dummies, kind, targets, routing) ==> r != Failure(InvalidRequest)
    ensures r.Failure? ==> CallError(r.error) && (r.error == InvalidRequest || EndsFailed(log, r.error))
    ensures r.Success? ==> Supplied(log, kind, route, indices, r.value)
  {
    RoutedExactly(targets, routing, route);
    var unnamed := ComponentRequestFor(group, indices, dummies, kind, route.key, info);
    var sent, request, reply := RequestComponents(w, past, route.client, unnamed);
    log := sent;
    ChosenIdOk(w, past, "");
    assert indices[0] in indices;
    if Gatherable(group, dummies, kind, targets, routing) {
      ComponentRequestForOk(group, indices, dummies, kind, route.key, info, request.requestId);
    }
    if ComponentRequestOk(request) {
      CallAsks(w, past, log, request, group, indices, dummies, kind, route, targets, routing, info);
    }
    match reply
    case Failure(e) => r := Failure(e);
    case Success(body) =>
      ReplySupplies(log[0], group, indices, dummies, kind, route, info);
      r := Success(SignaturesOf(body.components, body.requestId));
  }

  lemma CallAsks(
    w: World, past: seq<Event>, log: seq<Event>, request: ComponentRequest, group: seq<string>, indices: seq<int>,
    dummies: seq<int>, kind: ComponentKind, route: Route, targets: seq<Target>, routing: Routing, info: map<int, Pairs>)
    requires kind == User || kind == Cosigner
    requires DistinctTargets(targets) && indices == Routed(targets, routing, route)
    requires ComponentRequestOk(request) && log == ComponentLog(w, past, route.client, request)
    requires request == ComponentRequestFor(group, indices, dummies, kind, route.key, info).(requestId := request.requestId)
    ensures GatherLog(log, kind, group, targets, routing, |group| - |dummies|, info)
    ensures !log[0].Cancelled?
  {
    assert request.targets[0] == TargetFor(indices[0], kind, route.key, info);
    RequestAsks(log[0], group, indices, dummies, kind, route, targets, routing, info);
    CallGathers(w, past, log, request, kind, group, targets, routing, |group| - |dummies|, info);
  }

  /** A call is its request and perhaps a cancellation, which a cosigner never gets. */
  lemma CallGathers(
    w: World, past: seq<Event>, log: seq<Event>, request: ComponentRequest, kind: ComponentKind, group: seq<string>,
    targets: seq<Target>, routing: Routing, originals: int, info: map<int, Pairs>)
    requires request.targets != [] && log != [] && log[0].Components? && request.targets[0].kind == kind
    requires log == ComponentLog(w, past, log[0].to, request) && Asks(log[0], kind, group, targets, routing, originals, info)
    ensures GatherLog(log, kind, group, targets, routing, originals, info)
  {
    GatherOne(log[0], kind, group, targets, routing, originals, info);
    if |log| == 2 {
      assert log[..1] == [log[0]];
    } else {
      assert log == [log[0]];
    }
  }

  lemma GatherOne(
    e: Event, kind: ComponentKind, group: seq<string>, targets: seq<Target>, routing: Routing,
    originals: int, info: map<int, Pairs>)
    requires Asks(e, kind, group, targets, routing, originals, info)
    ensures GatherLog([e], kind, group, targets, routing, originals, info)
  {
    assert [e][..0] == [];
  }

  lemma ShowsInfo(
    r: ComponentRequest, group: seq<string>, indices: seq<int>, dummies: seq<int>, kind: ComponentKind, key: string,
    info: map<int, Pairs>)
    requires r == ComponentRequestFor(group, indices, dummies, kind, key, info).(requestId := r.requestId)
    ensures Shows(r, |group| - |dummies|, info)
  {
    forall t | t in r.targets ensures t.appCallInfo == (if t.index in info then info[t.index] else []) {
      var k :| 0 <= k < |r.targets| && r.targets[k] == t;
      assert t == TargetFor(indices[k], kind, key, info);
    }
    if |dummies| <= |group| {
      var others := Others(|group| - |dummies|, indices);
      forall p | p in r.context
        ensures p == ContextPosition(p.index, None, "", if p.index in info then info[p.index] else [])
      {
        var k :| 0 <= k < |r.context| && r.context[k] == p;
        assert p == ContextPosition(others[k], None, "", InfoAt(info, others[k]));
      }
    } else {
      assert r.context == [];
    }
  }

  lemma RequestAsks(
    e: Event, group: seq<string>, indices: seq<int>, dummies: seq<int>, kind: ComponentKind,
    route: Route, targets: seq<Target>, routing: Routing, info: map<int, Pairs>)
    requires kind == User || kind == Cosigner
    requires DistinctTargets(targets) && indices == Routed(targets, routing, route)
    requires e.Components? && e.to == route.client && ComponentRequestOk(e.request)
    requires e.request ==
      ComponentRequestFor(group, indices, dummies, kind, route.key, info).(requestId := e.request.requestId)
    ensures Asks(e, kind, group, targets, routing, |group| - |dummies|, info)
  {
    RoutedExactly(targets, routing, route);
    ShowsInfo(e.request, group, indices, dummies, kind, route.key, info);
    forall t | t in e.request.targets
      ensures t.kind == kind && exists x :: x in targets && x.index == t.index && routing(x) == Some(Route(e.to, KeyOf(t)))
    {
      var k :| 0 <= k < |e.request.targets| && e.request.targets[k] == t;
      assert t == TargetFor(indices[k], kind, route.key, info);
      assert indices[k] in indices;
    }
  }

  lemma CancelsLastAfter(e: Event, log: seq<Event>, sent: seq<Event>)
    requires CancelsLast(e, sent)
    ensures CancelsLast(e, log + sent)
  {
    assert (log + sent)[|log + sent| - 1] == sent[|sent| - 1];
  }

  lemma {:induction false} GatherLogExtends(
    log: seq<Event>, sent: seq<Event>, kind: ComponentKind, group: seq<string>, targets: seq<Target>, routing: Routing,
    originals: int, info: map<int, Pairs>)
    requires GatherLog(log, kind, group, targets, routing, originals, info)
    requires GatherLog(sent, kind, group, targets, routing, originals, info)
    ensures GatherLog(log + sent, kind, group, targets, routing, originals, info)
    decreases |sent|
  {
    if sent == [] {
      assert log + sent == log;
    } else {
      var front, last, all := sent[..|sent| - 1], sent[|sent| - 1], log + sent;
      GatherLogExtends(log, front, kind, group, targets, routing, originals, info);
      StepAfter(log, front, last, kind, group, targets, routing, originals, info);
      assert all[..|all| - 1] == log + front && all[|all| - 1] == last;
    }
  }

  lemma StepAfter(
    log: seq<Event>, past: seq<Event>, e: Event, kind: ComponentKind, group: seq<string>, targets: seq<Target>,
    routing: Routing, originals: int, info: map<int, Pairs>)
    requires GatherStep(past, e, kind, group, targets, routing, originals, info)
    ensures GatherStep(log + past, e, kind, group, targets, routing, originals, info)
  {
    if !Asks(e, kind, group, targets, routing, originals, info) {
      CancelsLastAfter(e, log, past);
    }
  }

  lemma AskedOnceExtends(log: seq<Event>, sent: seq<Event>, pending: set<Route>, route: Route)
    requires AskedOnce(log) && forall k :: 0 <= k < |log| ==> RouteOf(log[k]) !in pending
    requires |sent| == 1 && sent[0].Components? && sent[0].request.targets != []
    requires RouteOf(sent[0]) == route && route in pending
    ensures AskedOnce(log + sent)
    ensures forall k :: 0 <= k < |log + sent| ==> RouteOf((log + sent)[k]) !in pending - {route}
  {
  }

  /** Adding one route's signatures leaves those of the other routes in place. */
  method Merge(
    ghost log: seq<Event>, ghost sent: seq<Event>, ghost kind: ComponentKind,
    ghost targets: seq<Target>, ghost routing: Routing, ghost route: Route, ghost pending: set<Route>,
    sigs: map<int, Sourced>, more: map<int, Sourced>)
    returns (all: map<int, Sourced>)
    requires DistinctTargets(targets) && route in pending
    requires Supplied(sent, kind, route, Routed(targets, routing, route), more)
    requires ServedBut(log, kind, targets, routing, pending, sigs)
    ensures all == sigs + more
    ensures ServedBut(log + sent, kind, targets, routing, pending - {route}, all)
  {
    all := sigs + more;
    AskedOnceExtends(log, sent, pending, route);
    MergeKeeps(log, sent, kind, targets, routing, route, pending, sigs, more);
  }

  lemma MergeKeeps(
    log: seq<Event>, sent: seq<Event>, kind: ComponentKind, targets: seq<Target>, routing: Routing, route: Route,
    pending: set<Route>, sigs: map<int, Sourced>, more: map<int, Sourced>)
    requires DistinctTargets(targets) && route in pending
    requires Supplied(sent, kind, route, Routed(targets, routing, route), more)
    requires SignedBut(log, kind, targets, routing, pending, sigs)
    ensures SignedBut(log + sent, kind, targets, routing, pending - {route}, sigs + more)
  {
    var all := sigs + more;
    RoutedExactly(targets, routing, route);
    forall t | t in targets && routing(t).value !in pending - {route}
      ensures t.index in all && Sources(log + sent, kind, routing(t).value, t.index, all[t.index])
    {
      if routing(t) == Some(route) {
        assert t.index in more;
        assert (log + sent)[|log|] == sent[0];
      } else {
        NotRouted(targets, routing, route, t);
        SourcesExtend(log, sent, kind, routing(t).value, t.index, sigs[t.index]);
      }
    }
  }

  lemma NotRouted(targets: seq<Target>, routing: Routing, route: Route, t: Target)
    requires DistinctTargets(targets) && t in targets && routing(t) != Some(route)
    ensures t.index !in Routed(targets, routing, route)
  {
    RoutedExactly(targets, routing, route);
    forall x | x in targets && routing(x) == Some(route) ensures x.index != t.index {
      if x.index == t.index {
        SameTarget(targets, t, x);
      }
    }
  }

  lemma SameTarget(targets: seq<Target>, a: Target, b: Target)
    requires DistinctTargets(targets) && a in targets && b in targets && a.index == b.index
    ensures a == b
  {
  }

  /** As many distinct assembly entries as targets, each for some target: every target has one. */
  lemma EveryTargetServed(given: seq<AssemblyTarget>, targets: seq<Target>, t: Target) returns (a: AssemblyTarget)
    requires DistinctTargets(targets) && t in targets && |given| == |targets|
    requires Distinct(AssemblyIndices(given))
    requires forall k :: 0 <= k < |given| ==> exists u :: u in targets && u.index == given[k].index
    ensures a in given && a.index == t.index
  {
    var wanted := seq(|targets|, i requires 0 <= i < |targets| => targets[i].index);
    var indices := AssemblyIndices(given);
    forall i | i in indices ensures i in wanted {
      var j :| 0 <= j < |given| && given[j].index == i;
      var u :| u in targets && u.index == given[j].index;
      var m :| 0 <= m < |targets| && targets[m] == u;
      assert wanted[m] == i;
    }
    SameIndices(indices, wanted);
    var m :| 0 <= m < |targets| && targets[m] == t;
    assert wanted[m] in indices;
    var j :| 0 <= j < |given| && indices[j] == t.index;
    a := given[j];
  }
}
