/**
 The guarded choreography: one user and one cosigner component signature per target,
 the user's side first, then assembly and a slot-by-slot comparison of the result.
 */
module GuardedFlow {
  import opened Basics
  import opened Transactions
  import opened Requests
  import opened Exchange
  import opened Gathering
  import opened Prepared
  import opened PrimarySlots
  import opened TargetOrder
  import Roles

  datatype Options = Options(
    user: Client,
    routing: Routing,
    group: seq<string>,
    targets: seq<Target>,
    primaries: seq<PrimaryTarget>,
    passthrough: seq<PassthroughItem>,
    dummies: seq<int>,
    assemblyId: string)

  function UserRoute(user: Client): Routing {
    (t: Target) => Some(Route(user, t.account))
  }

  // ---- Checking the targets ------------------------------------------------

  predicate GuardedTargetOk(group: seq<string>, t: Target) {
    && 0 <= t.index < |group|
    && t.account != ""
    && t.resources.Some?
    && ResourcesOk(t.resources.value)
  }

  method CheckTargets(group: seq<string>, targets: seq<Target>) returns (ok: bool)
    ensures ok <==> DistinctTargets(targets) && forall k :: 0 <= k < |targets| ==> GuardedTargetOk(group, targets[k])
  {
    var seen := {};
    for i := 0 to |targets|
      invariant forall x :: x in seen <==> exists k :: 0 <= k < i && targets[k].index == x
      invariant DistinctTargets(targets[..i])
      invariant forall k :: 0 <= k < i ==> GuardedTargetOk(group, targets[k])
    {
      var t := targets[i];
      if t.index in seen || !GuardedTargetOk(group, t) {
        return false;
      }
      seen := seen + {t.index};
    }
    assert targets[..|targets|] == targets;
    return true;
  }

  function InfoFor(primaries: seq<PrimaryTarget>, targets: seq<Target>): map<int, Pairs> {
    if targets != [] then
      var last := targets[|targets| - 1];
      InfoFor(primaries, targets[..|targets| - 1])[last.index := last.appCallInfo]
    else if primaries != [] then
      var last := primaries[|primaries| - 1];
      InfoFor(primaries[..|primaries| - 1], [])[last.index := last.appCallInfo]
    else map[]
  }

  /** The app-call information the options give for each position; guarded targets win. */
  function InfoOf(o: Options): map<int, Pairs> {
    InfoFor(o.primaries, SortByIndex(o.targets))
  }

  /** Every slot's own information is listed under its position, and nothing else is. */
  lemma {:induction false} InfoForExactly(primaries: seq<PrimaryTarget>, targets: seq<Target>)
    requires DistinctTargets(targets) && Roles.DistinctPrimaries(primaries)
    requires forall t, p :: t in targets && p in primaries ==> t.index != p.index
    ensures var info := InfoFor(primaries, targets);
            && (forall t :: t in targets ==> t.index in info && info[t.index] == t.appCallInfo)
            && (forall p :: p in primaries ==> p.index in info && info[p.index] == p.appCallInfo)
            && (forall i :: i in info ==>
                  (exists t :: t in targets && t.index == i) || exists p :: p in primaries && p.index == i)
  {
    if targets != [] {
      var front, last := targets[..|targets| - 1], targets[|targets| - 1];
      InfoForExactly(primaries, front);
      assert forall t :: t in targets <==> t in front || t == last;
    } else if primaries != [] {
      var front, last := primaries[..|primaries| - 1], primaries[|primaries| - 1];
      InfoForExactly(front, []);
      assert forall p :: p in primaries <==> p in front || p == last;
    }
  }

  // ---- What a log says -----------------------------------------------------

  /** Every target has a user signature from a reply that was asked under its own account. */
  ghost predicate UserHeld(o: Options, past: seq<Event>) {
    forall t :: t in o.targets ==> exists s :: Sources(past, User, Route(o.user, t.account), t.index, s)
  }

  ghost predicate UserDone(c: Codec, o: Options, past: seq<Event>) {
    && UserHeld(o, past)
    && (o.primaries == [] || exists k :: 0 <= k < |past| && PrimarySigned(c, o.user, o.primaries, o.group, past[k]))
  }

  /** Both signatures of an assembly target come from replies to requests that listed it. */
  ghost predicate BothSourced(o: Options, past: seq<Event>, a: AssemblyTarget, t: Target) {
    && a.index == t.index
    && a.kind == Guarded
    && a.authAddress == t.account
    && a.guardedArgs == t.runtimeArgs
    && Sources(past, User, Route(o.user, t.account), t.index, Sourced(a.userSignature, a.userSource))
    && o.routing(t).Some?
    && Sources(past, Cosigner, o.routing(t).value, t.index, Sourced(a.cosignerSignature, a.cosignerSource))
  }

  /** Every slot that is not primary is declared as the options describe it. */
  ghost predicate DeclaresRest(o: Options, entries: seq<SignEntry>) {
    && (forall t :: t in o.targets ==> 0 <= t.index < |entries| && ForeignEntry(entries[t.index], t.resources, ""))
    && (forall item :: item in o.passthrough ==>
          && 0 <= item.index < |entries| && item.authorization.Some?
          && ForeignEntry(entries[item.index], item.authorization.value.resources, item.authorization.value.pqScheme))
  }

  /** What the caller had signed already is passed on as it is. */
  ghost predicate PassedOn(given: seq<PassthroughItem>, r: AssemblyRequest) {
    forall item :: item in given ==> exists x :: x in r.passthrough && x.index == item.index && x.signedHex == item.signedHex
  }

  ghost predicate StepOk(c: Codec, o: Options, past: seq<Event>, e: Event) {
    match e
    case Planned(_, _, _) => false
    case Cancelled(to, _) => to == o.user && CancelsLast(e, past)
    case Components(to, _, _) =>
      || Asks(e, User, o.group, o.targets, UserRoute(o.user), |o.group| - |o.dummies|, InfoOf(o))
      || (UserDone(c, o, past) && Asks(e, Cosigner, o.group, o.targets, o.routing, |o.group| - |o.dummies|, InfoOf(o)))
    case Signed(to, _, entries, _) =>
      && to == o.user && UserHeld(o, past) && Carries(entries, o.group) && SignsOnly(entries, o.primaries)
      && DeclaresRest(o, entries)
    case Assembled(to, request, _) =>
      && to == o.user
      && UserDone(c, o, past)
      && request.group == o.group
      && AssemblyRequestOk(request)
      && |request.targets| == |o.targets|
      && PrimariesPassed(c, o.primaries, request)
      && PassedOn(o.passthrough, request)
      && forall a :: a in request.targets ==> exists t :: t in o.targets && BothSourced(o, past, a, t)
  }

  /** Why a run ended with `e`: what the last request came back with, or a target without a cosigner. */
  ghost predicate EndsFor(c: Codec, o: Options, log: seq<Event>, e: Error) {
    || (e == NoRoute && exists t :: t in o.targets && o.routing(t).None?)
    || (log != [] && !log[0].Cancelled?
        && (Explains(LastRequest(log), e) || (e == BadReply && Unusable(c, o.primaries, LastRequest(log)))))
  }

  lemma EndsForConcat(c: Codec, o: Options, past: seq<Event>, log: seq<Event>, e: Error)
    requires EndsFor(c, o, log, e) && Safe(c, o, past)
    ensures EndsFor(c, o, past + log, e)
  {
    if past != [] {
      SafeAt(c, o, past, 0);
      assert past[..0] == [];
    }
    if log != [] && !log[0].Cancelled? {
      LastRequestConcat(past, log);
      assert (past + log)[0] == (if past == [] then log[0] else past[0]);
    }
  }

  ghost predicate Safe(c: Codec, o: Options, log: seq<Event>) {
    log == [] || (Safe(c, o, log[..|log| - 1]) && StepOk(c, o, log[..|log| - 1], log[|log| - 1]))
  }

  lemma SafeAppend(c: Codec, o: Options, log: seq<Event>, e: Event)
    requires Safe(c, o, log) && StepOk(c, o, log, e)
    ensures Safe(c, o, log + [e])
  {
    var all := log + [e];
    assert all[..|all| - 1] == log;
  }

  lemma {:induction false} SafeAt(c: Codec, o: Options, log: seq<Event>, k: nat)
    requires Safe(c, o, log) && k < |log|
    ensures StepOk(c, o, log[..k], log[k])
  {
    if k < |log| - 1 {
      var front := log[..|log| - 1];
      SafeAt(c, o, front, k);
      assert front[..k] == log[..k];
    }
  }

  lemma CancelAppend(c: Codec, o: Options, past: seq<Event>, e: Event)
    requires Safe(c, o, past) && e.to == o.user && CancelsLast(e, past)
    ensures Safe(c, o, past + [e])
  {
    assert StepOk(c, o, past, e);
    SafeAppend(c, o, past, e);
  }

  /** The request just sent, with the cancellation that may follow it. */
  lemma SafeSend(c: Codec, o: Options, past: seq<Event>, log: seq<Event>)
    requires Safe(c, o, past) && 1 <= |log| <= 2 && StepOk(c, o, past, log[0])
    requires |log| == 2 ==> log[1].to == o.user && CancelsLast(log[1], past + [log[0]])
    ensures Safe(c, o, past + log)
  {
    SafeAppend(c, o, past, log[0]);
    ConcatFirst(past, log);
    if |log| == 2 {
      CancelAppend(c, o, past + [log[0]], log[1]);
      assert log[1..] == [log[1]];
    } else {
      assert log[1..] == [];
      ConcatNothing(past + [log[0]]);
    }
  }

  lemma UserDoneExtends(c: Codec, o: Options, past: seq<Event>, more: seq<Event>)
    ensures UserHeld(o, past) ==> UserHeld(o, past + more)
    ensures UserDone(c, o, past) ==> UserDone(c, o, past + more)
  {
    var all := past + more;
    assert forall k :: 0 <= k < |past| ==> all[k] == past[k];
    if UserHeld(o, past) {
      forall t | t in o.targets ensures exists s :: Sources(all, User, Route(o.user, t.account), t.index, s) {
        var s :| Sources(past, User, Route(o.user, t.account), t.index, s);
        SourcesExtend(past, more, User, Route(o.user, t.account), t.index, s);
      }
    }
  }

  // ---- Step 1: the user's signatures ---------------------------------------

  lemma UserAskedAt(o: Options, e: Event)
    requires Asks(e, User, o.group, o.targets, UserRoute(o.user), |o.group| - |o.dummies|, InfoOf(o))
    ensures e.to == o.user
  {
    var t := e.request.targets[0];
    assert t in e.request.targets;
  }

  /** A gathering of user signatures from an empty log keeps it safe. */
  lemma {:induction false} SafeUserGather(c: Codec, o: Options, log: seq<Event>)
    requires GatherLog(
               log, User, o.group, SortByIndex(o.targets), UserRoute(o.user), |o.group| - |o.dummies|, InfoOf(o))
    ensures Safe(c, o, log)
  {
    if log != [] {
      var front, e := log[..|log| - 1], log[|log| - 1];
      SafeUserGather(c, o, front);
      if Asks(e, User, o.group, SortByIndex(o.targets), UserRoute(o.user), |o.group| - |o.dummies|, InfoOf(o)) {
        SortedAsks(e, User, o.group, o.targets, UserRoute(o.user), |o.group| - |o.dummies|, InfoOf(o));
        UserStep(c, o, front, e);
      } else {
        UserCancels(c, o, front, e);
      }
      SplitLast(log);
    }
  }

  lemma UserCancels(c: Codec, o: Options, past: seq<Event>, e: Event)
    requires Safe(c, o, past) && CancelsLast(e, past)
    ensures Safe(c, o, past + [e])
  {
    var last := |past| - 1;
    SafeAt(c, o, past, last);
    SentToUser(c, o, past[..last], past[last]);
    CancelAppend(c, o, past, e);
  }

  lemma UserStep(c: Codec, o: Options, past: seq<Event>, e: Event)
    requires Safe(c, o, past)
    requires Asks(e, User, o.group, o.targets, UserRoute(o.user), |o.group| - |o.dummies|, InfoOf(o))
    ensures Safe(c, o, past + [e])
  {
    assert StepOk(c, o, past, e);
    SafeAppend(c, o, past, e);
  }

  /** A request that can be cancelled goes to the user's signer. */
  lemma SentToUser(c: Codec, o: Options, past: seq<Event>, e: Event)
    requires StepOk(c, o, past, e)
    requires e.Signed? || (e.Components? && e.request.targets != [] && e.request.targets[0].kind != Cosigner)
    ensures e.to == o.user
  {
    if e.Components? {
      assert e.request.targets[0] in e.request.targets;
      if Asks(e, User, o.group, o.targets, UserRoute(o.user), |o.group| - |o.dummies|, InfoOf(o)) {
        UserAskedAt(o, e);
      }
    }
  }

  lemma SortedAsks(
    e: Event, kind: ComponentKind, group: seq<string>, targets: seq<Target>, routing: Routing,
    originals: int, info: map<int, Pairs>)
    requires Asks(e, kind, group, SortByIndex(targets), routing, originals, info)
    ensures Asks(e, kind, group, targets, routing, originals, info)
  {
    SortedMembers(targets);
  }

  method GatherUser(c: Codec, w: World, before: seq<Event>, o: Options, sorted: seq<Target>)
    returns (log: seq<Event>, r: Result<map<int, Sourced>, Error>)
    requires w.Lawful() && sorted == SortByIndex(o.targets) && DistinctTargets(sorted)
    requires forall t :: t in sorted ==> t.account != ""
    ensures Settled(log)
    ensures Safe(c, o, log)
    ensures r.Failure? ==> CallError(r.error) && (r.error == InvalidRequest || EndsFor(c, o, log, r.error))
    ensures Gatherable(o.group, o.dummies, User, sorted, UserRoute(o.user)) ==> r != Failure(InvalidRequest)
    ensures r.Success? ==> Gathered(log, User, sorted, UserRoute(o.user), r.value) && UserHeld(o, log)
  {
    log, r := GatherSignatures(w, before, o.group, o.dummies, User, sorted, UserRoute(o.user), InfoOf(o));
    SortedMembers(o.targets);
    SafeUserGather(c, o, log);
  }

  // ---- Step 2: the primary slots -------------------------------------------

  predicate IsGuarded(o: Options, i: int) {
    exists k :: 0 <= k < |o.targets| && o.targets[k].index == i
  }

  predicate IsPrimary(o: Options, i: int) {
    exists k :: 0 <= k < |o.primaries| && o.primaries[k].index == i
  }

  predicate IsPassed(o: Options, i: int) {
    exists k :: 0 <= k < |o.passthrough| && o.passthrough[k].index == i
  }

  predicate PrimaryPlaced(o: Options, p: PrimaryTarget) {
    0 <= p.index < |o.group| && !IsGuarded(o, p.index) && p.authAddress != ""
  }

  predicate ItemPlaced(o: Options, item: PassthroughItem) {
    && 0 <= item.index < |o.group|
    && !IsPrimary(o, item.index)
    && !IsGuarded(o, item.index)
    && item.authorization.Some?
    && var a := item.authorization.value;
    && (a.pqScheme != "" ==> a.pqScheme == PQ_SCHEME_FALCON1024 && a.resources.None?)
    && (a.resources.Some? ==> ResourcesOk(a.resources.value))
  }

  ghost predicate DistinctItems(items: seq<PassthroughItem>) {
    forall i, j :: 0 <= i < j < |items| ==> items[i].index != items[j].index
  }

  ghost predicate PrimariesPlaced(o: Options) {
    Roles.DistinctPrimaries(o.primaries) && forall k :: 0 <= k < |o.primaries| ==> PrimaryPlaced(o, o.primaries[k])
  }

  ghost predicate ItemsPlaced(o: Options) {
    DistinctItems(o.passthrough) && forall k :: 0 <= k < |o.passthrough| ==> ItemPlaced(o, o.passthrough[k])
  }

  ghost predicate AllPlaced(o: Options) {
    forall i :: 0 <= i < |o.group| ==> IsGuarded(o, i) || IsPrimary(o, i) || IsPassed(o, i)
  }

  method CheckPrimaryTargets(o: Options) returns (ok: bool)
    ensures ok <==> PrimariesPlaced(o)
  {
    var seen := {};
    for i := 0 to |o.primaries|
      invariant forall x :: x in seen <==> exists k :: 0 <= k < i && o.primaries[k].index == x
      invariant Roles.DistinctPrimaries(o.primaries[..i])
      invariant forall k :: 0 <= k < i ==> PrimaryPlaced(o, o.primaries[k])
    {
      var p := o.primaries[i];
      if p.index in seen || !PrimaryPlaced(o, p) {
        return false;
      }
      seen := seen + {p.index};
    }
    assert o.primaries[..|o.primaries|] == o.primaries;
    return true;
  }

  method CheckPassthrough(o: Options) returns (ok: bool)
    ensures ok <==> ItemsPlaced(o)
  {
    var seen := {};
    for i := 0 to |o.passthrough|
      invariant forall x :: x in seen <==> exists k :: 0 <= k < i && o.passthrough[k].index == x
      invariant DistinctItems(o.passthrough[..i])
      invariant forall k :: 0 <= k < i ==> ItemPlaced(o, o.passthrough[k])
    {
      var item := o.passthrough[i];
      if item.index in seen || !ItemPlaced(o, item) {
        return false;
      }
      seen := seen + {item.index};
    }
    assert o.passthrough[..|o.passthrough|] == o.passthrough;
    return true;
  }

  /** The guarded targets themselves are in order. */
  ghost predicate TargetsOk(o: Options) {
    && GroupOk(o.group)
    && o.targets != []
    && DistinctTargets(o.targets)
    && forall k :: 0 <= k < |o.targets| ==> GuardedTargetOk(o.group, o.targets[k])
  }

  /** The entry of slot i says what the options say about that slot. */
  ghost predicate Described(o: Options, i: int, e: SignEntry) {
    && (forall p :: p in o.primaries && p.index == i ==> e == PrimaryEntry(p, e.txnHex))
    && (forall t :: t in o.targets && t.index == i ==> ForeignEntry(e, t.resources, ""))
    && (forall item :: item in o.passthrough && item.index == i ==>
          && item.authorization.Some?
          && ForeignEntry(e, item.authorization.value.resources, item.authorization.value.pqScheme))
  }

  method EntryFor(o: Options, i: nat) returns (r: Option<SignEntry>)
    requires TargetsOk(o) && PrimariesPlaced(o) && ItemsPlaced(o) && i < |o.group|
    ensures r.Some? <==> IsGuarded(o, i) || IsPrimary(o, i) || IsPassed(o, i)
    ensures r.Some? ==> r.value.txnHex == o.group[i] && EntryOk(r.value)
    ensures r.Some? ==> EntryMode(r.value) == Some(if IsPrimary(o, i) then Sign else Foreign)
    ensures r.Some? ==> Described(o, i, r.value)
  {
    if IsPrimary(o, i) {
      var k :| 0 <= k < |o.primaries| && o.primaries[k].index == i;
      var p := o.primaries[k];
      assert PrimaryPlaced(o, p);
      assert forall q :: q in o.primaries && q.index == i ==> q == p;
      return Some(PrimaryEntry(p, o.group[i]));
    } else if IsGuarded(o, i) {
      var k :| 0 <= k < |o.targets| && o.targets[k].index == i;
      assert GuardedTargetOk(o.group, o.targets[k]);
      return Some(SignEntry(o.group[i], "", "", "", [], [], o.targets[k].resources, ""));
    } else if IsPassed(o, i) {
      var k :| 0 <= k < |o.passthrough| && o.passthrough[k].index == i;
      assert ItemPlaced(o, o.passthrough[k]);
      var a := o.passthrough[k].authorization.value;
      return Some(SignEntry(o.group[i], "", "", "", [], [], a.resources, a.pqScheme));
    }
    return None;
  }

  lemma AllDescribed(o: Options, entries: seq<SignEntry>)
    requires TargetsOk(o) && ItemsPlaced(o) && |entries| == |o.group|
    requires forall k :: 0 <= k < |entries| ==> Described(o, k, entries[k])
    ensures DeclaresRest(o, entries)
    ensures PrimariesPlaced(o) ==> forall p :: p in o.primaries ==>
      0 <= p.index < |entries| && entries[p.index] == PrimaryEntry(p, entries[p.index].txnHex)
  {
    if PrimariesPlaced(o) {
      forall p | p in o.primaries
        ensures 0 <= p.index < |entries| && entries[p.index] == PrimaryEntry(p, entries[p.index].txnHex)
      {
        var k :| 0 <= k < |o.primaries| && o.primaries[k] == p;
        assert PrimaryPlaced(o, o.primaries[k]);
        assert Described(o, p.index, entries[p.index]);
      }
    }
    forall t | t in o.targets ensures 0 <= t.index < |entries| && ForeignEntry(entries[t.index], t.resources, "") {
      var k :| 0 <= k < |o.targets| && o.targets[k] == t;
      assert GuardedTargetOk(o.group, o.targets[k]);
      assert Described(o, t.index, entries[t.index]);
    }
    forall item | item in o.passthrough
      ensures 0 <= item.index < |entries| && item.authorization.Some?
      ensures ForeignEntry(entries[item.index], item.authorization.value.resources, item.authorization.value.pqScheme)
    {
      var k :| 0 <= k < |o.passthrough| && o.passthrough[k] == item;
      assert ItemPlaced(o, o.passthrough[k]);
      assert Described(o, item.index, entries[item.index]);
    }
  }

  method BuildEntries(o: Options) returns (r: Option<seq<SignEntry>>)
    requires TargetsOk(o) && PrimariesPlaced(o) && ItemsPlaced(o) && o.primaries != []
    ensures r.Some? <==> AllPlaced(o)
    ensures r.Some? ==> Carries(r.value, o.group) && EntriesOk(r.value) && SignsOnly(r.value, o.primaries) && DeclaresRest(o, r.value)
  {
    var entries: seq<SignEntry> := [];
    for i := 0 to |o.group|
      invariant |entries| == i
      invariant forall k :: 0 <= k < i ==> IsGuarded(o, k) || IsPrimary(o, k) || IsPassed(o, k)
      invariant forall k :: 0 <= k < i ==> entries[k].txnHex == o.group[k] && EntryOk(entries[k])
      invariant forall k :: 0 <= k < i ==> EntryMode(entries[k]) == Some(if IsPrimary(o, k) then Sign else Foreign)
      invariant forall k :: 0 <= k < i ==> Described(o, k, entries[k])
    {
      var entry := EntryFor(o, i);
      if entry.None? {
        return None;
      }
      entries := entries + [entry.value];
    }
    AllDescribed(o, entries);
    forall i | 0 <= i < |entries| && EntryMode(entries[i]) != Some(Foreign) ensures exists p :: p in o.primaries && p.index == i {
      var k :| 0 <= k < |o.primaries| && o.primaries[k].index == i;
      assert o.primaries[k] in o.primaries;
    }
    assert PrimaryPlaced(o, o.primaries[0]);
    assert IsPrimary(o, o.primaries[0].index);
    return Some(entries);
  }

  method PlaceEntries(o: Options) returns (r: Option<seq<SignEntry>>)
    requires TargetsOk(o) && o.primaries != []
    ensures r.Some? <==> PrimariesPlaced(o) && ItemsPlaced(o) && AllPlaced(o)
    ensures r.Some? ==> Carries(r.value, o.group) && EntriesOk(r.value) && SignsOnly(r.value, o.primaries) && DeclaresRest(o, r.value)
  {
    var primariesOk := CheckPrimaryTargets(o);
    if !primariesOk {
      return None;
    }
    var itemsOk := CheckPassthrough(o);
    if !itemsOk {
      return None;
    }
    r := BuildEntries(o);
  }

  method SendPrimaries(c: Codec, w: World, before: seq<Event>, o: Options, past: seq<Event>, entries: seq<SignEntry>)
    returns (log: seq<Event>, r: Result<seq<PassthroughItem>, Error>)
    requires w.Lawful() && PrimariesPlaced(o) && Carries(entries, o.group) && EntriesOk(entries) && SignsOnly(entries, o.primaries)
    requires DeclaresRest(o, entries)
    requires Safe(c, o, past) && UserHeld(o, past)
    ensures Settled(log)
    ensures Safe(c, o, past + log)
    ensures r.Failure? ==> CallError(r.error) && r.error != InvalidRequest && EndsFor(c, o, log, r.error)
    ensures r.Success? ==> |log| == 1 && PrimarySigned(c, o.user, o.primaries, o.group, log[0])
    ensures r.Success? ==> PrimaryItems(c, o.primaries, o.group, r.value)
  {
    FreshSignRequestOk(w, before + past, entries);
    var sent, reply := SignRequests(w, before + past, o.user, entries, None);
    log := sent;
    SafeSend(c, o, past, log);
    if reply.Failure? {
      return log, Failure(reply.error);
    }
    forall p | p in o.primaries ensures 0 <= p.index < |o.group| {
      assert PrimaryPlaced(o, p);
    }
    var items := CheckPrimaries(c, o.primaries, o.group, reply.value);
    if items.None? {
      assert Unusable(c, o.primaries, log[0]);
      return log, Failure(BadReply);
    }
    r := Success(items.value);
  }

  method SignPrimaries(c: Codec, w: World, before: seq<Event>, o: Options, past: seq<Event>)
    returns (log: seq<Event>, r: Result<seq<PassthroughItem>, Error>)
    requires w.Lawful() && TargetsOk(o)
    requires Safe(c, o, past) && UserHeld(o, past)
    ensures Settled(log)
    ensures Safe(c, o, past + log)
    ensures r.Failure? ==> r.error == BadInput || (CallError(r.error) && r.error != InvalidRequest)
    ensures r.Failure? ==> r.error == BadInput || EndsFor(c, o, log, r.error)
    ensures r == Failure(BadInput) ==> !(PrimariesPlaced(o) && ItemsPlaced(o) && AllPlaced(o))
    ensures r.Success? ==> UserDone(c, o, past + log) && PrimaryItems(c, o.primaries, o.group, r.value)
  {
    ConcatNothing(past);
    if o.primaries == [] {
      return [], Success([]);
    }
    var entries := PlaceEntries(o);
    if entries.None? {
      return [], Failure(BadInput);
    }
    log, r := SendPrimaries(c, w, before, o, past, entries.value);
    if r.Success? {
      PrimariesDone(c, o, past, log);
    }
  }

  lemma PrimariesDone(c: Codec, o: Options, past: seq<Event>, log: seq<Event>)
    requires UserHeld(o, past) && |log| == 1 && PrimarySigned(c, o.user, o.primaries, o.group, log[0])
    ensures UserDone(c, o, past + log)
  {
    UserDoneExtends(c, o, past, log);
    assert (past + log)[|past|] == log[0];
  }

  // ---- Step 3: the cosigners -----------------------------------------------

  lemma {:induction false} SafeCosignerGather(c: Codec, o: Options, past: seq<Event>, log: seq<Event>)
    requires Safe(c, o, past) && UserDone(c, o, past)
    requires GatherLog(log, Cosigner, o.group, SortByIndex(o.targets), o.routing, |o.group| - |o.dummies|, InfoOf(o))
    ensures Safe(c, o, past + log)
  {
    if log == [] {
      ConcatNothing(past);
    } else {
      var front, e := log[..|log| - 1], log[|log| - 1];
      CosignerAsked(log, o.group, SortByIndex(o.targets), o.routing, |o.group| - |o.dummies|, InfoOf(o));
      SafeCosignerGather(c, o, past, front);
      CosignerNext(c, o, past, front, e);
      ConcatLast(past, log);
    }
  }

  lemma CosignerNext(c: Codec, o: Options, past: seq<Event>, front: seq<Event>, e: Event)
    requires UserDone(c, o, past) && Safe(c, o, past + front)
    requires Asks(e, Cosigner, o.group, SortByIndex(o.targets), o.routing, |o.group| - |o.dummies|, InfoOf(o))
    ensures Safe(c, o, past + front + [e])
  {
    UserDoneExtends(c, o, past, front);
    SortedAsks(e, Cosigner, o.group, o.targets, o.routing, |o.group| - |o.dummies|, InfoOf(o));
    CosignerAppend(c, o, past + front, e);
  }

  lemma CosignerAppend(c: Codec, o: Options, past: seq<Event>, e: Event)
    requires Safe(c, o, past) && UserDone(c, o, past)
    requires Asks(e, Cosigner, o.group, o.targets, o.routing, |o.group| - |o.dummies|, InfoOf(o))
    ensures Safe(c, o, past + [e])
  {
    assert StepOk(c, o, past, e);
    SafeAppend(c, o, past, e);
  }

  method GatherCosigners(c: Codec, w: World, before: seq<Event>, o: Options, sorted: seq<Target>, past: seq<Event>)
    returns (log: seq<Event>, r: Result<map<int, Sourced>, Error>)
    requires w.Lawful() && sorted == SortByIndex(o.targets) && DistinctTargets(sorted)
    requires Safe(c, o, past) && UserDone(c, o, past)
    ensures Settled(log)
    ensures Safe(c, o, past + log)
    ensures r.Failure? ==> r.error == NoRoute || CallError(r.error)
    ensures r.Failure? ==> r.error == InvalidRequest || EndsFor(c, o, log, r.error)
    ensures Gatherable(o.group, o.dummies, Cosigner, sorted, o.routing) ==> r != Failure(InvalidRequest)
    ensures r.Success? ==> Gathered(log, Cosigner, sorted, o.routing, r.value)
  {
    log, r := GatherSignatures(
      w, before + past, o.group, o.dummies, Cosigner, sorted, o.routing, InfoOf(o));
    SafeCosignerGather(c, o, past, log);
    SortedMembers(o.targets);
  }

  // ---- Step 4: assembly ----------------------------------------------------

  function GuardedAssembly(t: Target, user: Sourced, cosigner: Sourced): AssemblyTarget {
    AssemblyTarget(
      t.index, Guarded, t.account, user.signature, user.requestId, t.runtimeArgs,
      [], [], "", "", cosigner.signature, cosigner.requestId)
  }

  /** The material an accepted reply leaves behind passes the assembly check. */
  lemma SourcedMaterial(past: seq<Event>, kind: ComponentKind, route: Route, index: int, s: Sourced)
    requires kind == User || kind == Cosigner
    requires Sources(past, kind, route, index, s)
    ensures s.signature != "" && IdOk(s.requestId)
  {
    var k :| 0 <= k < |past| && Provides(past[k], kind, route, index, s);
    var x :| x in past[k].components.body.components && x.index == index && x.kind == kind && x.signature == s.signature;
    assert ComponentOk(x);
  }

  lemma GuardedAssemblyOk(
    o: Options, past: seq<Event>, sorted: seq<Target>, user: map<int, Sourced>, cosigner: map<int, Sourced>, t: Target)
    requires Gathered(past, User, sorted, UserRoute(o.user), user)
    requires Gathered(past, Cosigner, sorted, o.routing, cosigner)
    requires t in sorted && t.account != ""
    ensures t.index in user && t.index in cosigner
    ensures
      var a := GuardedAssembly(t, user[t.index], cosigner[t.index]);
      AssemblyTargetOk(a) && BothSourced(o, past, a, t)
  {
    SourcedMaterial(past, User, Route(o.user, t.account), t.index, user[t.index]);
    SourcedMaterial(past, Cosigner, o.routing(t).value, t.index, cosigner[t.index]);
    var a := GuardedAssembly(t, user[t.index], cosigner[t.index]);
    assert user[t.index] == Sourced(a.userSignature, a.userSource);
    assert cosigner[t.index] == Sourced(a.cosignerSignature, a.cosignerSource);
  }

  method BuildTargets(sorted: seq<Target>, user: map<int, Sourced>, cosigner: map<int, Sourced>)
    returns (r: Option<seq<AssemblyTarget>>)
    ensures r.Some? <==> forall t :: t in sorted ==> t.index in user && t.index in cosigner
    ensures r.Some? ==> |r.value| == |sorted| && forall k :: 0 <= k < |sorted| ==>
      r.value[k] == GuardedAssembly(sorted[k], user[sorted[k].index], cosigner[sorted[k].index])
  {
    var built: seq<AssemblyTarget> := [];
    for k := 0 to |sorted|
      invariant |built| == k
      invariant forall j :: 0 <= j < k ==> sorted[j].index in user && sorted[j].index in cosigner
      invariant forall j :: 0 <= j < k ==> built[j] == GuardedAssembly(sorted[j], user[sorted[j].index], cosigner[sorted[j].index])
    {
      var t := sorted[k];
      assert t in sorted;
      if t.index !in user || t.index !in cosigner {
        return None;
      }
      built := built + [GuardedAssembly(t, user[t.index], cosigner[t.index])];
    }
    return Some(built);
  }

  /** Every position has exactly one role, and the caller's passthrough items are filled. */
  ghost predicate WellPlaced(o: Options) {
    && TargetsOk(o)
    && PrimariesPlaced(o)
    && ItemsPlaced(o)
    && AllPlaced(o)
    && SuffixOf(o.dummies, |o.group|)
    && (forall k :: 0 <= k < |o.targets| ==> o.targets[k].index < |o.group| - |o.dummies|)
    && (forall k :: 0 <= k < |o.passthrough| ==> o.passthrough[k].signedHex != "")
  }

  lemma PlacedIndices(o: Options, targets: seq<AssemblyTarget>, items: seq<PassthroughItem>, sorted: seq<Target>)
    requires WellPlaced(o) && sorted == SortByIndex(o.targets) && DistinctTargets(sorted)
    requires |targets| == |sorted| && forall k :: 0 <= k < |sorted| ==> targets[k].index == sorted[k].index
    requires |items| == |o.primaries| && forall k :: 0 <= k < |items| ==> items[k].index == o.primaries[k].index
    ensures Distinct(AssemblyIndices(targets)) && Distinct(PassthroughIndices(items)) && Distinct(PassthroughIndices(o.passthrough))
    ensures forall i :: i in AssemblyIndices(targets) <==> IsGuarded(o, i)
    ensures forall i :: i in PassthroughIndices(items) <==> IsPrimary(o, i)
    ensures forall i :: i in PassthroughIndices(o.passthrough) <==> IsPassed(o, i)
  {
    SortedMembers(o.targets);
    forall i | IsGuarded(o, i) ensures i in AssemblyIndices(targets) {
      var k :| 0 <= k < |o.targets| && o.targets[k].index == i;
      assert o.targets[k] in sorted;
      var j :| 0 <= j < |sorted| && sorted[j] == o.targets[k];
      assert AssemblyIndices(targets)[j] == i;
    }
    forall i | i in AssemblyIndices(targets) ensures IsGuarded(o, i) {
      var j :| 0 <= j < |sorted| && AssemblyIndices(targets)[j] == i;
      assert sorted[j] in o.targets;
    }
    forall i | IsPrimary(o, i) ensures i in PassthroughIndices(items) {
      var k :| 0 <= k < |o.primaries| && o.primaries[k].index == i;
      assert PassthroughIndices(items)[k] == i;
    }
    forall i | IsPassed(o, i) ensures i in PassthroughIndices(o.passthrough) {
      var k :| 0 <= k < |o.passthrough| && o.passthrough[k].index == i;
      assert PassthroughIndices(o.passthrough)[k] == i;
    }
  }

  lemma PlacedRoles(o: Options)
    requires WellPlaced(o)
    ensures forall i :: IsGuarded(o, i) || IsPrimary(o, i) || IsPassed(o, i) <==> 0 <= i < |o.group|
    ensures forall i :: !(IsGuarded(o, i) && IsPrimary(o, i)) && !(IsGuarded(o, i) && IsPassed(o, i)) && !(IsPrimary(o, i) && IsPassed(o, i))
  {
    forall k | 0 <= k < |o.targets| ensures 0 <= o.targets[k].index < |o.group| {
      assert GuardedTargetOk(o.group, o.targets[k]);
    }
    forall k | 0 <= k < |o.primaries| ensures PrimaryPlaced(o, o.primaries[k]) {}
    forall k | 0 <= k < |o.passthrough| ensures ItemPlaced(o, o.passthrough[k]) {}
  }

  lemma PlacedCovers(o: Options, targets: seq<AssemblyTarget>, items: seq<PassthroughItem>, sorted: seq<Target>)
    requires WellPlaced(o) && sorted == SortByIndex(o.targets) && DistinctTargets(sorted)
    requires |targets| == |sorted| && forall k :: 0 <= k < |sorted| ==> targets[k].index == sorted[k].index
    requires |items| == |o.primaries| && forall k :: 0 <= k < |items| ==> items[k].index == o.primaries[k].index
    ensures Covers(AssemblyIndices(targets) + PassthroughIndices(o.passthrough + items), |o.group|)
  {
    var a, b, d := AssemblyIndices(targets), PassthroughIndices(o.passthrough), PassthroughIndices(items);
    assert PassthroughIndices(o.passthrough + items) == b + d;
    PlacedIndices(o, targets, items, sorted);
    PlacedRoles(o);
    DistinctConcat(b, d);
    CoversConcat(a, b + d, |o.group|);
  }

  /** One assembly entry per target, in order, made of material that the log accounts for. */
  ghost predicate Built(o: Options, past: seq<Event>, targets: seq<AssemblyTarget>, sorted: seq<Target>) {
    && |targets| == |sorted|
    && forall k :: 0 <= k < |sorted| ==>
         && targets[k].index == sorted[k].index
         && AssemblyTargetOk(targets[k])
         && BothSourced(o, past, targets[k], sorted[k])
  }

  lemma PlacedRequestOk(
    c: Codec, o: Options, past: seq<Event>, r: AssemblyRequest, items: seq<PassthroughItem>, sorted: seq<Target>)
    requires WellPlaced(o) && sorted == SortByIndex(o.targets) && DistinctTargets(sorted)
    requires IdOk(r.requestId) && r.group == o.group && r.passthrough == Bare(o.passthrough + items)
    requires Built(o, past, r.targets, sorted) && PrimaryItems(c, o.primaries, o.group, items)
    ensures AssemblyRequestOk(r)
  {
    PlacedCovers(o, r.targets, items, sorted);
  }

  /** Sends the assembly; the log is the one exchange, or nothing if the request fails its own check. */
  method SendAssembly(
    c: Codec, w: World, before: seq<Event>, o: Options, sorted: seq<Target>, past: seq<Event>,
    targets: seq<AssemblyTarget>, items: seq<PassthroughItem>)
    returns (log: seq<Event>, r: Result<AssemblyResponse, Error>)
    requires w.Lawful() && sorted == SortByIndex(o.targets) && DistinctTargets(sorted)
    requires Safe(c, o, past) && UserDone(c, o, past)
    requires Built(o, past, targets, sorted)
    requires PrimaryItems(c, o.primaries, o.group, items)
    ensures Safe(c, o, past + log) && Settled(log)
    ensures r.Failure? ==> CallError(r.error) && (r.error == InvalidRequest || EndsFor(c, o, log, r.error))
    ensures WellPlaced(o) && IdOk(o.assemblyId) ==> r != Failure(InvalidRequest)
    ensures r.Success? ==>
      |log| == 1 && log[0].Assembled? && log[0].assembly.group == o.group && log[0].group == Answer(r.value)
  {
    var unnamed := AssemblyRequest(o.assemblyId, o.group, targets, o.passthrough + items);
    var request;
    log, request, r := RequestAssemble(w, before + past, o.user, unnamed);
    if WellPlaced(o) && IdOk(o.assemblyId) {
      ChosenIdOk(w, before + past, o.assemblyId);
      PlacedRequestOk(c, o, past, request, items, sorted);
    }
    if AssemblyRequestOk(request) {
      AssembleSafe(c, o, past, log[0], sorted, items);
      assert log == [log[0]];
    } else {
      ConcatNothing(past);
    }
  }

  method Assemble(
    c: Codec, w: World, before: seq<Event>, o: Options, sorted: seq<Target>, past: seq<Event>,
    targets: seq<AssemblyTarget>, items: seq<PassthroughItem>)
    returns (log: seq<Event>, r: Result<seq<string>, Error>)
    requires w.Lawful() && sorted == SortByIndex(o.targets) && DistinctTargets(sorted)
    requires Safe(c, o, past) && UserDone(c, o, past)
    requires Built(o, past, targets, sorted)
    requires PrimaryItems(c, o.primaries, o.group, items)
    ensures Settled(log)
    ensures Safe(c, o, past + log)
    ensures r.Failure? ==> CallError(r.error) && (r.error == InvalidRequest || EndsFor(c, o, log, r.error))
    ensures WellPlaced(o) && IdOk(o.assemblyId) ==> r != Failure(InvalidRequest)
    ensures r.Success? ==> EndsAssembled(log, r.value)
    ensures r.Success? ==> Verified(c, o.group, r.value)
  {
    var reply;
    log, reply := SendAssembly(c, w, before, o, sorted, past, targets, items);
    if reply.Failure? {
      return log, Failure(reply.error);
    }
    var verified := VerifyAssembledGroup(c, o.group, reply.value.signedGroup);
    if !verified {
      UnverifiedEnds(c, o, log);
      return log, Failure(BadReply);
    }
    r := Success(reply.value.signedGroup);
  }

  lemma UnverifiedEnds(c: Codec, o: Options, log: seq<Event>)
    requires |log| == 1 && log[0].Assembled? && log[0].assembly.group == o.group && log[0].group.Answer?
    requires !Verified(c, o.group, log[0].group.body.signedGroup)
    ensures EndsFor(c, o, log, BadReply)
  {
    assert Unusable(c, o.primaries, log[0]);
  }

  lemma BareGiven(given: seq<PassthroughItem>, more: seq<PassthroughItem>, r: AssemblyRequest)
    requires r.passthrough == Bare(given + more)
    ensures PassedOn(given, r)
  {
    forall item | item in given
      ensures exists x :: x in r.passthrough && x.index == item.index && x.signedHex == item.signedHex
    {
      var k :| 0 <= k < |given| && given[k] == item;
      assert (given + more)[k] == item;
      assert r.passthrough[k] in r.passthrough;
    }
  }

  lemma AssembleSafe(c: Codec, o: Options, past: seq<Event>, e: Event, sorted: seq<Target>, items: seq<PassthroughItem>)
    requires Safe(c, o, past) && UserDone(c, o, past) && e.Assembled? && e.to == o.user
    requires e.assembly.group == o.group && AssemblyRequestOk(e.assembly)
    requires e.assembly.passthrough == Bare(o.passthrough + items) && PrimaryItems(c, o.primaries, o.group, items)
    requires sorted == SortByIndex(o.targets) && Built(o, past, e.assembly.targets, sorted)
    ensures Safe(c, o, past + [e])
  {
    assert o.passthrough + items == o.passthrough + items + [];
    BarePassed(c, o.primaries, o.passthrough, items, [], e.assembly);
    BareGiven(o.passthrough, items, e.assembly);
    AssembleStep(c, o, past, e, sorted);
    SafeAppend(c, o, past, e);
  }

  lemma AssembleStep(c: Codec, o: Options, past: seq<Event>, e: Event, sorted: seq<Target>)
    requires e.Assembled? && e.to == o.user && UserDone(c, o, past)
    requires e.assembly.group == o.group && AssemblyRequestOk(e.assembly)
    requires PrimariesPassed(c, o.primaries, e.assembly) && PassedOn(o.passthrough, e.assembly)
    requires sorted == SortByIndex(o.targets) && |e.assembly.targets| == |sorted|
    requires forall k :: 0 <= k < |sorted| ==> BothSourced(o, past, e.assembly.targets[k], sorted[k])
    ensures StepOk(c, o, past, e)
  {
    SortedMembers(o.targets);
    forall a | a in e.assembly.targets ensures exists t :: t in o.targets && BothSourced(o, past, a, t) {
      var k :| 0 <= k < |sorted| && e.assembly.targets[k] == a;
      assert sorted[k] in o.targets;
    }
  }
}
