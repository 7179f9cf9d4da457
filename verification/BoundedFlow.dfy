/**
 The user-first choreography for bounded-cosigner groups: plan, freeze, collect the
 user's components, sign the primary slots, and only then involve a cosigner.
 */
module BoundedFlow {
  import opened Basics
  import opened Transactions
  import opened Requests
  import opened Exchange
  import opened Gathering
  import opened Prepared
  import opened PrimarySlots
  import opened Roles
  import opened BoundedRoles
  import opened Plan
  import Hex

  /** Everything fixed before the first message. */
  datatype Job = Job(user: Client, originals: seq<Txn>, roles: Roles, routing: Routing)
  {
    ghost predicate Ok() {
      RolesOk(roles) && |originals| == |roles.entries|
    }
  }

  // ---- What a log says -----------------------------------------------------

  /** `group` is an acceptable, canonical plan within the advertised fees. */
  ghost predicate GoodPlan(c: Codec, job: Job, group: seq<string>, report: Option<MutationReport>, planned: seq<Txn>) {
    && CanonicalGroup(c, group, planned)
    && Acceptable(c, job.originals, planned, report)
    && FeesWithin(planned, job.roles.maxFees)
  }

  /** The log opens with the user signer's plan, answered with `group`, and that plan is good. */
  ghost predicate Frozen(c: Codec, job: Job, past: seq<Event>, group: seq<string>) {
    && past != []
    && past[0].Planned?
    && past[0].to == job.user
    && past[0].entries == job.roles.entries
    && past[0].plan.Answer?
    && past[0].plan.body.transactions == group
    && exists planned :: GoodPlan(c, job, group, past[0].plan.body.mutations, planned)
  }

  ghost predicate BaseComponentFor(t: Target, c: Component) {
    && c.index == t.index
    && c.kind == BoundedBase
    && c.authAddress == t.account
    && ComponentOk(c)
  }

  /** The user signer released a base component for every target, under the target's own account. */
  ghost predicate BaseExchange(job: Job, e: Event) {
    && e.Components?
    && e.to == job.user
    && e.components.Answer?
    && Accepted(e.request, e.components.body)
    && forall t :: t in job.roles.targets ==> exists x :: x in e.components.body.components && BaseComponentFor(t, x)
  }

  ghost predicate BaseHeld(job: Job, past: seq<Event>) {
    exists k :: 0 <= k < |past| && BaseExchange(job, past[k])
  }

  ghost predicate UserSideDone(c: Codec, job: Job, past: seq<Event>, group: seq<string>) {
    && BaseHeld(job, past)
    && (job.roles.primaries == [] || exists k :: 0 <= k < |past| && PrimarySigned(c, job.user, job.roles.primaries, group, past[k]))
  }

  /** An assembly target repeats one base component and one cosigner signature, each from a reply in the log. */
  ghost predicate FromReplies(job: Job, past: seq<Event>, a: AssemblyTarget, t: Target) {
    && a.index == t.index
    && a.kind == BoundedCosigner
    && a.authAddress == t.account
    && (exists k :: 0 <= k < |past| && BaseSource(job, past[k], a, t))
    && job.routing(t).Some?
    && Sources(past, Cosigner, job.routing(t).value, t.index, Sourced(a.cosignerSignature, a.cosignerSource))
  }

  ghost predicate BaseSource(job: Job, e: Event, a: AssemblyTarget, t: Target) {
    && BaseExchange(job, e)
    && a.baseSource == e.request.requestId
    && exists x ::
         && x in e.components.body.components
         && BaseComponentFor(t, x)
         && a.baseSignatures == x.baseSignatures
         && a.receipt == x.receipt
         && a.boundedArgs == x.runtimeArgs
  }

  /** The app-call information of every prepared slot, as the plan request gave it. */
  function PlannedInfo(roles: Roles): map<int, Pairs> {
    map i | 0 <= i < |roles.entries| :: roles.entries[i].appCallInfo
  }

  predicate UnderAccount(roles: Roles, t: ComponentTarget) {
    && (exists k :: 0 <= k < |roles.targets| && roles.targets[k].index == t.index && roles.targets[k].account == t.authAddress)
    && 0 <= t.index < |roles.entries|
    && t.lsigArgs == roles.entries[t.index].lsigArgs && t.appCallInfo == roles.entries[t.index].appCallInfo
  }

  predicate ContextFrom(roles: Roles, p: ContextPosition) {
    && 0 <= p.index < |roles.entries|
    && var entry := roles.entries[p.index];
    p == ContextPosition(p.index, entry.resources, entry.pqScheme, entry.appCallInfo)
  }

  /** A request to the user signer for base components: every other prepared slot is described as planned. */
  ghost predicate AsksBase(job: Job, to: Client, request: ComponentRequest) {
    && to == job.user
    && (forall t :: t in request.targets ==> t.kind == BoundedBase && UnderAccount(job.roles, t))
    && (forall p :: p in request.context ==> ContextFrom(job.roles, p))
    && |request.group| - |request.dummies| == |job.originals|
  }

  /** Every slot that is not primary is declared with the resources it was planned by. */
  ghost predicate DeclaresRest(roles: Roles, entries: seq<SignEntry>) {
    && (forall t :: t in roles.targets ==> 0 <= t.index < |entries| && ForeignEntry(entries[t.index], t.resources, ""))
    && (forall i :: |roles.entries| <= i < |entries| ==> ForeignEntry(entries[i], Some(DUMMY_RESOURCES), ""))
  }

  /** What must already have happened for the client to send `e`. */
  ghost predicate StepOk(c: Codec, job: Job, past: seq<Event>, e: Event) {
    match e
    case Planned(to, entries, _) => past == [] && to == job.user && entries == job.roles.entries
    case Cancelled(to, _) => to == job.user && CancelsLast(e, past)
    case Components(to, request, _) =>
      && Frozen(c, job, past, request.group)
      && ComponentRequestOk(request)
      && if request.targets[0].kind == BoundedBase then
           AsksBase(job, to, request)
         else UserSideDone(c, job, past, request.group) && Asks(e, Cosigner, request.group, job.roles.targets, job.routing, |job.roles.entries|, PlannedInfo(job.roles))
    case Signed(to, _, entries, _) =>
      && to == job.user
      && BaseHeld(job, past)
      && SignsOnly(entries, job.roles.primaries)
      && DeclaresRest(job.roles, entries)
      && exists group :: Frozen(c, job, past, group) && Carries(entries, group)
    case Assembled(to, request, _) =>
      && to == job.user
      && Frozen(c, job, past, request.group)
      && UserSideDone(c, job, past, request.group)
      && AssemblyRequestOk(request)
      && |request.targets| == |job.roles.targets|
      && PrimariesPassed(c, job.roles.primaries, request)
      && (exists planned ::
            SlotsHold(c, request.group, planned) && DummiesPassed(c, planned, |job.originals|, request))
      && (forall a :: a in request.targets ==> exists t :: t in job.roles.targets && FromReplies(job, past, a, t))
  }

  /** Exactly the targets, each once and under its own account. */
  ghost predicate BaseUsable(job: Job, components: seq<Component>) {
    && DistinctComponents(components)
    && AllNamed(job, components)
    && (forall t :: t in job.roles.targets ==> exists k :: 0 <= k < |components| && components[k].index == t.index)
  }

  ghost predicate AllNamed(job: Job, components: seq<Component>) {
    forall k :: 0 <= k < |components| ==> exists t :: t in job.roles.targets && BaseNames(t, components[k])
  }

  predicate BaseNames(t: Target, x: Component) {
    t.index == x.index && x.kind == BoundedBase && x.authAddress == t.account
  }

  /** A request for base components that was answered. */
  predicate BaseAnswered(e: Event) {
    e.Components? && e.request.targets != [] && e.request.targets[0].kind == BoundedBase && e.components.Answer?
  }

  /** Why a run ended with `e`: what the last request came back with, or a target without a cosigner. */
  ghost predicate Cause(c: Codec, job: Job, last: Event, e: Error) {
    || Explains(last, e)
    || (e == BadReply && Unusable(c, job.roles.primaries, last))
    || (e == BadReply && BaseAnswered(last) && !BaseUsable(job, last.components.body.components))
    || (e == NoRoute && exists t :: t in job.roles.targets && job.routing(t).None?)
    || (e == BadPlan && last.Planned? && last.plan.Answer?
        && forall planned :: !GoodPlan(c, job, last.plan.body.transactions, last.plan.body.mutations, planned))
  }

  /** A cosigner reply the client accepts is never blamed. */
  lemma AcceptedCosignerIsNoCause(c: Codec, job: Job, last: Event, group: seq<string>, e: Error)
    requires Asks(last, Cosigner, group, job.roles.targets, job.routing, |job.roles.entries|, PlannedInfo(job.roles))
    requires last.components.Answer? && Accepted(last.request, last.components.body)
    ensures Cause(c, job, last, e) <==> e == NoRoute && exists t :: t in job.roles.targets && job.routing(t).None?
  {
    assert last.request.targets[0] in last.request.targets;
  }

  ghost predicate EndsFor(c: Codec, job: Job, log: seq<Event>, e: Error) {
    log != [] && !log[0].Cancelled? && Cause(c, job, LastRequest(log), e)
  }

  lemma EndsForConcat(c: Codec, job: Job, past: seq<Event>, log: seq<Event>, e: Error)
    requires EndsFor(c, job, log, e) && (past == [] || !past[0].Cancelled?)
    ensures EndsFor(c, job, past + log, e)
  {
    LastRequestConcat(past, log);
    assert (past + log)[0] == (if past == [] then log[0] else past[0]);
  }

  /** Every message of the log, answered or not, was sent at the right moment with the right content. */
  ghost predicate Safe(c: Codec, job: Job, log: seq<Event>) {
    log == [] || (Safe(c, job, log[..|log| - 1]) && StepOk(c, job, log[..|log| - 1], log[|log| - 1]))
  }

  lemma SafeAppend(c: Codec, job: Job, log: seq<Event>, e: Event)
    requires Safe(c, job, log) && StepOk(c, job, log, e)
    ensures Safe(c, job, log + [e])
  {
    var all := log + [e];
    assert all[..|all| - 1] == log;
  }

  lemma {:induction false} SafePrefix(c: Codec, job: Job, log: seq<Event>, n: nat)
    requires Safe(c, job, log) && n <= |log|
    ensures Safe(c, job, log[..n])
  {
    if n < |log| {
      var front := log[..|log| - 1];
      SafePrefix(c, job, front, n);
      assert front[..n] == log[..n];
    } else {
      assert log[..n] == log;
    }
  }

  /** A safe log is safe at each of its messages. */
  lemma {:induction false} SafeAt(c: Codec, job: Job, log: seq<Event>, k: nat)
    requires Safe(c, job, log) && k < |log|
    ensures StepOk(c, job, log[..k], log[k])
  {
    SafePrefix(c, job, log, k + 1);
    var upTo := log[..k + 1];
    assert upTo[..k] == log[..k] && upTo[k] == log[k];
  }

  lemma CancelAppend(c: Codec, job: Job, past: seq<Event>, e: Event)
    requires Safe(c, job, past) && e.to == job.user && CancelsLast(e, past)
    ensures Safe(c, job, past + [e])
  {
    assert StepOk(c, job, past, e);
    SafeAppend(c, job, past, e);
  }

  /** The request just sent, with the cancellation that may follow it. */
  lemma SafeSend(c: Codec, job: Job, past: seq<Event>, log: seq<Event>)
    requires Safe(c, job, past) && 1 <= |log| <= 2 && StepOk(c, job, past, log[0])
    requires |log| == 2 ==> log[1].to == job.user && CancelsLast(log[1], past + [log[0]])
    ensures Safe(c, job, past + log)
  {
    SafeAppend(c, job, past, log[0]);
    ConcatFirst(past, log);
    if |log| == 2 {
      CancelAppend(c, job, past + [log[0]], log[1]);
      assert log[1..] == [log[1]];
    } else {
      assert log[1..] == [];
      ConcatNothing(past + [log[0]]);
    }
  }

  lemma SignStep(c: Codec, job: Job, past: seq<Event>, e: Event, group: seq<string>)
    requires e.Signed? && e.to == job.user && BaseHeld(job, past)
    requires Frozen(c, job, past, group) && Carries(e.entries, group) && SignsOnly(e.entries, job.roles.primaries)
    requires DeclaresRest(job.roles, e.entries)
    ensures StepOk(c, job, past, e)
  {
  }

  lemma SignSafe(c: Codec, job: Job, past: seq<Event>, log: seq<Event>, group: seq<string>)
    requires Safe(c, job, past) && Frozen(c, job, past, group) && BaseHeld(job, past)
    requires 1 <= |log| <= 2 && log[0].Signed? && log[0].to == job.user
    requires Carries(log[0].entries, group) && SignsOnly(log[0].entries, job.roles.primaries)
    requires DeclaresRest(job.roles, log[0].entries)
    requires |log| == 2 ==> log[1].to == job.user && CancelsLast(log[1], past + [log[0]])
    ensures Safe(c, job, past + log)
  {
    SignStep(c, job, past, log[0], group);
    SafeSend(c, job, past, log);
  }

  lemma CosignerStep(c: Codec, job: Job, past: seq<Event>, e: Event, group: seq<string>)
    requires Frozen(c, job, past, group) && UserSideDone(c, job, past, group)
    requires Asks(e, Cosigner, group, job.roles.targets, job.routing, |job.roles.entries|, PlannedInfo(job.roles))
    ensures StepOk(c, job, past, e)
  {
    assert e.request.targets[0] in e.request.targets;
  }

  lemma FrozenExtends(c: Codec, job: Job, past: seq<Event>, more: seq<Event>, group: seq<string>)
    requires Frozen(c, job, past, group)
    ensures Frozen(c, job, past + more, group)
  {
    assert (past + more)[0] == past[0];
  }

  lemma UserSideExtends(c: Codec, job: Job, past: seq<Event>, more: seq<Event>, group: seq<string>)
    ensures BaseHeld(job, past) ==> BaseHeld(job, past + more)
    ensures UserSideDone(c, job, past, group) ==> UserSideDone(c, job, past + more, group)
  {
    var all := past + more;
    assert forall k :: 0 <= k < |past| ==> all[k] == past[k];
  }

  // ---- Step 1: plan and freeze ---------------------------------------------

  datatype FrozenGroup = FrozenGroup(group: seq<string>, planned: seq<Txn>, report: Option<MutationReport>)

  method FreezePlan(c: Codec, w: World, job: Job) returns (log: seq<Event>, r: Result<FrozenGroup, Error>)
    requires c.Lawful() && w.Lawful() && job.Ok()
    ensures Settled(log)
    ensures Safe(c, job, log)
    ensures |log| == 1
    ensures r.Failure? ==> r.error == BadPlan || (CallError(r.error) && r.error != InvalidRequest)
    ensures r.Failure? ==> EndsFor(c, job, log, r.error)
    ensures r.Success? ==>
      && Frozen(c, job, log, r.value.group)
      && GoodPlan(c, job, r.value.group, r.value.report, r.value.planned)
      && log[0].plan.body.mutations == r.value.report
  {
    PlanEntriesOk(job.roles);
    var sent, reply := PlanRequests(w, [], job.user, job.roles.entries);
    log := sent;
    SafeAppend(c, job, [], log[0]);
    assert [] + [log[0]] == log;
    if reply.Failure? {
      return log, Failure(reply.error);
    }
    var group, report := reply.value.transactions, reply.value.mutations;
    var decoded := DecodeCanonicalGroup(c, group);
    if decoded.None? {
      return log, Failure(BadPlan);
    }
    forall planned | CanonicalGroup(c, group, planned) ensures planned == decoded.value {
      SlotsUnique(c, group, planned, decoded.value);
    }
    var ok := ValidatePlan(c, job.originals, decoded.value, report);
    if !ok {
      return log, Failure(BadPlan);
    }
    var affordable := ValidateTargetFees(decoded.value, job.roles.maxFees);
    if !affordable {
      return log, Failure(BadPlan);
    }
    assert GoodPlan(c, job, group, report, decoded.value);
    r := Success(FrozenGroup(group, decoded.value, report));
  }

  /** A good plan is a group every component and assembly request may carry. */
  lemma GoodPlanGroup(c: Codec, job: Job, group: seq<string>, report: Option<MutationReport>, planned: seq<Txn>)
    requires GoodPlan(c, job, group, report, planned)
    ensures GroupOk(group) && |group| == |planned| && |job.originals| <= |group|
  {
    forall i | 0 <= i < |group| ensures group[i] != "" {
      assert Hex.Decode(group[i], c.skipsSpace) == Some(c.SignedBytes(planned[i]));
      assert c.SignedBytes(planned[i])[0] == 84;
    }
  }

  // ---- Step 2: the user's base components ----------------------------------

  /** The bounded positions as targets, every other original position as context. */
  ghost predicate BaseSplit(roles: Roles, n: nat, targets: seq<ComponentTarget>, context: seq<ContextPosition>) {
    && Distinct(TargetIndices(targets))
    && Distinct(ContextIndices(context))
    && (forall k :: k in TargetIndices(targets) <==> 0 <= k < n && IsTarget(roles, k))
    && (forall k :: k in ContextIndices(context) <==> 0 <= k < n && !IsTarget(roles, k))
    && (forall k :: 0 <= k < |targets| ==> BaseTargetOk(roles, targets[k]))
    && (forall k :: 0 <= k < |context| ==> ContextOk(context[k]) && ContextFrom(roles, context[k]))
  }

  predicate BaseTargetOk(roles: Roles, t: ComponentTarget) {
    t.kind == BoundedBase && t.authAddress != "" && t.componentKey == "" && UnderAccount(roles, t)
  }

  method SplitPositions(roles: Roles) returns (targets: seq<ComponentTarget>, context: seq<ContextPosition>)
    requires RolesOk(roles)
    ensures BaseSplit(roles, |roles.entries|, targets, context)
  {
    targets, context := [], [];
    for i := 0 to |roles.entries|
      invariant BaseSplit(roles, i, targets, context)
    {
      var entry := roles.entries[i];
      EntryRole(roles, i);
      if IsTarget(roles, i) {
        var target := ComponentTarget(i, BoundedBase, entry.authAddress, "", entry.lsigArgs, entry.appCallInfo);
        assert TargetIndices(targets + [target]) == TargetIndices(targets) + [i];
        targets := targets + [target];
      } else {
        var position := ContextPosition(i, entry.resources, entry.pqScheme, entry.appCallInfo);
        assert ContextIndices(context + [position]) == ContextIndices(context) + [i];
        context := context + [position];
      }
    }
  }

  method BuildBaseRequest(roles: Roles, group: seq<string>) returns (request: ComponentRequest)
    requires RolesOk(roles) && GroupOk(group) && |roles.entries| <= |group|
    ensures request.requestId == "" && request.group == group
    ensures forall id :: IdOk(id) ==> ComponentRequestOk(request.(requestId := id))
    ensures request.targets != [] && forall t :: t in request.targets ==> t.kind == BoundedBase && UnderAccount(roles, t)
    ensures forall p :: p in request.context ==> ContextFrom(roles, p)
    ensures |group| - |request.dummies| == |roles.entries|
  {
    var targets, context := SplitPositions(roles);
    request := ComponentRequest("", group, targets, context, DummyPositions(|roles.entries|, |group|));
    CoversConcat(TargetIndices(targets), ContextIndices(context), |roles.entries|);
    assert TargetFits(roles, roles.targets[0]);
    assert roles.targets[0].index in TargetIndices(targets);
  }

  lemma EntryRole(roles: Roles, i: nat)
    requires RolesOk(roles) && i < |roles.entries|
    ensures IsTarget(roles, i) ==> roles.entries[i].authAddress != ""
    ensures IsTarget(roles, i) ==> exists k ::
      0 <= k < |roles.targets| && roles.targets[k].index == i && roles.targets[k].account == roles.entries[i].authAddress
    ensures !IsTarget(roles, i) ==> EntryMode(roles.entries[i]) == Some(Foreign) && EntryOk(roles.entries[i])
  {
    if IsTarget(roles, i) {
      var k :| 0 <= k < |roles.targets| && roles.targets[k].index == i;
      assert TargetFits(roles, roles.targets[k]);
    } else {
      var k :| 0 <= k < |roles.primaries| && roles.primaries[k].index == i;
      assert PrimaryFits(roles, roles.primaries[k]);
    }
  }

  /** The components kept, one per target, each as the user signer returned it. */
  ghost predicate Kept(job: Job, e: Event, components: map<int, Component>)
    requires e.Components? && e.components.Answer?
  {
    forall t :: t in job.roles.targets ==>
      && t.index in components
      && components[t.index] in e.components.body.components
      && BaseComponentFor(t, components[t.index])
  }

  method NamesTarget(job: Job, x: Component) returns (ok: bool)
    ensures ok <==> exists t :: t in job.roles.targets && BaseNames(t, x)
  {
    ok := exists j :: 0 <= j < |job.roles.targets| && BaseNames(job.roles.targets[j], x);
    assert forall j :: 0 <= j < |job.roles.targets| ==> job.roles.targets[j] in job.roles.targets;
  }

  method AllKept(job: Job, kept: map<int, Component>) returns (ok: bool)
    ensures ok <==> forall t :: t in job.roles.targets ==> t.index in kept
  {
    for j := 0 to |job.roles.targets|
      invariant forall k :: 0 <= k < j ==> job.roles.targets[k].index in kept
    {
      if job.roles.targets[j].index !in kept {
        return false;
      }
    }
    return true;
  }

  /** What has been kept of the components so far. */
  ghost predicate KeptSoFar(job: Job, components: seq<Component>, kept: map<int, Component>) {
    && DistinctComponents(components)
    && (forall i :: i in kept <==> exists j :: 0 <= j < |components| && components[j].index == i)
    && (forall j :: 0 <= j < |components| ==> kept[components[j].index] == components[j])
    && AllNamed(job, components)
  }

  lemma KeepOne(job: Job, components: seq<Component>, kept: map<int, Component>, x: Component)
    requires KeptSoFar(job, components, kept) && x.index !in kept
    requires exists t :: t in job.roles.targets && BaseNames(t, x)
    ensures KeptSoFar(job, components + [x], kept[x.index := x])
  {
    var all, more := components + [x], kept[x.index := x];
    forall i ensures i in more <==> exists j :: 0 <= j < |all| && all[j].index == i {
      assert all[|components|].index == x.index;
      if i in kept {
        var j :| 0 <= j < |components| && components[j].index == i;
        assert all[j].index == i;
      }
    }
  }

  lemma KeptServes(job: Job, components: seq<Component>, kept: map<int, Component>, t: Target)
    requires job.Ok() && KeptSoFar(job, components, kept) && t in job.roles.targets && t.index in kept
    requires forall k :: 0 <= k < |components| ==> ComponentOk(components[k])
    ensures kept[t.index] in components && BaseComponentFor(t, kept[t.index])
  {
    var j :| 0 <= j < |components| && components[j].index == t.index;
    var u :| u in job.roles.targets && BaseNames(u, components[j]);
    SameTarget(job.roles.targets, t, u);
  }

  method KeepEach(job: Job, components: seq<Component>) returns (r: Option<map<int, Component>>)
    ensures r.Some? <==> DistinctComponents(components) && AllNamed(job, components)
    ensures r.Some? ==> KeptSoFar(job, components, r.value)
  {
    var kept: map<int, Component> := map[];
    for k := 0 to |components|
      invariant KeptSoFar(job, components[..k], kept)
    {
      var x := components[k];
      assert components[..k + 1] == components[..k] + [x];
      var named := NamesTarget(job, x);
      if !named {
        return None;
      }
      if x.index in kept {
        var j :| 0 <= j < k && components[..k][j].index == x.index;
        assert components[j].index == components[k].index;
        return None;
      }
      KeepOne(job, components[..k], kept, x);
      kept := kept[x.index := x];
    }
    assert components[..|components|] == components;
    return Some(kept);
  }

  method KeepComponents(job: Job, components: seq<Component>) returns (r: Option<map<int, Component>>)
    requires job.Ok()
    requires forall k :: 0 <= k < |components| ==> ComponentOk(components[k])
    ensures r.Some? <==> BaseUsable(job, components)
    ensures r.Some? ==> forall t :: t in job.roles.targets ==>
      && t.index in r.value
      && r.value[t.index] in components
      && BaseComponentFor(t, r.value[t.index])
  {
    r := KeepEach(job, components);
    if r.Some? {
      var all := AllKept(job, r.value);
      if all {
        forall t | t in job.roles.targets ensures r.value[t.index] in components && BaseComponentFor(t, r.value[t.index]) {
          KeptServes(job, components, r.value, t);
        }
      } else {
        r := None;
      }
    }
  }

  lemma BaseStep(c: Codec, job: Job, past: seq<Event>, e: Event, group: seq<string>)
    requires e.Components? && ComponentRequestOk(e.request) && e.request.group == group
    requires Frozen(c, job, past, group) && AsksBase(job, e.to, e.request)
    ensures StepOk(c, job, past, e)
  {
    assert e.request.targets[0] in e.request.targets;
  }

  lemma BaseSafe(c: Codec, job: Job, past: seq<Event>, log: seq<Event>, group: seq<string>, unnamed: ComponentRequest)
    requires Safe(c, job, past) && Frozen(c, job, past, group)
    requires AsksBase(job, job.user, unnamed) && unnamed.group == group
    requires 1 <= |log| <= 2 && log[0].Components? && log[0].to == job.user && ComponentRequestOk(log[0].request)
    requires log[0].request == unnamed.(requestId := log[0].request.requestId)
    requires |log| == 2 ==> log[1].to == job.user && CancelsLast(log[1], past + [log[0]])
    ensures Safe(c, job, past + log)
  {
    assert AsksBase(job, log[0].to, log[0].request);
    BaseStep(c, job, past, log[0], group);
    SafeSend(c, job, past, log);
  }

  lemma BaseRequest(job: Job, group: seq<string>, request: ComponentRequest)
    requires job.Ok() && request.targets != [] && request.group == group
    requires forall t :: t in request.targets ==> t.kind == BoundedBase && UnderAccount(job.roles, t)
    requires forall p :: p in request.context ==> ContextFrom(job.roles, p)
    requires |group| - |request.dummies| == |job.roles.entries|
    ensures AsksBase(job, job.user, request) && request.targets[0].kind == BoundedBase
  {
    assert request.targets[0] in request.targets;
  }

  /** Sends the base request; the log is the exchange, and perhaps its cancellation. */
  method AskBase(c: Codec, w: World, job: Job, past: seq<Event>, f: FrozenGroup)
    returns (log: seq<Event>, r: Result<ComponentResponse, Error>)
    requires c.Lawful() && w.Lawful() && job.Ok()
    requires Safe(c, job, past) && Frozen(c, job, past, f.group)
    requires GoodPlan(c, job, f.group, f.report, f.planned)
    ensures Settled(log)
    ensures Safe(c, job, past + log)
    ensures r.Failure? ==> CallError(r.error) && r.error != InvalidRequest && EndsFor(c, job, log, r.error)
    ensures r.Success? ==>
      && |log| == 1 && log[0].Components? && log[0].to == job.user
      && log[0].components == Answer(r.value) && Accepted(log[0].request, r.value) && BaseAnswered(log[0])
  {
    GoodPlanGroup(c, job, f.group, f.report, f.planned);
    var unnamed := BuildBaseRequest(job.roles, f.group);
    BaseRequest(job, f.group, unnamed);
    ChosenIdOk(w, past, "");
    var request;
    log, request, r := RequestComponents(w, past, job.user, unnamed);
    BaseSafe(c, job, past, log, f.group, unnamed);
  }

  method CollectBase(c: Codec, w: World, job: Job, past: seq<Event>, f: FrozenGroup)
    returns (log: seq<Event>, r: Result<map<int, Component>, Error>)
    requires c.Lawful() && w.Lawful() && job.Ok()
    requires Safe(c, job, past) && Frozen(c, job, past, f.group)
    requires GoodPlan(c, job, f.group, f.report, f.planned)
    ensures Settled(log)
    ensures Safe(c, job, past + log)
    ensures r.Failure? ==> CallError(r.error) && r.error != InvalidRequest && EndsFor(c, job, log, r.error)
    ensures r.Success? ==> |log| == 1 && BaseExchange(job, log[0]) && Kept(job, log[0], r.value)
  {
    var reply;
    log, reply := AskBase(c, w, job, past, f);
    if reply.Failure? {
      return log, Failure(reply.error);
    }
    var kept := KeepComponents(job, reply.value.components);
    if kept.None? {
      return log, Failure(BadReply);
    }
    assert BaseExchange(job, log[0]);
    r := Success(kept.value);
  }

  // ---- Step 3: the primary slots -------------------------------------------

  /** The `/sign` entry of slot i: a primary slot under its own authority, any other slot foreign and as planned. */
  ghost predicate EntryAt(roles: Roles, group: seq<string>, i: nat, e: SignEntry)
    requires i < |group|
  {
    && e.txnHex == group[i]
    && EntryOk(e)
    && EntryMode(e) == Some(if IsPrimary(roles, i) && !IsTarget(roles, i) then Sign else Foreign)
    && (forall p :: p in roles.primaries && p.index == i ==> e == PrimaryEntry(p, e.txnHex))
    && (forall t :: t in roles.targets && t.index == i ==> ForeignEntry(e, t.resources, ""))
    && (i >= |roles.entries| ==> ForeignEntry(e, Some(DUMMY_RESOURCES), ""))
  }

  method PrimaryEntryAt(roles: Roles, group: seq<string>, i: nat) returns (e: SignEntry)
    requires RolesOk(roles) && GroupOk(group) && i < |group|
    ensures EntryAt(roles, group, i, e)
  {
    if i >= |roles.entries| {
      NoRoleOutside(roles, i);
      e := SignEntry(group[i], "", "", "", [], [], Some(DUMMY_RESOURCES), "");
    } else if IsTarget(roles, i) {
      var k :| 0 <= k < |roles.targets| && roles.targets[k].index == i;
      assert TargetFits(roles, roles.targets[k]);
      forall p | p in roles.primaries ensures p.index != i {
        PrimaryIsNoTarget(roles, p);
      }
      e := SignEntry(group[i], "", "", "", [], [], roles.targets[k].resources, "");
    } else {
      assert IsPrimary(roles, i);
      var k :| 0 <= k < |roles.primaries| && roles.primaries[k].index == i;
      var p := roles.primaries[k];
      assert PrimaryFits(roles, p) && p in roles.primaries;
      e := PrimaryEntry(p, group[i]);
    }
  }

  method BuildPrimaryEntries(roles: Roles, group: seq<string>) returns (entries: seq<SignEntry>)
    requires RolesOk(roles) && roles.primaries != []
    requires GroupOk(group) && |roles.entries| <= |group|
    ensures Carries(entries, group) && EntriesOk(entries)
    ensures forall p :: p in roles.primaries ==> EntryMode(entries[p.index]) == Some(Sign)
    ensures SignsOnly(entries, roles.primaries) && DeclaresRest(roles, entries)
  {
    entries := [];
    for i := 0 to |group|
      invariant |entries| == i
      invariant forall k :: 0 <= k < i ==> EntryAt(roles, group, k, entries[k])
    {
      var e := PrimaryEntryAt(roles, group, i);
      entries := entries + [e];
    }
    EntriesServe(roles, group, entries);
  }

  lemma EntriesServe(roles: Roles, group: seq<string>, entries: seq<SignEntry>)
    requires RolesOk(roles) && roles.primaries != []
    requires GroupOk(group) && |roles.entries| <= |group| == |entries|
    requires forall k :: 0 <= k < |group| ==> EntryAt(roles, group, k, entries[k])
    ensures EntriesOk(entries) && SignsOnly(entries, roles.primaries) && DeclaresRest(roles, entries)
    ensures forall p :: p in roles.primaries ==> 0 <= p.index < |entries| && EntryMode(entries[p.index]) == Some(Sign)
  {
    forall p | p in roles.primaries
      ensures 0 <= p.index < |group| && EntryMode(entries[p.index]) == Some(Sign)
      ensures entries[p.index] == PrimaryEntry(p, entries[p.index].txnHex)
    {
      PrimaryIsNoTarget(roles, p);
      assert EntryAt(roles, group, p.index, entries[p.index]);
    }
    forall i | 0 <= i < |entries| && EntryMode(entries[i]) != Some(Foreign)
      ensures exists p :: p in roles.primaries && p.index == i
    {
      assert EntryAt(roles, group, i, entries[i]);
      var k :| 0 <= k < |roles.primaries| && roles.primaries[k].index == i;
      assert roles.primaries[k] in roles.primaries;
    }
    forall t | t in roles.targets ensures 0 <= t.index < |entries| && ForeignEntry(entries[t.index], t.resources, "") {
      assert TargetFits(roles, t);
      assert EntryAt(roles, group, t.index, entries[t.index]);
    }
    forall k | 0 <= k < |entries| ensures EntryOk(entries[k]) && EntryMode(entries[k]) != Some(Passthrough) {
      assert EntryAt(roles, group, k, entries[k]);
    }
    assert roles.primaries[0] in roles.primaries;
  }

  lemma NoRoleOutside(roles: Roles, i: int)
    requires RolesOk(roles) && (i < 0 || i >= |roles.entries|)
    ensures !IsTarget(roles, i) && !IsPrimary(roles, i)
  {
    forall k | 0 <= k < |roles.targets| ensures 0 <= roles.targets[k].index < |roles.entries| {
      assert TargetFits(roles, roles.targets[k]);
    }
    forall k | 0 <= k < |roles.primaries| ensures 0 <= roles.primaries[k].index < |roles.entries| {
      assert PrimaryFits(roles, roles.primaries[k]);
    }
  }

  lemma PrimaryIsNoTarget(roles: Roles, p: PrimaryTarget)
    requires RolesOk(roles) && p in roles.primaries
    ensures 0 <= p.index < |roles.entries| && IsPrimary(roles, p.index) && !IsTarget(roles, p.index)
  {
    assert PrimaryFits(roles, p);
    forall k | 0 <= k < |roles.targets| ensures roles.targets[k].index != p.index {
      assert TargetFits(roles, roles.targets[k]);
    }
  }

  method SendPrimaries(c: Codec, w: World, job: Job, past: seq<Event>, group: seq<string>, entries: seq<SignEntry>)
    returns (log: seq<Event>, r: Result<seq<PassthroughItem>, Error>)
    requires w.Lawful() && job.Ok() && |job.roles.entries| <= |group|
    requires Safe(c, job, past) && Frozen(c, job, past, group) && BaseHeld(job, past)
    requires Carries(entries, group) && EntriesOk(entries) && SignsOnly(entries, job.roles.primaries)
    requires DeclaresRest(job.roles, entries)
    ensures Settled(log)
    ensures Safe(c, job, past + log)
    ensures r.Failure? ==> CallError(r.error) && r.error != InvalidRequest && EndsFor(c, job, log, r.error)
    ensures r.Success? ==> |log| == 1 && PrimarySigned(c, job.user, job.roles.primaries, group, log[0])
    ensures r.Success? ==> PrimaryItems(c, job.roles.primaries, group, r.value)
  {
    FreshSignRequestOk(w, past, entries);
    var sent, reply := SignRequests(w, past, job.user, entries, None);
    log := sent;
    SignSafe(c, job, past, log, group);
    if reply.Failure? {
      return log, Failure(reply.error);
    }
    forall p | p in job.roles.primaries ensures 0 <= p.index < |group| {
      assert PrimaryFits(job.roles, p);
    }
    var items := CheckPrimaries(c, job.roles.primaries, group, reply.value);
    if items.None? {
      assert Unusable(c, job.roles.primaries, log[0]);
      return log, Failure(BadReply);
    }
    r := Success(items.value);
  }

  method SignPrimaries(c: Codec, w: World, job: Job, past: seq<Event>, f: FrozenGroup)
    returns (log: seq<Event>, r: Result<seq<PassthroughItem>, Error>)
    requires c.Lawful() && w.Lawful() && job.Ok()
    requires Safe(c, job, past) && Frozen(c, job, past, f.group) && BaseHeld(job, past)
    requires GoodPlan(c, job, f.group, f.report, f.planned)
    ensures Settled(log)
    ensures Safe(c, job, past + log)
    ensures r.Failure? ==> CallError(r.error) && r.error != InvalidRequest && EndsFor(c, job, log, r.error)
    ensures r.Success? ==> UserSideDone(c, job, past + log, f.group) && PrimaryItems(c, job.roles.primaries, f.group, r.value)
  {
    GoodPlanGroup(c, job, f.group, f.report, f.planned);
    if job.roles.primaries == [] {
      ConcatNothing(past);
      return [], Success([]);
    }
    var entries := BuildPrimaryEntries(job.roles, f.group);
    log, r := SendPrimaries(c, w, job, past, f.group, entries);
    if r.Success? {
      UserSideExtends(c, job, past, log, f.group);
      assert (past + log)[|past|] == log[0];
    }
  }

  // ---- Step 4: the cosigners -----------------------------------------------

  /** Once the user side is done, any number of questions to cosigners is in order. */
  lemma {:induction false} SafeGather(c: Codec, job: Job, past: seq<Event>, log: seq<Event>, group: seq<string>)
    requires Safe(c, job, past) && Frozen(c, job, past, group) && UserSideDone(c, job, past, group)
    requires GatherLog(log, Cosigner, group, job.roles.targets, job.routing, |job.roles.entries|, PlannedInfo(job.roles))
    ensures Safe(c, job, past + log)
  {
    if log == [] {
      ConcatNothing(past);
    } else {
      var front, e := log[..|log| - 1], log[|log| - 1];
      CosignerAsked(log, group, job.roles.targets, job.routing, |job.roles.entries|, PlannedInfo(job.roles));
      SafeGather(c, job, past, front, group);
      CosignerNext(c, job, past, front, e, group);
      ConcatLast(past, log);
    }
  }

  lemma CosignerNext(c: Codec, job: Job, past: seq<Event>, front: seq<Event>, e: Event, group: seq<string>)
    requires Frozen(c, job, past, group) && UserSideDone(c, job, past, group) && Safe(c, job, past + front)
    requires Asks(e, Cosigner, group, job.roles.targets, job.routing, |job.roles.entries|, PlannedInfo(job.roles))
    ensures Safe(c, job, past + front + [e])
  {
    FrozenExtends(c, job, past, front, group);
    UserSideExtends(c, job, past, front, group);
    CosignerAppend(c, job, past + front, e, group);
  }

  lemma CosignerAppend(c: Codec, job: Job, past: seq<Event>, e: Event, group: seq<string>)
    requires Safe(c, job, past) && Frozen(c, job, past, group) && UserSideDone(c, job, past, group)
    requires Asks(e, Cosigner, group, job.roles.targets, job.routing, |job.roles.entries|, PlannedInfo(job.roles))
    ensures Safe(c, job, past + [e])
  {
    CosignerStep(c, job, past, e, group);
    SafeAppend(c, job, past, e);
  }

  lemma TargetsGatherable(job: Job, group: seq<string>)
    requires job.Ok() && GroupOk(group) && |job.roles.entries| <= |group|
    ensures Gatherable(
              group, DummyPositions(|job.roles.entries|, |group|), Cosigner, job.roles.targets, job.routing)
  {
    forall t | t in job.roles.targets ensures 0 <= t.index < |job.roles.entries| {
      assert TargetFits(job.roles, t);
    }
  }

  lemma NoRouteEnds(c: Codec, job: Job, past: seq<Event>)
    requires past != [] && !past[0].Cancelled? && exists t :: t in job.roles.targets && job.routing(t).None?
    ensures EndsFor(c, job, past, NoRoute)
  {
  }

  method GatherCosigners(c: Codec, w: World, job: Job, past: seq<Event>, f: FrozenGroup)
    returns (log: seq<Event>, r: Result<map<int, Sourced>, Error>)
    requires c.Lawful() && w.Lawful() && job.Ok()
    requires Safe(c, job, past) && Frozen(c, job, past, f.group) && UserSideDone(c, job, past, f.group)
    requires GoodPlan(c, job, f.group, f.report, f.planned)
    ensures Settled(log)
    ensures Safe(c, job, past + log)
    ensures r.Failure? ==> r.error == NoRoute || (CallError(r.error) && r.error != InvalidRequest)
    ensures r.Failure? ==> EndsFor(c, job, past + log, r.error)
    ensures r.Success? ==> Gathered(log, Cosigner, job.roles.targets, job.routing, r.value) && AskedOnce(log)
  {
    GoodPlanGroup(c, job, f.group, f.report, f.planned);
    TargetsGatherable(job, f.group);
    var dummies := DummyPositions(|job.roles.entries|, |f.group|);
    log, r := GatherSignatures(w, past, f.group, dummies, Cosigner, job.roles.targets, job.routing, PlannedInfo(job.roles));
    SafeGather(c, job, past, log, f.group);
    if r == Failure(NoRoute) {
      ConcatNothing(past);
      NoRouteEnds(c, job, past);
    } else if r.Failure? {
      EndsForConcat(c, job, past, log, r.error);
    }
  }

  // ---- Step 5: assembly ----------------------------------------------------

  /** Where the collected material came from. */
  ghost predicate Collected(job: Job, past: seq<Event>, base: Event, components: map<int, Component>, sigs: map<int, Sourced>) {
    && base in past
    && BaseExchange(job, base)
    && Kept(job, base, components)
    && Gathered(past, Cosigner, job.roles.targets, job.routing, sigs)
  }

  function AssembledTarget(t: Target, x: Component, baseSource: string, s: Sourced): AssemblyTarget {
    AssemblyTarget(
      t.index, BoundedCosigner, x.authAddress, "", "", [],
      x.baseSignatures, x.runtimeArgs, x.receipt, baseSource, s.signature, s.requestId)
  }

  lemma AssembledTargetOk(
    job: Job, past: seq<Event>, base: Event, components: map<int, Component>, sigs: map<int, Sourced>, t: Target)
    requires job.Ok() && Collected(job, past, base, components, sigs) && t in job.roles.targets
    ensures
      var a := AssembledTarget(t, components[t.index], base.request.requestId, sigs[t.index]);
      AssemblyTargetOk(a) && FromReplies(job, past, a, t)
  {
    var x, s := components[t.index], sigs[t.index];
    var a := AssembledTarget(t, x, base.request.requestId, s);
    assert BaseSource(job, base, a, t);
    assert s == Sourced(a.cosignerSignature, a.cosignerSource);
    assert TargetFits(job.roles, t);
    CosignerMaterial(past, job.routing(t).value, t.index, s);
  }

  lemma CosignerMaterial(past: seq<Event>, route: Route, index: int, s: Sourced)
    requires Sources(past, Cosigner, route, index, s)
    ensures s.signature != "" && IdOk(s.requestId) && s.requestId != ""
  {
    var k :| 0 <= k < |past| && Provides(past[k], Cosigner, route, index, s);
    var x :| x in past[k].components.body.components && x.index == index && x.kind == Cosigner && x.signature == s.signature;
    assert ComponentOk(x);
  }

  method BuildAssemblyTargets(
    job: Job, ghost past: seq<Event>, ghost base: Event, baseSource: string,
    components: map<int, Component>, sigs: map<int, Sourced>)
    returns (r: Option<seq<AssemblyTarget>>)
    requires job.Ok() && Collected(job, past, base, components, sigs) && baseSource == base.request.requestId
    ensures r.Some? && |r.value| == |job.roles.targets|
    ensures forall k :: 0 <= k < |r.value| ==>
      && r.value[k].index == job.roles.targets[k].index
      && AssemblyTargetOk(r.value[k])
      && FromReplies(job, past, r.value[k], job.roles.targets[k])
  {
    var built: seq<AssemblyTarget> := [];
    for k := 0 to |job.roles.targets|
      invariant |built| == k
      invariant forall j :: 0 <= j < k ==>
        && built[j].index == job.roles.targets[j].index
        && AssemblyTargetOk(built[j])
        && FromReplies(job, past, built[j], job.roles.targets[j])
    {
      var t := job.roles.targets[k];
      assert t in job.roles.targets;
      if t.index !in sigs {
        return None;
      }
      AssembledTargetOk(job, past, base, components, sigs, t);
      built := built + [AssembledTarget(t, components[t.index], baseSource, sigs[t.index])];
    }
    return Some(built);
  }

  /** Targets, verified primary slots and signed dummies split the frozen group. */
  lemma AssemblyCovers(
    c: Codec, roles: Roles, group: seq<string>, targets: seq<AssemblyTarget>,
    primaries: seq<PassthroughItem>, dummies: seq<PassthroughItem>)
    requires RolesOk(roles) && |roles.entries| <= |group|
    requires |targets| == |roles.targets| && forall k :: 0 <= k < |targets| ==> targets[k].index == roles.targets[k].index
    requires PrimaryItems(c, roles.primaries, group, primaries)
    requires |dummies| == |group| - |roles.entries|
    requires forall j :: 0 <= j < |dummies| ==> dummies[j].index == |roles.entries| + j
    ensures Covers(AssemblyIndices(targets) + PassthroughIndices(primaries + dummies), |group|)
  {
    var n := |roles.entries|;
    var a, b, d := AssemblyIndices(targets), PassthroughIndices(primaries), PassthroughIndices(dummies);
    assert PassthroughIndices(primaries + dummies) == b + d;
    RoleIndices(c, roles, group, targets, primaries);
    assert forall i :: i in d <==> n <= i < |group| by {
      forall i | n <= i < |group| ensures i in d { assert d[i - n] == i; }
    }
    DistinctConcat(b, d);
    CoversConcat(a, b + d, |group|);
  }

  lemma RoleIndices(
    c: Codec, roles: Roles, group: seq<string>, targets: seq<AssemblyTarget>, primaries: seq<PassthroughItem>)
    requires RolesOk(roles)
    requires |targets| == |roles.targets| && forall k :: 0 <= k < |targets| ==> targets[k].index == roles.targets[k].index
    requires PrimaryItems(c, roles.primaries, group, primaries)
    ensures Distinct(AssemblyIndices(targets)) && Distinct(PassthroughIndices(primaries))
    ensures forall i :: i in AssemblyIndices(targets) <==> IsTarget(roles, i)
    ensures forall i :: i in PassthroughIndices(primaries) <==> IsPrimary(roles, i)
    ensures forall i :: IsTarget(roles, i) || IsPrimary(roles, i) <==> 0 <= i < |roles.entries|
    ensures forall i :: !(IsTarget(roles, i) && IsPrimary(roles, i))
  {
    var a, b := AssemblyIndices(targets), PassthroughIndices(primaries);
    forall i | IsTarget(roles, i) ensures i in a {
      var k :| 0 <= k < |roles.targets| && roles.targets[k].index == i;
      assert a[k] == i;
    }
    forall i | IsPrimary(roles, i) ensures i in b {
      var k :| 0 <= k < |roles.primaries| && roles.primaries[k].index == i;
      assert b[k] == i;
    }
    forall i | !(0 <= i < |roles.entries|) ensures !IsTarget(roles, i) && !IsPrimary(roles, i) {
      NoRoleOutside(roles, i);
    }
    forall i | IsPrimary(roles, i) ensures !IsTarget(roles, i) {
      var k :| 0 <= k < |roles.primaries| && roles.primaries[k].index == i;
      PrimaryIsNoTarget(roles, roles.primaries[k]);
    }
  }

  /** Everything the assembly request is made of, and the frozen group it is for. */
  ghost predicate Assembly(c: Codec, job: Job, past: seq<Event>, f: FrozenGroup, r: AssemblyRequest) {
    && r.group == f.group
    && SlotsHold(c, f.group, f.planned)
    && DummiesPassed(c, f.planned, |job.originals|, r)
    && (IdOk(r.requestId) ==> AssemblyRequestOk(r))
    && |r.targets| == |job.roles.targets|
    && PrimariesPassed(c, job.roles.primaries, r)
    && forall a :: a in r.targets ==> exists t :: t in job.roles.targets && FromReplies(job, past, a, t)
  }

  method BuildAssembly(
    c: Codec, job: Job, ghost past: seq<Event>, f: FrozenGroup, assemblyId: string,
    ghost base: Event, baseSource: string, components: map<int, Component>, sigs: map<int, Sourced>,
    primaries: seq<PassthroughItem>)
    returns (r: Option<AssemblyRequest>)
    requires c.Lawful() && job.Ok()
    requires GoodPlan(c, job, f.group, f.report, f.planned)
    requires Collected(job, past, base, components, sigs) && baseSource == base.request.requestId
    requires PrimaryItems(c, job.roles.primaries, f.group, primaries)
    ensures r.Some? && r.value.requestId == assemblyId
    ensures forall id :: Assembly(c, job, past, f, r.value.(requestId := id, passthrough := Bare(r.value.passthrough)))
  {
    GoodPlanGroup(c, job, f.group, f.report, f.planned);
    var n := |job.originals|;
    var dummies := SignDummies(c, f.planned[n..], n);
    if dummies.None? {
      return None;
    }
    var targets := BuildAssemblyTargets(job, past, base, baseSource, components, sigs);
    if targets.None? {
      return None;
    }
    forall k | 0 <= k < |dummies.value| ensures dummies.value[k].signedHex != "" {
      Hex.NonEmpty(c.signDummy(f.planned[n..][k]));
    }
    var request := AssemblyRequest(assemblyId, f.group, targets.value, primaries + dummies.value);
    forall id ensures Assembly(c, job, past, f, request.(requestId := id, passthrough := Bare(request.passthrough))) {
      AssemblyParts(c, job, past, f, request.(requestId := id, passthrough := Bare(request.passthrough)), primaries, dummies.value);
    }
    r := Some(request);
  }

  lemma AssemblyParts(
    c: Codec, job: Job, past: seq<Event>, f: FrozenGroup, r: AssemblyRequest,
    primaries: seq<PassthroughItem>, dummies: seq<PassthroughItem>)
    requires job.Ok() && GroupOk(f.group) && |job.originals| <= |f.group| && SlotsHold(c, f.group, f.planned)
    requires r.group == f.group && r.passthrough == Bare(primaries + dummies)
    requires |r.targets| == |job.roles.targets|
    requires forall k :: 0 <= k < |r.targets| ==>
      && r.targets[k].index == job.roles.targets[k].index
      && AssemblyTargetOk(r.targets[k])
      && FromReplies(job, past, r.targets[k], job.roles.targets[k])
    requires PrimaryItems(c, job.roles.primaries, f.group, primaries)
    requires |dummies| == |f.group| - |job.roles.entries|
    requires forall j :: 0 <= j < |dummies| ==>
      && dummies[j].index == |job.roles.entries| + j && dummies[j].signedHex != ""
      && dummies[j].signedHex == Hex.Encode(c.signDummy(f.planned[|job.originals|..][j]))
    ensures Assembly(c, job, past, f, r)
  {
    assert primaries + dummies == [] + primaries + dummies;
    BarePassed(c, job.roles.primaries, [], primaries, dummies, r);
    BareDummies(c, f.planned, |job.originals|, primaries, dummies, r);
    AssemblyPasses(c, job.roles, r, primaries, dummies);
    forall a | a in r.targets ensures exists t :: t in job.roles.targets && FromReplies(job, past, a, t) {
      var k :| 0 <= k < |r.targets| && r.targets[k] == a;
      assert job.roles.targets[k] in job.roles.targets;
    }
  }

  lemma AssemblyPasses(
    c: Codec, roles: Roles, r: AssemblyRequest, primaries: seq<PassthroughItem>, dummies: seq<PassthroughItem>)
    requires RolesOk(roles) && GroupOk(r.group) && |roles.entries| <= |r.group|
    requires r.passthrough == Bare(primaries + dummies)
    requires |r.targets| == |roles.targets|
    requires forall k :: 0 <= k < |r.targets| ==> r.targets[k].index == roles.targets[k].index && AssemblyTargetOk(r.targets[k])
    requires PrimaryItems(c, roles.primaries, r.group, primaries)
    requires |dummies| == |r.group| - |roles.entries|
    requires forall j :: 0 <= j < |dummies| ==> dummies[j].index == |roles.entries| + j && dummies[j].signedHex != ""
    ensures IdOk(r.requestId) ==> AssemblyRequestOk(r)
  {
    AssemblyCovers(c, roles, r.group, r.targets, primaries, dummies);
  }

  lemma AssembleStep(c: Codec, job: Job, past: seq<Event>, e: Event, f: FrozenGroup)
    requires e.Assembled? && e.to == job.user && AssemblyRequestOk(e.assembly)
    requires Frozen(c, job, past, f.group) && UserSideDone(c, job, past, f.group)
    requires Assembly(c, job, past, f, e.assembly)
    ensures StepOk(c, job, past, e)
  {
  }

  method Assemble(
    c: Codec, w: World, job: Job, past: seq<Event>, f: FrozenGroup, unnamed: AssemblyRequest)
    returns (log: seq<Event>, r: Result<seq<string>, Error>)
    requires c.Lawful() && w.Lawful()
    requires Safe(c, job, past) && Frozen(c, job, past, f.group) && UserSideDone(c, job, past, f.group)
    requires forall id :: Assembly(c, job, past, f, unnamed.(requestId := id, passthrough := Bare(unnamed.passthrough)))
    ensures Settled(log)
    ensures Safe(c, job, past + log)
    ensures r.Failure? ==> CallError(r.error) && (IdOk(unnamed.requestId) ==> r.error != InvalidRequest)
    ensures r.Failure? ==> r.error == InvalidRequest || EndsFor(c, job, log, r.error)
    ensures r.Success? ==> EndsAssembled(log, r.value)
    ensures r.Success? ==> Verified(c, f.group, r.value)
  {
    var sent, request, reply := RequestAssemble(w, past, job.user, unnamed);
    log := sent;
    assert Assembly(c, job, past, f, request);
    if IdOk(unnamed.requestId) {
      ChosenIdOk(w, past, unnamed.requestId);
    }
    if AssemblyRequestOk(request) {
      AssembleStep(c, job, past, log[0], f);
      SafeSend(c, job, past, log);
    } else {
      ConcatNothing(past);
    }
    if reply.Failure? {
      return log, Failure(reply.error);
    }
    var verified := VerifyAssembledGroup(c, f.group, reply.value.signedGroup);
    if !verified {
      return log, Failure(BadReply);
    }
    r := Success(reply.value.signedGroup);
  }
}
