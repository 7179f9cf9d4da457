/** Whole runs of the bounded-cosigner flow, against arbitrary signers. */
module BoundedSigning {
  import opened Basics
  import opened Transactions
  import opened Requests
  import opened Exchange
  import opened Gathering
  import opened Prepared
  import opened PrimarySlots
  import opened Roles
  import opened BoundedRoles
  import opened BoundedFlow
  import opened Plan
  import opened Outcome
  import opened Conformance
  import opened BoundedConformance
  import Hex

  /** The job is what the caller prepared, sorted by the signer's key inventory. */
  ghost predicate JobFor(c: Codec, lookup: KeyLookup, user: Client, prepared: seq<PreparedTxn>, routing: Routing, job: Job) {
    && job.user == user
    && job.routing == routing
    && |job.originals| == |prepared|
    && (forall i :: 0 <= i < |prepared| ==> prepared[i].transaction == Some(job.originals[i]))
    && RolesUpTo(Rule(c, lookup), prepared, job.roles, |prepared|)
    && job.Ok()
  }

  /** Steps 2 and 3: everything the user signer contributes. */
  method UserSide(c: Codec, w: World, job: Job, past: seq<Event>, f: FrozenGroup)
    returns (log: seq<Event>, r: Result<(Event, map<int, Component>, seq<PassthroughItem>), Error>)
    requires c.Lawful() && w.Lawful() && job.Ok()
    requires Safe(c, job, past) && Frozen(c, job, past, f.group)
    requires GoodPlan(c, job, f.group, f.report, f.planned)
    ensures Settled(log)
    ensures Safe(c, job, past + log)
    ensures r.Failure? ==> CallError(r.error) && r.error != InvalidRequest && EndsFor(c, job, log, r.error)
    ensures r.Success? ==>
      && UserSideDone(c, job, past + log, f.group)
      && r.value.0 in past + log
      && BaseExchange(job, r.value.0)
      && Kept(job, r.value.0, r.value.1)
      && PrimaryItems(c, job.roles.primaries, f.group, r.value.2)
  {
    var baseLog, base := CollectBase(c, w, job, past, f);
    if base.Failure? {
      return baseLog, Failure(base.error);
    }
    var soFar := past + baseLog;
    FrozenExtends(c, job, past, baseLog, f.group);
    assert soFar[|past|] == baseLog[0];
    var primaryLog, primaries := SignPrimaries(c, w, job, soFar, f);
    log := baseLog + primaryLog;
    SettledConcat(baseLog, primaryLog);
    ConcatAssociates(past, baseLog, primaryLog);
    if primaries.Failure? {
      EndsForConcat(c, job, baseLog, primaryLog, primaries.error);
      return log, Failure(primaries.error);
    }
    assert (past + log)[|past|] == baseLog[0];
    r := Success((baseLog[0], base.value, primaries.value));
  }

  /** Step 4, and the request of step 5: what the cosigners contribute, put together with the user's side. */
  method CosignerSide(
    c: Codec, w: World, job: Job, past: seq<Event>, f: FrozenGroup, assemblyId: string,
    base: Event, components: map<int, Component>, primaries: seq<PassthroughItem>)
    returns (log: seq<Event>, r: Result<AssemblyRequest, Error>)
    requires c.Lawful() && w.Lawful() && job.Ok()
    requires Safe(c, job, past) && Frozen(c, job, past, f.group) && UserSideDone(c, job, past, f.group)
    requires GoodPlan(c, job, f.group, f.report, f.planned)
    requires base in past && BaseExchange(job, base) && Kept(job, base, components)
    requires PrimaryItems(c, job.roles.primaries, f.group, primaries)
    ensures Settled(log)
    ensures Safe(c, job, past + log)
    ensures r.Failure? ==> r.error != InvalidRequest && EndsFor(c, job, past + log, r.error)
    ensures r.Success? ==>
      && Frozen(c, job, past + log, f.group) && UserSideDone(c, job, past + log, f.group)
      && r.value.requestId == assemblyId
      && forall id :: Assembly(c, job, past + log, f, r.value.(requestId := id, passthrough := Bare(r.value.passthrough)))
  {
    var sigs;
    log, sigs := GatherCosigners(c, w, job, past, f);
    if sigs.Failure? {
      return log, Failure(sigs.error);
    }
    FrozenExtends(c, job, past, log, f.group);
    UserSideExtends(c, job, past, log, f.group);
    GatheredAfter(past, log, Cosigner, job.roles.targets, job.routing, sigs.value);
    assert Collected(job, past + log, base, components, sigs.value);
    var request := BuildAssembly(
      c, job, past + log, f, assemblyId, base, base.request.requestId, components, sigs.value, primaries);
    if request.None? {
      return log, Failure(Incomplete);
    }
    r := Success(request.value);
  }

  /** Steps 4 and 5: cosigners, assembly and the final comparison. */
  method Complete(
    c: Codec, w: World, job: Job, past: seq<Event>, f: FrozenGroup, assemblyId: string,
    base: Event, components: map<int, Component>, primaries: seq<PassthroughItem>)
    returns (log: seq<Event>, r: Result<seq<string>, Error>)
    requires c.Lawful() && w.Lawful() && job.Ok()
    requires Safe(c, job, past) && Frozen(c, job, past, f.group) && UserSideDone(c, job, past, f.group)
    requires GoodPlan(c, job, f.group, f.report, f.planned)
    requires base in past && BaseExchange(job, base) && Kept(job, base, components)
    requires PrimaryItems(c, job.roles.primaries, f.group, primaries)
    ensures Settled(log)
    ensures Safe(c, job, past + log)
    ensures r.Failure? ==> if r.error == InvalidRequest then !IdOk(assemblyId) else EndsFor(c, job, past + log, r.error)
    ensures r.Success? ==> EndsAssembled(log, r.value) && Verified(c, f.group, r.value)
  {
    var cosignerLog, request := CosignerSide(c, w, job, past, f, assemblyId, base, components, primaries);
    if request.Failure? {
      return cosignerLog, Failure(request.error);
    }
    var soFar := past + cosignerLog;
    var assemblyLog, signed := Assemble(c, w, job, soFar, f, request.value);
    log, r := cosignerLog + assemblyLog, signed;
    JoinSafe(c, job, past, cosignerLog, assemblyLog);
    SettledConcat(cosignerLog, assemblyLog);
    if r.Success? {
      EndsAssembledConcat(cosignerLog, assemblyLog, r.value);
    } else if r.error != InvalidRequest {
      JoinEnds(c, job, past, cosignerLog, assemblyLog, r.error);
    }
  }

  lemma JoinSafe(c: Codec, job: Job, past: seq<Event>, a: seq<Event>, b: seq<Event>)
    requires Safe(c, job, past + a + b)
    ensures Safe(c, job, past + (a + b))
  {
    ConcatAssociates(past, a, b);
  }

  lemma JoinEnds(c: Codec, job: Job, past: seq<Event>, a: seq<Event>, b: seq<Event>, e: Error)
    requires past != [] && !past[0].Cancelled? && EndsFor(c, job, b, e)
    ensures EndsFor(c, job, past + (a + b), e)
  {
    assert (past + a)[0] == past[0];
    EndsForConcat(c, job, past + a, b, e);
    ConcatAssociates(past, a, b);
  }

  /** What one run over a job leaves behind: a safe log, and a faithful group or a cause of failure. */
  ghost predicate RunOk(c: Codec, job: Job, assemblyId: string, log: seq<Event>, r: Result<seq<string>, Error>) {
    && log != []
    && Safe(c, job, log) && Settled(log)
    && (r.Success? ==>
          && log[0].Planned? && log[0].plan.Answer?
          && Frozen(c, job, log, log[0].plan.body.transactions)
          && Verified(c, log[0].plan.body.transactions, r.value)
          && Faithful(c, job.originals, job.roles.maxFees, log[0].plan.body.mutations, r.value)
          && EndsAssembled(log, r.value))
    && (r.Failure? ==> if r.error == InvalidRequest then !IdOk(assemblyId) else EndsFor(c, job, log, r.error))
  }

  /**
   One run of a classified job. Whatever the signers answer, the log is safe at every message,
   a returned group is faithful to what was prepared and is what the last message was answered
   with, and no request the flow builds is ever rejected by the client's own checks unless the
   caller's assembly identifier is bad: a run fails for what the last request came back with,
   or for a target that no cosigner serves.
   */
  method RunJob(c: Codec, w: World, job: Job, assemblyId: string)
    returns (log: seq<Event>, r: Result<seq<string>, Error>)
    requires c.Lawful() && w.Lawful() && job.Ok()
    ensures RunOk(c, job, assemblyId, log, r)
  {
    var planLog, frozen := FreezePlan(c, w, job);
    if frozen.Failure? {
      return planLog, Failure(frozen.error);
    }
    var f := frozen.value;
    var userLog, held := UserSide(c, w, job, planLog, f);
    SettledConcat(planLog, userLog);
    if held.Failure? {
      EndsForConcat(c, job, planLog, userLog, held.error);
      return planLog + userLog, Failure(held.error);
    }
    var (base, components, primaries) := held.value;
    FrozenExtends(c, job, planLog, userLog, f.group);
    var lastLog, signed := Complete(c, w, job, planLog + userLog, f, assemblyId, base, components, primaries);
    log, r := planLog + userLog + lastLog, signed;
    SettledConcat(planLog + userLog, lastLog);
    FrozenExtends(c, job, planLog + userLog, lastLog, f.group);
    assert log[0] == planLog[0];
    if r.Success? {
      EndsAssembledConcat(planLog + userLog, lastLog, r.value);
      VerifiedIsFaithful(c, job.originals, job.roles.maxFees, f.report, f.group, f.planned, r.value);
    }
  }

  /** The first message leaves exactly when every prepared slot classifies and one of them is bounded. */
  ghost predicate Startable(c: Codec, lookup: KeyLookup, prepared: seq<PreparedTxn>) {
    && (forall i :: 0 <= i < |prepared| ==> Classifies(Rule(c, lookup), prepared, i))
    && exists i :: CosignedAt(Rule(c, lookup), prepared, i)
  }

  /** Step 1: sort the prepared slots by the signer's key inventory. */
  method MakeJob(c: Codec, lookup: KeyLookup, user: Client, prepared: seq<PreparedTxn>, routing: Routing)
    returns (r: Result<Job, Error>)
    ensures r.Success? <==> Startable(c, lookup, prepared)
    ensures r.Success? ==> JobFor(c, lookup, user, prepared, routing, r.value)
  {
    var roles := Classify(Rule(c, lookup), prepared);
    if roles.Failure? {
      return Failure(roles.error);
    }
    ClassifiedRolesOk(c, lookup, prepared, roles.value);
    var originals := seq(|prepared|, i requires 0 <= i < |prepared| && prepared[i].transaction.Some? => prepared[i].transaction.value);
    r := Success(Job(user, originals, roles.value, routing));
  }

  ghost predicate PreparedRun(
    c: Codec, lookup: KeyLookup, user: Client, prepared: seq<PreparedTxn>, routing: Routing, assemblyId: string,
    log: seq<Event>, r: Result<seq<string>, Error>)
  {
    exists job :: JobFor(c, lookup, user, prepared, routing, job) && RunOk(c, job, assemblyId, log, r)
  }

  /** One run, from what the caller prepared. */
  method SignPreparedBoundedGroup(
    c: Codec, w: World, lookup: KeyLookup, user: Client, prepared: seq<PreparedTxn>, routing: Routing, assemblyId: string)
    returns (log: seq<Event>, r: Result<seq<string>, Error>)
    requires c.Lawful() && w.Lawful()
    ensures log != [] <==> Startable(c, lookup, prepared)
    ensures log != [] <==> BoundedGroup(lookup, prepared)
    ensures log == [] ==> r.Failure?
    ensures log != [] ==> PreparedRun(c, lookup, user, prepared, routing, assemblyId, log, r)
    ensures log != [] ==> RunConforms(c, lookup, false, prepared, routing, log, r)
  {
    StartsExactly(c, lookup, prepared);
    var job := MakeJob(c, lookup, user, prepared, routing);
    if job.Failure? {
      return [], Failure(job.error);
    }
    log, r := RunJob(c, w, job.value, assemblyId);
    RunIsPrepared(c, lookup, user, prepared, routing, assemblyId, log, r, job.value);
    JobRunConforms(c, lookup, user, prepared, routing, assemblyId, log, r, job.value);
  }

  /** The run answers for the prepared slots. */
  lemma JobRunConforms(
    c: Codec, lookup: KeyLookup, user: Client, prepared: seq<PreparedTxn>, routing: Routing, assemblyId: string,
    log: seq<Event>, r: Result<seq<string>, Error>, job: Job)
    requires c.Lawful() && JobFor(c, lookup, user, prepared, routing, job) && RunOk(c, job, assemblyId, log, r)
    ensures RunConforms(c, lookup, false, prepared, routing, log, r)
  {
    ClassifiedConform(c, lookup, prepared, job.roles);
    LogConforms(c, lookup, prepared, job, log);
    OpensWithPlan(c, job, log);
    if r.Success? {
      FaithfulConforms(c, lookup, prepared, job.originals, job.roles.maxFees, log[0].plan.body.mutations, r.value);
    }
  }

  lemma RunIsPrepared(
    c: Codec, lookup: KeyLookup, user: Client, prepared: seq<PreparedTxn>, routing: Routing, assemblyId: string,
    log: seq<Event>, r: Result<seq<string>, Error>, job: Job)
    requires JobFor(c, lookup, user, prepared, routing, job) && RunOk(c, job, assemblyId, log, r)
    ensures log != [] && PreparedRun(c, lookup, user, prepared, routing, assemblyId, log, r)
  {
  }

  /** A run whose plan holds a slot that is not plain hex text returns no group, although the plan is accepted. */
  lemma SpacedPlanNeverReturns(
    c: Codec, job: Job, assemblyId: string, log: seq<Event>, r: Result<seq<string>, Error>, i: nat)
    requires c.Lawful() && RunOk(c, job, assemblyId, log, r)
    requires log[0].Planned? && log[0].plan.Answer? && i < |log[0].plan.body.transactions|
    requires Hex.Decode(log[0].plan.body.transactions[i], false).None?
    ensures r.Failure?
  {
    if r.Success? {
      var group := log[0].plan.body.transactions;
      var planned :| GoodPlan(c, job, group, log[0].plan.body.mutations, planned);
      SpacedGroupUnverified(c, group, planned, r.value, i);
      assert false;
    }
  }

  // ---- Readings of a safe log ----------------------------------------------

  /** No cosigner hears of the group before the plan is good and the whole user side is done. */
  lemma {:induction false} UserFirst(c: Codec, job: Job, log: seq<Event>, k: nat)
    requires Safe(c, job, log) && k < |log|
    ensures ForCosigner(job.user, log[k]) ==>
      && k > 0 && log[0].Planned? && log[0].plan.Answer?
      && Frozen(c, job, log[..k], log[0].plan.body.transactions)
      && UserSideDone(c, job, log[..k], log[0].plan.body.transactions)
  {
    SafeAt(c, job, log, k);
    assert log[..k] != [] ==> log[..k][0] == log[0];
    if log[k].Components? {
      assert forall j :: 0 <= j < |log[k].request.targets| ==> log[k].request.targets[j] in log[k].request.targets;
    }
  }

  /** Every message after the plan carries the planned group, text for text and in order. */
  lemma {:induction false} FrozenBytes(c: Codec, job: Job, log: seq<Event>, k: nat)
    requires Safe(c, job, log) && 0 < k < |log| && !log[k].Cancelled?
    ensures log[0].Planned? && log[0].plan.Answer?
    ensures
      var group := log[0].plan.body.transactions;
      match log[k]
      case Components(_, request, _) => request.group == group
      case Signed(_, _, entries, _) => Carries(entries, group)
      case Assembled(_, request, _) => request.group == group
      case _ => false
  {
    SafeAt(c, job, log, k);
    assert log[..k][0] == log[0];
  }

  /** What a safe log says of an assembly message. */
  lemma {:induction false} AssemblyAt(c: Codec, job: Job, log: seq<Event>, k: nat)
    requires Safe(c, job, log) && k < |log| && log[k].Assembled?
    ensures AssemblyRequestOk(log[k].assembly)
    ensures |log[k].assembly.targets| == |job.roles.targets|
    ensures forall a :: a in log[k].assembly.targets ==>
      exists t :: t in job.roles.targets && FromReplies(job, log[..k], a, t)
  {
    SafeAt(c, job, log, k);
  }

  /**
   Provenance: every bounded target has exactly one entry in the assembly, made of the base
   component and the cosigner signature released for it under its own account and route.
   */
  lemma {:induction false} Provenance(c: Codec, job: Job, log: seq<Event>, k: nat, t: Target)
    requires Safe(c, job, log) && k < |log| && log[k].Assembled? && job.Ok() && t in job.roles.targets
    ensures exists a :: a in log[k].assembly.targets && FromReplies(job, log[..k], a, t)
    ensures forall i, j :: 0 <= i < j < |log[k].assembly.targets| ==>
      log[k].assembly.targets[i].index != log[k].assembly.targets[j].index
  {
    AssemblyAt(c, job, log, k);
    AssemblyIndicesDistinct(log[k].assembly);
    var a := EntryFor(job, log[..k], log[k].assembly.targets, t);
  }

  lemma EntryFor(job: Job, past: seq<Event>, given: seq<AssemblyTarget>, t: Target) returns (a: AssemblyTarget)
    requires job.Ok() && t in job.roles.targets && |given| == |job.roles.targets|
    requires Distinct(AssemblyIndices(given))
    requires forall a :: a in given ==> exists t :: t in job.roles.targets && FromReplies(job, past, a, t)
    ensures a in given && FromReplies(job, past, a, t)
  {
    var targets := job.roles.targets;
    forall j | 0 <= j < |given| ensures exists u :: u in targets && u.index == given[j].index {
      assert given[j] in given;
      var u :| u in targets && FromReplies(job, past, given[j], u);
    }
    a := EveryTargetServed(given, targets, t);
    var u :| u in targets && FromReplies(job, past, a, u);
    SameTarget(targets, t, u);
  }
}
