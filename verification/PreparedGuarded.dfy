/** The guarded flow from a prepared group: classify, plan, adopt the plan, sign. */
module PreparedGuarded {
  import opened Basics
  import opened Transactions
  import opened Requests
  import opened Exchange
  import opened Gathering
  import opened Prepared
  import opened PrimarySlots
  import opened GuardedFlow
  import opened GuardedRoles
  import opened Plan
  import opened Outcome
  import opened Conformance
  import GuardedConformance
  import GuardedSigning
  import Roles
  import Hex

  // ---- Adopting a plan -----------------------------------------------------

  /** `o` submits the bytes of the accepted plan `planned`, its dummies already signed. */
  ghost predicate Adopts(
    c: Codec, user: Client, originals: seq<Txn>, roles: Roles.Roles, plan: PlanReply, o: Options, planned: seq<Txn>)
  {
    && o.user == user
    && o.targets == roles.targets
    && o.primaries == roles.primaries
    && CanonicalGroup(c, plan.transactions, planned)
    && Acceptable(c, originals, planned, plan.mutations)
    && o.group == Reencoded(c, planned)
    && DummiesSigned(c, originals, planned, o)
  }

  ghost predicate Adopted(c: Codec, user: Client, originals: seq<Txn>, roles: Roles.Roles, plan: PlanReply, o: Options) {
    exists planned :: Adopts(c, user, originals, roles, plan, o, planned)
  }

  ghost predicate DummiesSigned(c: Codec, originals: seq<Txn>, planned: seq<Txn>, o: Options) {
    && |originals| <= |planned|
    && o.dummies == DummyPositions(|originals|, |planned|)
    && |o.passthrough| == |planned| - |originals|
    && forall j :: 0 <= j < |o.passthrough| ==>
         o.passthrough[j] == PassthroughItem(
                               |originals| + j, Hex.Encode(c.signDummy(planned[|originals|..][j])),
                               Some(Authorization(Some(DUMMY_RESOURCES), "")))
  }

  /** No reading of the plan is acceptable for the originals. */
  ghost predicate Unacceptable(c: Codec, originals: seq<Txn>, plan: PlanReply) {
    forall planned :: CanonicalGroup(c, plan.transactions, planned) ==> !Acceptable(c, originals, planned, plan.mutations)
  }

  method AdoptPlan(
    c: Codec, user: Client, routing: Routing, originals: seq<Txn>, roles: Roles.Roles, plan: PlanReply, assemblyId: string)
    returns (r: Option<Options>)
    requires c.Lawful() && RolesOk(roles) && |originals| == |roles.entries|
    ensures r.None? <==> Unacceptable(c, originals, plan)
    ensures r.Some? ==>
      && Adopted(c, user, originals, roles, plan, r.value)
      && r.value.routing == routing && r.value.assemblyId == assemblyId
      && (WellPlaced(r.value) <==> BoundsFit(roles))
      && (TargetsOk(r.value) <==> BoundsFit(roles))
  {
    var decoded := DecodeCanonicalGroup(c, plan.transactions);
    if decoded.None? {
      return None;
    }
    var planned := decoded.value;
    forall other | CanonicalGroup(c, plan.transactions, other) ensures other == planned {
      SlotsUnique(c, plan.transactions, other, planned);
    }
    var ok := ValidatePlan(c, originals, planned, plan.mutations);
    if !ok {
      return None;
    }
    var n := |originals|;
    var dummies := SignDummies(c, planned[n..], n);
    if dummies.None? {
      return None;
    }
    var o := Options(
      user, routing, Reencoded(c, planned), roles.targets, roles.primaries, dummies.value,
      DummyPositions(n, |planned|), assemblyId);
    assert Adopts(c, user, originals, roles, plan, o, planned);
    AdoptedPlaced(c, originals, roles, planned, o);
    r := Some(o);
  }

  /** Everything about an adopted plan is in place, but perhaps for the resource bounds. */
  lemma AdoptedPlaced(c: Codec, originals: seq<Txn>, roles: Roles.Roles, planned: seq<Txn>, o: Options)
    requires c.Lawful() && RolesOk(roles) && |originals| == |roles.entries|
    requires 0 < |planned| <= MAX_GROUP_SIZE && o.group == Reencoded(c, planned)
    requires o.targets == roles.targets && o.primaries == roles.primaries && DummiesSigned(c, originals, planned, o)
    ensures WellPlaced(o) <==> BoundsFit(roles)
    ensures TargetsOk(o) <==> BoundsFit(roles)
  {
    AdoptedTargets(c, originals, roles, planned, o);
    AdoptedSlots(c, originals, roles, planned, o);
  }

  lemma AdoptedTargets(c: Codec, originals: seq<Txn>, roles: Roles.Roles, planned: seq<Txn>, o: Options)
    requires RolesOk(roles) && |originals| == |roles.entries|
    requires 0 < |planned| <= MAX_GROUP_SIZE && o.group == Reencoded(c, planned)
    requires o.targets == roles.targets && DummiesSigned(c, originals, planned, o)
    ensures TargetsOk(o) <==> BoundsFit(roles)
    ensures forall k :: 0 <= k < |o.targets| ==> 0 <= o.targets[k].index < |originals|
  {
    forall i | 0 <= i < |o.group| ensures o.group[i] != "" {
      EncodedTxnNonEmpty(c, planned[i]);
    }
    forall k | 0 <= k < |o.targets|
      ensures 0 <= o.targets[k].index < |originals|
      ensures GuardedTargetOk(o.group, o.targets[k]) <==> ResourcesOk(o.targets[k].resources.value)
    {
      assert TargetFits(roles, roles.targets[k]);
    }
    if TargetsOk(o) {
      forall t | t in roles.targets ensures t.resources.Some? && ResourcesOk(t.resources.value) {
        var k :| 0 <= k < |o.targets| && o.targets[k] == t;
        assert GuardedTargetOk(o.group, o.targets[k]);
      }
    }
    assert BoundsFit(roles) ==> forall k :: 0 <= k < |o.targets| ==> o.targets[k] in roles.targets;
  }

  lemma AdoptedSlots(c: Codec, originals: seq<Txn>, roles: Roles.Roles, planned: seq<Txn>, o: Options)
    requires c.Lawful() && RolesOk(roles) && |originals| == |roles.entries|
    requires 0 < |planned| <= MAX_GROUP_SIZE && o.group == Reencoded(c, planned)
    requires o.targets == roles.targets && o.primaries == roles.primaries && DummiesSigned(c, originals, planned, o)
    requires forall k :: 0 <= k < |o.targets| ==> 0 <= o.targets[k].index < |originals|
    ensures PrimariesPlaced(o) && ItemsPlaced(o) && AllPlaced(o) && SuffixOf(o.dummies, |o.group|)
    ensures forall k :: 0 <= k < |o.passthrough| ==> o.passthrough[k].signedHex != ""
  {
    var n := |originals|;
    assert forall i :: IsGuarded(o, i) <==> Roles.IsTarget(roles, i);
    assert forall i :: GuardedFlow.IsPrimary(o, i) <==> Roles.IsPrimary(roles, i);
    forall k | 0 <= k < |o.primaries| ensures PrimaryPlaced(o, o.primaries[k]) && o.primaries[k].index < n {
      assert PrimaryFits(roles, roles.primaries[k]);
      assert Roles.IsPrimary(roles, roles.primaries[k].index);
    }
    forall j | 0 <= j < |o.passthrough| ensures ItemPlaced(o, o.passthrough[j]) && o.passthrough[j].signedHex != "" {
      Hex.NonEmpty(c.signDummy(planned[n..][j]));
    }
    forall i | 0 <= i < |o.group| ensures IsGuarded(o, i) || GuardedFlow.IsPrimary(o, i) || IsPassed(o, i) {
      if i >= n {
        assert o.passthrough[i - n].index == i;
      }
    }
  }

  lemma AdoptedFaithful(
    c: Codec, user: Client, originals: seq<Txn>, roles: Roles.Roles, plan: PlanReply, o: Options, signed: seq<string>)
    requires c.Lawful() && Adopted(c, user, originals, roles, plan, o)
    requires Verified(c, o.group, signed)
    ensures Faithful(c, originals, map[], plan.mutations, signed)
  {
    var planned :| Adopts(c, user, originals, roles, plan, o, planned);
    ReencodingKeepsBytes(c, plan.transactions, planned);
    VerifiedIsFaithful(c, originals, map[], plan.mutations, o.group, planned, signed);
  }

  // ---- Planning and signing ------------------------------------------------

  /** The plan was answered and some reading of the answer is acceptable. */
  ghost predicate PlanTaken(c: Codec, originals: seq<Txn>, e: Event) {
    e.Planned? && e.plan.Answer? && !Unacceptable(c, originals, e.plan.body)
  }

  /** The run over the adopted plan, and what its result is worth. */
  ghost predicate AdoptedRun(
    c: Codec, user: Client, routing: Routing, originals: seq<Txn>, roles: Roles.Roles, assemblyId: string,
    plan: PlanReply, log: seq<Event>, r: Result<seq<string>, Error>, o: Options)
  {
    && Adopted(c, user, originals, roles, plan, o)
    && o.routing == routing && o.assemblyId == assemblyId && WellPlaced(o)
    && GuardedSigning.RunOk(c, o, log, r)
    && (r.Success? ==> Faithful(c, originals, map[], plan.mutations, r.value))
  }

  /**
   What a run from a classified group leaves behind. Either the plan fails it, or an accepted
   plan is followed by a local rejection because resources are out of bounds, or the rest is
   a run over the plan's own bytes.
   */
  ghost predicate PlannedRun(
    c: Codec, user: Client, routing: Routing, originals: seq<Txn>, roles: Roles.Roles, assemblyId: string,
    log: seq<Event>, r: Result<seq<string>, Error>)
  {
    && log != [] && log[0].Planned? && log[0].to == user && log[0].entries == roles.entries
    && if !PlanTaken(c, originals, log[0]) then
         |log| == 1 && r.Failure? && (Explains(log[0], r.error) || (r.error == BadPlan && log[0].plan.Answer?))
       else if !BoundsFit(roles) then |log| == 1 && r == Failure(BadInput)
       else exists o :: AdoptedRun(c, user, routing, originals, roles, assemblyId, log[0].plan.body, log[1..], r, o)
  }

  /** Planning, adoption and signing of a classified group. */
  method PlanAndSign(
    c: Codec, w: World, user: Client, routing: Routing, originals: seq<Txn>, roles: Roles.Roles, assemblyId: string)
    returns (log: seq<Event>, r: Result<seq<string>, Error>)
    requires c.Lawful() && w.Lawful()
    requires RolesOk(roles) && EntriesOk(roles.entries) && |originals| == |roles.entries|
    ensures PlannedRun(c, user, routing, originals, roles, assemblyId, log, r)
    ensures log[0].plan == w.plan([], user, roles.entries)
  {
    var planLog, reply := PlanRequests(w, [], user, roles.entries);
    if reply.Failure? {
      return planLog, Failure(reply.error);
    }
    var adopted := AdoptPlan(c, user, routing, originals, roles, reply.value, assemblyId);
    if adopted.None? {
      return planLog, Failure(BadPlan);
    }
    var rest, signed := GuardedSigning.SignGuardedGroup(c, w, planLog, adopted.value);
    log, r := planLog + rest, signed;
    assert log[1..] == rest && log[0] == planLog[0];
    if r.Success? {
      AdoptedFaithful(c, user, originals, roles, reply.value, adopted.value, r.value);
    }
    if BoundsFit(roles) {
      assert AdoptedRun(c, user, routing, originals, roles, assemblyId, reply.value, log[1..], r, adopted.value);
    }
  }

  /** The originals and roles are what the caller prepared, sorted by the signer's key inventory. */
  ghost predicate TaskFor(
    c: Codec, lookup: KeyLookup, eager: bool, prepared: seq<PreparedTxn>, originals: seq<Txn>, roles: Roles.Roles)
  {
    && |originals| == |prepared|
    && (forall i :: 0 <= i < |prepared| ==> prepared[i].transaction == Some(originals[i]))
    && Roles.RolesUpTo(Rule(c, lookup, eager), prepared, roles, |prepared|)
  }

  ghost predicate TaskRun(
    c: Codec, lookup: KeyLookup, eager: bool, user: Client, prepared: seq<PreparedTxn>, routing: Routing,
    assemblyId: string, log: seq<Event>, r: Result<seq<string>, Error>, originals: seq<Txn>, roles: Roles.Roles)
  {
    && TaskFor(c, lookup, eager, prepared, originals, roles)
    && PlannedRun(c, user, routing, originals, roles, assemblyId, log, r)
  }

  /** The run is one of what the caller prepared. */
  ghost predicate PreparedRun(
    c: Codec, lookup: KeyLookup, eager: bool, user: Client, prepared: seq<PreparedTxn>, routing: Routing,
    assemblyId: string, log: seq<Event>, r: Result<seq<string>, Error>)
  {
    exists originals, roles :: TaskRun(c, lookup, eager, user, prepared, routing, assemblyId, log, r, originals, roles)
  }

  /** Every prepared transaction, when all are there. */
  function Originals(prepared: seq<PreparedTxn>): (r: seq<Txn>)
    requires forall i :: 0 <= i < |prepared| ==> prepared[i].transaction.Some?
    ensures |r| == |prepared| && forall i :: 0 <= i < |prepared| ==> prepared[i].transaction == Some(r[i])
  {
    seq(|prepared|, i requires 0 <= i < |prepared| => prepared[i].transaction.value)
  }

  ghost predicate PlanTakenFor(c: Codec, prepared: seq<PreparedTxn>, e: Event) {
    && (forall i :: 0 <= i < |prepared| ==> prepared[i].transaction.Some?)
    && PlanTaken(c, Originals(prepared), e)
  }

  /** A run over well-placed options is rejected locally for its assembly identifier only. */
  lemma RunLocally(c: Codec, o: Options, log: seq<Event>, r: Result<seq<string>, Error>)
    requires GuardedSigning.RunOk(c, o, log, r) && WellPlaced(o)
    ensures r != Failure(BadInput)
    ensures r == Failure(InvalidRequest) ==> !IdOk(o.assemblyId)
  {
  }

  lemma PlannedLocally(
    c: Codec, user: Client, routing: Routing, originals: seq<Txn>, roles: Roles.Roles, assemblyId: string,
    log: seq<Event>, r: Result<seq<string>, Error>)
    requires PlannedRun(c, user, routing, originals, roles, assemblyId, log, r)
    ensures r == Failure(BadInput) <==> PlanTaken(c, originals, log[0]) && !BoundsFit(roles)
    ensures r == Failure(BadInput) ==> |log| == 1
    ensures r == Failure(InvalidRequest) ==> !IdOk(assemblyId)
  {
    if PlanTaken(c, originals, log[0]) && BoundsFit(roles) {
      var o :| AdoptedRun(c, user, routing, originals, roles, assemblyId, log[0].plan.body, log[1..], r, o);
      RunLocally(c, o, log[1..], r);
    }
  }

  lemma OriginalsAre(prepared: seq<PreparedTxn>, originals: seq<Txn>)
    requires |originals| == |prepared| && forall i :: 0 <= i < |prepared| ==> prepared[i].transaction == Some(originals[i])
    ensures Originals(prepared) == originals
  {
  }

  lemma AdoptedSubmits(
    c: Codec, user: Client, originals: seq<Txn>, roles: Roles.Roles, plan: PlanReply, prepared: seq<PreparedTxn>, o: Options)
    requires Adopted(c, user, originals, roles, plan, o)
    requires RolesOk(roles) && |originals| == |prepared| == |roles.entries|
    ensures GuardedConformance.Submits(prepared, roles, o)
  {
  }

  lemma AdoptedConforms(
    c: Codec, lookup: KeyLookup, user: Client, prepared: seq<PreparedTxn>, routing: Routing, originals: seq<Txn>,
    roles: Roles.Roles, assemblyId: string, plan: PlanReply, rest: seq<Event>, r: Result<seq<string>, Error>, o: Options)
    requires c.Lawful() && RolesConform(c, lookup, true, prepared, roles)
    requires RolesOk(roles) && |originals| == |prepared| == |roles.entries|
    requires AdoptedRun(c, user, routing, originals, roles, assemblyId, plan, rest, r, o)
    ensures MessagesConform(lookup, prepared, routing, rest) && Settled(rest)
  {
    AdoptedSubmits(c, user, originals, roles, plan, prepared, o);
    GuardedSigning.SortedDistinct(o.targets);
    GuardedConformance.LogConforms(c, lookup, prepared, roles, o, rest);
  }

  lemma PlannedConforms(
    c: Codec, lookup: KeyLookup, user: Client, prepared: seq<PreparedTxn>, routing: Routing, originals: seq<Txn>,
    roles: Roles.Roles, assemblyId: string, log: seq<Event>, r: Result<seq<string>, Error>)
    requires c.Lawful() && RolesConform(c, lookup, true, prepared, roles)
    requires RolesOk(roles) && |originals| == |prepared| == |roles.entries|
    requires PlannedRun(c, user, routing, originals, roles, assemblyId, log, r)
    ensures MessagesConform(lookup, prepared, routing, log) && Settled(log)
    ensures r.Success? ==> log[0].plan.Answer? && Faithful(c, originals, map[], log[0].plan.body.mutations, r.value)
  {
    var rest := log[1..];
    if PlanTaken(c, originals, log[0]) && BoundsFit(roles) {
      var o :| AdoptedRun(c, user, routing, originals, roles, assemblyId, log[0].plan.body, rest, r, o);
      AdoptedConforms(c, lookup, user, prepared, routing, originals, roles, assemblyId, log[0].plan.body, rest, r, o);
    }
    PlanThenRest(lookup, prepared, routing, log);
  }

  /** The run answers for the prepared slots. */
  lemma TaskConforms(
    c: Codec, lookup: KeyLookup, eager: bool, user: Client, prepared: seq<PreparedTxn>, routing: Routing,
    assemblyId: string, log: seq<Event>, r: Result<seq<string>, Error>, originals: seq<Txn>, roles: Roles.Roles)
    requires c.Lawful() && roles.targets != []
    requires TaskRun(c, lookup, eager, user, prepared, routing, assemblyId, log, r, originals, roles)
    ensures RunConforms(c, lookup, true, prepared, routing, log, r)
  {
    GuardedConformance.ClassifiedConform(c, lookup, eager, prepared, roles);
    ClassifiedRolesOk(c, lookup, eager, prepared, roles);
    PlannedConforms(c, lookup, user, prepared, routing, originals, roles, assemblyId, log, r);
    if r.Success? {
      forall i | 0 <= i < |prepared| ensures LimitConforms(lookup, prepared[i], map[], i) {
        assert !UsesBoundedKey(lookup, prepared[i]);
      }
      FaithfulConforms(c, lookup, prepared, originals, map[], log[0].plan.body.mutations, r.value);
    }
  }

  /** A local rejection follows an accepted plan exactly when some guarded slot's resources are out of bounds. */
  lemma LateFailureExactly(
    c: Codec, lookup: KeyLookup, eager: bool, user: Client, prepared: seq<PreparedTxn>, routing: Routing,
    assemblyId: string, log: seq<Event>, r: Result<seq<string>, Error>)
    requires PreparedRun(c, lookup, eager, user, prepared, routing, assemblyId, log, r)
    ensures log != [] && log[0].Planned?
    ensures r == Failure(BadInput) <==> PlanTakenFor(c, prepared, log[0]) && OutOfBounds(lookup, prepared)
    ensures r == Failure(BadInput) ==> |log| == 1
    ensures r == Failure(InvalidRequest) ==> !IdOk(assemblyId)
  {
    var originals, roles :|
      TaskRun(c, lookup, eager, user, prepared, routing, assemblyId, log, r, originals, roles);
    BoundsDecided(c, lookup, eager, prepared, roles);
    OriginalsAre(prepared, originals);
    PlannedLocally(c, user, routing, originals, roles, assemblyId, log, r);
  }

  /**
   One run over a prepared group; `eager` is whether the resource bounds of guarded slots are
   checked while classifying (Python) or only after the plan (Go). The first message leaves
   exactly when the group classifies with a guarded slot in it. After that the only local
   rejections are for a bad assembly identifier, and, when `eager` is off, for a group out
   of bounds whose plan was accepted.
   */
  method SignPreparedGuardedGroup(
    c: Codec, w: World, lookup: KeyLookup, eager: bool, user: Client, prepared: seq<PreparedTxn>, routing: Routing,
    assemblyId: string)
    returns (log: seq<Event>, r: Result<seq<string>, Error>)
    requires c.Lawful() && w.Lawful()
    ensures log != [] <==> Startable(c, lookup, eager, prepared)
    ensures log != [] <==> GuardedGroup(lookup, eager, prepared)
    ensures log == [] ==> r.Failure?
    ensures log != [] ==>
      && PreparedRun(c, lookup, eager, user, prepared, routing, assemblyId, log, r)
      && RunConforms(c, lookup, true, prepared, routing, log, r)
      && log[0].Planned? && log[0].plan == w.plan([], user, log[0].entries)
      && (r == Failure(BadInput) <==> PlanTakenFor(c, prepared, log[0]) && OutOfBounds(lookup, prepared))
      && (r == Failure(InvalidRequest) ==> !IdOk(assemblyId))
    ensures log != [] && eager ==> !OutOfBounds(lookup, prepared)
  {
    var classified := Roles.Classify(Rule(c, lookup, eager), prepared);
    EagerStartsExactly(c, lookup, prepared);
    GuardedConformance.StartsExactly(c, lookup, eager, prepared);
    if classified.Failure? {
      return [], Failure(classified.error);
    }
    log, r := SignClassified(c, w, lookup, eager, user, prepared, routing, assemblyId, classified.value);
    LateFailureExactly(c, lookup, eager, user, prepared, routing, assemblyId, log, r);
  }

  method SignClassified(
    c: Codec, w: World, lookup: KeyLookup, ghost eager: bool, user: Client, prepared: seq<PreparedTxn>, routing: Routing,
    assemblyId: string, roles: Roles.Roles)
    returns (log: seq<Event>, r: Result<seq<string>, Error>)
    requires c.Lawful() && w.Lawful()
    requires Roles.RolesUpTo(Rule(c, lookup, eager), prepared, roles, |prepared|) && roles.targets != []
    ensures PreparedRun(c, lookup, eager, user, prepared, routing, assemblyId, log, r)
    ensures RunConforms(c, lookup, true, prepared, routing, log, r)
    ensures log != [] && log[0].Planned? && log[0].plan == w.plan([], user, log[0].entries)
  {
    ClassifiedRolesOk(c, lookup, eager, prepared, roles);
    var originals := Originals(prepared);
    log, r := PlanAndSign(c, w, user, routing, originals, roles, assemblyId);
    assert TaskRun(c, lookup, eager, user, prepared, routing, assemblyId, log, r, originals, roles);
    TaskConforms(c, lookup, eager, user, prepared, routing, assemblyId, log, r, originals, roles);
  }

  // ---- A group that fails late ---------------------------------------------

  /** A slot of a guarded account whose program is larger than the bounds allow. */
  function OversizedSlot(t: Txn): PreparedTxn {
    var profile := Profile(Some(Resources(20_000, 0, 1)), None, None, None);
    var key := KeyInfo(FLOW_COSIGNER1, "", Some(profile), None, "", "");
    PreparedTxn("", Some(t), "A", "", Some(key), [], None, "", [])
  }

  /** The slot classifies when bounds are left for later, and a plan that changes nothing is accepted for it. */
  lemma OversizedIsPlanned(c: Codec, lookup: KeyLookup, t: Txn, e: Event)
    requires c.Lawful() && t.group == []
    requires e.Planned? && e.plan == Answer(PlanReply([c.EncodeTxn(t)], None))
    ensures var prepared := [OversizedSlot(t)];
            && Startable(c, lookup, false, prepared) && !Startable(c, lookup, true, prepared)
            && OutOfBounds(lookup, prepared)
            && PlanTakenFor(c, prepared, e)
  {
    var prepared := [OversizedSlot(t)];
    assert Roles.CosignedAt(Rule(c, lookup, false), prepared, 0);
    assert SlotOutOfBounds(lookup, prepared[0]);
    EagerStartsExactly(c, lookup, prepared);
    assert Originals(prepared) == [t];
    Hex.RoundTrip(c.SignedBytes(t), c.skipsSpace);
    assert CanonicalGroup(c, [c.EncodeTxn(t)], [t]);
    assert Acceptable(c, [t], [t], None);
  }

  /** Go plans such a group and turns it away afterwards. */
  method RejectedAfterPlan(c: Codec, w: World, lookup: KeyLookup, user: Client, t: Txn, routing: Routing, assemblyId: string)
    returns (log: seq<Event>, r: Result<seq<string>, Error>)
    requires c.Lawful() && w.Lawful() && t.group == []
    requires forall past, to, entries :: w.plan(past, to, entries) == Answer(PlanReply([c.EncodeTxn(t)], None))
    ensures log != [] && PlanTakenFor(c, [OversizedSlot(t)], log[0]) && r == Failure(BadInput)
  {
    var prepared := [OversizedSlot(t)];
    log, r := SignPreparedGuardedGroup(c, w, lookup, false, user, prepared, routing, assemblyId);
    var honest := Planned(user, [], Answer(PlanReply([c.EncodeTxn(t)], None)));
    OversizedIsPlanned(c, lookup, t, honest);
    OversizedIsPlanned(c, lookup, t, log[0]);
  }
}
