/** The bounded-cosigner flow answers for the prepared slots. */
module BoundedConformance {
  import opened Basics
  import opened Transactions
  import opened Requests
  import opened Exchange
  import opened Gathering
  import opened Prepared
  import opened PrimarySlots
  import opened Plan
  import opened Outcome
  import opened Roles
  import opened BoundedRoles
  import opened BoundedFlow
  import opened Conformance

  // ---- Classification ------------------------------------------------------

  lemma SlotConformsAsClassified(c: Codec, lookup: KeyLookup, index: nat, item: PreparedTxn)
    requires c.Lawful() && ClassifySlot(c, lookup, index, item).Success?
    ensures
      var slot := ClassifySlot(c, lookup, index, item).value;
      && EntryConforms(c, lookup, item, slot.entry)
      && (slot.entry.authAddress != "" <==> slot.Cosigned?)
      && (slot.Cosigned? <==> UsesBoundedKey(lookup, item))
      && (slot.Cosigned? ==> TargetConforms(lookup, item, slot.target))
      && (slot.Primary? ==> PrimaryConforms(item, slot.primary))
      && (forall key :: KeyIs(lookup, item, key) && BoundedKey(key) && key.bounded.Some? ==>
            slot.Cosigned? && slot.maxFee == Some(key.bounded.value.maxFee))
  {
    var key := ResolveKey(lookup, item).value;
    ResolvedKeyIs(lookup, item, key);
    UsesBoundedKeyOf(lookup, item, key);
    SelectedIsPublished(key, item.transaction.value);
    if BoundedKey(key) {
      SignEntryConforms(c, lookup, item);
      assert CosignerOf(key, CosignerKey(key), CosignerKeyType(key));
    } else {
      EncodedDecodes(c, item.transaction.value);
    }
  }

  lemma ClassifiesExactly(c: Codec, lookup: KeyLookup, index: nat, item: PreparedTxn)
    ensures ClassifySlot(c, lookup, index, item).Success? <==> BoundedFits(lookup, item)
    ensures ClassifySlot(c, lookup, index, item).Success? ==>
      (ClassifySlot(c, lookup, index, item).value.Cosigned? <==> UsesFlow(lookup, item, FLOW_BOUNDED_COSIGNER1))
  {
    if ResolveKey(lookup, item).Success? && item.transaction.Some? {
      var key := ResolveKey(lookup, item).value;
      ResolvedKeyIs(lookup, item, key);
      var selected := SelectedResources(key, item.transaction.value);
      if selected.Success? {
        PublishedIsSelected(key, item.transaction.value, selected.value);
      }
    }
    if key, resources :| KeyIs(lookup, item, key) && item.transaction.Some? && Publishes(key, item.transaction.value, resources) {
      ResolvedKeyIs(lookup, item, key);
      PublishedIsSelected(key, item.transaction.value, resources);
    }
  }

  lemma StartsExactly(c: Codec, lookup: KeyLookup, prepared: seq<PreparedTxn>)
    ensures BoundedGroup(lookup, prepared) <==>
      && (forall i :: 0 <= i < |prepared| ==> Classifies(Rule(c, lookup), prepared, i))
      && exists i :: CosignedAt(Rule(c, lookup), prepared, i)
  {
    var rule := Rule(c, lookup);
    forall i | 0 <= i < |prepared|
      ensures Classifies(rule, prepared, i) <==> BoundedFits(lookup, prepared[i])
      ensures Classifies(rule, prepared, i) ==>
        (CosignedAt(rule, prepared, i) <==> UsesFlow(lookup, prepared[i], FLOW_BOUNDED_COSIGNER1))
    {
      ClassifiesExactly(c, lookup, i, prepared[i]);
    }
    if BoundedGroup(lookup, prepared) {
      var i :| 0 <= i < |prepared| && UsesFlow(lookup, prepared[i], FLOW_BOUNDED_COSIGNER1);
      assert CosignedAt(rule, prepared, i);
    }
  }

  lemma ClassifiedConform(c: Codec, lookup: KeyLookup, prepared: seq<PreparedTxn>, roles: Roles)
    requires c.Lawful() && RolesUpTo(Rule(c, lookup), prepared, roles, |prepared|)
    ensures RolesConform(c, lookup, false, prepared, roles)
  {
    var rule := Rule(c, lookup);
    forall i | 0 <= i < |prepared|
      ensures EntryConforms(c, lookup, prepared[i], roles.entries[i])
      ensures roles.entries[i].authAddress != "" <==> UsesBoundedKey(lookup, prepared[i])
      ensures LimitConforms(lookup, prepared[i], roles.maxFees, i)
    {
      assert SlotHas(rule, prepared, roles, i);
      SlotConformsAsClassified(c, lookup, i, prepared[i]);
    }
    forall t | t in roles.targets ensures InGroup(prepared, t.index) && TargetConforms(lookup, prepared[t.index], t) {
      SlotConformsAsClassified(c, lookup, t.index, prepared[t.index]);
    }
    forall p | p in roles.primaries ensures InGroup(prepared, p.index) && PrimaryConforms(prepared[p.index], p) {
      SlotConformsAsClassified(c, lookup, p.index, prepared[p.index]);
    }
  }

  // ---- Messages ------------------------------------------------------------

  lemma BaseConforms(c: Codec, lookup: KeyLookup, prepared: seq<PreparedTxn>, job: Job, to: Client, request: ComponentRequest)
    requires c.Lawful() && RolesConform(c, lookup, false, prepared, job.roles) && job.Ok() && |job.originals| == |prepared|
    requires AsksBase(job, to, request)
    ensures ComponentsConform(lookup, prepared, job.routing, to, request)
  {
    forall t | t in request.targets
      ensures InGroup(prepared, t.index) && t.kind == BoundedBase
      ensures t.authAddress == prepared[t.index].authAddress && t.lsigArgs == prepared[t.index].lsigArgs
      ensures t.appCallInfo == prepared[t.index].appCallInfo
    {
      var k :| 0 <= k < |job.roles.targets| && job.roles.targets[k].index == t.index
        && job.roles.targets[k].account == t.authAddress;
      var x := job.roles.targets[k];
      assert x in job.roles.targets && TargetConforms(lookup, prepared[x.index], x);
      assert EntryConforms(c, lookup, prepared[t.index], job.roles.entries[t.index]);
      assert TargetFits(job.roles, x);
    }
    forall p | p in request.context ensures InGroup(prepared, p.index) && p.appCallInfo == prepared[p.index].appCallInfo {
      assert EntryConforms(c, lookup, prepared[p.index], job.roles.entries[p.index]);
    }
  }

  lemma InfoConformsAsPlanned(c: Codec, lookup: KeyLookup, prepared: seq<PreparedTxn>, roles: Roles)
    requires c.Lawful() && RolesConform(c, lookup, false, prepared, roles)
    ensures InfoConforms(prepared, PlannedInfo(roles))
  {
    forall i | 0 <= i < |prepared| ensures roles.entries[i].appCallInfo == prepared[i].appCallInfo {
      assert EntryConforms(c, lookup, prepared[i], roles.entries[i]);
    }
  }

  lemma SigningStepConforms(
    c: Codec, lookup: KeyLookup, prepared: seq<PreparedTxn>, job: Job, entries: seq<SignEntry>)
    requires c.Lawful() && RolesConform(c, lookup, false, prepared, job.roles) && job.Ok() && |job.originals| == |prepared|
    requires SignsOnly(entries, job.roles.primaries) && DeclaresRest(job.roles, entries)
    ensures forall i :: 0 <= i < |entries| ==> SigningConforms(lookup, prepared, i, entries[i])
  {
    var roles := job.roles;
    forall i | 0 <= i < |entries| ensures SigningConforms(lookup, prepared, i, entries[i]) {
      forall p | p in roles.primaries
        ensures InGroup(prepared, p.index) && PrimaryConforms(prepared[p.index], p) && p.authAddress != ""
      {
        assert PrimaryFits(roles, p);
      }
      RoleMembers(roles, i);
      SignedConforms(lookup, prepared, roles.primaries, roles.targets, entries, i);
    }
  }

  lemma RoleMembers(roles: Roles, i: int)
    requires RolesOk(roles)
    ensures 0 <= i < |roles.entries| ==>
      (exists t :: t in roles.targets && t.index == i) || exists p :: p in roles.primaries && p.index == i
  {
    if 0 <= i < |roles.entries| {
      if IsTarget(roles, i) {
        var k :| 0 <= k < |roles.targets| && roles.targets[k].index == i;
        assert roles.targets[k] in roles.targets;
      } else {
        var k :| 0 <= k < |roles.primaries| && roles.primaries[k].index == i;
        assert roles.primaries[k] in roles.primaries;
      }
    }
  }

  lemma AssemblyConforms(c: Codec, lookup: KeyLookup, prepared: seq<PreparedTxn>, job: Job, past: seq<Event>, a: AssemblyTarget)
    requires c.Lawful() && RolesConform(c, lookup, false, prepared, job.roles)
    requires exists t :: t in job.roles.targets && FromReplies(job, past, a, t)
    ensures InGroup(prepared, a.index) && a.authAddress == prepared[a.index].authAddress
  {
    var t :| t in job.roles.targets && FromReplies(job, past, a, t);
    assert TargetConforms(lookup, prepared[t.index], t);
  }

  lemma StepConforms(c: Codec, lookup: KeyLookup, prepared: seq<PreparedTxn>, job: Job, past: seq<Event>, e: Event)
    requires c.Lawful() && RolesConform(c, lookup, false, prepared, job.roles) && job.Ok() && |job.originals| == |prepared|
    requires StepOk(c, job, past, e)
    ensures MessageConforms(lookup, prepared, job.routing, e)
  {
    match e
    case Components(to, request, _) =>
      if request.targets[0].kind == BoundedBase {
        BaseConforms(c, lookup, prepared, job, to, request);
      } else {
        InfoConformsAsPlanned(c, lookup, prepared, job.roles);
        CosignerAskConforms(lookup, prepared, job.routing, e, request.group, job.roles.targets, PlannedInfo(job.roles));
      }
    case Signed(_, _, entries, _) => SigningStepConforms(c, lookup, prepared, job, entries);
    case Assembled(_, request, _) =>
      forall a | a in request.targets ensures InGroup(prepared, a.index) && a.authAddress == prepared[a.index].authAddress {
        AssemblyConforms(c, lookup, prepared, job, past, a);
      }
    case _ =>
  }

  lemma LogConforms(c: Codec, lookup: KeyLookup, prepared: seq<PreparedTxn>, job: Job, log: seq<Event>)
    requires c.Lawful() && RolesConform(c, lookup, false, prepared, job.roles) && job.Ok() && |job.originals| == |prepared|
    requires Safe(c, job, log)
    ensures MessagesConform(lookup, prepared, job.routing, log)
  {
    forall k | 0 <= k < |log| ensures MessageConforms(lookup, prepared, job.routing, log[k]) {
      SafeAt(c, job, log, k);
      StepConforms(c, lookup, prepared, job, log[..k], log[k]);
    }
  }

  /** A safe log opens with the plan request. */
  lemma OpensWithPlan(c: Codec, job: Job, log: seq<Event>)
    requires Safe(c, job, log) && log != []
    ensures log[0].Planned? && log[0].entries == job.roles.entries
  {
    SafeAt(c, job, log, 0);
    assert log[..0] == [];
  }
}
