/** The guarded flow answers for the prepared slots. */
module GuardedConformance {
  import opened Basics
  import opened Transactions
  import opened Requests
  import opened Exchange
  import opened Gathering
  import opened Prepared
  import opened PrimarySlots
  import opened TargetOrder
  import opened GuardedRoles
  import opened GuardedFlow
  import opened Conformance
  import R = Roles

  // ---- Classification ------------------------------------------------------

  lemma SlotConformsAsClassified(c: Codec, lookup: KeyLookup, eager: bool, index: nat, item: PreparedTxn)
    requires c.Lawful() && ClassifySlot(c, lookup, eager, index, item).Success?
    ensures
      var slot := ClassifySlot(c, lookup, eager, index, item).value;
      && EntryConforms(c, lookup, item, slot.entry)
      && slot.entry.authAddress != ""
      && !UsesBoundedKey(lookup, item)
      && (slot.Cosigned? ==> TargetConforms(lookup, item, slot.target))
      && (slot.Primary? ==> PrimaryConforms(item, slot.primary))
  {
    var key := ResolveKey(lookup, item).value;
    ResolvedKeyIs(lookup, item, key);
    UsesBoundedKeyOf(lookup, item, key);
    SelectedIsPublished(key, item.transaction.value);
    SignEntryConforms(c, lookup, item);
    assert !BoundedKey(key) ==> CosignerOf(key, key.cosignerParameter, key.componentKeyType);
  }

  lemma ClassifiesExactly(c: Codec, lookup: KeyLookup, eager: bool, index: nat, item: PreparedTxn)
    ensures ClassifySlot(c, lookup, eager, index, item).Success? <==> GuardedFits(lookup, eager, item)
    ensures ClassifySlot(c, lookup, eager, index, item).Success? ==>
      (ClassifySlot(c, lookup, eager, index, item).value.Cosigned? <==> UsesFlow(lookup, item, FLOW_COSIGNER1))
  {
    if ResolveKey(lookup, item).Success? && item.transaction.Some? {
      var key := ResolveKey(lookup, item).value;
      ResolvedKeyIs(lookup, item, key);
      var selected := SelectedResources(key, item.transaction.value);
      if selected.Success? {
        PublishedIsSelected(key, item.transaction.value, selected.value);
      }
    }
    if key :| KeyIs(lookup, item, key) && item.transaction.Some? {
      ResolvedKeyIs(lookup, item, key);
      if resources :| Publishes(key, item.transaction.value, resources) {
        PublishedIsSelected(key, item.transaction.value, resources);
      }
    }
  }

  lemma StartsExactly(c: Codec, lookup: KeyLookup, eager: bool, prepared: seq<PreparedTxn>)
    ensures GuardedGroup(lookup, eager, prepared) <==> Startable(c, lookup, eager, prepared)
  {
    var rule := Rule(c, lookup, eager);
    forall i | 0 <= i < |prepared|
      ensures R.Classifies(rule, prepared, i) <==> GuardedFits(lookup, eager, prepared[i])
      ensures R.Classifies(rule, prepared, i) ==>
        (R.CosignedAt(rule, prepared, i) <==> UsesFlow(lookup, prepared[i], FLOW_COSIGNER1))
    {
      ClassifiesExactly(c, lookup, eager, i, prepared[i]);
    }
    if GuardedGroup(lookup, eager, prepared) {
      var i :| 0 <= i < |prepared| && UsesFlow(lookup, prepared[i], FLOW_COSIGNER1);
      assert R.CosignedAt(rule, prepared, i);
    }
  }

  lemma ClassifiedConform(c: Codec, lookup: KeyLookup, eager: bool, prepared: seq<PreparedTxn>, roles: R.Roles)
    requires c.Lawful() && R.RolesUpTo(Rule(c, lookup, eager), prepared, roles, |prepared|)
    ensures RolesConform(c, lookup, true, prepared, roles)
    ensures forall i :: 0 <= i < |prepared| ==> !UsesBoundedKey(lookup, prepared[i])
  {
    var rule := Rule(c, lookup, eager);
    forall i | 0 <= i < |prepared|
      ensures EntryConforms(c, lookup, prepared[i], roles.entries[i]) && roles.entries[i].authAddress != ""
      ensures LimitConforms(lookup, prepared[i], roles.maxFees, i) && !UsesBoundedKey(lookup, prepared[i])
    {
      assert R.SlotHas(rule, prepared, roles, i);
      SlotConformsAsClassified(c, lookup, eager, i, prepared[i]);
    }
    forall t | t in roles.targets ensures InGroup(prepared, t.index) && TargetConforms(lookup, prepared[t.index], t) {
      SlotConformsAsClassified(c, lookup, eager, t.index, prepared[t.index]);
    }
    forall p | p in roles.primaries ensures InGroup(prepared, p.index) && PrimaryConforms(prepared[p.index], p) {
      SlotConformsAsClassified(c, lookup, eager, p.index, prepared[p.index]);
    }
  }

  // ---- Messages ------------------------------------------------------------

  /** The options submit the roles' targets and primaries, with a dummy at every position beyond the prepared ones. */
  ghost predicate Submits(prepared: seq<PreparedTxn>, roles: R.Roles, o: Options) {
    && o.targets == roles.targets && o.primaries == roles.primaries
    && |o.group| - |o.dummies| == |prepared| == |roles.entries|
    && RolesOk(roles)
  }

  lemma RoleMembers(roles: R.Roles, i: int)
    requires RolesOk(roles) && 0 <= i < |roles.entries|
    ensures (exists t :: t in roles.targets && t.index == i) || exists p :: p in roles.primaries && p.index == i
  {
    if R.IsTarget(roles, i) {
      var k :| 0 <= k < |roles.targets| && roles.targets[k].index == i;
      assert roles.targets[k] in roles.targets;
    } else {
      var k :| 0 <= k < |roles.primaries| && roles.primaries[k].index == i;
      assert roles.primaries[k] in roles.primaries;
    }
  }

  lemma RolesApart(roles: R.Roles)
    requires RolesOk(roles)
    ensures forall t, p :: t in roles.targets && p in roles.primaries ==> t.index != p.index
  {
    forall t, p | t in roles.targets && p in roles.primaries ensures t.index != p.index {
      var k :| 0 <= k < |roles.targets| && roles.targets[k] == t;
      var j :| 0 <= j < |roles.primaries| && roles.primaries[j] == p;
      assert R.IsTarget(roles, t.index) && R.IsPrimary(roles, p.index);
    }
  }

  lemma InfoConformsAsGiven(c: Codec, lookup: KeyLookup, prepared: seq<PreparedTxn>, roles: R.Roles, o: Options)
    requires c.Lawful() && RolesConform(c, lookup, true, prepared, roles) && Submits(prepared, roles, o)
    requires DistinctTargets(SortByIndex(o.targets))
    ensures InfoConforms(prepared, InfoOf(o))
  {
    RolesApart(roles);
    SortedMembers(o.targets);
    InfoForExactly(o.primaries, SortByIndex(o.targets));
    forall i | 0 <= i < |prepared| ensures i in InfoOf(o) && InfoOf(o)[i] == prepared[i].appCallInfo {
      RoleMembers(roles, i);
      if exists t :: t in roles.targets && t.index == i {
        var t :| t in roles.targets && t.index == i;
        assert t in SortByIndex(o.targets) && TargetConforms(lookup, prepared[i], t);
      } else {
        var p :| p in roles.primaries && p.index == i;
        assert PrimaryConforms(prepared[i], p);
      }
    }
  }

  lemma SigningStepConforms(
    c: Codec, lookup: KeyLookup, prepared: seq<PreparedTxn>, roles: R.Roles, o: Options, entries: seq<SignEntry>)
    requires c.Lawful() && RolesConform(c, lookup, true, prepared, roles) && Submits(prepared, roles, o)
    requires SignsOnly(entries, o.primaries) && DeclaresRest(o, entries)
    ensures forall i :: 0 <= i < |entries| ==> SigningConforms(lookup, prepared, i, entries[i])
  {
    forall i | 0 <= i < |entries| ensures SigningConforms(lookup, prepared, i, entries[i]) {
      forall p | p in roles.primaries
        ensures InGroup(prepared, p.index) && PrimaryConforms(prepared[p.index], p) && p.authAddress != ""
      {
        var k :| 0 <= k < |roles.primaries| && roles.primaries[k] == p;
        assert PrimaryFits(roles, roles.primaries[k]);
      }
      if InGroup(prepared, i) {
        RoleMembers(roles, i);
      }
      SignedConforms(lookup, prepared, roles.primaries, roles.targets, entries, i);
    }
  }

  lemma AskConforms(lookup: KeyLookup, prepared: seq<PreparedTxn>, o: Options, e: Event)
    requires TargetsConform(lookup, prepared, o.targets) && InfoConforms(prepared, InfoOf(o))
    requires |o.group| - |o.dummies| == |prepared|
    requires
      || Asks(e, User, o.group, o.targets, UserRoute(o.user), |o.group| - |o.dummies|, InfoOf(o))
      || Asks(e, Cosigner, o.group, o.targets, o.routing, |o.group| - |o.dummies|, InfoOf(o))
    ensures MessageConforms(lookup, prepared, o.routing, e)
  {
    if Asks(e, User, o.group, o.targets, UserRoute(o.user), |o.group| - |o.dummies|, InfoOf(o)) {
      UserAskConforms(lookup, prepared, UserRoute(o.user), o.routing, e, o.group, o.targets, InfoOf(o));
    } else {
      CosignerAskConforms(lookup, prepared, o.routing, e, o.group, o.targets, InfoOf(o));
    }
  }

  lemma AssemblyConforms(lookup: KeyLookup, prepared: seq<PreparedTxn>, o: Options, past: seq<Event>, a: AssemblyTarget)
    requires TargetsConform(lookup, prepared, o.targets)
    requires exists t :: t in o.targets && BothSourced(o, past, a, t)
    ensures InGroup(prepared, a.index) && a.authAddress == prepared[a.index].authAddress
  {
    var t :| t in o.targets && BothSourced(o, past, a, t);
    assert TargetConforms(lookup, prepared[t.index], t);
  }

  lemma StepConforms(
    c: Codec, lookup: KeyLookup, prepared: seq<PreparedTxn>, roles: R.Roles, o: Options, past: seq<Event>, e: Event)
    requires c.Lawful() && RolesConform(c, lookup, true, prepared, roles) && Submits(prepared, roles, o)
    requires InfoConforms(prepared, InfoOf(o))
    requires StepOk(c, o, past, e)
    ensures MessageConforms(lookup, prepared, o.routing, e)
  {
    match e
    case Components(_, _, _) => AskConforms(lookup, prepared, o, e);
    case Signed(_, _, entries, _) => SigningStepConforms(c, lookup, prepared, roles, o, entries);
    case Assembled(_, request, _) =>
      forall a | a in request.targets ensures InGroup(prepared, a.index) && a.authAddress == prepared[a.index].authAddress {
        AssemblyConforms(lookup, prepared, o, past, a);
      }
    case _ =>
  }

  lemma LogConforms(c: Codec, lookup: KeyLookup, prepared: seq<PreparedTxn>, roles: R.Roles, o: Options, log: seq<Event>)
    requires c.Lawful() && RolesConform(c, lookup, true, prepared, roles) && Submits(prepared, roles, o)
    requires DistinctTargets(SortByIndex(o.targets))
    requires Safe(c, o, log)
    ensures MessagesConform(lookup, prepared, o.routing, log)
  {
    InfoConformsAsGiven(c, lookup, prepared, roles, o);
    forall k | 0 <= k < |log| ensures MessageConforms(lookup, prepared, o.routing, log[k]) {
      SafeAt(c, o, log, k);
      StepConforms(c, lookup, prepared, roles, o, log[..k], log[k]);
    }
  }
}
