/** The guarded flow's rule for each prepared slot. */
module GuardedRoles {
  import opened Basics
  import opened Transactions
  import opened Requests
  import opened Gathering
  import opened Exchange
  import opened Prepared
  import opened Roles

  /** With `eager` a guarded slot's resources must be in bounds (Python); otherwise only present (Go). */
  function ClassifySlot(c: Codec, lookup: KeyLookup, eager: bool, index: nat, item: PreparedTxn): Result<Slot, Error> {
    if item.signedBase64 != "" || item.transaction.None? then Failure(BadInput)
    else
      match ResolveKey(lookup, item)
      case Failure(e) => Failure(e)
      case Success(key) =>
        if item.authAddress == "" then Failure(BadInput)
        else
          match ToSignEntry(c, item)
          case Failure(e) => Failure(e)
          case Success(entry) =>
            if key.signingFlow == "" || key.signingFlow == FLOW_BOUNDED1 then
              Success(Primary(entry, PrimaryTarget(index, item.authAddress, item.txnSender, item.lsigArgs, item.appCallInfo)))
            else if key.signingFlow == FLOW_COSIGNER1 then GuardedSlot(eager, index, item, key, entry)
            else Failure(BadInput)
  }

  function GuardedSlot(eager: bool, index: nat, item: PreparedTxn, key: KeyInfo, entry: SignEntry): Result<Slot, Error>
    requires item.transaction.Some?
  {
    match SelectedResources(key, item.transaction.value)
    case Failure(e) => Failure(e)
    case Success(resources) =>
      if resources.None? || (eager && !ResourcesOk(resources.value)) then Failure(BadInput)
      else
        Success(Cosigned(
                  entry,
                  Target(index, item.authAddress, key.cosignerParameter, key.componentKeyType, "", [], resources, item.appCallInfo),
                  None))
  }

  function Rule(c: Codec, lookup: KeyLookup, eager: bool): (rule: Classifier)
    ensures Positioned(rule)
  {
    (i: nat, item: PreparedTxn) => ClassifySlot(c, lookup, eager, i, item)
  }

  /** Entries, targets and primaries fit together, independently of where they came from. */
  ghost predicate RolesOk(roles: Roles) {
    && roles.targets != []
    && DistinctTargets(roles.targets)
    && DistinctPrimaries(roles.primaries)
    && (forall k :: 0 <= k < |roles.targets| ==> TargetFits(roles, roles.targets[k]))
    && (forall k :: 0 <= k < |roles.primaries| ==> PrimaryFits(roles, roles.primaries[k]))
    && (forall i :: 0 <= i < |roles.entries| ==> IsTarget(roles, i) || IsPrimary(roles, i))
    && (forall i :: !(IsTarget(roles, i) && IsPrimary(roles, i)))
  }

  predicate TargetFits(roles: Roles, t: Target) {
    0 <= t.index < |roles.entries| && t.account != "" && t.resources.Some?
  }

  predicate PrimaryFits(roles: Roles, p: PrimaryTarget) {
    0 <= p.index < |roles.entries| && p.authAddress != ""
  }

  lemma ClassifiedEntry(c: Codec, lookup: KeyLookup, eager: bool, prepared: seq<PreparedTxn>, roles: Roles, i: int)
    requires RolesUpTo(Rule(c, lookup, eager), prepared, roles, |prepared|) && 0 <= i < |prepared|
    ensures prepared[i].transaction.Some?
    ensures EntryOk(roles.entries[i]) && EntryMode(roles.entries[i]) == Some(Sign)
    ensures IsTarget(roles, i) <==> CosignedAt(Rule(c, lookup, eager), prepared, i)
    ensures IsPrimary(roles, i) <==> PrimaryAt(Rule(c, lookup, eager), prepared, i)
    ensures IsTarget(roles, i) <==> !IsPrimary(roles, i)
  {
    var rule := Rule(c, lookup, eager);
    assert SlotHas(rule, prepared, roles, i);
    EncodedTxnNonEmpty(c, prepared[i].transaction.value);
    assert forall k :: 0 <= k < |roles.targets| ==> roles.targets[k] in roles.targets;
    assert forall k :: 0 <= k < |roles.primaries| ==> roles.primaries[k] in roles.primaries;
  }

  lemma ClassifiedEntriesOk(c: Codec, lookup: KeyLookup, eager: bool, prepared: seq<PreparedTxn>, roles: Roles)
    requires RolesUpTo(Rule(c, lookup, eager), prepared, roles, |prepared|) && roles.targets != []
    ensures EntriesOk(roles.entries)
  {
    forall i | 0 <= i < |prepared| ensures EntryOk(roles.entries[i]) && EntryMode(roles.entries[i]) == Some(Sign) {
      ClassifiedEntry(c, lookup, eager, prepared, roles, i);
    }
    assert roles.targets[0] in roles.targets;
    assert EntryMode(roles.entries[0]) == Some(Sign);
  }

  lemma ClassifiedRolesOk(c: Codec, lookup: KeyLookup, eager: bool, prepared: seq<PreparedTxn>, roles: Roles)
    requires RolesUpTo(Rule(c, lookup, eager), prepared, roles, |prepared|) && roles.targets != []
    ensures RolesOk(roles) && EntriesOk(roles.entries)
    ensures forall i :: 0 <= i < |prepared| ==> prepared[i].transaction.Some?
  {
    ClassifiedEntriesOk(c, lookup, eager, prepared, roles);
    forall i | 0 <= i < |prepared|
      ensures (IsTarget(roles, i) <==> !IsPrimary(roles, i)) && prepared[i].transaction.Some?
    {
      ClassifiedEntry(c, lookup, eager, prepared, roles, i);
    }
    forall k | 0 <= k < |roles.targets| ensures TargetFits(roles, roles.targets[k]) {
      assert roles.targets[k] in roles.targets;
    }
    forall k | 0 <= k < |roles.primaries| ensures PrimaryFits(roles, roles.primaries[k]) {
      assert roles.primaries[k] in roles.primaries;
    }
  }

  // ---- When the resource bounds are looked at ------------------------------

  /** A guarded slot whose key publishes resources outside the bounds; the caller can tell beforehand. */
  predicate SlotOutOfBounds(lookup: KeyLookup, item: PreparedTxn) {
    && item.transaction.Some?
    && var key := ResolveKey(lookup, item);
    && key.Success? && key.value.signingFlow == FLOW_COSIGNER1
    && var resources := SelectedResources(key.value, item.transaction.value);
    && resources.Success? && resources.value.Some? && !ResourcesOk(resources.value.value)
  }

  predicate OutOfBounds(lookup: KeyLookup, prepared: seq<PreparedTxn>) {
    exists i :: 0 <= i < |prepared| && SlotOutOfBounds(lookup, prepared[i])
  }

  ghost predicate BoundsFit(roles: Roles) {
    forall t :: t in roles.targets ==> t.resources.Some? && ResourcesOk(t.resources.value)
  }

  /** The first message can leave: every slot classifies and one of them is guarded. */
  ghost predicate Startable(c: Codec, lookup: KeyLookup, eager: bool, prepared: seq<PreparedTxn>) {
    && (forall i :: 0 <= i < |prepared| ==> Classifies(Rule(c, lookup, eager), prepared, i))
    && exists i :: CosignedAt(Rule(c, lookup, eager), prepared, i)
  }

  lemma BoundsDecided(c: Codec, lookup: KeyLookup, eager: bool, prepared: seq<PreparedTxn>, roles: Roles)
    requires RolesUpTo(Rule(c, lookup, eager), prepared, roles, |prepared|)
    ensures BoundsFit(roles) <==> !OutOfBounds(lookup, prepared)
  {
    var rule := Rule(c, lookup, eager);
    forall i | 0 <= i < |prepared| && SlotOutOfBounds(lookup, prepared[i]) ensures !BoundsFit(roles) {
      assert SlotHas(rule, prepared, roles, i);
      assert SlotAt(rule, prepared, i).target in roles.targets;
    }
    forall t | t in roles.targets
      ensures t.resources.Some? && (ResourcesOk(t.resources.value) || SlotOutOfBounds(lookup, prepared[t.index]))
    {
      assert CosignedAt(rule, prepared, t.index) && SlotAt(rule, prepared, t.index).target == t;
    }
  }

  /** The two rules agree slot by slot, but for slots that are out of bounds. */
  lemma RulesDiffer(c: Codec, lookup: KeyLookup, prepared: seq<PreparedTxn>, i: int)
    requires 0 <= i < |prepared|
    ensures Classifies(Rule(c, lookup, true), prepared, i) <==>
      Classifies(Rule(c, lookup, false), prepared, i) && !SlotOutOfBounds(lookup, prepared[i])
    ensures Classifies(Rule(c, lookup, true), prepared, i) ==>
      SlotAt(Rule(c, lookup, true), prepared, i) == SlotAt(Rule(c, lookup, false), prepared, i)
  {
  }

  /** Looking at the bounds while classifying turns away exactly the groups that are out of bounds. */
  lemma EagerStartsExactly(c: Codec, lookup: KeyLookup, prepared: seq<PreparedTxn>)
    ensures Startable(c, lookup, true, prepared) <==>
      Startable(c, lookup, false, prepared) && !OutOfBounds(lookup, prepared)
  {
    forall i | 0 <= i < |prepared|
      ensures Classifies(Rule(c, lookup, true), prepared, i) <==>
        Classifies(Rule(c, lookup, false), prepared, i) && !SlotOutOfBounds(lookup, prepared[i])
      ensures Classifies(Rule(c, lookup, true), prepared, i) ==>
        (CosignedAt(Rule(c, lookup, true), prepared, i) <==> CosignedAt(Rule(c, lookup, false), prepared, i))
    {
      RulesDiffer(c, lookup, prepared, i);
    }
    if Startable(c, lookup, true, prepared) {
      var i :| CosignedAt(Rule(c, lookup, true), prepared, i);
      assert CosignedAt(Rule(c, lookup, false), prepared, i);
    }
    if Startable(c, lookup, false, prepared) && !OutOfBounds(lookup, prepared) {
      var i :| CosignedAt(Rule(c, lookup, false), prepared, i);
      assert CosignedAt(Rule(c, lookup, true), prepared, i);
    }
  }
}
