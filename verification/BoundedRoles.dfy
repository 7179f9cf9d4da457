/** The bounded-cosigner flow's rule for each prepared slot. */
module BoundedRoles {
  import opened Basics
  import opened Transactions
  import opened Requests
  import opened Gathering
  import opened Exchange
  import opened Prepared
  import opened Roles

  function ClassifySlot(c: Codec, lookup: KeyLookup, index: nat, item: PreparedTxn): Result<Slot, Error> {
    if item.signedBase64 != "" || item.transaction.None? then Failure(BadInput)
    else
      match ResolveKey(lookup, item)
      case Failure(e) => Failure(e)
      case Success(key) =>
        match SelectedResources(key, item.transaction.value)
        case Failure(e) => Failure(e)
        case Success(resources) =>
          if key.signingFlow == FLOW_BOUNDED_COSIGNER1 then BoundedSlot(c, index, item, key, resources)
          else if key.signingFlow == "" || key.signingFlow == FLOW_BOUNDED1 then PrimarySlot(c, index, item, key, resources)
          else Failure(BadInput)
  }

  function BoundedSlot(c: Codec, index: nat, item: PreparedTxn, key: KeyInfo, resources: Option<Resources>): Result<Slot, Error>
    requires item.transaction.Some?
  {
    if item.authAddress == "" || resources.None? || !ResourcesOk(resources.value) || key.bounded.None? then Failure(BadInput)
    else
      match ToSignEntry(c, item)
      case Failure(e) => Failure(e)
      case Success(entry) =>
        Success(Cosigned(
                  entry,
                  Target(index, item.authAddress, CosignerKey(key), CosignerKeyType(key), "", [], resources, item.appCallInfo),
                  Some(key.bounded.value.maxFee)))
  }

  function PrimarySlot(c: Codec, index: nat, item: PreparedTxn, key: KeyInfo, resources: Option<Resources>): Result<Slot, Error>
    requires item.transaction.Some?
  {
    if item.authAddress == "" || (resources.Some? && !ResourcesOk(resources.value)) then Failure(BadInput)
    else
      match ForeignScheme(key, resources)
      case Failure(e) => Failure(e)
      case Success(scheme) =>
        Success(Primary(
                  SignEntry(c.EncodeTxn(item.transaction.value), "", "", "", [], item.appCallInfo, resources, scheme),
                  PrimaryTarget(index, item.authAddress, item.txnSender, item.lsigArgs, item.appCallInfo)))
  }

  function Rule(c: Codec, lookup: KeyLookup): (rule: Classifier)
    ensures Positioned(rule)
  {
    (i: nat, item: PreparedTxn) => ClassifySlot(c, lookup, i, item)
  }

  // ---- What the later steps rely on ----------------------------------------

  /** Entries, targets and primaries fit together, independently of where they came from. */
  ghost predicate RolesOk(roles: Roles) {
    && roles.targets != []
    && DistinctTargets(roles.targets)
    && DistinctPrimaries(roles.primaries)
    && (forall t :: t in roles.targets ==> TargetFits(roles, t))
    && (forall p :: p in roles.primaries ==> PrimaryFits(roles, p))
    && (forall i :: 0 <= i < |roles.entries| ==> IsTarget(roles, i) || IsPrimary(roles, i))
  }

  predicate TargetFits(roles: Roles, t: Target) {
    && 0 <= t.index < |roles.entries|
    && t.account != ""
    && t.resources.Some?
    && ResourcesOk(t.resources.value)
    && var entry := roles.entries[t.index];
    && EntryMode(entry) == Some(Sign)
    && EntryOk(entry)
    && entry.authAddress == t.account
  }

  predicate PrimaryFits(roles: Roles, p: PrimaryTarget) {
    && 0 <= p.index < |roles.entries|
    && p.authAddress != ""
    && EntryMode(roles.entries[p.index]) == Some(Foreign)
    && EntryOk(roles.entries[p.index])
  }

  lemma ClassifiedRolesOk(c: Codec, lookup: KeyLookup, prepared: seq<PreparedTxn>, roles: Roles)
    requires RolesUpTo(Rule(c, lookup), prepared, roles, |prepared|) && roles.targets != []
    ensures RolesOk(roles)
    ensures forall i :: i in roles.maxFees <==> IsTarget(roles, i)
    ensures forall i :: 0 <= i < |prepared| ==> prepared[i].transaction.Some?
  {
    forall i | 0 <= i < |prepared|
      ensures (IsTarget(roles, i) || IsPrimary(roles, i)) && prepared[i].transaction.Some?
    {
      assert SlotHas(Rule(c, lookup), prepared, roles, i);
    }
    forall t | t in roles.targets ensures TargetFits(roles, t) && t.index in roles.maxFees {
      assert SlotHas(Rule(c, lookup), prepared, roles, t.index);
      EncodedTxnNonEmpty(c, prepared[t.index].transaction.value);
    }
    forall p | p in roles.primaries ensures PrimaryFits(roles, p) {
      assert SlotHas(Rule(c, lookup), prepared, roles, p.index);
      EncodedTxnNonEmpty(c, prepared[p.index].transaction.value);
    }
    forall i | i in roles.maxFees ensures IsTarget(roles, i) {
      assert SlotHas(Rule(c, lookup), prepared, roles, i);
    }
  }

  /** The planning request always passes its own check. */
  lemma PlanEntriesOk(roles: Roles)
    requires RolesOk(roles)
    ensures EntriesOk(roles.entries)
  {
    forall i | 0 <= i < |roles.entries|
      ensures EntryOk(roles.entries[i]) && EntryMode(roles.entries[i]) != Some(Passthrough)
    {
      if IsTarget(roles, i) {
        var k :| 0 <= k < |roles.targets| && roles.targets[k].index == i;
        assert TargetFits(roles, roles.targets[k]);
      } else {
        var k :| 0 <= k < |roles.primaries| && roles.primaries[k].index == i;
        assert PrimaryFits(roles, roles.primaries[k]);
      }
    }
    assert TargetFits(roles, roles.targets[0]);
  }
}
