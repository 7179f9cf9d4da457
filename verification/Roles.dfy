/** Sorting a prepared group into cosigned targets and ordinary primary slots. */
module Roles {
  import opened Basics
  import opened Requests
  import opened Gathering
  import opened Exchange
  import opened Prepared

  datatype Slot =
    | Cosigned(entry: SignEntry, target: Target, maxFee: Option<int>)
    | Primary(entry: SignEntry, primary: PrimaryTarget)

  /** A flow's rule for one slot. */
  type Classifier = (nat, PreparedTxn) -> Result<Slot, Error>

  /** A slot knows its own position. */
  ghost predicate Positioned(rule: Classifier) {
    forall i, item :: rule(i, item).Success? ==>
      match rule(i, item).value
      case Cosigned(_, target, _) => target.index == i
      case Primary(_, primary) => primary.index == i
  }

  datatype Roles = Roles(
    entries: seq<SignEntry>,
    targets: seq<Target>,
    primaries: seq<PrimaryTarget>,
    maxFees: map<int, int>)

  predicate IsTarget(roles: Roles, i: int) {
    exists k :: 0 <= k < |roles.targets| && roles.targets[k].index == i
  }

  predicate IsPrimary(roles: Roles, i: int) {
    exists k :: 0 <= k < |roles.primaries| && roles.primaries[k].index == i
  }

  ghost predicate DistinctPrimaries(primaries: seq<PrimaryTarget>) {
    forall i, j :: 0 <= i < j < |primaries| ==> primaries[i].index != primaries[j].index
  }

  ghost predicate Classifies(rule: Classifier, prepared: seq<PreparedTxn>, i: int) {
    0 <= i < |prepared| && rule(i, prepared[i]).Success?
  }

  ghost function SlotAt(rule: Classifier, prepared: seq<PreparedTxn>, i: int): Slot
    requires Classifies(rule, prepared, i)
  {
    rule(i, prepared[i]).value
  }

  ghost predicate CosignedAt(rule: Classifier, prepared: seq<PreparedTxn>, i: int) {
    Classifies(rule, prepared, i) && SlotAt(rule, prepared, i).Cosigned?
  }

  ghost predicate PrimaryAt(rule: Classifier, prepared: seq<PreparedTxn>, i: int) {
    Classifies(rule, prepared, i) && SlotAt(rule, prepared, i).Primary?
  }

  ghost predicate SlotHas(rule: Classifier, prepared: seq<PreparedTxn>, roles: Roles, i: int)
    requires 0 <= i < |roles.entries|
  {
    && Classifies(rule, prepared, i)
    && var slot := SlotAt(rule, prepared, i);
    && roles.entries[i] == slot.entry
    && (slot.Cosigned? ==> slot.target in roles.targets && (slot.maxFee.Some? ==> i in roles.maxFees))
    && (slot.Primary? ==> slot.primary in roles.primaries)
  }

  /** The first `n` slots, each under exactly one role. */
  ghost predicate RolesUpTo(rule: Classifier, prepared: seq<PreparedTxn>, roles: Roles, n: nat)
    requires n <= |prepared|
  {
    && |roles.entries| == n
    && DistinctTargets(roles.targets)
    && DistinctPrimaries(roles.primaries)
    && (forall i :: 0 <= i < n ==> SlotHas(rule, prepared, roles, i))
    && (forall t :: t in roles.targets ==>
          0 <= t.index < n && CosignedAt(rule, prepared, t.index) && SlotAt(rule, prepared, t.index).target == t)
    && (forall p :: p in roles.primaries ==>
          0 <= p.index < n && PrimaryAt(rule, prepared, p.index) && SlotAt(rule, prepared, p.index).primary == p)
    && (forall i :: i in roles.maxFees ==>
          0 <= i < n && CosignedAt(rule, prepared, i) && SlotAt(rule, prepared, i).maxFee == Some(roles.maxFees[i]))
  }

  method Classify(rule: Classifier, prepared: seq<PreparedTxn>) returns (r: Result<Roles, Error>)
    requires Positioned(rule)
    ensures r.Success? <==>
      && (forall i :: 0 <= i < |prepared| ==> Classifies(rule, prepared, i))
      && exists i :: CosignedAt(rule, prepared, i)
    ensures r.Success? ==> r.value.targets != [] && RolesUpTo(rule, prepared, r.value, |prepared|)
    ensures r.Failure? ==> r.error == BadInput || exists i :: 0 <= i < |prepared| && rule(i, prepared[i]) == Failure(r.error)
  {
    var roles := Roles([], [], [], map[]);
    for i := 0 to |prepared|
      invariant RolesUpTo(rule, prepared, roles, i)
    {
      var slot := rule(i, prepared[i]);
      if slot.Failure? {
        assert !Classifies(rule, prepared, i);
        return Failure(slot.error);
      }
      ghost var before := roles;
      match slot.value {
        case Cosigned(entry, target, maxFee) =>
          roles := Roles(
            roles.entries + [entry], roles.targets + [target], roles.primaries,
            if maxFee.Some? then roles.maxFees[i := maxFee.value] else roles.maxFees);
        case Primary(entry, primary) =>
          roles := Roles(roles.entries + [entry], roles.targets, roles.primaries + [primary], roles.maxFees);
      }
      RolesStep(rule, prepared, before, roles, i);
    }
    if roles.targets == [] {
      forall i ensures !CosignedAt(rule, prepared, i) {
        assert 0 <= i < |prepared| ==> SlotHas(rule, prepared, roles, i);
      }
      return Failure(BadInput);
    }
    assert roles.targets[0] in roles.targets && CosignedAt(rule, prepared, roles.targets[0].index);
    forall i | 0 <= i < |prepared| ensures Classifies(rule, prepared, i) {
      assert SlotHas(rule, prepared, roles, i);
    }
    return Success(roles);
  }

  lemma RolesStep(rule: Classifier, prepared: seq<PreparedTxn>, before: Roles, after: Roles, i: nat)
    requires Positioned(rule)
    requires i < |prepared| && RolesUpTo(rule, prepared, before, i)
    requires Classifies(rule, prepared, i)
    requires
      match SlotAt(rule, prepared, i)
      case Cosigned(entry, target, maxFee) =>
        after == Roles(
                   before.entries + [entry], before.targets + [target], before.primaries,
                   if maxFee.Some? then before.maxFees[i := maxFee.value] else before.maxFees)
      case Primary(entry, primary) =>
        after == Roles(before.entries + [entry], before.targets, before.primaries + [primary], before.maxFees)
    ensures RolesUpTo(rule, prepared, after, i + 1)
  {
    forall k | 0 <= k < i + 1 ensures SlotHas(rule, prepared, after, k) {
      if k < i {
        assert SlotHas(rule, prepared, before, k);
      }
    }
  }
}
