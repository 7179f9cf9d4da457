/** Choosing the flow for a prepared group: bounded-cosigner, guarded, or neither. */
module PreparedSigning {
  import opened Basics
  import opened Transactions
  import opened Requests
  import opened Exchange
  import opened Gathering
  import opened Prepared
  import Roles
  import Conformance
  import BoundedRoles
  import BoundedSigning
  import GuardedRoles
  import PreparedGuarded

  /** The key a slot names or the signer lists for it; a slot may have none. */
  function KeyFor(lookup: KeyLookup, item: PreparedTxn): Result<Option<KeyInfo>, Error> {
    if item.signerKey.Some? then Success(item.signerKey)
    else if item.authAddress == "" then Success(None)
    else lookup(item.authAddress)
  }

  predicate KeyFound(lookup: KeyLookup, item: PreparedTxn) {
    KeyFor(lookup, item).Success?
  }

  predicate UsesFlow(lookup: KeyLookup, item: PreparedTxn, flow: string) {
    var key := KeyFor(lookup, item);
    key.Success? && key.value.Some? && key.value.value.signingFlow == flow
  }

  predicate AnyUses(lookup: KeyLookup, prepared: seq<PreparedTxn>, flow: string) {
    exists i :: 0 <= i < |prepared| && UsesFlow(lookup, prepared[i], flow)
  }

  predicate KeysFound(lookup: KeyLookup, prepared: seq<PreparedTxn>) {
    forall i :: 0 <= i < |prepared| ==> KeyFound(lookup, prepared[i])
  }

  predicate Mixed(lookup: KeyLookup, prepared: seq<PreparedTxn>) {
    AnyUses(lookup, prepared, FLOW_BOUNDED_COSIGNER1) && AnyUses(lookup, prepared, FLOW_COSIGNER1)
  }

  datatype Kinds = Kinds(bounded: bool, guarded: bool)

  method FlowKinds(lookup: KeyLookup, prepared: seq<PreparedTxn>) returns (r: Result<Kinds, Error>)
    ensures r.Success? <==> KeysFound(lookup, prepared)
    ensures r.Success? ==>
      && (r.value.bounded <==> AnyUses(lookup, prepared, FLOW_BOUNDED_COSIGNER1))
      && (r.value.guarded <==> AnyUses(lookup, prepared, FLOW_COSIGNER1))
  {
    var kinds := Kinds(false, false);
    for i := 0 to |prepared|
      invariant forall k :: 0 <= k < i ==> KeyFound(lookup, prepared[k])
      invariant kinds.bounded <==> exists k :: 0 <= k < i && UsesFlow(lookup, prepared[k], FLOW_BOUNDED_COSIGNER1)
      invariant kinds.guarded <==> exists k :: 0 <= k < i && UsesFlow(lookup, prepared[k], FLOW_COSIGNER1)
    {
      var key := KeyFor(lookup, prepared[i]);
      if key.Failure? {
        assert !KeyFound(lookup, prepared[i]);
        return Failure(key.error);
      }
      if key.value.Some? {
        if key.value.value.signingFlow == FLOW_BOUNDED_COSIGNER1 {
          assert UsesFlow(lookup, prepared[i], FLOW_BOUNDED_COSIGNER1);
          kinds := kinds.(bounded := true);
        } else if key.value.value.signingFlow == FLOW_COSIGNER1 {
          assert UsesFlow(lookup, prepared[i], FLOW_COSIGNER1);
          kinds := kinds.(guarded := true);
        }
      }
    }
    return Success(kinds);
  }

  // ---- The flows classify only their own groups ----------------------------

  lemma BoundedSlotKinds(c: Codec, lookup: KeyLookup, prepared: seq<PreparedTxn>, i: int)
    requires Roles.Classifies(BoundedRoles.Rule(c, lookup), prepared, i)
    ensures KeyFound(lookup, prepared[i]) && !UsesFlow(lookup, prepared[i], FLOW_COSIGNER1)
    ensures Roles.CosignedAt(BoundedRoles.Rule(c, lookup), prepared, i) <==>
      UsesFlow(lookup, prepared[i], FLOW_BOUNDED_COSIGNER1)
  {
  }

  lemma GuardedSlotKinds(c: Codec, lookup: KeyLookup, eager: bool, prepared: seq<PreparedTxn>, i: int)
    requires Roles.Classifies(GuardedRoles.Rule(c, lookup, eager), prepared, i)
    ensures KeyFound(lookup, prepared[i]) && !UsesFlow(lookup, prepared[i], FLOW_BOUNDED_COSIGNER1)
    ensures Roles.CosignedAt(GuardedRoles.Rule(c, lookup, eager), prepared, i) <==>
      UsesFlow(lookup, prepared[i], FLOW_COSIGNER1)
  {
  }

  lemma BoundedKinds(c: Codec, lookup: KeyLookup, prepared: seq<PreparedTxn>)
    requires BoundedSigning.Startable(c, lookup, prepared)
    ensures KeysFound(lookup, prepared)
    ensures AnyUses(lookup, prepared, FLOW_BOUNDED_COSIGNER1) && !AnyUses(lookup, prepared, FLOW_COSIGNER1)
  {
    forall i | 0 <= i < |prepared|
      ensures KeyFound(lookup, prepared[i]) && !UsesFlow(lookup, prepared[i], FLOW_COSIGNER1)
    {
      BoundedSlotKinds(c, lookup, prepared, i);
    }
    var i :| Roles.CosignedAt(BoundedRoles.Rule(c, lookup), prepared, i);
    BoundedSlotKinds(c, lookup, prepared, i);
  }

  lemma GuardedKinds(c: Codec, lookup: KeyLookup, eager: bool, prepared: seq<PreparedTxn>)
    requires GuardedRoles.Startable(c, lookup, eager, prepared)
    ensures KeysFound(lookup, prepared)
    ensures !AnyUses(lookup, prepared, FLOW_BOUNDED_COSIGNER1)
  {
    forall i | 0 <= i < |prepared|
      ensures KeyFound(lookup, prepared[i]) && !UsesFlow(lookup, prepared[i], FLOW_BOUNDED_COSIGNER1)
    {
      GuardedSlotKinds(c, lookup, eager, prepared, i);
    }
  }

  /**
   Signs a prepared group under the flow its keys ask for. A message leaves exactly when one of
   the two flows can start, which then is the only one that can; the run is a run of that flow.
   Without a message there is no result, and a mixed group is refused outright.
   */
  method SignPreparedGroup(
    c: Codec, w: World, lookup: KeyLookup, eager: bool, user: Client, prepared: seq<PreparedTxn>, routing: Routing,
    assemblyId: string)
    returns (log: seq<Event>, r: Result<seq<string>, Error>)
    requires c.Lawful() && w.Lawful()
    ensures log != [] <==>
      BoundedSigning.Startable(c, lookup, prepared) || GuardedRoles.Startable(c, lookup, eager, prepared)
    ensures log == [] ==> r.Failure?
    ensures log != [] && BoundedSigning.Startable(c, lookup, prepared) ==>
      && !GuardedRoles.Startable(c, lookup, eager, prepared)
      && BoundedSigning.PreparedRun(c, lookup, user, prepared, routing, assemblyId, log, r)
    ensures log != [] && GuardedRoles.Startable(c, lookup, eager, prepared) ==>
      PreparedGuarded.PreparedRun(c, lookup, eager, user, prepared, routing, assemblyId, log, r)
    ensures log != [] ==>
      Conformance.RunConforms(
        c, lookup, GuardedRoles.Startable(c, lookup, eager, prepared), prepared, routing, log, r)
    ensures KeysFound(lookup, prepared) && Mixed(lookup, prepared) ==> log == [] && r == Failure(BadInput)
  {
    if BoundedSigning.Startable(c, lookup, prepared) {
      BoundedKinds(c, lookup, prepared);
    }
    if GuardedRoles.Startable(c, lookup, eager, prepared) {
      GuardedKinds(c, lookup, eager, prepared);
    }
    var kinds := FlowKinds(lookup, prepared);
    if kinds.Failure? {
      return [], Failure(kinds.error);
    }
    if kinds.value.bounded {
      if kinds.value.guarded {
        return [], Failure(BadInput);
      }
      log, r := BoundedSigning.SignPreparedBoundedGroup(c, w, lookup, user, prepared, routing, assemblyId);
    } else {
      log, r := PreparedGuarded.SignPreparedGuardedGroup(c, w, lookup, eager, user, prepared, routing, assemblyId);
    }
  }
}
