/**
 What the messages and the result of a run owe to the prepared slots, said of those slots,
 of the signer's key inventory and of nothing computed on the way.
 */
module Conformance {
  import opened Basics
  import opened Transactions
  import opened Requests
  import opened Exchange
  import opened Gathering
  import opened Prepared
  import opened Plan
  import opened Outcome
  import opened Roles
  import opened PrimarySlots
  import Hex

  // ---- Slots and their keys ------------------------------------------------

  /** The key a slot names, or the one the signer lists for its address. */
  predicate KeyIs(lookup: KeyLookup, item: PreparedTxn, key: KeyInfo) {
    if item.signerKey.Some? then item.signerKey == Some(key)
    else item.authAddress != "" && lookup(item.authAddress) == Success(Some(key))
  }

  predicate BoundedKey(key: KeyInfo) {
    key.signingFlow == FLOW_BOUNDED_COSIGNER1
  }

  ghost predicate UsesBoundedKey(lookup: KeyLookup, item: PreparedTxn) {
    exists key :: KeyIs(lookup, item, key) && BoundedKey(key)
  }

  /** The first rekey operation demands `authorization`. */
  ghost predicate RekeyDemands(operations: seq<AdminOperation>, authorization: string) {
    exists k :: 0 <= k < |operations|
      && operations[k].kind == "rekey" && operations[k].authorization == authorization
      && forall j :: 0 <= j < k ==> operations[j].kind != "rekey"
  }

  /** `resources` is what the key publishes for spending `t`, or for rekeying with it. */
  ghost predicate Publishes(key: KeyInfo, t: Txn, resources: Option<Resources>) {
    match key.profile
    case None => resources.None?
    case Some(profile) =>
      if key.bounded.Some? && t.rekeyTo.Some? then
        || (RekeyDemands(key.bounded.value.operations, "spending_key") && resources == profile.spendingRekey)
        || (RekeyDemands(key.bounded.value.operations, "admin_key") && resources == profile.adminRekey)
      else resources == if profile.spend.Some? then profile.spend else profile.standard
  }

  ghost predicate Declares(lookup: KeyLookup, item: PreparedTxn, resources: Option<Resources>) {
    && item.transaction.Some?
    && exists key :: KeyIs(lookup, item, key) && Publishes(key, item.transaction.value, resources)
  }

  // ---- Messages ------------------------------------------------------------

  /** An entry of the plan request. With an address it stands for a slot the signer will authorize itself. */
  ghost predicate EntryConforms(c: Codec, lookup: KeyLookup, item: PreparedTxn, e: SignEntry)
    requires c.Lawful()
  {
    && item.transaction.Some? && DecodeSlot(c, e.txnHex) == item.transaction
    && e.signedHex == "" && e.appCallInfo == item.appCallInfo
    && if e.authAddress != "" then
         && e.authAddress == item.authAddress && e.lsigArgs == item.lsigArgs
         && e.txnSender == (if item.txnSender != "" then item.txnSender else item.transaction.value.sender)
         && e.resources.None? && e.pqScheme == ""
       else
         && e.txnSender == "" && e.lsigArgs == []
         && exists key ::
              && KeyIs(lookup, item, key) && Publishes(key, item.transaction.value, e.resources)
              && e.pqScheme == if key.authorizationKind == KIND_NATIVE_PQ then PQ_SCHEME_FALCON1024 else ""
  }

  /** The plan request; `allSigned` is whether slots of any flow are given with their address. */
  ghost predicate PlanConforms(
    c: Codec, lookup: KeyLookup, allSigned: bool, prepared: seq<PreparedTxn>, entries: seq<SignEntry>)
    requires c.Lawful()
  {
    && |entries| == |prepared|
    && forall i :: 0 <= i < |prepared| ==>
         && EntryConforms(c, lookup, prepared[i], entries[i])
         && (entries[i].authAddress != "" <==> allSigned || UsesBoundedKey(lookup, prepared[i]))
  }

  /** What a cosigner resolver is shown of a slot. */
  ghost predicate TargetConforms(lookup: KeyLookup, item: PreparedTxn, t: Target) {
    && t.account == item.authAddress && t.appCallInfo == item.appCallInfo
    && t.componentKey == "" && t.runtimeArgs == []
    && Declares(lookup, item, t.resources)
    && exists key :: KeyIs(lookup, item, key) && CosignerOf(key, t.publicKey, t.keyType)
  }

  /** The cosigner key a bounded or guarded key publishes. */
  ghost predicate CosignerOf(key: KeyInfo, publicKey: string, keyType: string) {
    if BoundedKey(key) && key.bounded.Some? then
      var cosigner := key.bounded.value.cosigner;
      && publicKey == (if cosigner.Some? && cosigner.value.publicKey != "" then cosigner.value.publicKey
                       else key.cosignerParameter)
      && keyType == (if key.componentKeyType != "" then key.componentKeyType
                     else if cosigner.Some? then cosigner.value.componentKeyType else "")
    else publicKey == key.cosignerParameter && keyType == key.componentKeyType
  }

  predicate PrimaryConforms(item: PreparedTxn, p: PrimaryTarget) {
    && p.authAddress == item.authAddress && p.txnSender == item.txnSender
    && p.lsigArgs == item.lsigArgs && p.appCallInfo == item.appCallInfo
  }

  predicate InGroup(prepared: seq<PreparedTxn>, i: int) {
    0 <= i < |prepared|
  }

  ghost predicate ComponentsConform(
    lookup: KeyLookup, prepared: seq<PreparedTxn>, routing: Routing, to: Client, r: ComponentRequest)
  {
    && |r.group| - |r.dummies| == |prepared|
    && (forall t :: t in r.targets ==>
          && InGroup(prepared, t.index)
          && t.appCallInfo == prepared[t.index].appCallInfo
          && (t.kind != Cosigner ==> t.authAddress == prepared[t.index].authAddress)
          && (t.kind == BoundedBase ==> t.lsigArgs == prepared[t.index].lsigArgs)
          && (t.kind == Cosigner ==> exists x: Target ::
                && x.index == t.index && TargetConforms(lookup, prepared[t.index], x)
                && routing(x) == Some(Route(to, t.componentKey))))
    && (forall p :: p in r.context ==> InGroup(prepared, p.index) && p.appCallInfo == prepared[p.index].appCallInfo)
  }

  ghost predicate SigningConforms(lookup: KeyLookup, prepared: seq<PreparedTxn>, i: int, e: SignEntry) {
    if e.authAddress != "" then
      && InGroup(prepared, i)
      && e == SignEntry(
                e.txnHex, "", prepared[i].authAddress, prepared[i].txnSender, prepared[i].lsigArgs,
                prepared[i].appCallInfo, None, "")
    else InGroup(prepared, i) ==> Declares(lookup, prepared[i], e.resources)
  }

  ghost predicate MessageConforms(lookup: KeyLookup, prepared: seq<PreparedTxn>, routing: Routing, e: Event) {
    match e
    case Components(to, request, _) => ComponentsConform(lookup, prepared, routing, to, request)
    case Signed(_, _, entries, _) => forall i :: 0 <= i < |entries| ==> SigningConforms(lookup, prepared, i, entries[i])
    case Assembled(_, request, _) =>
      forall a :: a in request.targets ==> InGroup(prepared, a.index) && a.authAddress == prepared[a.index].authAddress
    case _ => true
  }

  // ---- Results -------------------------------------------------------------

  /** The slot's own transaction, changed only as reported, its fee within what the slot's bounded key advertises. */
  ghost predicate SlotConforms(
    lookup: KeyLookup, item: PreparedTxn, report: Option<MutationReport>, i: int, inner: Option<Txn>)
  {
    && item.transaction.Some? && inner.Some?
    && Permitted(item.transaction.value, inner.value, GroupIdReported(report), i in FeePositions(report))
    && forall key :: KeyIs(lookup, item, key) && BoundedKey(key) && key.bounded.Some? ==>
         inner.value.fee <= key.bounded.value.maxFee
  }

  ghost predicate ResultConforms(
    c: Codec, lookup: KeyLookup, prepared: seq<PreparedTxn>, report: Option<MutationReport>, signed: seq<string>)
  {
    && |prepared| <= |signed|
    && (forall i :: 0 <= i < |prepared| ==> SlotConforms(lookup, prepared[i], report, i, InnerTxn(c, signed[i])))
    && (forall i :: |prepared| <= i < |signed| ==>
          InnerTxn(c, signed[i]).Some? && CanonicalDummy(c, InnerTxn(c, signed[i]).value, i - |prepared|))
  }

  ghost predicate MessagesConform(lookup: KeyLookup, prepared: seq<PreparedTxn>, routing: Routing, log: seq<Event>) {
    forall k :: 0 <= k < |log| ==> MessageConforms(lookup, prepared, routing, log[k])
  }

  /** A run answers for every message it sent, and for what it returned. */
  ghost predicate RunConforms(
    c: Codec, lookup: KeyLookup, allSigned: bool, prepared: seq<PreparedTxn>, routing: Routing,
    log: seq<Event>, r: Result<seq<string>, Error>)
    requires c.Lawful()
  {
    && log != [] && log[0].Planned?
    && PlanConforms(c, lookup, allSigned, prepared, log[0].entries)
    && MessagesConform(lookup, prepared, routing, log)
    && Settled(log)
    && (r.Success? ==> log[0].plan.Answer? && ResultConforms(c, lookup, prepared, log[0].plan.body.mutations, r.value))
  }

  lemma PlanThenRest(lookup: KeyLookup, prepared: seq<PreparedTxn>, routing: Routing, log: seq<Event>)
    requires log != [] && log[0].Planned?
    requires MessagesConform(lookup, prepared, routing, log[1..]) && Settled(log[1..])
    ensures MessagesConform(lookup, prepared, routing, log) && Settled(log)
  {
    var rest := log[1..];
    assert log == [log[0]] + rest;
    SettledConcat([log[0]], rest);
    forall k | 0 <= k < |log| ensures MessageConforms(lookup, prepared, routing, log[k]) {
      assert k > 0 ==> log[k] == rest[k - 1];
    }
  }

  // ---- What the classification computes ------------------------------------

  lemma ResolvedKeyIs(lookup: KeyLookup, item: PreparedTxn, key: KeyInfo)
    ensures ResolveKey(lookup, item) == Success(key) <==> KeyIs(lookup, item, key)
  {
  }

  lemma {:induction false} RekeyAuthorizationIs(operations: seq<AdminOperation>, authorization: string)
    requires RekeyAuthorization(operations) == authorization && authorization != ""
    ensures RekeyDemands(operations, authorization)
  {
    if operations[0].kind == "rekey" {
      assert operations[0].authorization == authorization;
    } else {
      RekeyAuthorizationIs(operations[1..], authorization);
      var k :| 0 <= k < |operations[1..]|
        && operations[1..][k].kind == "rekey" && operations[1..][k].authorization == authorization
        && forall j :: 0 <= j < k ==> operations[1..][j].kind != "rekey";
      assert operations[k + 1].kind == "rekey" && operations[k + 1].authorization == authorization;
      assert forall j :: 0 < j < k + 1 ==> operations[j] == operations[1..][j - 1];
    }
  }

  lemma SelectedIsPublished(key: KeyInfo, t: Txn)
    ensures SelectedResources(key, t).Success? ==> Publishes(key, t, SelectedResources(key, t).value)
  {
    if key.profile.Some? && key.bounded.Some? && t.rekeyTo.Some? {
      var operations := key.bounded.value.operations;
      if RekeyAuthorization(operations) == "spending_key" || RekeyAuthorization(operations) == "admin_key" {
        RekeyAuthorizationIs(operations, RekeyAuthorization(operations));
      }
    }
  }

  lemma EncodedDecodes(c: Codec, t: Txn)
    requires c.Lawful()
    ensures DecodeSlot(c, c.EncodeTxn(t)) == Some(t)
  {
    Hex.RoundTrip(c.SignedBytes(t), c.skipsSpace);
  }

  lemma SignEntryConforms(c: Codec, lookup: KeyLookup, item: PreparedTxn)
    requires c.Lawful() && item.transaction.Some? && item.authAddress != "" && ToSignEntry(c, item).Success?
    ensures EntryConforms(c, lookup, item, ToSignEntry(c, item).value)
    ensures ToSignEntry(c, item).value.authAddress != ""
  {
    EncodedDecodes(c, item.transaction.value);
  }

  /** The roles a flow sorts the slots into, held against the slots themselves. */
  ghost predicate RolesConform(c: Codec, lookup: KeyLookup, allSigned: bool, prepared: seq<PreparedTxn>, roles: Roles)
    requires c.Lawful()
  {
    && PlanConforms(c, lookup, allSigned, prepared, roles.entries)
    && (forall t :: t in roles.targets ==> InGroup(prepared, t.index) && TargetConforms(lookup, prepared[t.index], t))
    && (forall p :: p in roles.primaries ==> InGroup(prepared, p.index) && PrimaryConforms(prepared[p.index], p))
    && (forall i :: 0 <= i < |prepared| ==> LimitConforms(lookup, prepared[i], roles.maxFees, i))
  }

  ghost predicate LimitConforms(lookup: KeyLookup, item: PreparedTxn, maxFees: map<int, int>, i: int) {
    forall key :: KeyIs(lookup, item, key) && BoundedKey(key) && key.bounded.Some? ==>
      i in maxFees && maxFees[i] == key.bounded.value.maxFee
  }

  lemma UsesBoundedKeyOf(lookup: KeyLookup, item: PreparedTxn, key: KeyInfo)
    requires KeyIs(lookup, item, key)
    ensures UsesBoundedKey(lookup, item) <==> BoundedKey(key)
  {
  }

  // ---- What gathering asks -------------------------------------------------

  /** The information shown is the prepared slots' own. */
  predicate InfoConforms(prepared: seq<PreparedTxn>, info: map<int, Pairs>) {
    forall i :: 0 <= i < |prepared| ==> i in info && info[i] == prepared[i].appCallInfo
  }

  ghost predicate TargetsConform(lookup: KeyLookup, prepared: seq<PreparedTxn>, targets: seq<Target>) {
    forall t :: t in targets ==> InGroup(prepared, t.index) && TargetConforms(lookup, prepared[t.index], t)
  }

  lemma CoveredInRange(r: ComponentRequest)
    requires ComponentRequestOk(r)
    ensures forall t :: t in r.targets ==> 0 <= t.index < |r.group| - |r.dummies|
    ensures forall p :: p in r.context ==> 0 <= p.index < |r.group| - |r.dummies|
  {
    var targets, context := TargetIndices(r.targets), ContextIndices(r.context);
    var all := targets + context;
    forall t | t in r.targets ensures t.index in all {
      var k :| 0 <= k < |r.targets| && r.targets[k] == t;
      assert all[k] == t.index;
    }
    forall p | p in r.context ensures p.index in all {
      var k :| 0 <= k < |r.context| && r.context[k] == p;
      assert all[|targets| + k] == p.index;
    }
  }

  lemma ShownConforms(prepared: seq<PreparedTxn>, r: ComponentRequest, info: map<int, Pairs>)
    requires ComponentRequestOk(r) && Shows(r, |prepared|, info) && InfoConforms(prepared, info)
    ensures forall t :: t in r.targets ==> InGroup(prepared, t.index) && t.appCallInfo == prepared[t.index].appCallInfo
    ensures forall p :: p in r.context ==> InGroup(prepared, p.index) && p.appCallInfo == prepared[p.index].appCallInfo
  {
    CoveredInRange(r);
  }

  lemma CosignerAskConforms(
    lookup: KeyLookup, prepared: seq<PreparedTxn>, routing: Routing, e: Event, group: seq<string>, targets: seq<Target>,
    info: map<int, Pairs>)
    requires TargetsConform(lookup, prepared, targets) && InfoConforms(prepared, info)
    requires Asks(e, Cosigner, group, targets, routing, |prepared|, info)
    ensures MessageConforms(lookup, prepared, routing, e)
  {
    ShownConforms(prepared, e.request, info);
    forall t | t in e.request.targets
      ensures t.kind == Cosigner && exists x: Target ::
        && x.index == t.index && TargetConforms(lookup, prepared[t.index], x)
        && routing(x) == Some(Route(e.to, t.componentKey))
    {
      var x :| x in targets && x.index == t.index && routing(x) == Some(Route(e.to, KeyOf(t)));
    }
  }

  /** With every request of the user kept under the target's own account. */
  lemma UserAskConforms(
    lookup: KeyLookup, prepared: seq<PreparedTxn>, own: Routing, routing: Routing, e: Event, group: seq<string>,
    targets: seq<Target>, info: map<int, Pairs>)
    requires TargetsConform(lookup, prepared, targets) && InfoConforms(prepared, info)
    requires Asks(e, User, group, targets, own, |prepared|, info)
    requires forall t :: t in targets && own(t).Some? ==> own(t).value.key == t.account
    ensures MessageConforms(lookup, prepared, routing, e)
  {
    ShownConforms(prepared, e.request, info);
    forall t | t in e.request.targets ensures t.kind == User && t.authAddress == prepared[t.index].authAddress {
      var x :| x in targets && x.index == t.index && own(x) == Some(Route(e.to, KeyOf(t)));
    }
  }

  // ---- What is sent to be signed -------------------------------------------

  lemma SignedConforms(
    lookup: KeyLookup, prepared: seq<PreparedTxn>, primaries: seq<PrimaryTarget>, targets: seq<Target>,
    entries: seq<SignEntry>, i: int)
    requires 0 <= i < |entries| && SignsOnly(entries, primaries)
    requires forall p :: p in primaries ==>
      InGroup(prepared, p.index) && PrimaryConforms(prepared[p.index], p) && p.authAddress != ""
    requires TargetsConform(lookup, prepared, targets)
    requires forall t :: t in targets && t.index == i ==> ForeignEntry(entries[i], t.resources, "")
    requires InGroup(prepared, i) ==> (exists t :: t in targets && t.index == i) || exists p :: p in primaries && p.index == i
    ensures SigningConforms(lookup, prepared, i, entries[i])
  {
    if exists p :: p in primaries && p.index == i {
      var p :| p in primaries && p.index == i;
    } else {
      assert EntryMode(entries[i]) == Some(Foreign);
      if InGroup(prepared, i) {
        var t :| t in targets && t.index == i;
        assert TargetConforms(lookup, prepared[i], t);
      }
    }
  }

  // ---- What is returned ----------------------------------------------------

  lemma FaithfulConforms(
    c: Codec, lookup: KeyLookup, prepared: seq<PreparedTxn>, originals: seq<Txn>, maxFees: map<int, int>,
    report: Option<MutationReport>, signed: seq<string>)
    requires forall i :: 0 <= i < |prepared| ==> LimitConforms(lookup, prepared[i], maxFees, i)
    requires |originals| == |prepared| && forall i :: 0 <= i < |prepared| ==> prepared[i].transaction == Some(originals[i])
    requires Faithful(c, originals, maxFees, report, signed)
    ensures ResultConforms(c, lookup, prepared, report, signed)
  {
    forall i | 0 <= i < |prepared| ensures SlotConforms(lookup, prepared[i], report, i, InnerTxn(c, signed[i])) {
      assert SlotFaithful(originals[i], maxFees, report, i, InnerTxn(c, signed[i]));
      assert LimitConforms(lookup, prepared[i], maxFees, i);
    }
  }

  // ---- Which slots a flow takes --------------------------------------------

  lemma {:induction false} DemandedIsAuthorization(operations: seq<AdminOperation>, authorization: string)
    requires RekeyDemands(operations, authorization)
    ensures RekeyAuthorization(operations) == authorization
  {
    var k :| 0 <= k < |operations|
      && operations[k].kind == "rekey" && operations[k].authorization == authorization
      && forall j :: 0 <= j < k ==> operations[j].kind != "rekey";
    if k > 0 {
      var rest := operations[1..];
      assert rest[k - 1].kind == "rekey" && rest[k - 1].authorization == authorization;
      assert forall j :: 0 <= j < k - 1 ==> rest[j] == operations[j + 1];
      DemandedIsAuthorization(rest, authorization);
    }
  }

  lemma PublishedIsSelected(key: KeyInfo, t: Txn, resources: Option<Resources>)
    ensures Publishes(key, t, resources) <==> SelectedResources(key, t) == Success(resources)
  {
    SelectedIsPublished(key, t);
    if key.profile.Some? && key.bounded.Some? && t.rekeyTo.Some? {
      var operations := key.bounded.value.operations;
      if RekeyDemands(operations, "spending_key") {
        DemandedIsAuthorization(operations, "spending_key");
      }
      if RekeyDemands(operations, "admin_key") {
        DemandedIsAuthorization(operations, "admin_key");
      }
    }
  }

  /** Prepared for signing by address: no blob, no declared budget of its own. */
  predicate Signable(item: PreparedTxn) {
    item.signedBase64 == "" && item.transaction.Some? && item.authAddress != ""
  }

  predicate Undeclared(item: PreparedTxn) {
    item.pqScheme == "" && item.resources.None?
  }

  predicate InBounds(resources: Option<Resources>) {
    resources.Some? && ResourcesOk(resources.value)
  }

  /** A slot the bounded-cosigner flow takes. */
  ghost predicate BoundedFits(lookup: KeyLookup, item: PreparedTxn) {
    && Signable(item)
    && exists key, resources ::
         && KeyIs(lookup, item, key) && Publishes(key, item.transaction.value, resources)
         && if BoundedKey(key) then Undeclared(item) && InBounds(resources) && key.bounded.Some?
            else
              && (key.signingFlow == "" || key.signingFlow == FLOW_BOUNDED1)
              && (resources.Some? ==> InBounds(resources) && key.authorizationKind != KIND_NATIVE_PQ)
  }

  /** A slot the guarded flow takes; `eager` is whether it looks at the bounds right away. */
  ghost predicate GuardedFits(lookup: KeyLookup, eager: bool, item: PreparedTxn) {
    && Signable(item) && Undeclared(item)
    && exists key ::
         && KeyIs(lookup, item, key)
         && if key.signingFlow == FLOW_COSIGNER1 then
              exists resources ::
                && Publishes(key, item.transaction.value, resources)
                && resources.Some? && (eager ==> InBounds(resources))
            else key.signingFlow == "" || key.signingFlow == FLOW_BOUNDED1
  }

  ghost predicate UsesFlow(lookup: KeyLookup, item: PreparedTxn, flow: string) {
    exists key :: KeyIs(lookup, item, key) && key.signingFlow == flow
  }

  /** Every slot fits the bounded flow, and one of them needs it. */
  ghost predicate BoundedGroup(lookup: KeyLookup, prepared: seq<PreparedTxn>) {
    && (forall i :: 0 <= i < |prepared| ==> BoundedFits(lookup, prepared[i]))
    && exists i :: 0 <= i < |prepared| && UsesFlow(lookup, prepared[i], FLOW_BOUNDED_COSIGNER1)
  }

  ghost predicate GuardedGroup(lookup: KeyLookup, eager: bool, prepared: seq<PreparedTxn>) {
    && (forall i :: 0 <= i < |prepared| ==> GuardedFits(lookup, eager, prepared[i]))
    && exists i :: 0 <= i < |prepared| && UsesFlow(lookup, prepared[i], FLOW_COSIGNER1)
  }
}
