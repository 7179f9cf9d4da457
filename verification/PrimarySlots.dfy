/** Slots the user signer signs outright, and slots signed by the client itself. */
module PrimarySlots {
  import opened Basics
  import opened Transactions
  import opened Requests
  import opened Exchange
  import opened Prepared
  import Hex

  /** The entries submit exactly the group, in order. */
  ghost predicate Carries(entries: seq<SignEntry>, group: seq<string>) {
    |entries| == |group| && forall i :: 0 <= i < |group| ==> entries[i].txnHex == group[i]
  }

  function PrimaryEntry(p: PrimaryTarget, text: string): SignEntry {
    SignEntry(text, "", p.authAddress, p.txnSender, p.lsigArgs, p.appCallInfo, None, "")
  }

  /** The signer is asked to sign exactly the primary slots, each with that slot's own authority and arguments. */
  ghost predicate SignsOnly(entries: seq<SignEntry>, primaries: seq<PrimaryTarget>) {
    && (forall p :: p in primaries ==>
          0 <= p.index < |entries| && entries[p.index] == PrimaryEntry(p, entries[p.index].txnHex))
    && (forall i :: 0 <= i < |entries| && EntryMode(entries[i]) != Some(Foreign) ==>
          exists p :: p in primaries && p.index == i)
  }

  /** A slot the signer does not sign, with the resources and scheme it is to be budgeted by. */
  predicate ForeignEntry(e: SignEntry, resources: Option<Resources>, scheme: string) {
    e == SignEntry(e.txnHex, "", "", "", [], [], resources, scheme)
  }

  /** The assembly passes through, for every appended position, that dummy's own signed blob. */
  ghost predicate DummiesPassed(c: Codec, planned: seq<Txn>, n: nat, r: AssemblyRequest) {
    forall i :: n <= i < |planned| ==> DummyPassed(c, planned[i], i, r)
  }

  ghost predicate DummyPassed(c: Codec, dummy: Txn, i: int, r: AssemblyRequest) {
    exists item :: item in r.passthrough && item.index == i && Hex.Decode(item.signedHex, false) == Some(c.signDummy(dummy))
  }

  lemma BareDummies(
    c: Codec, planned: seq<Txn>, n: nat, before: seq<PassthroughItem>, dummies: seq<PassthroughItem>, r: AssemblyRequest)
    requires n <= |planned| && |dummies| == |planned| - n && r.passthrough == Bare(before + dummies)
    requires forall j :: 0 <= j < |dummies| ==>
      dummies[j].index == n + j && dummies[j].signedHex == Hex.Encode(c.signDummy(planned[n..][j]))
    ensures DummiesPassed(c, planned, n, r)
  {
    forall i | n <= i < |planned| ensures DummyPassed(c, planned[i], i, r) {
      var j := i - n;
      assert planned[n..][j] == planned[i];
      assert (before + dummies)[|before| + j] == dummies[j];
      Hex.RoundTrip(c.signDummy(planned[i]), false);
      assert r.passthrough[|before| + j] in r.passthrough;
    }
  }

  /** The user signer signed every primary slot over the frozen bytes. */
  ghost predicate PrimarySigned(c: Codec, user: Client, primaries: seq<PrimaryTarget>, group: seq<string>, e: Event) {
    && e.Signed?
    && e.to == user
    && Carries(e.entries, group)
    && e.signed.Answer?
    && forall p :: p in primaries ==>
         0 <= p.index < |group| && p.index < |e.signed.body| && SignsSlot(c, e.signed.body[p.index], group[p.index])
  }

  /** One passthrough item per primary slot, in order, each signing its frozen bytes. */
  ghost predicate PrimaryItems(c: Codec, primaries: seq<PrimaryTarget>, group: seq<string>, items: seq<PassthroughItem>) {
    && |items| == |primaries|
    && forall k :: 0 <= k < |items| ==>
         && items[k].index == primaries[k].index
         && items[k].signedHex != ""
         && 0 <= items[k].index < |group|
         && SignsSlot(c, items[k].signedHex, group[items[k].index])
  }

  /** The assembly passes through, for every primary slot, a signed transaction over its frozen bytes. */
  ghost predicate PrimariesPassed(c: Codec, primaries: seq<PrimaryTarget>, r: AssemblyRequest) {
    forall p :: p in primaries ==> exists item ::
      item in r.passthrough && item.index == p.index && 0 <= p.index < |r.group|
      && SignsSlot(c, item.signedHex, r.group[p.index])
  }

  lemma BarePassed(c: Codec, primaries: seq<PrimaryTarget>, before: seq<PassthroughItem>, items: seq<PassthroughItem>, after: seq<PassthroughItem>, r: AssemblyRequest)
    requires PrimaryItems(c, primaries, r.group, items) && r.passthrough == Bare(before + items + after)
    ensures PrimariesPassed(c, primaries, r)
  {
    forall p | p in primaries
      ensures exists item ::
        item in r.passthrough && item.index == p.index && 0 <= p.index < |r.group|
        && SignsSlot(c, item.signedHex, r.group[p.index])
    {
      var k :| 0 <= k < |primaries| && primaries[k] == p;
      assert (before + items + after)[|before| + k] == items[k];
      var item := r.passthrough[|before| + k];
      assert item in r.passthrough && item.index == p.index && SignsSlot(c, item.signedHex, r.group[p.index]);
    }
  }

  /** `signed` fills the slot with a signed transaction over the slot's own bytes. */
  predicate Fills(c: Codec, signed: seq<string>, index: int, canonical: string) {
    0 <= index < |signed| && signed[index] != "" && SignsSlot(c, signed[index], canonical)
  }

  /** An accepted answer that still does not do: a primary slot unsigned, or a group that is not the submitted one. */
  ghost predicate Unusable(c: Codec, primaries: seq<PrimaryTarget>, e: Event) {
    match e
    case Signed(_, _, entries, Answer(signed)) =>
      exists p :: p in primaries && 0 <= p.index < |entries| && !Fills(c, signed, p.index, entries[p.index].txnHex)
    case Assembled(_, request, Answer(body)) =>
      || |body.signedGroup| != |request.group|
      || exists i :: 0 <= i < |request.group| && !SignsSlot(c, body.signedGroup[i], request.group[i])
    case _ => false
  }

  method CheckPrimaries(c: Codec, primaries: seq<PrimaryTarget>, group: seq<string>, signed: seq<string>) returns (r: Option<seq<PassthroughItem>>)
    requires forall p :: p in primaries ==> 0 <= p.index < |group|
    ensures r.Some? <==> forall p :: p in primaries ==> Fills(c, signed, p.index, group[p.index])
    ensures r.Some? ==> PrimaryItems(c, primaries, group, r.value)
    ensures r.Some? ==> forall k :: 0 <= k < |r.value| ==> r.value[k].signedHex == signed[r.value[k].index]
  {
    var items: seq<PassthroughItem> := [];
    for k := 0 to |primaries|
      invariant |items| == k
      invariant forall j :: 0 <= j < k ==>
        && items[j].index == primaries[j].index
        && items[j].signedHex != ""
        && 0 <= items[j].index < |group|
        && SignsSlot(c, items[j].signedHex, group[items[j].index])
      invariant forall j :: 0 <= j < k ==> Fills(c, signed, primaries[j].index, group[primaries[j].index])
      invariant forall j :: 0 <= j < k ==> items[j].signedHex == signed[items[j].index]
    {
      var index := primaries[k].index;
      assert primaries[k] in primaries;
      if index >= |signed| || signed[index] == "" || !SignsSlot(c, signed[index], group[index]) {
        return None;
      }
      items := items + [PassthroughItem(index, signed[index], None)];
    }
    return Some(items);
  }

  // ---- Dummies -------------------------------------------------------------

  function DummyPositions(start: nat, end: nat): (r: seq<int>)
    requires start <= end
    ensures |r| == end - start && forall j :: 0 <= j < |r| ==> r[j] == start + j
  {
    seq(end - start, j requires 0 <= j => start + j)
  }

  method SignDummies(c: Codec, dummies: seq<Txn>, start: nat) returns (r: Option<seq<PassthroughItem>>)
    requires c.Lawful()
    ensures r.Some? <==> CanonicalDummies(c, dummies)
    ensures r.Some? ==> |r.value| == |dummies|
    ensures r.Some? ==> forall j :: 0 <= j < |dummies| ==>
      r.value[j] == PassthroughItem(start + j, Hex.Encode(c.signDummy(dummies[j])), Some(Authorization(Some(DUMMY_RESOURCES), "")))
  {
    var ok := ValidateDummies(c, dummies);
    if !ok {
      return None;
    }
    var items: seq<PassthroughItem> := [];
    for j := 0 to |dummies|
      invariant |items| == j
      invariant forall k :: 0 <= k < j ==>
        items[k] == PassthroughItem(start + k, Hex.Encode(c.signDummy(dummies[k])), Some(Authorization(Some(DUMMY_RESOURCES), "")))
    {
      items := items + [PassthroughItem(start + j, Hex.Encode(c.signDummy(dummies[j])), Some(Authorization(Some(DUMMY_RESOURCES), "")))];
    }
    return Some(items);
  }
}
