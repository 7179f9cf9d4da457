/** What a returned signed group is worth to the caller who prepared the originals. */
module Outcome {
  import opened Basics
  import opened Transactions
  import opened Plan
  import Hex

  /**
   Signed slot i carries original i, changed at most in its group ID and by a fee rise,
   each only as reported and within the advertised limit; the rest are canonical dummies.
   */
  ghost predicate Faithful(
    c: Codec, originals: seq<Txn>, maxFees: map<int, int>, report: Option<MutationReport>, signed: seq<string>)
  {
    && |originals| <= |signed|
    && (forall i :: 0 <= i < |originals| ==> SlotFaithful(originals[i], maxFees, report, i, InnerTxn(c, signed[i])))
    && (forall i :: |originals| <= i < |signed| ==>
          InnerTxn(c, signed[i]).Some? && CanonicalDummy(c, InnerTxn(c, signed[i]).value, i - |originals|))
  }

  ghost predicate SlotFaithful(
    original: Txn, maxFees: map<int, int>, report: Option<MutationReport>, i: int, inner: Option<Txn>)
  {
    && inner.Some?
    && Permitted(original, inner.value, GroupIdReported(report), i in FeePositions(report))
    && (i in maxFees ==> inner.value.fee <= maxFees[i])
  }

  lemma VerifiedIsFaithful(
    c: Codec, originals: seq<Txn>, maxFees: map<int, int>, report: Option<MutationReport>,
    group: seq<string>, planned: seq<Txn>, signed: seq<string>)
    requires c.Lawful() && SlotsHold(c, group, planned)
    requires Acceptable(c, originals, planned, report) && FeesWithin(planned, maxFees)
    requires Verified(c, group, signed)
    ensures Faithful(c, originals, maxFees, report, signed)
  {
    forall i | 0 <= i < |signed| ensures InnerTxn(c, signed[i]) == Some(planned[i]) {
      assert Hex.Decode(group[i], c.skipsSpace) == Some(c.SignedBytes(planned[i]));
      SignsSlotIdentity(c, signed[i], group[i], planned[i]);
    }
    forall i | |originals| <= i < |signed| ensures CanonicalDummy(c, planned[i], i - |originals|) {
      assert planned[|originals|..][i - |originals|] == planned[i];
    }
  }

  // ---- Re-encoding a plan --------------------------------------------------

  function Reencoded(c: Codec, planned: seq<Txn>): (r: seq<string>)
    ensures |r| == |planned| && forall i :: 0 <= i < |r| ==> r[i] == c.EncodeTxn(planned[i])
  {
    seq(|planned|, i requires 0 <= i < |planned| => c.EncodeTxn(planned[i]))
  }

  /**
   Because decoding insists on canonical bytes, re-encoding the decoded plan yields the
   plan's own bytes; the text is the same too, up to letter case, unless it held spaces.
   */
  lemma ReencodingKeepsBytes(c: Codec, group: seq<string>, planned: seq<Txn>)
    requires c.Lawful() && CanonicalGroup(c, group, planned)
    ensures CanonicalGroup(c, Reencoded(c, planned), planned)
    ensures forall i :: 0 <= i < |group| ==>
      Hex.Decode(Reencoded(c, planned)[i], c.skipsSpace) == Hex.Decode(group[i], c.skipsSpace)
    ensures forall i :: 0 <= i < |group| ==>
      (Reencoded(c, planned)[i] == Hex.Lower(group[i]) <==> Hex.Decode(group[i], false).Some?)
  {
    forall i | 0 <= i < |group|
      ensures Hex.Decode(Reencoded(c, planned)[i], c.skipsSpace) == Some(c.SignedBytes(planned[i]))
      ensures Reencoded(c, planned)[i] == Hex.Lower(group[i]) <==> Hex.Decode(group[i], false).Some?
    {
      assert Hex.Decode(group[i], c.skipsSpace) == Some(c.SignedBytes(planned[i]));
      Hex.RoundTrip(c.SignedBytes(planned[i]), c.skipsSpace);
      Hex.MatchesReencoding(group[i], c.skipsSpace);
    }
  }

  /** A re-encoded group is plain hex text, so every slot of it can be matched. */
  lemma ReencodedIsPlain(c: Codec, planned: seq<Txn>)
    ensures forall i :: 0 <= i < |planned| ==> Hex.Decode(Reencoded(c, planned)[i], false) == Some(c.SignedBytes(planned[i]))
  {
    forall i | 0 <= i < |planned| ensures Hex.Decode(Reencoded(c, planned)[i], false) == Some(c.SignedBytes(planned[i])) {
      Hex.RoundTrip(c.SignedBytes(planned[i]), false);
    }
  }
}
