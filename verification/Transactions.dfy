/**
 Transactions, the codec they travel through, and the canonical form a planned
 group must have before anything is signed.
 */
module Transactions {
  import opened Basics
  import Hex

  const MAX_GROUP_SIZE := 16
  const TX_PREFIX: Bytes := [84, 88]

  datatype TxnKind = Payment | OtherTxn(name: string)

  /** `group` is empty when no group ID is set; `rest` stands for every other field. */
  datatype Txn = Txn(
    kind: TxnKind,
    sender: string,
    receiver: string,
    amount: int,
    fee: int,
    note: Bytes,
    rekeyTo: Option<string>,
    closeRemainderTo: Option<string>,
    group: Bytes,
    rest: Bytes)

  /**
   The libraries the clients call: msgpack for plain and signed transactions, the
   signing of a budget dummy, the group hash, and whether hex text may hold spaces.
   */
  datatype Codec = Codec(
    pack: Txn -> Bytes,
    unpack: Bytes -> Option<Txn>,
    unpackSigned: Bytes -> Option<Txn>,
    signDummy: Txn -> Bytes,
    groupHash: seq<Txn> -> Option<Bytes>,
    dummyAddress: string,
    skipsSpace: bool)
  {
    ghost predicate Lawful() {
      && (forall t :: unpack(pack(t)) == Some(t) && pack(t) != [])
      && (forall t :: signDummy(t) != [])
    }

    /** No two different transaction lists share a group ID. */
    ghost predicate HashInjective() {
      forall a, b :: groupHash(a).Some? && groupHash(a) == groupHash(b) ==> a == b
    }

    function SignedBytes(t: Txn): Bytes {
      TX_PREFIX + pack(t)
    }

    function EncodeTxn(t: Txn): string {
      Hex.Encode(SignedBytes(t))
    }
  }

  lemma SignedBytesParts(c: Codec)
    ensures forall t :: c.SignedBytes(t)[..2] == TX_PREFIX && c.SignedBytes(t)[2..] == c.pack(t)
  {
  }

  lemma SignedBytesInjective(c: Codec, a: Txn, b: Txn)
    requires c.Lawful() && c.SignedBytes(a) == c.SignedBytes(b)
    ensures a == b
  {
    assert c.SignedBytes(a)[2..] == c.pack(a);
    assert c.SignedBytes(b)[2..] == c.pack(b);
  }

  lemma EncodeTxnInjective(c: Codec, a: Txn, b: Txn)
    requires c.Lawful() && c.EncodeTxn(a) == c.EncodeTxn(b)
    ensures a == b
  {
    Hex.RoundTrip(c.SignedBytes(a), false);
    Hex.RoundTrip(c.SignedBytes(b), false);
    SignedBytesInjective(c, a, b);
  }

  // ---- Canonical groups ----------------------------------------------------

  predicate ZeroDigest(group: Bytes) {
    |group| == 32 && forall i :: 0 <= i < 32 ==> group[i] == 0
  }

  predicate Ungrouped(t: Txn) {
    t.group == [] || ZeroDigest(t.group)
  }

  /** The group ID in force: a zero-filled one counts as none. */
  function GroupId(t: Txn): Bytes {
    if Ungrouped(t) then [] else t.group
  }

  predicate Grouped(t: Txn) {
    |t.group| == 32 && !Ungrouped(t)
  }

  function Clear(t: Txn): Txn {
    t.(group := [])
  }

  function Cleared(txns: seq<Txn>): (r: seq<Txn>)
    ensures |r| == |txns| && forall i :: 0 <= i < |r| ==> r[i] == Clear(txns[i])
  {
    seq(|txns|, i requires 0 <= i < |txns| => Clear(txns[i]))
  }

  /** A lone transaction carries no group ID; several carry the hash of the group. */
  ghost predicate ValidlyGrouped(c: Codec, txns: seq<Txn>) {
    if |txns| == 1 then Ungrouped(txns[0])
    else
      && txns != []
      && (forall i :: 0 <= i < |txns| ==> Grouped(txns[i]) && txns[i].group == txns[0].group)
      && c.groupHash(Cleared(txns)) == Some(txns[0].group)
  }

  /** `group` is the hex text of exactly the transactions `txns`, validly grouped. */
  ghost predicate CanonicalGroup(c: Codec, group: seq<string>, txns: seq<Txn>) {
    && 0 < |group| <= MAX_GROUP_SIZE
    && SlotsHold(c, group, txns)
    && ValidlyGrouped(c, txns)
  }

  ghost predicate SlotsHold(c: Codec, group: seq<string>, txns: seq<Txn>) {
    && |txns| == |group|
    && forall i :: 0 <= i < |group| ==> Hex.Decode(group[i], c.skipsSpace) == Some(c.SignedBytes(txns[i]))
  }

  /** Several transactions share one group ID, which is the hash of the group; a lone one has none. */
  lemma GroupIdShared(c: Codec, group: seq<string>, txns: seq<Txn>, i: nat, j: nat)
    requires CanonicalGroup(c, group, txns) && i < |txns| && j < |txns|
    ensures 0 < |group| == |txns| <= 16
    ensures |txns| == 1 ==> GroupId(txns[0]) == []
    ensures |txns| > 1 ==>
      && GroupId(txns[i]) == txns[i].group == txns[j].group && |txns[i].group| == 32
      && c.groupHash(Cleared(txns)) == Some(txns[i].group)
  {
  }

  lemma SlotsUnique(c: Codec, group: seq<string>, a: seq<Txn>, b: seq<Txn>)
    requires c.Lawful() && SlotsHold(c, group, a) && SlotsHold(c, group, b)
    ensures a == b
  {
    forall i | 0 <= i < |a| ensures a[i] == b[i] {
      assert Hex.Decode(group[i], c.skipsSpace) == Some(c.SignedBytes(a[i]));
      SignedBytesInjective(c, a[i], b[i]);
    }
  }

  /** The transaction `text` stands for, if `text` is the hex of its canonical bytes. */
  function DecodeSlot(c: Codec, text: string): (r: Option<Txn>)
    requires c.Lawful()
    ensures forall t :: r == Some(t) <==> Hex.Decode(text, c.skipsSpace) == Some(c.SignedBytes(t))
  {
    SignedBytesParts(c);
    match Hex.Decode(text, c.skipsSpace)
    case None => None
    case Some(raw) =>
      if |raw| < 3 || raw[..2] != TX_PREFIX then None
      else
        match c.unpack(raw[2..])
        case None => None
        case Some(t) => if raw == c.SignedBytes(t) then Some(t) else None
  }

  method DecodeCanonicalGroup(c: Codec, group: seq<string>) returns (r: Option<seq<Txn>>)
    requires c.Lawful()
    ensures r.Some? ==> CanonicalGroup(c, group, r.value)
    ensures r.None? ==> forall txns :: !CanonicalGroup(c, group, txns)
  {
    if group == [] || |group| > MAX_GROUP_SIZE {
      return None;
    }
    var txns := [];
    for i := 0 to |group|
      invariant |txns| == i
      invariant forall k :: 0 <= k < i ==> Hex.Decode(group[k], c.skipsSpace) == Some(c.SignedBytes(txns[k]))
    {
      match DecodeSlot(c, group[i])
      case None => return None;
      case Some(t) => txns := txns + [t];
    }
    forall other | SlotsHold(c, group, other) ensures other == txns {
      SlotsUnique(c, group, txns, other);
    }
    var grouped := CheckGroupId(c, txns);
    return if grouped then Some(txns) else None;
  }

  method CheckGroupId(c: Codec, txns: seq<Txn>) returns (ok: bool)
    requires txns != []
    ensures ok <==> ValidlyGrouped(c, txns)
  {
    if |txns| == 1 {
      return Ungrouped(txns[0]);
    }
    if !Grouped(txns[0]) {
      return false;
    }
    for i := 1 to |txns|
      invariant forall k :: 0 <= k < i ==> Grouped(txns[k]) && txns[k].group == txns[0].group
    {
      if !Grouped(txns[i]) || txns[i].group != txns[0].group {
        return false;
      }
    }
    return c.groupHash(Cleared(txns)) == Some(txns[0].group);
  }

  // ---- Budget dummies ------------------------------------------------------

  /** The zero-fee self payment whose note is its offset among the appended ones. */
  predicate CanonicalDummy(c: Codec, t: Txn, offset: int) {
    && t.kind == Payment
    && t.sender == c.dummyAddress
    && t.receiver == c.dummyAddress
    && t.amount == 0
    && t.fee == 0
    && 0 <= offset < 256
    && t.note == [offset]
    && t.rekeyTo == None
    && t.closeRemainderTo == None
  }

  ghost predicate CanonicalDummies(c: Codec, dummies: seq<Txn>) {
    forall j :: 0 <= j < |dummies| ==> CanonicalDummy(c, dummies[j], j)
  }

  /** A dummy is the dummy account's own zero-fee payment of nothing to itself, field for field. */
  lemma DummyIs(c: Codec, t: Txn, offset: int)
    ensures CanonicalDummy(c, t, offset) <==>
              && 0 <= offset < 256
              && t == Txn(Payment, c.dummyAddress, c.dummyAddress, 0, 0, [offset], None, None, t.group, t.rest)
  {
  }

  method ValidateDummies(c: Codec, dummies: seq<Txn>) returns (ok: bool)
    ensures ok <==> CanonicalDummies(c, dummies)
  {
    for j := 0 to |dummies|
      invariant forall k :: 0 <= k < j ==> CanonicalDummy(c, dummies[k], k)
    {
      if !CanonicalDummy(c, dummies[j], j) {
        return false;
      }
    }
    return true;
  }

  // ---- Signed transactions -------------------------------------------------

  /** `signed` decodes to a signed transaction over exactly the bytes `canonical` names. */
  predicate SignsSlot(c: Codec, signed: string, canonical: string) {
    match Hex.Decode(signed, c.skipsSpace)
    case None => false
    case Some(raw) =>
      match c.unpackSigned(raw)
      case None => false
      case Some(t) => c.EncodeTxn(t) == Hex.Lower(canonical)
  }

  /** The transaction inside a signed one. */
  function InnerTxn(c: Codec, signed: string): Option<Txn> {
    match Hex.Decode(signed, c.skipsSpace)
    case None => None
    case Some(raw) => c.unpackSigned(raw)
  }

  /** Passing the text comparison pins the inner transaction itself. */
  lemma SignsSlotIdentity(c: Codec, signed: string, canonical: string, t: Txn)
    requires c.Lawful()
    requires SignsSlot(c, signed, canonical)
    requires Hex.Decode(canonical, c.skipsSpace) == Some(c.SignedBytes(t))
    ensures InnerTxn(c, signed) == Some(t)
  {
    var inner := InnerTxn(c, signed).value;
    Hex.RoundTrip(c.SignedBytes(inner), c.skipsSpace);
    Hex.CaseBlind(canonical, c.skipsSpace);
    SignedBytesInjective(c, inner, t);
  }

  /**
   Comparing text (Python) and comparing decoded bytes (Go) accept the same signed
   transactions for a slot written with digits only. A slot written with white space
   matches no signed transaction at all, although decoding accepts it.
   */
  lemma SignsSlotExactly(c: Codec, signed: string, canonical: string)
    requires c.Lawful() && DecodeSlot(c, canonical).Some?
    ensures SignsSlot(c, signed, canonical) <==>
      Hex.Decode(canonical, false).Some? && InnerTxn(c, signed) == DecodeSlot(c, canonical)
  {
    var t := DecodeSlot(c, canonical).value;
    assert Hex.Decode(canonical, c.skipsSpace) == Some(c.SignedBytes(t));
    Hex.MatchesReencoding(canonical, c.skipsSpace);
    if SignsSlot(c, signed, canonical) {
      SignsSlotIdentity(c, signed, canonical, t);
    }
  }

  /** A canonical slot with a space put in front decodes as before (Python), yet nothing signs it. */
  lemma SpacedSlot(c: Codec, t: Txn)
    requires c.Lawful() && c.skipsSpace
    ensures DecodeSlot(c, " " + c.EncodeTxn(t)) == Some(t)
    ensures forall signed :: !SignsSlot(c, signed, " " + c.EncodeTxn(t))
  {
    var spaced := " " + c.EncodeTxn(t);
    Hex.RoundTrip(c.SignedBytes(t), true);
    Hex.LeadingSpace(c.EncodeTxn(t));
    assert DecodeSlot(c, spaced) == Some(t);
    forall signed ensures !SignsSlot(c, signed, spaced) {
      SignsSlotExactly(c, signed, spaced);
    }
  }

  /** A group with a slot that is not plain hex text is signed by nothing. */
  lemma SpacedGroupUnverified(c: Codec, group: seq<string>, txns: seq<Txn>, signed: seq<string>, i: nat)
    requires c.Lawful() && SlotsHold(c, group, txns) && i < |group| && Hex.Decode(group[i], false).None?
    ensures !Verified(c, group, signed)
  {
    if i < |signed| {
      assert DecodeSlot(c, group[i]) == Some(txns[i]);
      SignsSlotExactly(c, signed[i], group[i]);
    }
  }

  /** The signed group has the submitted length and signs the submitted bytes slot by slot. */
  ghost predicate Verified(c: Codec, group: seq<string>, signed: seq<string>) {
    |signed| == |group| && forall i :: 0 <= i < |group| ==> SignsSlot(c, signed[i], group[i])
  }

  /** The whole-group comparison made after assembly. */
  method VerifyAssembledGroup(c: Codec, group: seq<string>, signed: seq<string>) returns (ok: bool)
    ensures ok <==> Verified(c, group, signed)
  {
    if |signed| != |group| {
      return false;
    }
    for i := 0 to |signed|
      invariant forall k :: 0 <= k < i ==> SignsSlot(c, signed[k], group[k])
    {
      if !SignsSlot(c, signed[i], group[i]) {
        return false;
      }
    }
    return true;
  }
}
