/** Merging the signed slots that several signers returned into one signed group. */
module MergeGroup {
  import opened Basics
  import Hex

  /** The standard library's base64, of which only the round trip is used. */
  datatype Base64 = Base64(encode: Bytes -> string, decode: string -> Option<Bytes>) {
    ghost predicate Lawful() {
      && (forall b :: decode(encode(b)) == Some(b))
      && (forall b :: encode(b) == "" ==> b == [])
    }
  }

  /** One signer's output: a base64 blob per slot, empty where it did not sign. */
  type Signed = seq<string>

  datatype Error =
    | NoLists
    | Ragged(list: nat)
    | Several(slot: nat)
    | Nobody(slot: nat)
    | NotBase64(slot: nat)
    | NotHex(slot: nat)

  function Flatten(blobs: seq<Bytes>): (r: Bytes) {
    if blobs == [] then [] else Flatten(blobs[..|blobs| - 1]) + blobs[|blobs| - 1]
  }

  /** Where blob `k` starts: after all the earlier ones. */
  function Offset(blobs: seq<Bytes>, k: nat): (r: nat)
    requires k <= |blobs|
  {
    if k == 0 then 0 else Offset(blobs, k - 1) + |blobs[k - 1]|
  }

  /** `data` is the blobs one after the other, the first first. */
  ghost predicate Joined(blobs: seq<Bytes>, data: Bytes) {
    && |data| == Offset(blobs, |blobs|)
    && forall k :: 0 <= k < |blobs| ==> BlobAt(blobs, data, k)
  }

  ghost predicate BlobAt(blobs: seq<Bytes>, data: Bytes, k: nat)
    requires k < |blobs|
  {
    && Offset(blobs, k) + |blobs[k]| <= |data|
    && data[Offset(blobs, k)..Offset(blobs, k) + |blobs[k]|] == blobs[k]
  }

  lemma {:induction false} OffsetPrefix(blobs: seq<Bytes>, more: seq<Bytes>, k: nat)
    requires k <= |blobs|
    ensures Offset(blobs + more, k) == Offset(blobs, k)
  {
    if k > 0 {
      OffsetPrefix(blobs, more, k - 1);
    }
  }

  lemma {:induction false} OffsetsGrow(blobs: seq<Bytes>, j: nat, k: nat)
    requires j <= k <= |blobs|
    ensures Offset(blobs, j) <= Offset(blobs, k)
  {
    if j < k {
      OffsetsGrow(blobs, j, k - 1);
    }
  }

  lemma JoinedAppend(blobs: seq<Bytes>, data: Bytes, blob: Bytes)
    requires Joined(blobs, data)
    ensures Joined(blobs + [blob], data + blob)
  {
    var all, longer := blobs + [blob], data + blob;
    OffsetPrefix(blobs, [blob], |blobs|);
    forall k | 0 <= k < |all| ensures BlobAt(all, longer, k) {
      OffsetPrefix(blobs, [blob], if k < |blobs| then k else |blobs|);
      if k < |blobs| {
        assert BlobAt(blobs, data, k);
        assert longer[Offset(all, k)..Offset(all, k) + |all[k]|] == data[Offset(blobs, k)..Offset(blobs, k) + |blobs[k]|];
      }
    }
  }

  /** The loops join the blobs in order. */
  lemma {:induction false} FlattenJoins(blobs: seq<Bytes>)
    ensures Joined(blobs, Flatten(blobs))
  {
    if blobs != [] {
      var front, last := blobs[..|blobs| - 1], blobs[|blobs| - 1];
      FlattenJoins(front);
      JoinedAppend(front, Flatten(front), last);
      assert blobs == front + [last];
    }
  }

  /** There is only one way to be joined. */
  lemma JoinedUnique(blobs: seq<Bytes>, a: Bytes, b: Bytes)
    requires Joined(blobs, a) && Joined(blobs, b)
    ensures a == b
  {
    JoinedUpTo(blobs, a, b, |blobs|);
    assert a[..|a|] == a && b[..|b|] == b;
  }

  lemma {:induction false} JoinedUpTo(blobs: seq<Bytes>, a: Bytes, b: Bytes, k: nat)
    requires Joined(blobs, a) && Joined(blobs, b) && k <= |blobs|
    ensures Offset(blobs, k) <= |a| && a[..Offset(blobs, k)] == b[..Offset(blobs, k)]
  {
    OffsetsGrow(blobs, k, |blobs|);
    if k > 0 {
      JoinedUpTo(blobs, a, b, k - 1);
      assert BlobAt(blobs, a, k - 1) && BlobAt(blobs, b, k - 1);
      var m, n := Offset(blobs, k - 1), Offset(blobs, k);
      assert a[..n] == a[..m] + a[m..n] && b[..n] == b[..m] + b[m..n];
    }
  }

  // ---- What a merge is ----

  predicate Uniform(lists: seq<Signed>) {
    lists != [] && forall j :: 0 <= j < |lists| ==> |lists[j]| == |lists[0]|
  }

  /** List `j` alone signed `slot`. */
  predicate Owns(lists: seq<Signed>, slot: nat, j: nat)
    requires Uniform(lists) && slot < |lists[0]|
  {
    && j < |lists| && lists[j][slot] != ""
    && forall k :: 0 <= k < |lists| && k != j ==> lists[k][slot] == ""
  }

  /** `blob` is what the only owner of `slot` contributes. */
  ghost predicate Holds(codec: Base64, lists: seq<Signed>, slot: nat, blob: Bytes)
    requires Uniform(lists) && slot < |lists[0]|
  {
    exists j: nat :: Owns(lists, slot, j) && codec.decode(lists[j][slot]) == Some(blob)
  }

  ghost predicate HoldsUpTo(codec: Base64, lists: seq<Signed>, blobs: seq<Bytes>)
    requires Uniform(lists) && |blobs| <= |lists[0]|
  {
    forall slot :: 0 <= slot < |blobs| ==> Holds(codec, lists, slot, blobs[slot])
  }

  /** `blobs` are the decoded contributions of each slot's only owner. */
  ghost predicate Merges(codec: Base64, lists: seq<Signed>, blobs: seq<Bytes>) {
    Uniform(lists) && |blobs| == |lists[0]| && HoldsUpTo(codec, lists, blobs)
  }

  /** `merged` encodes the owners' contributions, joined in slot order. */
  ghost predicate Assembled(codec: Base64, lists: seq<Signed>, merged: string) {
    exists blobs, data :: Merges(codec, lists, blobs) && Joined(blobs, data) && merged == codec.encode(data)
  }

  // ---- The operation ----

  method CheckLengths(lists: seq<Signed>) returns (ragged: Option<nat>)
    requires lists != []
    ensures ragged.None? <==> Uniform(lists)
    ensures ragged.Some? ==> ragged.value < |lists| && |lists[ragged.value]| != |lists[0]|
  {
    for i := 0 to |lists|
      invariant forall j :: 0 <= j < i ==> |lists[j]| == |lists[0]|
    {
      if |lists[i]| != |lists[0]| {
        return Some(i);
      }
    }
    return None;
  }

  predicate Unsigned(lists: seq<Signed>, slot: nat, below: nat)
    requires Uniform(lists) && slot < |lists[0]| && below <= |lists|
  {
    forall k :: 0 <= k < below ==> lists[k][slot] == ""
  }

  /** What the lists below `below` say about `slot`: nothing yet, or one owner so far. */
  predicate OwnsBelow(lists: seq<Signed>, slot: nat, below: nat, j: nat)
    requires Uniform(lists) && slot < |lists[0]| && below <= |lists|
  {
    && j < below && lists[j][slot] != ""
    && forall k :: 0 <= k < below && k != j ==> lists[k][slot] == ""
  }

  predicate Shared(lists: seq<Signed>, slot: nat)
    requires Uniform(lists) && slot < |lists[0]|
  {
    exists j, k :: 0 <= j < k < |lists| && lists[j][slot] != "" && lists[k][slot] != ""
  }

  method FindOwner(lists: seq<Signed>, slot: nat) returns (r: Result<string, Error>)
    requires Uniform(lists) && slot < |lists[0]|
    ensures r.Success? <==> exists j: nat :: Owns(lists, slot, j)
    ensures forall j: nat :: Owns(lists, slot, j) ==> r == Success(lists[j][slot])
    ensures r == Failure(Several(slot)) <==> Shared(lists, slot)
    ensures r == Failure(Nobody(slot)) <==> Unsigned(lists, slot, |lists|)
    ensures r.Failure? ==> r.error == Several(slot) || r.error == Nobody(slot)
  {
    var found := "";
    ghost var owner: nat := 0;
    for i := 0 to |lists|
      invariant found == "" ==> Unsigned(lists, slot, i)
      invariant found != "" ==> OwnsBelow(lists, slot, i, owner) && found == lists[owner][slot]
    {
      if lists[i][slot] != "" {
        if found != "" {
          assert lists[owner][slot] != "" && lists[i][slot] != "";
          return Failure(Several(slot));
        }
        found, owner := lists[i][slot], i;
      }
    }
    if found == "" {
      return Failure(Nobody(slot));
    }
    assert Owns(lists, slot, owner);
    return Success(found);
  }

  /** A slot that cannot be merged, and why. */
  ghost predicate Faulty(codec: Base64, lists: seq<Signed>, e: Error)
    requires Uniform(lists)
  {
    match e
    case Several(slot) => slot < |lists[0]| && Shared(lists, slot)
    case Nobody(slot) => slot < |lists[0]| && Unsigned(lists, slot, |lists|)
    case NotBase64(slot) =>
      slot < |lists[0]|
      && exists j: nat :: Owns(lists, slot, j) && codec.decode(lists[j][slot]).None?
    case _ => false
  }

  /** Succeeds exactly when every slot has one owner and decodes, with the blobs joined in slot order. */
  method AssembleGroup(codec: Base64, lists: seq<Signed>) returns (r: Result<string, Error>)
    ensures r.Success? <==> exists blobs :: Merges(codec, lists, blobs)
    ensures forall blobs, data :: Merges(codec, lists, blobs) && Joined(blobs, data) ==> r == Success(codec.encode(data))
    ensures r.Success? ==> Assembled(codec, lists, r.value)
    ensures r == Failure(NoLists) <==> lists == []
    ensures r.Failure? && Uniform(lists) ==> Faulty(codec, lists, r.error)
  {
    if lists == [] {
      return Failure(NoLists);
    }
    var ragged := CheckLengths(lists);
    if ragged.Some? {
      return Failure(Ragged(ragged.value));
    }
    var combined: Bytes := [];
    ghost var blobs: seq<Bytes> := [];
    for slot := 0 to |lists[0]|
      invariant |blobs| == slot && HoldsUpTo(codec, lists, blobs)
      invariant combined == Flatten(blobs)
    {
      var found := FindOwner(lists, slot);
      if found.Failure? {
        UnownedUnmerged(codec, lists, slot);
        return Failure(found.error);
      }
      var decoded := codec.decode(found.value);
      if decoded.None? {
        UndecodedUnmerged(codec, lists, slot);
        return Failure(NotBase64(slot));
      }
      var longer := blobs + [decoded.value];
      assert longer[..|longer| - 1] == blobs;
      assert Holds(codec, lists, slot, decoded.value);
      combined := combined + decoded.value;
      assert combined == Flatten(longer);
      blobs := longer;
    }
    assert Merges(codec, lists, blobs);
    FlattenJoins(blobs);
    forall other, data | Merges(codec, lists, other) && Joined(other, data) ensures data == combined {
      MergeUnique(codec, lists, blobs, other);
      JoinedUnique(blobs, data, combined);
    }
    return Success(codec.encode(combined));
  }

  lemma UnownedUnmerged(codec: Base64, lists: seq<Signed>, slot: nat)
    requires Uniform(lists) && slot < |lists[0]| && !exists j: nat :: Owns(lists, slot, j)
    ensures forall blobs :: !Merges(codec, lists, blobs)
  {
    forall blobs: seq<Bytes> | |blobs| == |lists[0]| ensures !HoldsUpTo(codec, lists, blobs) {
      assert !Holds(codec, lists, slot, blobs[slot]);
    }
  }

  lemma UndecodedUnmerged(codec: Base64, lists: seq<Signed>, slot: nat)
    requires Uniform(lists) && slot < |lists[0]|
    requires exists j: nat :: Owns(lists, slot, j) && codec.decode(lists[j][slot]).None?
    ensures forall blobs :: !Merges(codec, lists, blobs)
  {
    forall blobs: seq<Bytes> | |blobs| == |lists[0]| ensures !HoldsUpTo(codec, lists, blobs) {
      assert !Holds(codec, lists, slot, blobs[slot]);
    }
  }

  lemma MergeUnique(codec: Base64, lists: seq<Signed>, a: seq<Bytes>, b: seq<Bytes>)
    requires Merges(codec, lists, a) && Merges(codec, lists, b)
    ensures a == b
  {
    forall slot | 0 <= slot < |a| ensures a[slot] == b[slot] {
      assert Holds(codec, lists, slot, a[slot]) && Holds(codec, lists, slot, b[slot]);
    }
  }

  // ---- Splitting, and the order of the signers ----

  /** What signer `j` returns for a group in which it owns the slots `owner` gives it. */
  function Share(codec: Base64, blobs: seq<Bytes>, owner: seq<nat>, j: nat): (r: Signed)
    requires |owner| == |blobs|
  {
    seq(|blobs|, i requires 0 <= i < |blobs| => if owner[i] == j then codec.encode(blobs[i]) else "")
  }

  function Split(codec: Base64, blobs: seq<Bytes>, owner: seq<nat>, signers: nat): (r: seq<Signed>)
    requires |owner| == |blobs|
  {
    seq(signers, j requires 0 <= j < signers => Share(codec, blobs, owner, j))
  }

  /** Merging undoes any split of non-empty blobs among the signers. */
  lemma MergeUndoesSplit(codec: Base64, blobs: seq<Bytes>, owner: seq<nat>, signers: nat)
    requires codec.Lawful() && |owner| == |blobs| && signers > 0
    requires forall i :: 0 <= i < |blobs| ==> owner[i] < signers && blobs[i] != []
    ensures Merges(codec, Split(codec, blobs, owner, signers), blobs)
    ensures exists merged :: Assembled(codec, Split(codec, blobs, owner, signers), merged)
    ensures forall merged :: Assembled(codec, Split(codec, blobs, owner, signers), merged) ==>
              codec.decode(merged).Some? && Joined(blobs, codec.decode(merged).value)
  {
    SplitMerges(codec, blobs, owner, signers);
    var lists := Split(codec, blobs, owner, signers);
    FlattenJoins(blobs);
    assert Assembled(codec, lists, codec.encode(Flatten(blobs)));
    forall merged | Assembled(codec, lists, merged)
      ensures codec.decode(merged).Some? && Joined(blobs, codec.decode(merged).value)
    {
      var others, data :| Merges(codec, lists, others) && Joined(others, data) && merged == codec.encode(data);
      MergeUnique(codec, lists, blobs, others);
    }
  }

  lemma SplitMerges(codec: Base64, blobs: seq<Bytes>, owner: seq<nat>, signers: nat)
    requires codec.Lawful() && |owner| == |blobs| && signers > 0
    requires forall i :: 0 <= i < |blobs| ==> owner[i] < signers && blobs[i] != []
    ensures Merges(codec, Split(codec, blobs, owner, signers), blobs)
  {
    var lists := Split(codec, blobs, owner, signers);
    forall slot | 0 <= slot < |blobs| ensures Holds(codec, lists, slot, blobs[slot])
    {
      var j := owner[slot];
      assert lists[j] == Share(codec, blobs, owner, j);
      assert lists[j][slot] == codec.encode(blobs[slot]);
      forall k | 0 <= k < |lists| && k != j ensures lists[k][slot] == "" {
        assert lists[k] == Share(codec, blobs, owner, k);
      }
      assert Owns(lists, slot, j);
    }
  }

  lemma OnceInMultiset<T>(s: seq<T>, i: nat)
    requires i < |s| && forall k :: 0 <= k < |s| && k != i ==> s[k] != s[i]
    ensures multiset(s)[s[i]] == 1
  {
    assert s == s[..i] + [s[i]] + s[i + 1..];
    assert s[i] !in s[..i] && s[i] !in s[i + 1..];
    assert s[i] !in multiset(s[..i]) && s[i] !in multiset(s[i + 1..]);
    assert multiset(s) == multiset(s[..i]) + multiset([s[i]]) + multiset(s[i + 1..]);
  }

  lemma OwnerMoves(a: seq<Signed>, b: seq<Signed>, slot: nat, j: nat) returns (i: nat)
    requires Uniform(a) && Uniform(b) && multiset(a) == multiset(b)
    requires slot < |a[0]| && |b[0]| == |a[0]| && Owns(a, slot, j)
    ensures Owns(b, slot, i) && b[i] == a[j]
  {
    OnceInMultiset(a, j);
    assert a[j] in multiset(b);
    i :| 0 <= i < |b| && b[i] == a[j];
    forall k | 0 <= k < |b| && k != i ensures b[k][slot] == "" {
      if b[k] == b[i] {
        TwiceInMultiset(b, if k < i then k else i, if k < i then i else k);
        assert false;
      }
      assert b[k] in multiset(b);
      assert b[k] in multiset(a);
      var m :| 0 <= m < |a| && a[m] == b[k];
      assert m != j;
    }
  }

  lemma SameLength(a: seq<Signed>, b: seq<Signed>)
    requires Uniform(a) && multiset(a) == multiset(b)
    ensures Uniform(b) && |b[0]| == |a[0]|
  {
    assert |b| == |multiset(b)| == |a|;
    forall k | 0 <= k < |b| ensures |b[k]| == |a[0]| {
      assert b[k] in multiset(b);
      assert b[k] in multiset(a);
    }
  }

  /** The order in which the signers' lists are given does not matter. */
  lemma SignerOrderIrrelevant(codec: Base64, a: seq<Signed>, b: seq<Signed>, blobs: seq<Bytes>)
    requires multiset(a) == multiset(b) && Merges(codec, a, blobs)
    ensures Merges(codec, b, blobs)
  {
    SameLength(a, b);
    forall slot | 0 <= slot < |blobs| ensures Holds(codec, b, slot, blobs[slot]) {
      assert Holds(codec, a, slot, blobs[slot]);
      var j: nat :| Owns(a, slot, j) && codec.decode(a[j][slot]) == Some(blobs[slot]);
      var i := OwnerMoves(a, b, slot, j);
    }
  }

  lemma SignerOrderSameResult(codec: Base64, a: seq<Signed>, b: seq<Signed>, merged: string)
    requires multiset(a) == multiset(b)
    ensures Assembled(codec, a, merged) <==> Assembled(codec, b, merged)
  {
    if blobs, data :| Merges(codec, a, blobs) && Joined(blobs, data) && merged == codec.encode(data) {
      SignerOrderIrrelevant(codec, a, b, blobs);
    }
    if blobs, data :| Merges(codec, b, blobs) && Joined(blobs, data) && merged == codec.encode(data) {
      SignerOrderIrrelevant(codec, b, a, blobs);
    }
  }

  /** Any slot with no owner, or with several, makes the merge impossible. */
  lemma BadOwnershipRejected(codec: Base64, lists: seq<Signed>, slot: nat)
    requires Uniform(lists) && slot < |lists[0]|
    requires Unsigned(lists, slot, |lists|) || Shared(lists, slot)
    ensures forall blobs :: !Merges(codec, lists, blobs)
  {
    forall j: nat ensures !Owns(lists, slot, j) {
      if Shared(lists, slot) {
        var m, k :| 0 <= m < k < |lists| && lists[m][slot] != "" && lists[k][slot] != "";
      }
    }
    UnownedUnmerged(codec, lists, slot);
  }

  // ---- One signer's hexadecimal output ----

  ghost predicate HexBlobs(hexes: seq<string>, blobs: seq<Bytes>) {
    |blobs| == |hexes| && forall i :: 0 <= i < |hexes| ==> Hex.Decode(hexes[i], false) == Some(blobs[i])
  }

  method HexArrayToBase64(codec: Base64, hexes: seq<string>) returns (r: Result<string, Error>)
    ensures r.Success? <==> exists blobs :: HexBlobs(hexes, blobs)
    ensures forall blobs, data :: HexBlobs(hexes, blobs) && Joined(blobs, data) ==> r == Success(codec.encode(data))
    ensures r.Success? ==> exists blobs, data :: HexBlobs(hexes, blobs) && Joined(blobs, data) && r.value == codec.encode(data)
    ensures r.Failure? ==> exists i: nat :: i < |hexes| && r.error == NotHex(i) && Hex.Decode(hexes[i], false).None?
  {
    var combined: Bytes := [];
    ghost var blobs: seq<Bytes> := [];
    for i := 0 to |hexes|
      invariant |blobs| == i && combined == Flatten(blobs)
      invariant forall k :: 0 <= k < i ==> Hex.Decode(hexes[k], false) == Some(blobs[k])
    {
      var decoded := Hex.Decode(hexes[i], false);
      if decoded.None? {
        return Failure(NotHex(i));
      }
      var longer := blobs + [decoded.value];
      assert longer[..|longer| - 1] == blobs;
      combined := combined + decoded.value;
      blobs := longer;
    }
    assert HexBlobs(hexes, blobs);
    FlattenJoins(blobs);
    forall other, data | HexBlobs(hexes, other) && Joined(other, data) ensures other == blobs && data == combined {
      forall k | 0 <= k < |hexes| ensures other[k] == blobs[k] {
        assert Hex.Decode(hexes[k], false) == Some(other[k]);
      }
      assert other == blobs;
      JoinedUnique(blobs, data, combined);
    }
    return Success(codec.encode(combined));
  }
}
