/** Wire shapes of the signing endpoints and the local checks made before a request leaves. */
module Requests {
  import opened Basics

  const MAX_REQUEST_ID_LENGTH := 128
  const MAX_COMPONENT_GROUP_SIZE := 16
  const PQ_SCHEME_FALCON1024 := "f1"

  /** Named string pairs: LogicSig arguments, app-call display data. Empty means absent. */
  type Pairs = seq<(string, string)>

  // ---- Request identifiers and frozen groups -------------------------------

  predicate IdChar(c: char) {
    'a' <= c <= 'z' || 'A' <= c <= 'Z' || '0' <= c <= '9' || c in "-_.:"
  }

  predicate IdOk(id: string) {
    |id| <= MAX_REQUEST_ID_LENGTH && forall i :: 0 <= i < |id| ==> IdChar(id[i])
  }

  predicate GroupOk(group: seq<string>) {
    0 < |group| <= MAX_COMPONENT_GROUP_SIZE && forall i :: 0 <= i < |group| ==> group[i] != ""
  }

  // ---- Marking positions ---------------------------------------------------

  /** `covered` flags exactly the positions in `marked`, each marked once. */
  ghost predicate Marks(covered: seq<bool>, marked: seq<int>) {
    && Distinct(marked)
    && (forall i :: i in marked ==> 0 <= i < |covered|)
    && forall k :: 0 <= k < |covered| ==> (covered[k] <==> k in marked)
  }

  method Mark(covered: array<bool>, index: int, ghost marked: seq<int>) returns (ok: bool)
    requires Marks(covered[..], marked)
    modifies covered
    ensures ok <==> 0 <= index < covered.Length && index !in marked
    ensures if ok then Marks(covered[..], marked + [index]) else covered[..] == old(covered[..])
  {
    if index < 0 || index >= covered.Length || covered[index] {
      return false;
    }
    covered[index] := true;
    return true;
  }

  method AllMarked(covered: array<bool>, ghost marked: seq<int>) returns (ok: bool)
    requires Marks(covered[..], marked)
    ensures ok <==> Covers(marked, covered.Length)
  {
    for i := 0 to covered.Length
      invariant forall k :: 0 <= k < i ==> covered[k]
    {
      if !covered[i] {
        return false;
      }
    }
    return true;
  }

  /** A list that repeats or leaves the range can never cover it, whatever follows. */
  lemma CannotCover(front: seq<int>, index: int, rest: seq<int>, n: int)
    requires index in front || index < 0 || index >= n
    ensures !Covers(front + [index] + rest, n)
  {
    var all := front + [index] + rest;
    assert all[|front|] == index && index in all;
    if index in front {
      var j :| 0 <= j < |front| && front[j] == index;
      assert all[j] == index;
    }
  }

  // ---- Per-slot signing entries --------------------------------------------

  datatype Resources = Resources(programBytes: int, argumentBytes: int, maxOpcodeCost: int)

  predicate ResourcesOk(r: Resources) {
    0 < r.programBytes <= 16_000 && r.argumentBytes >= 0 && 0 < r.maxOpcodeCost <= 320_000
  }

  datatype SignEntry = SignEntry(
    txnHex: string,
    signedHex: string,
    authAddress: string,
    txnSender: string,
    lsigArgs: Pairs,
    appCallInfo: Pairs,
    resources: Option<Resources>,
    pqScheme: string)

  datatype Mode = Sign | Passthrough | Foreign

  function EntryMode(e: SignEntry): Option<Mode> {
    if e.signedHex != "" && (e.txnHex != "" || e.authAddress != "") then None
    else if e.signedHex != "" then Some(Passthrough)
    else if e.txnHex != "" && e.authAddress != "" then Some(Sign)
    else if e.txnHex != "" then Some(Foreign)
    else None
  }

  predicate EntryOk(e: SignEntry) {
    && EntryMode(e).Some?
    && (e.pqScheme != "" ==> EntryMode(e) == Some(Foreign) && e.pqScheme == PQ_SCHEME_FALCON1024 && e.resources.None?)
    && (e.resources.Some? ==> EntryMode(e) != Some(Sign) && ResourcesOk(e.resources.value))
  }

  /** An entry is passed through, signed or foreign by which fields it fills, and by nothing else. */
  lemma ModeIs(e: SignEntry)
    ensures EntryMode(e) == Some(Passthrough) <==> e.signedHex != "" && e.txnHex == "" && e.authAddress == ""
    ensures EntryMode(e) == Some(Sign) <==> e.signedHex == "" && e.txnHex != "" && e.authAddress != ""
    ensures EntryMode(e) == Some(Foreign) <==> e.signedHex == "" && e.txnHex != "" && e.authAddress == ""
  {
  }

  /** Only a foreign slot names a scheme, only a slot the signer does not sign declares resources, never both. */
  lemma EntryOkIs(e: SignEntry)
    requires EntryOk(e)
    ensures EntryMode(e) == Some(Sign) ==> e.pqScheme == "" && e.resources.None?
    ensures e.pqScheme != "" ==> EntryMode(e) == Some(Foreign) && e.pqScheme == "f1" && e.resources.None?
    ensures e.resources.Some? ==>
      var r := e.resources.value;
      0 < r.programBytes <= 16_000 && 0 <= r.argumentBytes && 0 < r.maxOpcodeCost <= 320_000
  {
  }

  ghost predicate HasMode(entries: seq<SignEntry>, mode: Mode) {
    exists i :: 0 <= i < |entries| && EntryMode(entries[i]) == Some(mode)
  }

  ghost predicate EntriesOk(entries: seq<SignEntry>) {
    && entries != []
    && (forall i :: 0 <= i < |entries| ==> EntryOk(entries[i]))
    && !(HasMode(entries, Passthrough) && HasMode(entries, Foreign))
    && (HasMode(entries, Foreign) ==> HasMode(entries, Sign))
  }

  method ValidateEntries(entries: seq<SignEntry>) returns (ok: bool)
    ensures ok <==> EntriesOk(entries)
  {
    if entries == [] {
      return false;
    }
    var signs, passthroughs, foreigns := 0, 0, 0;
    for i := 0 to |entries|
      invariant forall k :: 0 <= k < i ==> EntryOk(entries[k])
      invariant signs >= 0 && passthroughs >= 0 && foreigns >= 0
      invariant signs > 0 <==> HasMode(entries[..i], Sign)
      invariant passthroughs > 0 <==> HasMode(entries[..i], Passthrough)
      invariant foreigns > 0 <==> HasMode(entries[..i], Foreign)
    {
      if !EntryOk(entries[i]) {
        return false;
      }
      HasModeStep(entries, i);
      match EntryMode(entries[i]).value
      case Sign => signs := signs + 1;
      case Passthrough => passthroughs := passthroughs + 1;
      case Foreign => foreigns := foreigns + 1;
    }
    assert entries[..|entries|] == entries;
    return !(passthroughs > 0 && foreigns > 0) && !(signs == 0 && foreigns > 0);
  }

  lemma HasModeStep(entries: seq<SignEntry>, i: nat)
    requires i < |entries|
    ensures forall mode :: HasMode(entries[..i + 1], mode) <==>
      HasMode(entries[..i], mode) || EntryMode(entries[i]) == Some(mode)
  {
    forall mode | HasMode(entries[..i], mode) ensures HasMode(entries[..i + 1], mode) {
      var k :| 0 <= k < i && EntryMode(entries[..i][k]) == Some(mode);
      assert entries[..i + 1][k] == entries[k];
    }
    forall mode | EntryMode(entries[i]) == Some(mode) ensures HasMode(entries[..i + 1], mode) {
      assert entries[..i + 1][i] == entries[i];
    }
    forall mode | HasMode(entries[..i + 1], mode) && EntryMode(entries[i]) != Some(mode)
      ensures HasMode(entries[..i], mode)
    {
      var k :| 0 <= k < i + 1 && EntryMode(entries[..i + 1][k]) == Some(mode);
      assert entries[..i][k] == entries[k];
    }
  }

  /** A reply to `/sign` fills every slot but the foreign ones, and every slot beyond the request. */
  ghost predicate SignReplyOk(entries: seq<SignEntry>, signed: seq<string>) {
    && |entries| <= |signed|
    && (forall i :: 0 <= i < |entries| && EntryMode(entries[i]) != Some(Foreign) ==> signed[i] != "")
    && (forall i :: |entries| <= i < |signed| ==> signed[i] != "")
  }

  method ValidateSignReply(entries: seq<SignEntry>, signed: seq<string>) returns (ok: bool)
    ensures ok <==> SignReplyOk(entries, signed)
  {
    if |signed| < |entries| {
      return false;
    }
    for i := 0 to |entries|
      invariant forall k :: 0 <= k < i && EntryMode(entries[k]) != Some(Foreign) ==> signed[k] != ""
    {
      if EntryMode(entries[i]) != Some(Foreign) && signed[i] == "" {
        return false;
      }
    }
    for i := |entries| to |signed|
      invariant forall k :: |entries| <= k < i ==> signed[k] != ""
    {
      if signed[i] == "" {
        return false;
      }
    }
    return true;
  }

  // ---- Component requests --------------------------------------------------

  datatype ComponentKind = User | Cosigner | BoundedBase | OtherKind(name: string)

  datatype ComponentTarget = ComponentTarget(
    index: int,
    kind: ComponentKind,
    authAddress: string,
    componentKey: string,
    lsigArgs: Pairs,
    appCallInfo: Pairs)

  datatype ContextPosition = ContextPosition(
    index: int,
    resources: Option<Resources>,
    pqScheme: string,
    appCallInfo: Pairs)

  datatype ComponentRequest = ComponentRequest(
    requestId: string,
    group: seq<string>,
    targets: seq<ComponentTarget>,
    context: seq<ContextPosition>,
    dummies: seq<int>)

  function TargetIndices(targets: seq<ComponentTarget>): (r: seq<int>)
    ensures |r| == |targets| && forall i :: 0 <= i < |r| ==> r[i] == targets[i].index
  {
    seq(|targets|, i requires 0 <= i < |targets| => targets[i].index)
  }

  function ContextIndices(context: seq<ContextPosition>): (r: seq<int>)
    ensures |r| == |context| && forall i :: 0 <= i < |r| ==> r[i] == context[i].index
  {
    seq(|context|, i requires 0 <= i < |context| => context[i].index)
  }

  predicate TargetOk(first: ComponentTarget, t: ComponentTarget) {
    && t.kind == first.kind
    && match t.kind
       case User =>
         t.authAddress != "" && t.componentKey == "" && t.lsigArgs == [] && t.authAddress == first.authAddress
       case Cosigner =>
         t.authAddress == "" && t.lsigArgs == [] && t.componentKey == first.componentKey
       case BoundedBase =>
         t.authAddress != "" && t.componentKey == ""
       case OtherKind(_) => false
  }

  predicate ContextOk(p: ContextPosition) {
    && (p.pqScheme != "" ==> p.pqScheme == PQ_SCHEME_FALCON1024 && p.resources.None?)
    && (p.resources.Some? ==> ResourcesOk(p.resources.value))
  }

  /** The targets, the contextual positions and a contiguous dummy suffix split the group. */
  ghost predicate ComponentRequestOk(r: ComponentRequest) {
    && IdOk(r.requestId)
    && GroupOk(r.group)
    && r.targets != []
    && |r.dummies| <= |r.group|
    && var originals := |r.group| - |r.dummies|;
    && Covers(TargetIndices(r.targets) + ContextIndices(r.context), originals)
    && (forall i :: 0 <= i < |r.targets| ==> TargetOk(r.targets[0], r.targets[i]))
    && (forall i :: 0 <= i < |r.context| ==> ContextOk(r.context[i]))
    && (forall j :: 0 <= j < |r.dummies| ==> r.dummies[j] == originals + j)
  }

  method MarkTargets(targets: seq<ComponentTarget>, covered: array<bool>, ghost rest: seq<int>) returns (ok: bool)
    requires targets != [] && Marks(covered[..], [])
    modifies covered
    ensures ok ==>
      && Marks(covered[..], TargetIndices(targets))
      && forall i :: 0 <= i < |targets| ==> TargetOk(targets[0], targets[i])
    ensures !ok ==>
      || !Covers(TargetIndices(targets) + rest, covered.Length)
      || exists i :: 0 <= i < |targets| && !TargetOk(targets[0], targets[i])
  {
    ghost var positions := TargetIndices(targets);
    for i := 0 to |targets|
      invariant Marks(covered[..], positions[..i])
      invariant forall k :: 0 <= k < i ==> TargetOk(targets[0], targets[k])
    {
      var first := Mark(covered, targets[i].index, positions[..i]);
      SplitAt(positions, i);
      if !first {
        CannotCover(positions[..i], positions[i], positions[i + 1..] + rest, covered.Length);
        assert positions + rest == positions[..i] + [positions[i]] + (positions[i + 1..] + rest);
        return false;
      }
      if !TargetOk(targets[0], targets[i]) {
        return false;
      }
    }
    assert positions[..|targets|] == positions;
    return true;
  }

  method MarkContext(context: seq<ContextPosition>, covered: array<bool>, ghost done: seq<int>) returns (ok: bool)
    requires Marks(covered[..], done)
    modifies covered
    ensures ok ==>
      && Marks(covered[..], done + ContextIndices(context))
      && forall i :: 0 <= i < |context| ==> ContextOk(context[i])
    ensures !ok ==>
      || !Covers(done + ContextIndices(context), covered.Length)
      || exists i :: 0 <= i < |context| && !ContextOk(context[i])
  {
    ghost var positions := ContextIndices(context);
    for i := 0 to |context|
      invariant Marks(covered[..], done + positions[..i])
      invariant forall k :: 0 <= k < i ==> ContextOk(context[k])
    {
      var first := Mark(covered, context[i].index, done + positions[..i]);
      SplitAt(positions, i);
      assert done + positions[..i] + [positions[i]] == done + positions[..i + 1];
      if !first {
        CannotCover(done + positions[..i], positions[i], positions[i + 1..], covered.Length);
        assert done + positions == done + positions[..i] + [positions[i]] + positions[i + 1..];
        return false;
      }
      if !ContextOk(context[i]) {
        return false;
      }
    }
    assert positions[..|context|] == positions;
    return true;
  }

  method CheckSuffix(dummies: seq<int>, start: int) returns (ok: bool)
    ensures ok <==> forall j :: 0 <= j < |dummies| ==> dummies[j] == start + j
  {
    for j := 0 to |dummies|
      invariant forall k :: 0 <= k < j ==> dummies[k] == start + k
    {
      if dummies[j] != start + j {
        return false;
      }
    }
    return true;
  }

  method ValidateComponentRequest(r: ComponentRequest) returns (ok: bool)
    ensures ok <==> ComponentRequestOk(r)
  {
    if !IdOk(r.requestId) || !GroupOk(r.group) || r.targets == [] || |r.dummies| > |r.group| {
      return false;
    }
    var originals := |r.group| - |r.dummies|;
    var covered := new bool[originals](_ => false);
    ghost var first, second := TargetIndices(r.targets), ContextIndices(r.context);
    var targetsOk := MarkTargets(r.targets, covered, second);
    if !targetsOk {
      return false;
    }
    var contextOk := MarkContext(r.context, covered, first);
    if !contextOk {
      return false;
    }
    var all := AllMarked(covered, first + second);
    if !all {
      return false;
    }
    ok := CheckSuffix(r.dummies, originals);
  }

  /** An accepted request gives every position of the group exactly one of the three parts. */
  lemma ComponentPartition(r: ComponentRequest)
    requires ComponentRequestOk(r)
    ensures forall i :: 0 <= i < |r.group| ==>
      && (i in TargetIndices(r.targets) || i in ContextIndices(r.context) || i in r.dummies)
      && !(i in TargetIndices(r.targets) && i in ContextIndices(r.context))
      && (i in r.dummies ==> i !in TargetIndices(r.targets) && i !in ContextIndices(r.context))
    ensures forall i, d :: d in r.dummies && (i in TargetIndices(r.targets) || i in ContextIndices(r.context)) ==> 0 <= i < d < |r.group|
    ensures |r.targets| + |r.context| + |r.dummies| == |r.group|
  {
    var targets, context := TargetIndices(r.targets), ContextIndices(r.context);
    var originals := |r.group| - |r.dummies|;
    CoversCount(targets + context, originals);
    forall i ensures i in r.dummies <==> originals <= i < |r.group| {
      if originals <= i < |r.group| {
        assert r.dummies[i - originals] == i;
      }
    }
    CoversDisjoint(targets, context, originals);
  }

  /** An accepted request is of one kind throughout, for one user account or under one cosigner key. */
  lemma TargetsUniform(r: ComponentRequest, i: nat, j: nat)
    requires ComponentRequestOk(r) && i < |r.targets| && j < |r.targets|
    ensures r.targets[i].kind == r.targets[j].kind && !r.targets[i].kind.OtherKind?
    ensures r.targets[i].kind == User ==>
      && r.targets[i].authAddress == r.targets[j].authAddress != ""
      && r.targets[i].componentKey == "" && r.targets[i].lsigArgs == []
    ensures r.targets[i].kind == Cosigner ==>
      && r.targets[i].componentKey == r.targets[j].componentKey
      && r.targets[i].authAddress == "" && r.targets[i].lsigArgs == []
    ensures r.targets[i].kind == BoundedBase ==> r.targets[i].authAddress != "" && r.targets[i].componentKey == ""
  {
    assert TargetOk(r.targets[0], r.targets[i]) && TargetOk(r.targets[0], r.targets[j]);
  }

  lemma CoversDisjoint(a: seq<int>, b: seq<int>, n: int)
    requires Covers(a + b, n)
    ensures forall i :: 0 <= i < n <==> i in a || i in b
    ensures forall i :: !(i in a && i in b)
  {
    var all := a + b;
    forall j, k | 0 <= j < |a| && 0 <= k < |b| ensures a[j] != b[k] {
      assert all[j] == a[j] && all[|a| + k] == b[k];
    }
    assert forall i :: i in all <==> i in a || i in b;
  }

  lemma SplitAt(s: seq<int>, i: nat)
    requires i < |s|
    ensures s == s[..i] + [s[i]] + s[i + 1..] && s[..i + 1] == s[..i] + [s[i]]
  {
  }

  // ---- Requests over a chosen set of positions -----------------------------

  /** The positions below `n` that are not targets, in order. */
  function Others(n: nat, targets: seq<int>): seq<int> {
    if n == 0 then [] else Others(n - 1, targets) + (if n - 1 in targets then [] else [n - 1])
  }

  lemma {:induction false} OthersComplement(n: nat, targets: seq<int>)
    ensures Distinct(Others(n, targets))
    ensures forall i :: i in Others(n, targets) <==> 0 <= i < n && i !in targets
  {
    if n > 0 {
      OthersComplement(n - 1, targets);
    }
  }

  function InfoAt(info: map<int, Pairs>, index: int): Pairs {
    if index in info then info[index] else []
  }

  function TargetFor(index: int, kind: ComponentKind, key: string, info: map<int, Pairs>): ComponentTarget {
    if kind == User then ComponentTarget(index, kind, key, "", [], InfoAt(info, index))
    else ComponentTarget(index, kind, "", key, [], InfoAt(info, index))
  }

  function ComponentRequestFor(
    group: seq<string>, indices: seq<int>, dummies: seq<int>,
    kind: ComponentKind, key: string, info: map<int, Pairs>): ComponentRequest
  {
    var originals := if |dummies| <= |group| then |group| - |dummies| else 0;
    var others := Others(originals, indices);
    ComponentRequest(
      "", group,
      seq(|indices|, i requires 0 <= i < |indices| => TargetFor(indices[i], kind, key, info)),
      seq(|others|, i requires 0 <= i < |others| => ContextPosition(others[i], None, "", InfoAt(info, others[i]))),
      dummies)
  }

  /** `dummies` are the last positions of a group of `total`. */
  predicate SuffixOf(dummies: seq<int>, total: nat) {
    |dummies| <= total && forall j :: 0 <= j < |dummies| ==> dummies[j] == total - |dummies| + j
  }

  /** Whatever identifier it is sent under, a request built for distinct positions passes its own check. */
  lemma ComponentRequestForOk(
    group: seq<string>, indices: seq<int>, dummies: seq<int>,
    kind: ComponentKind, key: string, info: map<int, Pairs>, id: string)
    requires GroupOk(group) && IdOk(id)
    requires SuffixOf(dummies, |group|)
    requires indices != [] && Distinct(indices)
    requires forall i :: i in indices ==> 0 <= i < |group| - |dummies|
    requires kind == Cosigner || (kind == User && key != "")
    ensures ComponentRequestOk(ComponentRequestFor(group, indices, dummies, kind, key, info).(requestId := id))
  {
    var r := ComponentRequestFor(group, indices, dummies, kind, key, info);
    var others := Others(|group| - |dummies|, indices);
    OthersComplement(|group| - |dummies|, indices);
    assert TargetIndices(r.targets) == indices;
    assert ContextIndices(r.context) == others;
    var all := indices + others;
    forall i, j | 0 <= i < j < |all| ensures all[i] != all[j] {
      if i < |indices| <= j {
        assert all[j] in others && all[i] in indices;
      }
    }
  }

  // ---- Component replies ---------------------------------------------------

  datatype Component = Component(
    index: int,
    kind: ComponentKind,
    authAddress: string,
    signature: string,
    signatureScheme: string,
    baseSignatures: seq<string>,
    runtimeArgs: Pairs,
    receipt: string)

  datatype ComponentResponse = ComponentResponse(requestId: string, components: seq<Component>)

  predicate ComponentOk(c: Component) {
    && c.index >= 0
    && match c.kind
       case User => SignatureMaterial(c)
       case Cosigner => SignatureMaterial(c)
       case BoundedBase =>
         && c.authAddress != ""
         && c.baseSignatures != []
         && c.receipt != ""
         && c.signatureScheme != ""
         && c.signature == ""
       case OtherKind(_) => false
  }

  predicate SignatureMaterial(c: Component) {
    c.signature != "" && c.signatureScheme != "" && c.baseSignatures == [] && c.receipt == ""
  }

  ghost predicate DistinctComponents(cs: seq<Component>) {
    forall i, j :: 0 <= i < j < |cs| ==> cs[i].index != cs[j].index
  }

  ghost predicate ResponseOk(r: ComponentResponse) {
    && r.requestId != ""
    && IdOk(r.requestId)
    && r.components != []
    && DistinctComponents(r.components)
    && forall i :: 0 <= i < |r.components| ==> ComponentOk(r.components[i])
  }

  datatype Kinded = Kinded(index: int, kind: ComponentKind)

  function KindedTargets(targets: seq<ComponentTarget>): (r: seq<Kinded>)
    ensures |r| == |targets| && forall i :: 0 <= i < |r| ==> r[i] == Kinded(targets[i].index, targets[i].kind)
  {
    seq(|targets|, i requires 0 <= i < |targets| => Kinded(targets[i].index, targets[i].kind))
  }

  function KindedComponents(components: seq<Component>): (r: seq<Kinded>)
    ensures |r| == |components| && forall i :: 0 <= i < |r| ==> r[i] == Kinded(components[i].index, components[i].kind)
  {
    seq(|components|, i requires 0 <= i < |components| => Kinded(components[i].index, components[i].kind))
  }

  /** Position to kind; a later entry for the same position wins. */
  function Kinds(ks: seq<Kinded>): map<int, ComponentKind> {
    if ks == [] then map[] else Kinds(ks[..|ks| - 1])[ks[|ks| - 1].index := ks[|ks| - 1].kind]
  }

  ghost predicate DistinctKinded(ks: seq<Kinded>) {
    forall i, j :: 0 <= i < j < |ks| ==> ks[i].index != ks[j].index
  }

  /** The reply holds one component per requested position, of the requested kind, inside the group. */
  ghost predicate Answers(r: ComponentResponse, request: ComponentRequest) {
    && Kinds(KindedComponents(r.components)) == Kinds(KindedTargets(request.targets))
    && forall i :: 0 <= i < |r.components| ==> r.components[i].index < |request.group|
  }

  method ValidateResponse(r: ComponentResponse) returns (ok: bool)
    ensures ok <==> ResponseOk(r)
  {
    if r.requestId == "" || !IdOk(r.requestId) || r.components == [] {
      return false;
    }
    var seen := {};
    for i := 0 to |r.components|
      invariant forall x :: x in seen <==> exists k :: 0 <= k < i && r.components[k].index == x
      invariant DistinctComponents(r.components[..i])
      invariant forall k :: 0 <= k < i ==> ComponentOk(r.components[k])
    {
      var c := r.components[i];
      if c.index < 0 || c.index in seen || !ComponentOk(c) {
        return false;
      }
      seen := seen + {c.index};
    }
    assert r.components[..|r.components|] == r.components;
    return true;
  }

  method ExpectedKinds(targets: seq<ComponentTarget>) returns (expected: map<int, ComponentKind>)
    ensures expected == Kinds(KindedTargets(targets))
  {
    ghost var wanted := KindedTargets(targets);
    expected := map[];
    for i := 0 to |targets|
      invariant expected == Kinds(wanted[..i])
    {
      assert wanted[..i + 1][..i] == wanted[..i];
      expected := expected[targets[i].index := targets[i].kind];
    }
    assert wanted[..|wanted|] == wanted;
  }

  predicate Expects(expected: map<int, ComponentKind>, c: Component) {
    c.index in expected && expected[c.index] == c.kind
  }

  method CheckComponents(components: seq<Component>, expected: map<int, ComponentKind>, groupSize: nat) returns (ok: bool)
    ensures ok <==> forall i :: 0 <= i < |components| ==> components[i].index < groupSize && Expects(expected, components[i])
  {
    for i := 0 to |components|
      invariant forall k :: 0 <= k < i ==> components[k].index < groupSize && Expects(expected, components[k])
    {
      if components[i].index >= groupSize || !Expects(expected, components[i]) {
        return false;
      }
    }
    return true;
  }

  method ValidateResponseFor(r: ComponentResponse, request: ComponentRequest) returns (ok: bool)
    ensures ok <==> ResponseOk(r) && Answers(r, request)
  {
    var wellFormed := ValidateResponse(r);
    if !wellFormed {
      return false;
    }
    var expected := ExpectedKinds(request.targets);
    AnswersExactly(r.components, expected);
    if |r.components| != |expected| {
      return false;
    }
    ok := CheckComponents(r.components, expected, |request.group|);
  }

  /** The kinds given are the kinds expected exactly when their number is right and each is expected. */
  lemma AnswersExactly(components: seq<Component>, expected: map<int, ComponentKind>)
    requires DistinctComponents(components)
    ensures Kinds(KindedComponents(components)) == expected <==>
      |components| == |expected| && forall i :: 0 <= i < |components| ==> Expects(expected, components[i])
  {
    var given := KindedComponents(components);
    KindsOf(given);
    forall i | 0 <= i < |components| ensures Expects(Kinds(given), components[i]) {
      assert given[i] == Kinded(components[i].index, components[i].kind);
    }
    if |components| == |expected| && forall i :: 0 <= i < |components| ==> Expects(expected, components[i]) {
      CountingDecides(given, expected);
    }
  }

  /** Distinct entries: as many kinds as entries, each entry under its own position. */
  lemma {:induction false} KindsOf(ks: seq<Kinded>)
    requires DistinctKinded(ks)
    ensures |Kinds(ks)| == |ks|
    ensures forall i :: 0 <= i < |ks| ==> ks[i].index in Kinds(ks) && Kinds(ks)[ks[i].index] == ks[i].kind
    ensures forall x :: x in Kinds(ks) ==> Kinded(x, Kinds(ks)[x]) in ks
  {
    if ks != [] {
      var front, last := ks[..|ks| - 1], ks[|ks| - 1];
      KindsOf(front);
      assert last.index !in Kinds(front);
      assert Kinds(ks).Keys == Kinds(front).Keys + {last.index};
      assert ks == front + [last];
      assert last == Kinded(last.index, last.kind);
    }
  }

  /** Counting forces a bijection: nothing requested is missing and nothing else was sent. */
  lemma CountingDecides(ks: seq<Kinded>, expected: map<int, ComponentKind>)
    requires DistinctKinded(ks) && |ks| == |expected|
    requires forall i :: 0 <= i < |ks| ==> ks[i].index in expected && expected[ks[i].index] == ks[i].kind
    ensures Kinds(ks) == expected
  {
    KindsOf(ks);
    forall x | x in Kinds(ks) ensures x in expected && expected[x] == Kinds(ks)[x] {
      var i :| 0 <= i < |ks| && ks[i] == Kinded(x, Kinds(ks)[x]);
    }
    SubsetExhausts(Kinds(ks).Keys, expected.Keys);
  }

  // ---- Assembly ------------------------------------------------------------

  datatype AssemblyKind = Guarded | BoundedCosigner | OtherAssembly(name: string)

  datatype AssemblyTarget = AssemblyTarget(
    index: int,
    kind: AssemblyKind,
    authAddress: string,
    userSignature: string,
    userSource: string,
    guardedArgs: seq<string>,
    baseSignatures: seq<string>,
    boundedArgs: Pairs,
    receipt: string,
    baseSource: string,
    cosignerSignature: string,
    cosignerSource: string)

  datatype Authorization = Authorization(resources: Option<Resources>, pqScheme: string)

  datatype PassthroughItem = PassthroughItem(index: int, signedHex: string, authorization: Option<Authorization>)

  datatype AssemblyRequest = AssemblyRequest(
    requestId: string,
    group: seq<string>,
    targets: seq<AssemblyTarget>,
    passthrough: seq<PassthroughItem>)

  datatype AssemblyResponse = AssemblyResponse(requestId: string, signedGroup: seq<string>)

  function AssemblyIndices(targets: seq<AssemblyTarget>): (r: seq<int>)
    ensures |r| == |targets| && forall i :: 0 <= i < |r| ==> r[i] == targets[i].index
  {
    seq(|targets|, i requires 0 <= i < |targets| => targets[i].index)
  }

  function PassthroughIndices(items: seq<PassthroughItem>): (r: seq<int>)
    ensures |r| == |items| && forall i :: 0 <= i < |r| ==> r[i] == items[i].index
  {
    seq(|items|, i requires 0 <= i < |items| => items[i].index)
  }

  predicate AssemblyTargetOk(t: AssemblyTarget) {
    && t.authAddress != ""
    && t.cosignerSignature != ""
    && IdOk(t.cosignerSource)
    && match t.kind
       case Guarded =>
         && t.userSignature != ""
         && t.baseSignatures == [] && t.boundedArgs == [] && t.receipt == "" && t.baseSource == ""
         && IdOk(t.userSource)
       case BoundedCosigner =>
         && t.baseSignatures != [] && t.receipt != ""
         && t.userSignature == "" && t.userSource == "" && t.guardedArgs == []
         && IdOk(t.baseSource)
       case OtherAssembly(_) => false
  }

  /** The targets and the passthrough items split the whole group. */
  ghost predicate AssemblyRequestOk(r: AssemblyRequest) {
    && IdOk(r.requestId)
    && GroupOk(r.group)
    && Covers(AssemblyIndices(r.targets) + PassthroughIndices(r.passthrough), |r.group|)
    && (forall i :: 0 <= i < |r.targets| ==> AssemblyTargetOk(r.targets[i]))
    && (forall i :: 0 <= i < |r.passthrough| ==> r.passthrough[i].signedHex != "")
  }

  method ValidateAssemblyRequest(r: AssemblyRequest) returns (ok: bool)
    ensures ok <==> AssemblyRequestOk(r)
  {
    if !IdOk(r.requestId) || !GroupOk(r.group) {
      return false;
    }
    ghost var first, second := AssemblyIndices(r.targets), PassthroughIndices(r.passthrough);
    if r.targets == [] && r.passthrough == [] {
      assert 0 !in first + second;
      return false;
    }
    var covered := new bool[|r.group|](_ => false);
    var targetsOk := CoverTargets(r.targets, covered, second);
    if !targetsOk {
      return false;
    }
    var itemsOk := CoverPassthrough(r.passthrough, covered, first);
    if !itemsOk {
      return false;
    }
    ok := AllMarked(covered, first + second);
  }

  /** An accepted assembly gives every position of the group exactly one of the two parts. */
  lemma AssemblyPartition(r: AssemblyRequest)
    requires AssemblyRequestOk(r)
    ensures forall i :: 0 <= i < |r.group| ==>
      (i in AssemblyIndices(r.targets) <==> i !in PassthroughIndices(r.passthrough))
    ensures |r.targets| + |r.passthrough| == |r.group|
  {
    CoversCount(AssemblyIndices(r.targets) + PassthroughIndices(r.passthrough), |r.group|);
    CoversDisjoint(AssemblyIndices(r.targets), PassthroughIndices(r.passthrough), |r.group|);
  }

  /** Every target of an accepted assembly brings a cosigner signature, and the user's side of its own kind only. */
  lemma MaterialComplete(r: AssemblyRequest, i: nat)
    requires AssemblyRequestOk(r) && i < |r.targets|
    ensures var t := r.targets[i];
            && t.authAddress != "" && t.cosignerSignature != ""
            && (t.kind == Guarded || t.kind == BoundedCosigner)
            && (t.kind == Guarded <==> t.userSignature != "")
            && (t.kind == BoundedCosigner <==> t.baseSignatures != [])
            && (t.kind == BoundedCosigner <==> t.receipt != "")
            && (t.userSource != "" ==> t.kind == Guarded) && (t.baseSource != "" ==> t.kind == BoundedCosigner)
  {
    assert AssemblyTargetOk(r.targets[i]);
  }

  lemma AssemblyIndicesDistinct(r: AssemblyRequest)
    requires AssemblyRequestOk(r)
    ensures Distinct(AssemblyIndices(r.targets))
    ensures forall i, j :: 0 <= i < j < |r.targets| ==> r.targets[i].index != r.targets[j].index
  {
    var given := AssemblyIndices(r.targets);
    var all := given + PassthroughIndices(r.passthrough);
    assert forall i :: 0 <= i < |given| ==> all[i] == given[i];
  }

  method CoverTargets(targets: seq<AssemblyTarget>, covered: array<bool>, ghost rest: seq<int>) returns (ok: bool)
    requires Marks(covered[..], [])
    modifies covered
    ensures ok ==> Marks(covered[..], AssemblyIndices(targets)) && forall i :: 0 <= i < |targets| ==> AssemblyTargetOk(targets[i])
    ensures !ok ==>
      || !Covers(AssemblyIndices(targets) + rest, covered.Length)
      || exists i :: 0 <= i < |targets| && !AssemblyTargetOk(targets[i])
  {
    ghost var positions := AssemblyIndices(targets);
    for i := 0 to |targets|
      invariant Marks(covered[..], positions[..i])
      invariant forall k :: 0 <= k < i ==> AssemblyTargetOk(targets[k])
    {
      var first := Mark(covered, targets[i].index, positions[..i]);
      SplitAt(positions, i);
      if !first {
        CannotCover(positions[..i], positions[i], positions[i + 1..] + rest, covered.Length);
        assert positions + rest == positions[..i] + [positions[i]] + (positions[i + 1..] + rest);
        return false;
      }
      if !AssemblyTargetOk(targets[i]) {
        return false;
      }
    }
    assert positions[..|targets|] == positions;
    return true;
  }

  method CoverPassthrough(items: seq<PassthroughItem>, covered: array<bool>, ghost done: seq<int>) returns (ok: bool)
    requires Marks(covered[..], done)
    modifies covered
    ensures ok ==> Marks(covered[..], done + PassthroughIndices(items)) && forall i :: 0 <= i < |items| ==> items[i].signedHex != ""
    ensures !ok ==>
      || !Covers(done + PassthroughIndices(items), covered.Length)
      || exists i :: 0 <= i < |items| && items[i].signedHex == ""
  {
    ghost var positions := PassthroughIndices(items);
    for i := 0 to |items|
      invariant Marks(covered[..], done + positions[..i])
      invariant forall k :: 0 <= k < i ==> items[k].signedHex != ""
    {
      var first := Mark(covered, items[i].index, done + positions[..i]);
      SplitAt(positions, i);
      assert done + positions[..i] + [positions[i]] == done + positions[..i + 1];
      if !first {
        CannotCover(done + positions[..i], positions[i], positions[i + 1..], covered.Length);
        assert done + positions == done + positions[..i] + [positions[i]] + positions[i + 1..];
        return false;
      }
      if items[i].signedHex == "" {
        return false;
      }
    }
    assert positions[..|items|] == positions;
    return true;
  }

  ghost predicate AssemblyResponseOk(r: AssemblyResponse) {
    && r.requestId != ""
    && IdOk(r.requestId)
    && r.signedGroup != []
    && forall i :: 0 <= i < |r.signedGroup| ==> r.signedGroup[i] != ""
  }

  method ValidateAssemblyResponse(r: AssemblyResponse) returns (ok: bool)
    ensures ok <==> AssemblyResponseOk(r)
  {
    if r.requestId == "" || !IdOk(r.requestId) || r.signedGroup == [] {
      return false;
    }
    for i := 0 to |r.signedGroup|
      invariant forall k :: 0 <= k < i ==> r.signedGroup[k] != ""
    {
      if r.signedGroup[i] == "" {
        return false;
      }
    }
    return true;
  }
}
