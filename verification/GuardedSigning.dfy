/** Whole runs of the guarded flow over a frozen group. */
module GuardedSigning {
  import opened Basics
  import opened Transactions
  import opened Requests
  import opened Exchange
  import opened Gathering
  import opened PrimarySlots
  import opened TargetOrder
  import opened GuardedFlow

  lemma DistinctSorted(targets: seq<Target>)
    requires DistinctTargets(SortByIndex(targets))
    ensures DistinctTargets(targets)
  {
    SortByIndexSorts(targets);
    var sorted := SortByIndex(targets);
    SortedMembers(targets);
    forall i, j | 0 <= i < j < |targets| ensures targets[i].index != targets[j].index {
      assert targets[i] in sorted && targets[j] in sorted;
      if targets[i].index == targets[j].index {
        SameTarget(sorted, targets[i], targets[j]);
        TwiceInMultiset(targets, i, j);
        OnceInMultiset(sorted, targets[i]);
      }
    }
  }

  lemma {:induction false} OnceInMultiset(s: seq<Target>, t: Target)
    requires DistinctTargets(s)
    ensures multiset(s)[t] <= 1
  {
    if s != [] {
      var front, last := s[..|s| - 1], s[|s| - 1];
      OnceInMultiset(front, t);
      assert s == front + [last];
      assert last !in front;
      assert last !in multiset(front);
    }
  }

  lemma SortedDistinct(targets: seq<Target>)
    requires DistinctTargets(targets)
    ensures DistinctTargets(SortByIndex(targets))
  {
    var sorted := SortByIndex(targets);
    SortByIndexSorts(targets);
    SortedMembers(targets);
    forall i, j | 0 <= i < j < |sorted| ensures sorted[i].index != sorted[j].index {
      assert sorted[i] in targets && sorted[j] in targets;
      if sorted[i].index == sorted[j].index {
        SameTarget(targets, sorted[i], sorted[j]);
        TwiceInMultiset(sorted, i, j);
        OnceInMultiset(targets, sorted[i]);
      }
    }
  }

  lemma WellPlacedGatherable(o: Options, kind: ComponentKind, routing: Routing)
    requires WellPlaced(o)
    requires kind == Cosigner || (kind == User && routing == UserRoute(o.user))
    ensures Gatherable(o.group, o.dummies, kind, SortByIndex(o.targets), routing)
  {
    SortedMembers(o.targets);
    forall t | t in SortByIndex(o.targets) ensures 0 <= t.index < |o.group| - |o.dummies| && t.account != "" {
      var k :| 0 <= k < |o.targets| && o.targets[k] == t;
      assert GuardedTargetOk(o.group, o.targets[k]);
    }
  }

  /** Checks the group and the targets before anything is sent. */
  method Admit(o: Options) returns (ok: bool)
    ensures ok <==> TargetsOk(o)
    ensures ok ==> DistinctTargets(SortByIndex(o.targets))
    ensures ok ==> forall t :: t in SortByIndex(o.targets) ==> t.account != ""
  {
    if o.targets == [] || !GroupOk(o.group) {
      return false;
    }
    var sorted := SortByIndex(o.targets);
    SortedMembers(o.targets);
    ok := CheckTargets(o.group, sorted);
    if ok {
      DistinctSorted(o.targets);
      forall k | 0 <= k < |o.targets| ensures GuardedTargetOk(o.group, o.targets[k]) {
        assert o.targets[k] in sorted;
      }
    } else if TargetsOk(o) {
      SortedDistinct(o.targets);
      forall k | 0 <= k < |sorted| ensures GuardedTargetOk(o.group, sorted[k]) {
        assert sorted[k] in o.targets;
      }
    }
  }

  /** What one run over a frozen group leaves behind. */
  ghost predicate RunOk(c: Codec, o: Options, log: seq<Event>, r: Result<seq<string>, Error>) {
    && Safe(c, o, log) && Settled(log)
    && (r.Success? ==> Verified(c, o.group, r.value) && EndsAssembled(log, r.value))
    && (r.Failure? ==>
          if r.error == BadInput then !WellPlaced(o)
          else if r.error == InvalidRequest then !(WellPlaced(o) && IdOk(o.assemblyId))
          else EndsFor(c, o, log, r.error))
    && (!TargetsOk(o) ==> log == [] && r == Failure(BadInput))
  }

  /** The user's side: component signatures for every target, then the primary slots. */
  method UserSide(c: Codec, w: World, before: seq<Event>, o: Options)
    returns (log: seq<Event>, r: Result<(map<int, Sourced>, seq<PassthroughItem>), Error>)
    requires w.Lawful() && TargetsOk(o) && DistinctTargets(SortByIndex(o.targets))
    requires forall t :: t in SortByIndex(o.targets) ==> t.account != ""
    ensures Settled(log)
    ensures Safe(c, o, log)
    ensures r.Failure? ==> RunOk(c, o, log, Failure(r.error))
    ensures r.Success? ==>
      && UserDone(c, o, log)
      && Gathered(log, User, SortByIndex(o.targets), UserRoute(o.user), r.value.0)
      && PrimaryItems(c, o.primaries, o.group, r.value.1)
  {
    var sorted := SortByIndex(o.targets);
    if WellPlaced(o) {
      WellPlacedGatherable(o, User, UserRoute(o.user));
    }
    var userLog, user := GatherUser(c, w, before, o, sorted);
    if user.Failure? {
      return userLog, Failure(user.error);
    }
    var primaryLog, items := SignPrimaries(c, w, before, o, userLog);
    log := userLog + primaryLog;
    SettledConcat(userLog, primaryLog);
    if items.Failure? {
      if items.error != BadInput {
        EndsForConcat(c, o, userLog, primaryLog, items.error);
      }
      return log, Failure(items.error);
    }
    GatheredBefore(userLog, primaryLog, User, sorted, UserRoute(o.user), user.value);
    r := Success((user.value, items.value));
  }

  /** Cosigner signatures, joined with the user's. */
  method CosignerSide(c: Codec, w: World, before: seq<Event>, o: Options, past: seq<Event>, user: map<int, Sourced>)
    returns (log: seq<Event>, r: Result<seq<AssemblyTarget>, Error>)
    requires w.Lawful() && DistinctTargets(SortByIndex(o.targets))
    requires forall t :: t in SortByIndex(o.targets) ==> t.account != ""
    requires Safe(c, o, past) && UserDone(c, o, past)
    requires Gathered(past, User, SortByIndex(o.targets), UserRoute(o.user), user)
    ensures Settled(log)
    ensures Safe(c, o, past + log)
    ensures r.Success? ==> UserDone(c, o, past + log) && Built(o, past + log, r.value, SortByIndex(o.targets))
    ensures r.Failure? ==> r.error == NoRoute || CallError(r.error)
    ensures r.Failure? ==> r.error == InvalidRequest || EndsFor(c, o, past + log, r.error)
    ensures WellPlaced(o) ==> r != Failure(InvalidRequest)
  {
    var sorted := SortByIndex(o.targets);
    if WellPlaced(o) {
      WellPlacedGatherable(o, Cosigner, o.routing);
    }
    var cosigner;
    log, cosigner := GatherCosigners(c, w, before, o, sorted, past);
    if cosigner.Failure? {
      if cosigner.error != InvalidRequest {
        EndsForConcat(c, o, past, log, cosigner.error);
      }
      return log, Failure(cosigner.error);
    }
    UserDoneExtends(c, o, past, log);
    GatheredBefore(past, log, User, sorted, UserRoute(o.user), user);
    GatheredAfter(past, log, Cosigner, sorted, o.routing, cosigner.value);
    var targets := BuildTargets(sorted, user, cosigner.value);
    if targets.None? {
      return log, Failure(Incomplete);
    }
    TargetsSourced(o, past + log, sorted, user, cosigner.value, targets.value);
    r := Success(targets.value);
  }

  /** Cosigner signatures, then assembly and the final comparison. */
  method Complete(
    c: Codec, w: World, before: seq<Event>, o: Options, past: seq<Event>, user: map<int, Sourced>, items: seq<PassthroughItem>)
    returns (log: seq<Event>, r: Result<seq<string>, Error>)
    requires w.Lawful() && TargetsOk(o) && DistinctTargets(SortByIndex(o.targets))
    requires forall t :: t in SortByIndex(o.targets) ==> t.account != ""
    requires Settled(past)
    requires Safe(c, o, past) && UserDone(c, o, past)
    requires Gathered(past, User, SortByIndex(o.targets), UserRoute(o.user), user)
    requires PrimaryItems(c, o.primaries, o.group, items)
    ensures RunOk(c, o, past + log, r)
  {
    var cosignerLog, targets := CosignerSide(c, w, before, o, past, user);
    SettledConcat(past, cosignerLog);
    if targets.Failure? {
      return cosignerLog, Failure(targets.error);
    }
    var soFar := past + cosignerLog;
    var assemblyLog, signed := Assemble(c, w, before, o, SortByIndex(o.targets), soFar, targets.value, items);
    SettledConcat(soFar, assemblyLog);
    ConcatAssociates(past, cosignerLog, assemblyLog);
    if signed.Success? {
      EndsAssembledConcat(soFar, assemblyLog, signed.value);
    } else if signed.error != InvalidRequest {
      EndsForConcat(c, o, soFar, assemblyLog, signed.error);
    }
    return cosignerLog + assemblyLog, signed;
  }

  lemma TargetsSourced(
    o: Options, past: seq<Event>, sorted: seq<Target>, user: map<int, Sourced>, cosigner: map<int, Sourced>, targets: seq<AssemblyTarget>)
    requires Gathered(past, User, sorted, UserRoute(o.user), user)
    requires Gathered(past, Cosigner, sorted, o.routing, cosigner)
    requires forall t :: t in sorted ==> t.account != ""
    requires |targets| == |sorted|
    requires forall k :: 0 <= k < |sorted| ==>
      && sorted[k].index in user && sorted[k].index in cosigner
      && targets[k] == GuardedAssembly(sorted[k], user[sorted[k].index], cosigner[sorted[k].index])
    ensures Built(o, past, targets, sorted)
  {
    forall k | 0 <= k < |sorted| ensures AssemblyTargetOk(targets[k]) && BothSourced(o, past, targets[k], sorted[k]) {
      GuardedAssemblyOk(o, past, sorted, user, cosigner, sorted[k]);
    }
  }

  /**
   One run over an already frozen group. Whatever the signers answer, the log is safe at
   every message and a returned group signs exactly the submitted bytes, slot by slot. A run
   fails for its input, for what its last request came back with, or for want of a cosigner.
   */
  method SignGuardedGroup(c: Codec, w: World, before: seq<Event>, o: Options)
    returns (log: seq<Event>, r: Result<seq<string>, Error>)
    requires w.Lawful()
    ensures RunOk(c, o, log, r)
  {
    var ok := Admit(o);
    if !ok {
      return [], Failure(BadInput);
    }
    log, r := SignAdmitted(c, w, before, o);
  }

  method SignAdmitted(c: Codec, w: World, before: seq<Event>, o: Options)
    returns (log: seq<Event>, r: Result<seq<string>, Error>)
    requires w.Lawful() && TargetsOk(o) && DistinctTargets(SortByIndex(o.targets))
    requires forall t :: t in SortByIndex(o.targets) ==> t.account != ""
    ensures RunOk(c, o, log, r)
  {
    var userLog, held := UserSide(c, w, before, o);
    if held.Failure? {
      return userLog, Failure(held.error);
    }
    var (user, items) := held.value;
    var lastLog, signed := Complete(c, w, before, o, userLog, user, items);
    log, r := userLog + lastLog, signed;
  }

  // ---- Readings of a safe log ----------------------------------------------

  /** No cosigner hears of the group before every user signature is held and every primary slot signed. */
  lemma {:induction false} UserFirst(c: Codec, o: Options, log: seq<Event>, k: nat)
    requires Safe(c, o, log) && k < |log|
    ensures ForCosigner(o.user, log[k]) ==> UserDone(c, o, log[..k])
  {
    SafeAt(c, o, log, k);
    if log[k].Components? {
      assert forall j :: 0 <= j < |log[k].request.targets| ==> log[k].request.targets[j] in log[k].request.targets;
      if Asks(log[k], User, o.group, o.targets, UserRoute(o.user), |o.group| - |o.dummies|, InfoOf(o)) {
        UserAskedAt(o, log[k]);
      }
    }
  }

  /** Every message carries the submitted group, text for text and in order. */
  lemma {:induction false} FrozenBytes(c: Codec, o: Options, log: seq<Event>, k: nat)
    requires Safe(c, o, log) && k < |log| && !log[k].Cancelled?
    ensures match log[k]
            case Components(_, request, _) => request.group == o.group
            case Signed(_, _, entries, _) => Carries(entries, o.group)
            case Assembled(_, request, _) => request.group == o.group
            case _ => false
  {
    SafeAt(c, o, log, k);
  }

  /**
   Provenance: every guarded target has exactly one entry in the assembly, whose two
   signatures and source identifiers come from replies to requests that listed it.
   */
  lemma {:induction false} Provenance(c: Codec, o: Options, log: seq<Event>, k: nat, t: Target)
    requires Safe(c, o, log) && k < |log| && log[k].Assembled? && DistinctTargets(o.targets) && t in o.targets
    ensures exists a :: a in log[k].assembly.targets && BothSourced(o, log[..k], a, t)
    ensures forall i, j :: 0 <= i < j < |log[k].assembly.targets| ==>
      log[k].assembly.targets[i].index != log[k].assembly.targets[j].index
  {
    SafeAt(c, o, log, k);
    var request := log[k].assembly;
    AssemblyIndicesDistinct(request);
    forall j | 0 <= j < |request.targets| ensures exists u :: u in o.targets && u.index == request.targets[j].index {
      assert request.targets[j] in request.targets;
    }
    var a := EveryTargetServed(request.targets, o.targets, t);
    var u :| u in o.targets && BothSourced(o, log[..k], a, u);
    SameTarget(o.targets, t, u);
  }
}
