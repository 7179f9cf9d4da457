/** What the signer's planner may do to a prepared group, and the check that it did no more. */
module Plan {
  import opened Basics
  import opened Transactions

  datatype MutationReport = MutationReport(
    originalCount: int,
    finalCount: int,
    dummiesAdded: int,
    groupIdChanged: bool,
    feesModified: seq<int>,
    totalFeesDelta: int)

  function TotalFees(txns: seq<Txn>): int {
    if txns == [] then 0 else TotalFees(txns[..|txns| - 1]) + txns[|txns| - 1].fee
  }

  predicate GroupIdReported(report: Option<MutationReport>) {
    report.Some? && report.value.groupIdChanged
  }

  function FeePositions(report: Option<MutationReport>): seq<int> {
    if report.Some? then report.value.feesModified else []
  }

  /** `after` is `before` except for a new group ID or a raised fee, each only where allowed. */
  predicate Permitted(before: Txn, after: Txn, regrouped: bool, refeed: bool) {
    && after == before.(
                group := if regrouped then after.group else before.group,
                fee := if refeed then after.fee else before.fee)
    && before.fee <= after.fee
  }

  /** The report names the counts, the distinct fee positions and the total rise as they are. */
  ghost predicate Truthful(original: seq<Txn>, planned: seq<Txn>, report: Option<MutationReport>) {
    match report
    case None => |planned| == |original|
    case Some(m) =>
      && m.originalCount == |original|
      && m.finalCount == |planned|
      && m.dummiesAdded == |planned| - |original|
      && FeePositionsOk(m.feesModified, |original|)
      && m.totalFeesDelta == TotalFees(planned) - TotalFees(original)
      && !IdleRegrouping(original, planned, m)
  }

  ghost predicate FeePositionsOk(positions: seq<int>, n: nat) {
    && Distinct(positions)
    && forall k :: 0 <= k < |positions| ==> 0 <= positions[k] < n
  }

  /** Every transaction already had a group ID and nothing else moved, yet the ID was replaced. */
  predicate IdleRegrouping(original: seq<Txn>, planned: seq<Txn>, m: MutationReport) {
    && m.groupIdChanged
    && |planned| == |original|
    && m.feesModified == []
    && forall i :: 0 <= i < |original| ==> original[i].group != []
  }

  ghost predicate Acceptable(c: Codec, original: seq<Txn>, planned: seq<Txn>, report: Option<MutationReport>) {
    && |original| <= |planned|
    && Truthful(original, planned, report)
    && PositionsPermitted(original, planned, report)
    && CanonicalDummies(c, planned[|original|..])
  }

  ghost predicate PositionsPermitted(original: seq<Txn>, planned: seq<Txn>, report: Option<MutationReport>)
    requires |original| <= |planned|
  {
    forall i :: 0 <= i < |original| ==>
      Permitted(original[i], planned[i], GroupIdReported(report), i in FeePositions(report))
  }

  // ---- The validator -------------------------------------------------------

  method ValidatePlan(c: Codec, original: seq<Txn>, planned: seq<Txn>, report: Option<MutationReport>) returns (ok: bool)
    requires c.Lawful()
    ensures ok <==> Acceptable(c, original, planned, report)
  {
    if |planned| < |original| {
      return false;
    }
    var appended := |planned| - |original|;
    var feeModified := {};
    match report {
      case None =>
        if appended != 0 {
          return false;
        }
      case Some(m) =>
        if m.originalCount != |original| || m.finalCount != |planned| || m.dummiesAdded != appended {
          return false;
        }
        var positions := CollectFeePositions(m.feesModified, |original|);
        if positions.None? {
          return false;
        }
        feeModified := positions.value;
        if m.groupIdChanged && appended == 0 && feeModified == {}
           && (forall i :: 0 <= i < |original| ==> original[i].group != []) {
          return false;
        }
    }
    assert forall i :: i in feeModified <==> i in FeePositions(report);
    var delta := FeeRise(c, original, planned, GroupIdReported(report), feeModified);
    if delta.None? {
      return false;
    }
    var dummies := ValidateDummies(c, planned[|original|..]);
    if report.Some? && report.value.totalFeesDelta != delta.value {
      if dummies { FeesOfPlan(c, original, planned); }
      return false;
    }
    if dummies {
      FeesOfPlan(c, original, planned);
    }
    return dummies;
  }

  method CollectFeePositions(listed: seq<int>, n: nat) returns (r: Option<set<int>>)
    ensures r.Some? <==> FeePositionsOk(listed, n)
    ensures r.Some? ==> r.value == Elements(listed) && (r.value == {} <==> listed == [])
  {
    var seen := {};
    for k := 0 to |listed|
      invariant seen == Elements(listed[..k])
      invariant FeePositionsOk(listed[..k], n)
    {
      var index := listed[k];
      assert listed[..k + 1] == listed[..k] + [index];
      if index < 0 || index >= n {
        return None;
      }
      if index in seen {
        var j :| 0 <= j < k && listed[..k][j] == index;
        return None;
      }
      seen := seen + {index};
    }
    assert listed[..|listed|] == listed;
    assert listed != [] ==> listed[0] in seen;
    return Some(seen);
  }

  /** The fee rise at one position, or nothing if the position changed otherwise. */
  method PositionRise(c: Codec, before: Txn, after: Txn, regrouped: bool, refeed: bool) returns (r: Option<int>)
    requires c.Lawful()
    ensures r.Some? <==> Permitted(before, after, regrouped, refeed)
    ensures r.Some? ==> r.value == after.fee - before.fee
  {
    var expected, rise := before, 0;
    if regrouped {
      expected := expected.(group := after.group);
    }
    if refeed {
      if after.fee < expected.fee {
        return None;
      }
      rise := after.fee - expected.fee;
      expected := expected.(fee := after.fee);
    }
    if c.EncodeTxn(expected) != c.EncodeTxn(after) {
      return None;
    }
    EncodeTxnInjective(c, expected, after);
    return Some(rise);
  }

  /** Walks the original positions; yields the sum of the listed fee rises, or nothing if a position changed otherwise. */
  method FeeRise(c: Codec, original: seq<Txn>, planned: seq<Txn>, regrouped: bool, feeModified: set<int>)
    returns (r: Option<int>)
    requires c.Lawful() && |original| <= |planned|
    ensures r.Some? <==>
      forall i :: 0 <= i < |original| ==> Permitted(original[i], planned[i], regrouped, i in feeModified)
    ensures r.Some? ==> r.value == TotalFees(planned[..|original|]) - TotalFees(original)
  {
    var total := 0;
    for i := 0 to |original|
      invariant forall k :: 0 <= k < i ==> Permitted(original[k], planned[k], regrouped, k in feeModified)
      invariant total == TotalFees(planned[..i]) - TotalFees(original[..i])
    {
      var rise := PositionRise(c, original[i], planned[i], regrouped, i in feeModified);
      if rise.None? {
        return None;
      }
      assert original[..i + 1][..i] == original[..i] && planned[..i + 1][..i] == planned[..i];
      total := total + rise.value;
    }
    assert original[..|original|] == original;
    return Some(total);
  }

  lemma {:induction false} FeesSplit(txns: seq<Txn>, k: nat)
    requires k <= |txns|
    ensures TotalFees(txns) == TotalFees(txns[..k]) + TotalFees(txns[k..])
  {
    if k == |txns| {
      assert txns[..k] == txns;
    } else {
      var front := txns[..|txns| - 1];
      FeesSplit(front, k);
      assert front[..k] == txns[..k];
      assert txns[k..][..|txns| - k - 1] == front[k..];
    }
  }

  lemma {:induction false} DummiesAreFree(c: Codec, dummies: seq<Txn>)
    requires CanonicalDummies(c, dummies)
    ensures TotalFees(dummies) == 0
  {
    if dummies != [] {
      DummiesAreFree(c, dummies[..|dummies| - 1]);
    }
  }

  lemma FeesOfPlan(c: Codec, original: seq<Txn>, planned: seq<Txn>)
    requires |original| <= |planned| && CanonicalDummies(c, planned[|original|..])
    ensures TotalFees(planned) == TotalFees(planned[..|original|])
  {
    FeesSplit(planned, |original|);
    DummiesAreFree(c, planned[|original|..]);
  }

  // ---- Advertised fee limits -----------------------------------------------

  ghost predicate FeesWithin(planned: seq<Txn>, maxFees: map<int, int>) {
    forall i :: i in maxFees ==> 0 <= i < |planned| && 0 <= maxFees[i] && planned[i].fee <= maxFees[i]
  }

  method ValidateTargetFees(planned: seq<Txn>, maxFees: map<int, int>) returns (ok: bool)
    ensures ok <==> FeesWithin(planned, maxFees)
  {
    var rest: set<int> := maxFees.Keys;
    while rest != {}
      invariant rest <= maxFees.Keys
      invariant forall i :: i in maxFees && i !in rest ==> 0 <= i < |planned| && 0 <= maxFees[i] && planned[i].fee <= maxFees[i]
      decreases |rest|
    {
      var i := Pick(rest);
      if i < 0 || i >= |planned| || maxFees[i] < 0 || planned[i].fee > maxFees[i] {
        return false;
      }
      rest := rest - {i};
    }
    return true;
  }

  // ---- What acceptance implies ---------------------------------------------

  /** Fees are conserved: the plan costs the original total plus what the report declares. */
  lemma FeeConservation(c: Codec, original: seq<Txn>, planned: seq<Txn>, report: Option<MutationReport>)
    requires Acceptable(c, original, planned, report)
    ensures TotalFees(planned) == TotalFees(original) + (if report.Some? then report.value.totalFeesDelta else 0)
    ensures TotalFees(original) <= TotalFees(planned)
  {
    FeesOfPlan(c, original, planned);
    FeesRise(original, planned[..|original|]);
    if report.None? {
      assert planned == original;
    }
  }

  lemma {:induction false} FeesRise(before: seq<Txn>, after: seq<Txn>)
    requires |before| == |after| && forall i :: 0 <= i < |before| ==> before[i].fee <= after[i].fee
    ensures TotalFees(before) <= TotalFees(after)
  {
    if before != [] {
      FeesRise(before[..|before| - 1], after[..|after| - 1]);
    }
  }

  /** What an accepted plan leaves alone: everything but fees at the reported positions and a reported group ID. */
  lemma PlanKeeps(c: Codec, original: seq<Txn>, planned: seq<Txn>, report: Option<MutationReport>, i: nat)
    requires Acceptable(c, original, planned, report) && i < |original|
    ensures var (before, after) := (original[i], planned[i]);
            && after.kind == before.kind && after.sender == before.sender && after.receiver == before.receiver
            && after.amount == before.amount && after.note == before.note && after.rest == before.rest
            && after.rekeyTo == before.rekeyTo && after.closeRemainderTo == before.closeRemainderTo
            && before.fee <= after.fee
            && (after.fee != before.fee ==> report.Some? && i in report.value.feesModified)
            && (after.group != before.group ==> report.Some? && report.value.groupIdChanged)
  {
    assert Permitted(original[i], planned[i], GroupIdReported(report), i in FeePositions(report));
  }

  /** What an accepted report says is so. */
  lemma ReportIsTruthful(c: Codec, original: seq<Txn>, planned: seq<Txn>, m: MutationReport)
    requires Acceptable(c, original, planned, Some(m))
    ensures m.originalCount == |original| && m.finalCount == |planned| && m.dummiesAdded == |planned| - |original|
    ensures forall k :: 0 <= k < |m.feesModified| ==> 0 <= m.feesModified[k] < |original|
    ensures forall j, k :: 0 <= j < k < |m.feesModified| ==> m.feesModified[j] != m.feesModified[k]
    ensures m.totalFeesDelta == TotalFees(planned) - TotalFees(original) >= 0
    ensures m.groupIdChanged ==>
      |planned| > |original| || m.feesModified != [] || exists i :: 0 <= i < |original| && original[i].group == []
  {
    FeeConservation(c, original, planned, Some(m));
  }

  predicate FeesMoved(original: seq<Txn>, planned: seq<Txn>)
    requires |original| <= |planned|
  {
    exists i :: 0 <= i < |original| && planned[i].fee != original[i].fee
  }

  predicate GroupIdMoved(original: seq<Txn>, planned: seq<Txn>)
    requires |original| <= |planned|
  {
    exists i :: 0 <= i < |original| && GroupId(planned[i]) != GroupId(original[i])
  }

  lemma NoReportNoChange(c: Codec, original: seq<Txn>, planned: seq<Txn>)
    requires Acceptable(c, original, planned, None)
    ensures planned == original
  {
    forall i | 0 <= i < |planned| ensures planned[i] == original[i] {
      assert Permitted(original[i], planned[i], false, false);
    }
  }

  /**
   For an already valid original, an accepted canonical plan replaces the group ID
   exactly when it holds at least two transactions and changed a fee or the membership;
   it must then have said so.
   */
  lemma GroupIdTruthful(c: Codec, original: seq<Txn>, planned: seq<Txn>, report: Option<MutationReport>)
    requires c.HashInjective()
    requires ValidlyGrouped(c, original) && ValidlyGrouped(c, planned)
    requires Acceptable(c, original, planned, report)
    ensures GroupIdMoved(original, planned) <==>
      |planned| >= 2 && (FeesMoved(original, planned) || |planned| > |original|)
    ensures |planned| >= 2 && (FeesMoved(original, planned) || |planned| > |original|) ==> GroupIdReported(report)
  {
    if |original| == 1 {
      assert GroupId(original[0]) == [];
      assert |planned| >= 2 ==> GroupId(planned[0]) != [];
    } else if !FeesMoved(original, planned) && |planned| == |original| {
      assert Cleared(planned) == Cleared(original) by {
        forall i | 0 <= i < |original| ensures Cleared(planned)[i] == Cleared(original)[i] {
          assert Permitted(original[i], planned[i], GroupIdReported(report), i in FeePositions(report));
        }
      }
    } else if planned[0].group == original[0].group {
      assert Cleared(planned) == Cleared(original);
      forall i | 0 <= i < |original| ensures planned[i].fee == original[i].fee {
        assert Cleared(planned)[i].fee == planned[i].fee;
        assert Cleared(original)[i].fee == original[i].fee;
      }
      assert false;
    }
    assert |planned| >= 2 && |original| >= 2 && planned[0].group != original[0].group ==> GroupIdMoved(original, planned);
    if GroupIdMoved(original, planned) {
      var i :| 0 <= i < |original| && GroupId(planned[i]) != GroupId(original[i]);
      assert Permitted(original[i], planned[i], GroupIdReported(report), i in FeePositions(report));
    }
  }

  /** The bound of two is needed: a lone transaction's fee may rise with no new group ID to report. */
  lemma SingletonFeeNeedsNoGroupId(c: Codec, t: Txn)
    requires c.Lawful() && t.group == []
    ensures
      var raised := t.(fee := t.fee + 1);
      var report := Some(MutationReport(1, 1, 0, false, [0], 1));
      ValidlyGrouped(c, [t]) && ValidlyGrouped(c, [raised]) && Acceptable(c, [t], [raised], report)
  {
    var raised := t.(fee := t.fee + 1);
    assert TotalFees([t]) == TotalFees([]) + t.fee;
    assert TotalFees([raised]) == TotalFees([]) + raised.fee;
    assert 0 in FeePositions(Some(MutationReport(1, 1, 0, false, [0], 1)));
  }
}
