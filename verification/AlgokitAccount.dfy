/**
 * The AlgoKit account: one signing call in flight at a time, guarded by a lock around the
 * current request ID, with cancellation from another thread.
 */
module AlgokitAccount {
  import opened Basics
  import Hex

  // ---- The two sections under the lock ----

  type Slot = Option<string>

  /** Taking the slot: refused while any call, even one with the same ID, holds it. */
  function Take(slot: Slot, id: string): (r: (Slot, bool)) {
    if slot.Some? then (slot, false) else (Some(id), true)
  }

  function Free(slot: Slot, id: string): (r: Slot) {
    if slot == Some(id) then None else slot
  }

  // ---- Threads ----

  /** `Cancelling` remembers the ID read under the lock and the moment of reading. */
  datatype Thread =
    | Idle
    | Drawn(id: string)
    | Signing(id: string)
    | Cancelling(id: string, readAt: nat)

  datatype Cancel = Cancel(id: string, readAt: nat, sentAt: nat)

  /** `past[k]` is the slot before step `k`, `issued` the IDs the factory gave, in order. */
  datatype State = State(
    slot: Slot,
    threads: map<int, Thread>,
    past: seq<Slot>,
    issued: seq<string>,
    cancels: seq<Cancel>)

  datatype Step =
    | Draw(thread: int, id: string)
    | BeginSign(thread: int)
    | EndSign(thread: int)
    | ReadForCancel(thread: int)
    | SendCancel(thread: int)

  const Init := State(None, map[], [], [], [])

  function At(s: State, t: int): (r: Thread) {
    if t in s.threads then s.threads[t] else Idle
  }

  predicate Enabled(s: State, step: Step) {
    var here := At(s, step.thread);
    match step
    case Draw(_, _) => here.Idle?
    case BeginSign(_) => here.Drawn?
    case EndSign(_) => here.Signing?
    case ReadForCancel(_) => here.Idle?
    case SendCancel(_) => here.Cancelling?
  }

  function Move(s: State, t: int, there: Thread, slot: Slot): (r: State) {
    s.(threads := s.threads[t := there], slot := slot, past := s.past + [s.slot])
  }

  function Apply(s: State, step: Step): (r: State)
    requires Enabled(s, step)
  {
    var t := step.thread;
    var here := At(s, t);
    match step
    case Draw(_, id) => Move(s, t, Drawn(id), s.slot).(issued := s.issued + [id])
    case BeginSign(_) =>
      // a refused call raises before its `finally` is in force, so it frees nothing
      var (slot, taken) := Take(s.slot, here.id);
      Move(s, t, if taken then Signing(here.id) else Idle, slot)
    case EndSign(_) => Move(s, t, Idle, Free(s.slot, here.id))
    case ReadForCancel(_) =>
      Move(s, t, if s.slot.None? then Idle else Cancelling(s.slot.value, |s.past|), s.slot)
    case SendCancel(_) =>
      Move(s, t, Idle, s.slot).(cancels := s.cancels + [Cancel(here.id, here.readAt, |s.past|)])
  }

  function Run(s: State, steps: seq<Step>): (r: Option<State>)
    decreases |steps|
  {
    if steps == [] then Some(s)
    else if Enabled(s, steps[0]) then Run(Apply(s, steps[0]), steps[1..])
    else None
  }

  // ---- What every interleaving keeps ----

  ghost predicate OneOwner(s: State) {
    && (forall t :: At(s, t).Signing? ==> s.slot == Some(At(s, t).id))
    && (forall t, u :: At(s, t).Signing? && At(s, u).Signing? ==> t == u)
    && (s.slot.Some? ==> exists t :: At(s, t) == Signing(s.slot.value))
  }

  ghost predicate CancelsRead(s: State) {
    && (forall t :: At(s, t).Cancelling? ==>
          At(s, t).readAt < |s.past| && s.past[At(s, t).readAt] == Some(At(s, t).id))
    && (forall k :: 0 <= k < |s.cancels| ==>
          && s.cancels[k].readAt < s.cancels[k].sentAt < |s.past|
          && s.past[s.cancels[k].readAt] == Some(s.cancels[k].id))
  }

  lemma Elsewhere(s: State, step: Step)
    requires Enabled(s, step)
    ensures forall u :: u != step.thread ==> At(Apply(s, step), u) == At(s, u)
  {
  }

  lemma StepKeepsOwner(s: State, step: Step)
    requires OneOwner(s) && Enabled(s, step)
    ensures OneOwner(Apply(s, step))
  {
    Elsewhere(s, step);
    var s' := Apply(s, step);
    var t := step.thread;
    if s'.slot.Some? {
      if s.slot.Some? {
        var u :| At(s, u) == Signing(s.slot.value);
        assert At(s', u) == Signing(s'.slot.value);
      } else {
        assert At(s', t) == Signing(s'.slot.value);
      }
    }
  }

  lemma StepKeepsCancels(s: State, step: Step)
    requires CancelsRead(s) && Enabled(s, step)
    ensures CancelsRead(Apply(s, step))
  {
    Elsewhere(s, step);
  }

  lemma {:induction false} RunKeeps(s: State, steps: seq<Step>)
    requires OneOwner(s) && CancelsRead(s) && Run(s, steps).Some?
    ensures OneOwner(Run(s, steps).value) && CancelsRead(Run(s, steps).value)
    decreases |steps|
  {
    if steps != [] {
      StepKeepsOwner(s, steps[0]);
      StepKeepsCancels(s, steps[0]);
      RunKeeps(Apply(s, steps[0]), steps[1..]);
    }
  }

  /**
   * For every interleaving and any ID factory, repeats included: at most one call is between
   * begin and end, the slot is taken exactly while one is, and a cancel names an ID that was
   * current when the lock was read.
   */
  lemma SingleInFlight(steps: seq<Step>)
    requires Run(Init, steps).Some?
    ensures var s := Run(Init, steps).value;
            && (forall t, u :: At(s, t).Signing? && At(s, u).Signing? ==> t == u)
            && (s.slot.Some? <==> exists t :: At(s, t).Signing?)
            && (forall t :: At(s, t).Signing? ==> s.slot == Some(At(s, t).id))
            && (forall k :: 0 <= k < |s.cancels| ==>
                  && s.cancels[k].readAt < s.cancels[k].sentAt < |s.past|
                  && s.past[s.cancels[k].readAt] == Some(s.cancels[k].id))
  {
    RunKeeps(Init, steps);
  }

  /**
   * The slot changes hands only through its owner: a refused begin leaves it as it was, the
   * owner's exit always frees it, and nothing else touches it.
   */
  lemma OnlyOwnerFrees(steps: seq<Step>, step: Step)
    requires Run(Init, steps).Some? && Enabled(Run(Init, steps).value, step)
    ensures var s := Run(Init, steps).value;
            var s' := Apply(s, step);
            && (step.EndSign? ==> s.slot.Some? && s'.slot.None?)
            && (step.BeginSign? && s.slot.Some? ==> s'.slot == s.slot && At(s', step.thread).Idle?)
            && (step.BeginSign? && s.slot.None? ==>
                  s'.slot == Some(At(s, step.thread).id) && At(s', step.thread).Signing?)
            && (!step.EndSign? && !step.BeginSign? ==> s'.slot == s.slot)
  {
    RunKeeps(Init, steps);
  }

  // ---- With a factory that never repeats ----

  predicate Holds(th: Thread, id: string) {
    (th.Drawn? || th.Signing?) && th.id == id
  }

  ghost predicate Unrepeated(s: State) {
    && (forall t :: At(s, t).Drawn? || At(s, t).Signing? || At(s, t).Cancelling? ==> At(s, t).id in s.issued)
    && (forall t, u, id :: Holds(At(s, t), id) && Holds(At(s, u), id) ==> t == u)
    && (forall t, u :: At(s, t).Cancelling? ==> !(At(s, u).Drawn? && At(s, u).id == At(s, t).id))
  }

  lemma StepKeepsUnrepeated(s: State, step: Step)
    requires OneOwner(s) && Unrepeated(s) && Enabled(s, step)
    requires step.Draw? ==> step.id !in s.issued
    ensures Unrepeated(Apply(s, step))
  {
    Elsewhere(s, step);
    var s' := Apply(s, step);
    assert forall id :: id in s.issued ==> id in s'.issued;
    if step.ReadForCancel? && s.slot.Some? {
      var owner :| At(s, owner) == Signing(s.slot.value);
      assert Holds(At(s, owner), s.slot.value);
      forall u ensures !(At(s', u).Drawn? && At(s', u).id == s.slot.value) {
        assert Holds(At(s, u), s.slot.value) ==> u == owner;
      }
    }
  }

  function IdsDrawn(steps: seq<Step>): (ids: seq<string>) {
    if steps == [] then []
    else (if steps[0].Draw? then [steps[0].id] else []) + IdsDrawn(steps[1..])
  }

  lemma {:induction false} RunKeepsUnrepeated(s: State, steps: seq<Step>)
    requires OneOwner(s) && CancelsRead(s) && Unrepeated(s) && Run(s, steps).Some?
    requires Distinct(s.issued + IdsDrawn(steps))
    ensures OneOwner(Run(s, steps).value) && Unrepeated(Run(s, steps).value)
    decreases |steps|
  {
    if steps != [] {
      var all := s.issued + IdsDrawn(steps);
      var s' := Apply(s, steps[0]);
      assert s'.issued + IdsDrawn(steps[1..]) == all;
      if steps[0].Draw? {
        assert all[|s.issued|] == steps[0].id;
        forall k | 0 <= k < |s.issued| ensures s.issued[k] != steps[0].id {
          assert all[k] == s.issued[k];
        }
      }
      StepKeepsOwner(s, steps[0]);
      StepKeepsCancels(s, steps[0]);
      StepKeepsUnrepeated(s, steps[0]);
      RunKeepsUnrepeated(s', steps[1..]);
    }
  }

  /**
   * When the factory never repeats an ID, a cancel about to be sent names the call in flight or
   * one that is over: no call that has drawn its ID and has yet to begin can be hit by it.
   */
  lemma CancelHitsNoOther(steps: seq<Step>, canceller: int, other: int)
    requires Run(Init, steps).Some? && Distinct(IdsDrawn(steps))
    requires At(Run(Init, steps).value, canceller).Cancelling?
    ensures var s := Run(Init, steps).value;
            var id := At(s, canceller).id;
            Holds(At(s, other), id) ==> At(s, other).Signing? && s.slot == Some(id)
  {
    assert Init.issued + IdsDrawn(steps) == IdsDrawn(steps);
    RunKeepsUnrepeated(Init, steps);
  }

  // ---- With any factory ----

  /** A cancel about to be sent names the ID that a call has drawn and not yet begun with. */
  ghost predicate AboutToHit(s: State) {
    exists canceller, other :: At(s, canceller).Cancelling? && At(s, other) == Drawn(At(s, canceller).id)
  }

  /** Some run that draws its IDs from the front of `ids` gets there. */
  ghost predicate CanHit(ids: seq<string>) {
    exists steps :: HitsWith(steps, ids)
  }

  ghost predicate HitsWith(steps: seq<Step>, ids: seq<string>) {
    IdsDrawn(steps) <= ids && Run(Init, steps).Some? && AboutToHit(Run(Init, steps).value)
  }

  lemma {:induction false} RunSplits(s: State, first: seq<Step>, rest: seq<Step>)
    ensures Run(s, first + rest) == if Run(s, first).Some? then Run(Run(s, first).value, rest) else None
    ensures IdsDrawn(first + rest) == IdsDrawn(first) + IdsDrawn(rest)
    decreases |first|
  {
    if first == [] {
      assert first + rest == rest;
    } else {
      assert (first + rest)[1..] == first[1..] + rest;
      if Enabled(s, first[0]) {
        RunSplits(Apply(s, first[0]), first[1..], rest);
      } else {
        RunSplits(s, first[1..], rest);
      }
    }
  }

  lemma RunOne(s: State, step: Step)
    requires Enabled(s, step)
    ensures Run(s, [step]) == Some(Apply(s, step))
    ensures IdsDrawn([step]) == if step.Draw? then [step.id] else []
  {
    assert [step][1..] == [];
    assert Run(Apply(s, step), []) == Some(Apply(s, step));
  }

  /** Nothing is in flight, and thread 1 has nothing to do. */
  predicate Quiet(s: State) {
    s.slot.None? && At(s, 1).Idle?
  }

  /** Thread 1 makes a whole call with every ID, one after the other. */
  function UseUp(ids: seq<string>): (steps: seq<Step>) {
    if ids == [] then [] else [Draw(1, ids[0])] + ([BeginSign(1)] + ([EndSign(1)] + UseUp(ids[1..])))
  }

  lemma {:induction false} UseUpRuns(s: State, ids: seq<string>) returns (r: State)
    requires Quiet(s)
    ensures Run(s, UseUp(ids)) == Some(r) && Quiet(r) && At(r, 2) == At(s, 2)
    ensures IdsDrawn(UseUp(ids)) == ids
    decreases |ids|
  {
    if ids == [] {
      r := s;
    } else {
      var s1 := Apply(s, Draw(1, ids[0]));
      var s2 := Apply(s1, BeginSign(1));
      var s3 := Apply(s2, EndSign(1));
      r := UseUpRuns(s3, ids[1..]);
      var rest := UseUp(ids[1..]);
      RunOne(s, Draw(1, ids[0]));
      RunOne(s1, BeginSign(1));
      RunOne(s2, EndSign(1));
      RunSplits(s, [Draw(1, ids[0])], [BeginSign(1)] + ([EndSign(1)] + rest));
      RunSplits(s1, [BeginSign(1)], [EndSign(1)] + rest);
      RunSplits(s2, [EndSign(1)], rest);
    }
  }

  /** Thread 1 is signing with `id` when thread 2 reads it for a cancel; then the call ends. */
  function ReadDuring(id: string): (steps: seq<Step>) {
    [Draw(1, id)] + ([BeginSign(1)] + ([ReadForCancel(2)] + [EndSign(1)]))
  }

  lemma ReadDuringRuns(s: State, id: string) returns (r: State)
    requires Quiet(s) && At(s, 2).Idle?
    ensures Run(s, ReadDuring(id)) == Some(r) && Quiet(r) && At(r, 2).Cancelling? && At(r, 2).id == id
    ensures IdsDrawn(ReadDuring(id)) == [id]
  {
    var s1 := Apply(s, Draw(1, id));
    var s2 := Apply(s1, BeginSign(1));
    var s3 := Apply(s2, ReadForCancel(2));
    r := Apply(s3, EndSign(1));
    RunOne(s, Draw(1, id));
    RunOne(s1, BeginSign(1));
    RunOne(s2, ReadForCancel(2));
    RunOne(s3, EndSign(1));
    RunSplits(s, [Draw(1, id)], [BeginSign(1)] + ([ReadForCancel(2)] + [EndSign(1)]));
    RunSplits(s1, [BeginSign(1)], [ReadForCancel(2)] + [EndSign(1)]);
    RunSplits(s2, [ReadForCancel(2)], [EndSign(1)]);
  }

  /** Calls with `before`, one during which its ID is read, calls with `between`, and that ID drawn again. */
  function HitSchedule(before: seq<string>, id: string, between: seq<string>): (steps: seq<Step>) {
    UseUp(before) + (ReadDuring(id) + (UseUp(between) + [Draw(1, id)]))
  }

  lemma HitScheduleRuns(before: seq<string>, id: string, between: seq<string>)
    ensures var r := Run(Init, HitSchedule(before, id, between));
            r.Some? && At(r.value, 2).Cancelling? && At(r.value, 1) == Drawn(At(r.value, 2).id)
  {
    var s1 := UseUpRuns(Init, before);
    var s2 := ReadDuringRuns(s1, id);
    var s3 := UseUpRuns(s2, between);
    RunOne(s3, Draw(1, id));
    var tail := UseUp(between) + [Draw(1, id)];
    RunSplits(Init, UseUp(before), ReadDuring(id) + tail);
    RunSplits(s1, ReadDuring(id), tail);
    RunSplits(s2, UseUp(between), [Draw(1, id)]);
  }

  lemma HitScheduleDraws(before: seq<string>, id: string, between: seq<string>)
    ensures IdsDrawn(HitSchedule(before, id, between)) == before + ([id] + (between + [id]))
  {
    var s := Init;
    var s1 := UseUpRuns(s, before);
    var s2 := ReadDuringRuns(s1, id);
    var s3 := UseUpRuns(s2, between);
    RunOne(s3, Draw(1, id));
    var tail := UseUp(between) + [Draw(1, id)];
    RunSplits(s, UseUp(between), [Draw(1, id)]);
    RunSplits(s, ReadDuring(id), tail);
    RunSplits(s, UseUp(before), ReadDuring(id) + tail);
  }

  lemma RepeatedIdCanBeHit(ids: seq<string>, i: nat, j: nat)
    requires i < j < |ids| && ids[i] == ids[j]
    ensures CanHit(ids)
  {
    var before, id, between := ids[..i], ids[i], ids[i + 1..j];
    HitScheduleRuns(before, id, between);
    HitScheduleDraws(before, id, between);
    assert before + ([id] + (between + [id])) == ids[..j + 1];
    assert HitsWith(HitSchedule(before, id, between), ids);
  }

  lemma UnrepeatedIsNotHit(steps: seq<Step>, ids: seq<string>)
    requires Distinct(ids)
    ensures !HitsWith(steps, ids)
  {
    if IdsDrawn(steps) <= ids && Run(Init, steps).Some? {
      assert Init.issued + IdsDrawn(steps) == IdsDrawn(steps);
      RunKeepsUnrepeated(Init, steps);
    }
  }

  /** A late cancel can hit the next call exactly when the factory's IDs repeat, whatever they are. */
  lemma HitExactlyIfRepeated(ids: seq<string>)
    ensures CanHit(ids) <==> !Distinct(ids)
  {
    if Distinct(ids) {
      forall steps ensures !HitsWith(steps, ids) {
        UnrepeatedIsNotHit(steps, ids);
      }
    } else {
      var i, j :| 0 <= i < j < |ids| && ids[i] == ids[j];
      RepeatedIdCanBeHit(ids, i, j);
    }
  }

  // ---- The account object ----

  datatype Txn = Txn(sender: string, body: Bytes)

  datatype Request = Request(txnHex: string, sender: string, auth: string, args: map<string, string>)

  datatype Reply =
    | Raised
    | Replied(signed: seq<string>, groupIdChanged: bool, dummiesAdded: int)

  datatype Error =
    | InFlight
    | OutOfRange(index: int)
    | NoTransaction(index: int)
    | Unencodable(index: int)
    | RequestFailed
    | Regrouped
    | WrongCount
    | BadHex

  datatype Settings = Settings(
    auth: string,
    args: map<string, Bytes>,
    encode: Txn -> Option<Bytes>)

  /** Every listed position holds a transaction that can be encoded. */
  predicate Buildable(c: Settings, group: seq<Option<Txn>>, indexes: seq<int>) {
    forall k :: 0 <= k < |indexes| ==>
      && 0 <= indexes[k] < |group|
      && group[indexes[k]].Some? && c.encode(group[indexes[k]].value).Some?
  }

  predicate Asks(c: Settings, group: seq<Option<Txn>>, index: int, r: Request) {
    && 0 <= index < |group| && group[index].Some?
    && var txn := group[index].value;
    && c.encode(txn).Some? && r.txnHex == Hex.Encode(c.encode(txn).value)
    && r.sender == txn.sender && r.auth == c.auth
    && r.args.Keys == c.args.Keys
    && forall name :: name in c.args ==> r.args[name] == Hex.Encode(c.args[name])
  }

  /** The reply the composer can use: the same group, one blob per listed position. */
  predicate Usable(reply: Reply, count: nat) {
    && reply.Replied? && !reply.groupIdChanged && reply.dummiesAdded <= 0
    && |reply.signed| == count
    && forall k :: 0 <= k < count ==> Hex.Decode(reply.signed[k], true).Some?
  }

  class Account {
    const settings: Settings
    var current: Slot

    constructor (settings: Settings)
      ensures this.settings == settings && current.None?
    {
      this.settings := settings;
      current := None;
    }

    method Begin(id: string) returns (taken: bool)
      modifies this
      ensures (current, taken) == Take(old(current), id)
    {
      if current.Some? {
        return false;
      }
      current := Some(id);
      return true;
    }

    method End(id: string)
      modifies this
      ensures current == Free(old(current), id)
    {
      if current == Some(id) {
        current := None;
      }
    }

    method BuildRequests(group: seq<Option<Txn>>, indexes: seq<int>)
      returns (r: Result<seq<Request>, Error>)
      ensures r.Success? <==> Buildable(settings, group, indexes)
      ensures r.Success? ==>
                && |r.value| == |indexes|
                && forall k :: 0 <= k < |indexes| ==> Asks(settings, group, indexes[k], r.value[k])
    {
      var requests: seq<Request> := [];
      for i := 0 to |indexes|
        invariant |requests| == i && Buildable(settings, group, indexes[..i])
        invariant forall k :: 0 <= k < i ==> Asks(settings, group, indexes[k], requests[k])
      {
        var index := indexes[i];
        if index < 0 || index >= |group| {
          return Failure(OutOfRange(index));
        }
        if group[index].None? {
          return Failure(NoTransaction(index));
        }
        var txn := group[index].value;
        var encoded := settings.encode(txn);
        if encoded.None? {
          return Failure(Unencodable(index));
        }
        var args := map name | name in settings.args :: Hex.Encode(settings.args[name]);
        requests := requests + [Request(Hex.Encode(encoded.value), txn.sender, settings.auth, args)];
      }
      return Success(requests);
    }

    method ReadReply(reply: Reply, count: nat) returns (r: Result<seq<Bytes>, Error>)
      ensures r.Success? <==> Usable(reply, count)
      ensures r.Success? ==>
                && |r.value| == count
                && forall k :: 0 <= k < count ==> Hex.Decode(reply.signed[k], true) == Some(r.value[k])
      ensures reply.Replied? && (reply.groupIdChanged || reply.dummiesAdded > 0) ==> r == Failure(Regrouped)
    {
      if reply.Raised? {
        return Failure(RequestFailed);
      }
      if reply.groupIdChanged || reply.dummiesAdded > 0 {
        return Failure(Regrouped);
      }
      if |reply.signed| != count {
        return Failure(WrongCount);
      }
      var blobs: seq<Bytes> := [];
      for i := 0 to count
        invariant |blobs| == i
        invariant forall k :: 0 <= k < i ==> Hex.Decode(reply.signed[k], true) == Some(blobs[k])
      {
        var blob := Hex.Decode(reply.signed[i], true);
        if blob.None? {
          return Failure(BadHex);
        }
        blobs := blobs + [blob.value];
      }
      return Success(blobs);
    }

    /**
     * One signing call with nobody interfering. `id` is what the factory gives and `signer` what
     * the client's request comes back with; `sent` is the request that went out, if one did.
     */
    method Sign(group: seq<Option<Txn>>, indexes: seq<int>, id: string, signer: (seq<Request>, string) -> Reply)
      returns (r: Result<seq<Bytes>, Error>, sent: Option<seq<Request>>)
      modifies this
      ensures current == if indexes == [] then old(current) else if old(current).Some? then old(current) else None
      ensures indexes == [] ==> r == Success([]) && sent.None?
      ensures indexes != [] && old(current).Some? ==> r == Failure(InFlight) && sent.None?
      ensures indexes != [] && old(current).None? ==>
                && (sent.Some? <==> Buildable(settings, group, indexes))
                && (r.Success? <==> sent.Some? && Usable(signer(sent.value, id), |indexes|))
      ensures sent.Some? ==>
                && |sent.value| == |indexes|
                && forall k :: 0 <= k < |indexes| ==> Asks(settings, group, indexes[k], sent.value[k])
      ensures r.Success? && indexes != [] ==>
                && |r.value| == |indexes|
                && forall k :: 0 <= k < |indexes| ==>
                     Hex.Decode(signer(sent.value, id).signed[k], true) == Some(r.value[k])
    {
      sent := None;
      if indexes == [] {
        return Success([]), None;
      }
      var taken := Begin(id);
      if !taken {
        return Failure(InFlight), None;
      }
      var requests := BuildRequests(group, indexes);
      if requests.Success? {
        sent := Some(requests.value);
        r := ReadReply(signer(requests.value, id), |indexes|);
      } else {
        r := Failure(requests.error);
      }
      End(id);
    }
  }
}
