/**
 * A request that is cancelled on the signer when its context ends: the requesting goroutine,
 * the watcher goroutine, the `done` channel and the `sync.Once` they share.
 */
module CancelRace {
  import opened Basics

  /** Where the requesting goroutine stands. `failed` is whether the HTTP call returned an error. */
  datatype Main =
    | Building
    | Calling
    | Answered(failed: bool)
    | Checking
    | Cancelling
    | Leaving(failed: bool)
    | Returned(failed: bool)

  datatype Watcher = Waiting | Woken | Notifying | Exited

  datatype Party = Requester | Observer

  datatype Once = Unused | Running(owner: Party) | Used

  /**
   * `called` is whether the HTTP call was made, `endedAt` where the requester stood when the
   * context ended, and `posts` counts the cancels sent.
   */
  datatype State = State(
    approvalBearing: bool,
    main: Main,
    called: bool,
    watcher: Watcher,
    endedAt: Option<Main>,
    done: bool,
    once: Once,
    posts: nat)

  datatype Action =
    | EndContext
    | BuildFails
    | BuildSucceeds
    | CallReturns(failed: bool)
    | CloseDone
    | ReadContextError
    | SkipCancel
    | SeeDone
    | SeeContext
    | Recheck
    | EnterOnce(party: Party)
    | FinishOnce(party: Party)
    | PassOnce(party: Party)
    | Return

  function Init(approvalBearing: bool): (s: State) {
    State(approvalBearing, Building, false, if approvalBearing then Waiting else Exited, None, false, Unused, 0)
  }

  predicate InSendCancel(s: State, p: Party) {
    match p
    case Requester => s.main == Cancelling && s.approvalBearing
    case Observer => s.watcher == Notifying
  }

  function LeaveSendCancel(s: State, p: Party): (r: State) {
    match p
    case Requester => s.(main := Leaving(true))
    case Observer => s.(watcher := Exited)
  }

  function End(s: State): (r: State) {
    if s.endedAt.None? then s.(endedAt := Some(s.main)) else s
  }

  /** Whether the scheduler may take `a` in `s`. */
  predicate Enabled(s: State, a: Action) {
    match a
    case EndContext => s.endedAt.None?
    case BuildFails => s.main == Building
    case BuildSucceeds => s.main == Building
    case CallReturns(_) => s.main == Calling
    case CloseDone => s.main.Answered?
    case ReadContextError => s.main == Checking
    case SkipCancel => s.main == Cancelling && !s.approvalBearing
    case SeeDone => s.watcher == Waiting && s.done
    case SeeContext => s.watcher == Waiting && s.endedAt.Some?
    case Recheck => s.watcher == Woken
    case EnterOnce(p) => InSendCancel(s, p) && s.once == Unused
    case FinishOnce(p) => InSendCancel(s, p) && s.once == Running(p)
    case PassOnce(p) => InSendCancel(s, p) && s.once == Used
    case Return => s.main.Leaving?
  }

  function Apply(s: State, a: Action): (r: State)
    requires Enabled(s, a)
  {
    match a
    case EndContext => End(s)
    case BuildFails => s.(done := true, main := Leaving(true))
    case BuildSucceeds => s.(main := Calling, called := true)
    case CallReturns(failed) => s.(main := Answered(failed))
    case CloseDone => s.(done := true, main := if s.main.failed then Checking else Leaving(false))
    case ReadContextError => s.(main := if s.endedAt.Some? then Cancelling else Leaving(true))
    case SkipCancel => s.(main := Leaving(true))
    case SeeDone => s.(watcher := Exited)
    case SeeContext => s.(watcher := Woken)
    case Recheck => s.(watcher := if s.done then Exited else Notifying)
    case EnterOnce(p) => s.(once := Running(p), posts := s.posts + 1)
    case FinishOnce(p) => LeaveSendCancel(s.(once := Used), p)
    case PassOnce(p) => LeaveSendCancel(s, p)
    // the deferred cancel of the context runs on the way out
    case Return => End(s).(main := Returned(s.main.failed))
  }

  /** The state after the actions, if the scheduler can take them one after the other. */
  function Run(s: State, actions: seq<Action>): (r: Option<State>)
    decreases |actions|
  {
    if actions == [] then Some(s)
    else if Enabled(s, actions[0]) then Run(Apply(s, actions[0]), actions[1..])
    else None
  }

  // ---- What every interleaving keeps ----

  predicate Late(m: Main) {
    m.Cancelling? || m.Leaving? || m.Returned?
  }

  predicate Failed(m: Main) {
    match m
    case Answered(failed) => failed
    case Leaving(failed) => failed
    case Returned(failed) => failed
    case Checking => true
    case Cancelling => true
    case _ => false
  }

  /** The context ended while that could still make this call send a cancel. */
  predicate EndedInTime(s: State) {
    s.endedAt.Some? && !Late(s.endedAt.value)
  }

  predicate OnceInv(s: State) {
    && s.posts == (if s.once == Unused then 0 else 1)
    && (s.once.Running? ==> InSendCancel(s, s.once.owner))
    && (s.once != Unused ==> s.approvalBearing && EndedInTime(s))
  }

  predicate WatcherInv(s: State) {
    && (!s.approvalBearing ==> s.watcher == Exited)
    && (s.watcher == Woken ==> s.endedAt.Some? && (s.done || EndedInTime(s)))
    && (s.watcher == Notifying ==> EndedInTime(s))
  }

  predicate MainInv(s: State) {
    && (s.done <==> s.main.Checking? || Late(s.main))
    && (s.main == Building ==> !s.called)
    && (s.main.Calling? || s.main.Answered? || s.main.Checking? ==> s.called)
    && (s.main == Cancelling ==> EndedInTime(s))
    && (s.main.Returned? ==> s.endedAt.Some?)
    // by the time it leaves, a call that failed with the context ended has its cancel behind it
    && (s.called && s.approvalBearing && EndedInTime(s) && Late(s.main) && !s.main.Cancelling? && Failed(s.main) ==>
          s.once == Used)
  }

  /** The requester only moves on from the point at which the context ended. */
  predicate HistoryInv(s: State) {
    match s.endedAt
    case None => true
    case Some(Building) => true
    case Some(Calling) => s.called && s.main != Building
    case Some(Answered(failed)) =>
      s.called && !s.main.Building? && !s.main.Calling? && failed == Failed(s.main)
    case Some(Checking) => s.called && (s.main.Checking? || Late(s.main)) && Failed(s.main)
    case Some(_) => Late(s.main)
  }

  predicate Inv(s: State) {
    OnceInv(s) && WatcherInv(s) && MainInv(s) && HistoryInv(s)
  }

  lemma StepKeepsInv(s: State, a: Action)
    requires Inv(s) && Enabled(s, a)
    ensures Inv(Apply(s, a))
  {
  }

  lemma {:induction false} RunKeepsInv(s: State, actions: seq<Action>)
    requires Inv(s)
    ensures Run(s, actions).Some? ==>
              Inv(Run(s, actions).value) && Run(s, actions).value.approvalBearing == s.approvalBearing
    decreases |actions|
  {
    if actions != [] && Enabled(s, actions[0]) {
      StepKeepsInv(s, actions[0]);
      RunKeepsInv(Apply(s, actions[0]), actions[1..]);
    }
  }

  /**
   * Every interleaving, at every moment: at most one cancel; none for a call that needs no
   * approval; none unless the context ended before `done` was closed, or before the error of a
   * failed call was looked at. A call that was made, failed and has returned sent its cancel
   * exactly when the context ended in that time.
   */
  lemma AtMostOneCancel(approvalBearing: bool, actions: seq<Action>)
    requires Run(Init(approvalBearing), actions).Some?
    ensures var s := Run(Init(approvalBearing), actions).value;
            && s.posts <= 1
            && (s.posts == 1 ==> approvalBearing && EndedInTime(s))
            && (s.posts == 1 && s.endedAt == Some(Checking) ==> Failed(s.main))
            && (approvalBearing && s.called && s.main == Returned(true) ==> (s.posts == 1 <==> EndedInTime(s)))
  {
    RunKeepsInv(Init(approvalBearing), actions);
  }

  // ---- Exactly when a cancel can follow ----

  predicate CancelsAt(approvalBearing: bool, actions: seq<Action>, point: Main, failed: bool) {
    var r := Run(Init(approvalBearing), actions);
    && r.Some? && r.value.main == Returned(failed) && r.value.called
    && r.value.endedAt == Some(point) && r.value.posts == 1
  }

  /** How a run goes on from `point` if the call ends with `failed`. */
  predicate Consistent(point: Main, failed: bool) {
    (point.Answered? ==> point.failed == failed) && (point.Checking? ==> failed)
  }

  lemma {:induction false} RunSplits(s: State, first: seq<Action>, rest: seq<Action>)
    ensures Run(s, first + rest) ==
            if Run(s, first).Some? then Run(Run(s, first).value, rest) else None
    decreases |first|
  {
    if first == [] {
      assert first + rest == rest;
    } else {
      assert (first + rest)[1..] == first[1..] + rest;
      if Enabled(s, first[0]) {
        RunSplits(Apply(s, first[0]), first[1..], rest);
      }
    }
  }

  const WatcherCancels := [EndContext, SeeContext, Recheck, EnterOnce(Observer), FinishOnce(Observer)]

  /** The context ends before `done` is closed and the watcher gets to act before anything else. */
  lemma WatcherWins(s: State)
    requires s.approvalBearing && s.watcher == Waiting && !s.done && s.once == Unused && s.endedAt.None?
    ensures Run(s, WatcherCancels) ==
            Some(s.(watcher := Exited, endedAt := Some(s.main), once := Used, posts := s.posts + 1))
  {
    var s1 := Apply(s, EndContext);
    var s2 := Apply(s1, SeeContext);
    var s3 := Apply(s2, Recheck);
    var s4 := Apply(s3, EnterOnce(Observer));
    var s5 := Apply(s4, FinishOnce(Observer));
    assert Run(s5, []) == Some(s5);
    assert Run(s4, [FinishOnce(Observer)]) == Some(s5);
    assert WatcherCancels[3..] == [EnterOnce(Observer), FinishOnce(Observer)];
    assert Run(s3, WatcherCancels[3..]) == Some(s5);
    assert WatcherCancels[2..][1..] == WatcherCancels[3..];
    assert Run(s2, WatcherCancels[2..]) == Some(s5);
    assert WatcherCancels[1..][1..] == WatcherCancels[2..];
    assert Run(s1, WatcherCancels[1..]) == Some(s5);
  }

  function Finish(failed: bool): (r: seq<Action>) {
    if failed then [CloseDone, ReadContextError, PassOnce(Requester), Return] else [CloseDone, Return]
  }

  lemma FinishRuns(s: State)
    requires s.approvalBearing && s.main.Answered? && s.once == Used && s.endedAt.Some?
    ensures Run(s, Finish(s.main.failed)) == Some(s.(main := Returned(s.main.failed), done := true))
  {
    var f := Finish(s.main.failed);
    var s1 := Apply(s, CloseDone);
    if s.main.failed {
      var s2 := Apply(s1, ReadContextError);
      var s3 := Apply(s2, PassOnce(Requester));
      var s4 := Apply(s3, Return);
      assert Run(s4, []) == Some(s4);
      assert Run(s3, [Return]) == Some(s4);
      assert f[1..][1..] == [PassOnce(Requester), Return];
      assert Run(s2, f[1..][1..]) == Some(s4);
      assert Run(s1, f[1..]) == Some(s4);
    } else {
      var s2 := Apply(s1, Return);
      assert Run(s2, []) == Some(s2);
      assert Run(s1, [Return]) == Some(s2);
    }
  }

  /** The requester reaches `point` while the context lives. */
  function Reach(point: Main): (r: seq<Action>) {
    match point
    case Building => []
    case Calling => [BuildSucceeds]
    case Answered(failed) => [BuildSucceeds, CallReturns(failed)]
    case _ => [BuildSucceeds, CallReturns(true), CloseDone]
  }

  lemma ReachRuns(point: Main)
    requires !Late(point)
    ensures Run(Init(true), Reach(point)) ==
            Some(Init(true).(main := point, called := !point.Building?, done := point.Checking?))
  {
    var s0 := Init(true);
    var s1 := Apply(s0, BuildSucceeds);
    assert Run(s1, []) == Some(s1);
    var failed := point.Answered? ==> point.failed;
    var s2 := Apply(s1, CallReturns(failed));
    assert Run(s2, []) == Some(s2);
    assert Run(s1, [CallReturns(failed)]) == Some(s2);
    if point.Checking? {
      var s3 := Apply(s2, CloseDone);
      assert Run(s3, []) == Some(s3);
      assert Run(s2, [CloseDone]) == Some(s3);
      assert Reach(point)[1..][1..] == [CloseDone];
      assert Run(s1, Reach(point)[1..]) == Some(s3);
    }
  }

  /** From `point`, the rest of the way to the reply. */
  function ToAnswer(point: Main, failed: bool): (r: seq<Action>) {
    match point
    case Building => [BuildSucceeds, CallReturns(failed)]
    case Calling => [CallReturns(failed)]
    case _ => []
  }

  lemma ToAnswerRuns(s: State, failed: bool)
    requires s.main.Building? || s.main.Calling? || s.main == Answered(failed)
    ensures Run(s, ToAnswer(s.main, failed)) == Some(s.(main := Answered(failed), called := s.called || s.main.Building?))
  {
    if s.main.Building? {
      var s1 := Apply(s, BuildSucceeds);
      var s2 := Apply(s1, CallReturns(failed));
      assert Run(s2, []) == Some(s2);
      assert Run(s1, [CallReturns(failed)]) == Some(s2);
    } else if s.main.Calling? {
      var s1 := Apply(s, CallReturns(failed));
      assert Run(s1, []) == Some(s1);
    }
  }

  const RequesterCancels := [EndContext, ReadContextError, EnterOnce(Requester), FinishOnce(Requester), Return]

  lemma RequesterCancelsRuns(s: State)
    requires s.approvalBearing && s.main.Checking? && s.once == Unused && s.endedAt.None?
    ensures Run(s, RequesterCancels) ==
            Some(s.(main := Returned(true), endedAt := Some(Checking), once := Used, posts := s.posts + 1))
  {
    var s1 := Apply(s, EndContext);
    var s2 := Apply(s1, ReadContextError);
    var s3 := Apply(s2, EnterOnce(Requester));
    var s4 := Apply(s3, FinishOnce(Requester));
    var s5 := Apply(s4, Return);
    var f := RequesterCancels;
    assert Run(s5, []) == Some(s5);
    assert Run(s4, [Return]) == Some(s5);
    assert f[3..] == [FinishOnce(Requester), Return];
    assert Run(s3, f[3..]) == Some(s5);
    assert f[2..][1..] == f[3..];
    assert Run(s2, f[2..]) == Some(s5);
    assert f[1..][1..] == f[2..];
    assert Run(s1, f[1..]) == Some(s5);
  }

  function Schedule(point: Main, failed: bool): (r: seq<Action>) {
    if point.Checking? then Reach(point) + RequesterCancels
    else Reach(point) + (WatcherCancels + (ToAnswer(point, failed) + Finish(failed)))
  }

  lemma ScheduleCancels(point: Main, failed: bool)
    requires !Late(point) && Consistent(point, failed)
    ensures CancelsAt(true, Schedule(point, failed), point, failed)
  {
    ReachRuns(point);
    var s := Run(Init(true), Reach(point)).value;
    if point.Checking? {
      RunSplits(Init(true), Reach(point), RequesterCancels);
      RequesterCancelsRuns(s);
    } else {
      var rest := ToAnswer(point, failed) + Finish(failed);
      RunSplits(Init(true), Reach(point), WatcherCancels + rest);
      RunSplits(s, WatcherCancels, rest);
      WatcherWins(s);
      var s1 := Run(s, WatcherCancels).value;
      RunSplits(s1, ToAnswer(point, failed), Finish(failed));
      ToAnswerRuns(s1, failed);
      FinishRuns(Run(s1, ToAnswer(point, failed)).value);
    }
  }

  /**
   * Some interleaving ends the context while the requester stands at `point`, returns `failed`
   * and has sent a cancel, exactly when the call is approval-bearing and `point` is not past the
   * closing of `done` (for a failed call, not past the look at the context).
   */
  lemma CancelFollowsExactly(approvalBearing: bool, point: Main, failed: bool)
    ensures (exists actions :: CancelsAt(approvalBearing, actions, point, failed)) <==>
            approvalBearing && !Late(point) && Consistent(point, failed)
  {
    if approvalBearing && !Late(point) && Consistent(point, failed) {
      ScheduleCancels(point, failed);
    }
    forall actions | CancelsAt(approvalBearing, actions, point, failed)
      ensures approvalBearing && !Late(point) && Consistent(point, failed)
    {
      RunKeepsInv(Init(approvalBearing), actions);
    }
  }

  /**
   * So "a context that ends only after the HTTP call returned sends no cancel" is false: between
   * the return of the call and the closing of `done` the watcher still cancels a call that succeeded.
   */
  lemma SpuriousCancel()
    ensures CancelsAt(true, Schedule(Answered(false), false), Answered(false), false)
    ensures Schedule(Answered(false), false) ==
            [BuildSucceeds, CallReturns(false), EndContext, SeeContext, Recheck,
             EnterOnce(Observer), FinishOnce(Observer), CloseDone, Return]
  {
    ScheduleCancels(Answered(false), false);
  }

  // ---- Both goroutines finish ----

  function MainRank(m: Main): (r: nat) {
    match m
    case Building => 6
    case Calling => 5
    case Answered(_) => 4
    case Checking => 3
    case Cancelling => 2
    case Leaving(_) => 1
    case Returned(_) => 0
  }

  function WatcherRank(w: Watcher): (r: nat) {
    match w
    case Waiting => 3
    case Woken => 2
    case Notifying => 1
    case Exited => 0
  }

  function Rank(s: State): (r: nat) {
    2 * (MainRank(s.main) + WatcherRank(s.watcher)) + (if s.once == Unused then 1 else 0)
    + (if s.endedAt.None? then 1 else 0)
  }

  lemma StepDescends(s: State, a: Action)
    requires Enabled(s, a)
    ensures Rank(Apply(s, a)) < Rank(s)
  {
  }

  /** No run takes more than twenty steps. */
  lemma {:induction false} RunsAreShort(s: State, actions: seq<Action>)
    requires Run(s, actions).Some?
    ensures |actions| + Rank(Run(s, actions).value) <= Rank(s)
    decreases |actions|
  {
    if actions != [] {
      StepDescends(s, actions[0]);
      RunsAreShort(Apply(s, actions[0]), actions[1..]);
    }
  }

  predicate Finished(s: State) {
    s.main.Returned? && s.watcher == Exited
  }

  /** A goroutine can always move until both are through: neither deadlocks and the watcher never leaks. */
  lemma NeverStuck(approvalBearing: bool, actions: seq<Action>)
    requires Run(Init(approvalBearing), actions).Some?
    ensures var s := Run(Init(approvalBearing), actions).value;
            Finished(s) <==> forall a :: Enabled(s, a) ==> a == EndContext
    ensures |actions| <= 20
  {
    RunKeepsInv(Init(approvalBearing), actions);
    RunsAreShort(Init(approvalBearing), actions);
    var s := Run(Init(approvalBearing), actions).value;
    if !Finished(s) {
      MoveFor(s);
    }
  }

  lemma MoveFor(s: State)
    requires Inv(s) && !Finished(s)
    ensures exists a :: Enabled(s, a) && a != EndContext
  {
    var party := if s.main.Cancelling? then Requester else Observer;
    var stepInside :=
      if s.once == Unused then EnterOnce(party)
      else if s.once == Used then PassOnce(party)
      else FinishOnce(s.once.owner);
    var step :=
      match s.main
      case Building => BuildFails
      case Calling => CallReturns(false)
      case Answered(_) => CloseDone
      case Checking => ReadContextError
      case Cancelling => if s.approvalBearing then stepInside else SkipCancel
      case Leaving(_) => Return
      case Returned(_) =>
        (match s.watcher
         case Waiting => SeeDone
         case Woken => Recheck
         case _ => stepInside);
    assert Enabled(s, step);
  }
}
