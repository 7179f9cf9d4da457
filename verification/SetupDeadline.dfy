/**
 * The pausable deadline of an enrolment's connection set-up. Every section under the set-up
 * lock is one step; the timer's threads, the operator's prompt and the clock interleave freely.
 */
module SetupDeadline {
  import opened Basics

  datatype Phase = Dialing | Dialed | Connecting | Complete | Failed

  /**
   * `due` is when the armed timer fires, `fired` how many timer threads have yet to take the
   * lock, `paused` what pausing returned to a prompt that is still open, and `closed` whether
   * an expiry closed the socket. `spent` is the time that has passed outside prompts, and
   * `spentAt` its value when set-up completed.
   */
  datatype State = State(
    timeout: real,
    now: real,
    deadline: real,
    phase: Phase,
    due: Option<real>,
    fired: nat,
    paused: Option<real>,
    timedOut: bool,
    closed: bool,
    spent: real,
    spentAt: Option<real>)

  /** `lag` is how much later than computed a timer is started. */
  datatype Step =
    | Tick(duration: real)
    | Dial
    | Arm(lag: real)
    | Fire
    | Expire
    | Pause
    | Resume(lag: real)
    | Finish
    | CancelTimer
    | Abort

  function Init(timeout: real, now: real): (s: State) {
    State(timeout, now, now + timeout, Dialing, None, 0, None, false, false, 0.0, None)
  }

  predicate Enabled(s: State, step: Step) {
    match step
    case Tick(duration) => duration >= 0.0
    case Dial => s.phase == Dialing
    case Arm(lag) => s.phase == Dialed && lag >= 0.0
    case Fire => s.due.Some? && s.due.value <= s.now
    case Expire => s.fired > 0
    case Pause => s.phase == Connecting && s.paused.None?
    case Resume(lag) => s.paused.Some? && lag >= 0.0
    case Finish => s.phase == Connecting
    case CancelTimer => s.phase == Complete
    case Abort => s.phase != Complete
  }

  predicate Overdue(s: State) {
    s.deadline <= s.now
  }

  function Apply(s: State, step: Step): (r: State)
    requires Enabled(s, step)
  {
    match step
    case Tick(duration) =>
      s.(now := s.now + duration, spent := if s.paused.None? then s.spent + duration else s.spent)
    case Dial => s.(phase := if Overdue(s) then Failed else Dialed)
    case Arm(lag) =>
      if Overdue(s) then s.(phase := Failed) else s.(phase := Connecting, due := Some(s.deadline + lag))
    case Fire => s.(due := None, fired := s.fired + 1)
    case Expire =>
      var awake := s.(fired := s.fired - 1);
      if s.phase == Complete then awake
      else awake.(timedOut := true, closed := s.closed || s.phase != Dialing)
    case Pause => s.(due := None, paused := Some(s.deadline - s.now))
    case Resume(lag) =>
      var awake := s.(paused := None);
      if s.phase == Complete || s.timedOut then awake
      else
        var remaining := if s.paused.value < 0.0 then 0.0 else s.paused.value;
        awake.(deadline := s.now + remaining, due := Some(s.now + remaining + lag))
    case Finish =>
      if s.timedOut || Overdue(s) then s.(phase := Failed)
      else s.(phase := Complete, spentAt := Some(s.spent))
    case CancelTimer => s.(due := None)
    case Abort => s.(phase := Failed)
  }

  function Run(s: State, steps: seq<Step>): (r: Option<State>)
    decreases |steps|
  {
    if steps == [] then Some(s)
    else if Enabled(s, steps[0]) then Run(Apply(s, steps[0]), steps[1..])
    else None
  }

  // ---- What every interleaving keeps ----

  /** `remaining` is what is left of the time outside prompts, or nothing is left. */
  predicate Accounts(s: State, remaining: real) {
    if remaining > 0.0 then s.spent + remaining == s.timeout else s.timeout <= s.spent
  }

  predicate ClockInv(s: State) {
    && (s.paused.None? && (s.due.Some? || (s.phase != Complete && !s.timedOut)) ==>
          Accounts(s, s.deadline - s.now))
    && (s.phase == Dialing || s.phase == Dialed ==>
          s.paused.None? && s.due.None? && s.fired == 0 && !s.timedOut)
    && (s.paused.Some? && !s.timedOut ==> Accounts(s, s.paused.value) && s.deadline - s.now <= s.paused.value)
    && (s.due.Some? ==> s.paused.None? && s.deadline <= s.due.value)
    && (s.fired > 0 || s.timedOut ==> s.timeout <= s.spent)
  }

  predicate OutcomeInv(s: State) {
    && (s.timedOut ==> s.phase != Complete)
    && (s.closed ==> s.timedOut)
    && (s.phase == Complete <==> s.spentAt.Some?)
    && (s.spentAt.Some? ==> s.spentAt.value < s.timeout)
  }

  predicate Inv(s: State) {
    ClockInv(s) && OutcomeInv(s)
  }

  lemma StepKeepsInv(s: State, step: Step)
    requires Inv(s) && Enabled(s, step)
    ensures Inv(Apply(s, step)) && Apply(s, step).timeout == s.timeout
  {
  }

  lemma {:induction false} RunKeepsInv(s: State, steps: seq<Step>)
    requires Inv(s) && Run(s, steps).Some?
    ensures Inv(Run(s, steps).value) && Run(s, steps).value.timeout == s.timeout
    decreases |steps|
  {
    if steps != [] {
      StepKeepsInv(s, steps[0]);
      RunKeepsInv(Apply(s, steps[0]), steps[1..]);
    }
  }

  /**
   * Over every interleaving set-up never both completes and times out, an expiry never closes a
   * completed connection, completion took less than the timeout outside prompts, and a time-out
   * came no sooner than that.
   */
  lemma DeadlineIsSafe(timeout: real, now: real, steps: seq<Step>)
    requires timeout > 0.0 && Run(Init(timeout, now), steps).Some?
    ensures var s := Run(Init(timeout, now), steps).value;
            && !(s.phase == Complete && s.timedOut)
            && !(s.phase == Complete && s.closed)
            && (s.phase == Complete ==> s.spentAt.Some? && s.spentAt.value < timeout)
            && (s.timedOut ==> timeout <= s.spent)
  {
    RunKeepsInv(Init(timeout, now), steps);
  }

  /**
   * Time spent at prompts is not set-up time: with no prompt open, a connection that is ready
   * completes exactly when less than the timeout has passed outside prompts, however many
   * prompts there were and however late the timers ran.
   */
  lemma CompletesExactlyInTime(timeout: real, now: real, steps: seq<Step>)
    requires timeout > 0.0 && Run(Init(timeout, now), steps).Some?
    requires Run(Init(timeout, now), steps).value.phase == Connecting
    requires Run(Init(timeout, now), steps).value.paused.None?
    ensures var s := Run(Init(timeout, now), steps).value;
            Apply(s, Finish).phase == Complete <==> s.spent < timeout
  {
    RunKeepsInv(Init(timeout, now), steps);
  }

  /** A completed connection stays complete and open, whatever timers are still to run. */
  lemma {:induction false} CompletionIsFinal(s: State, steps: seq<Step>)
    requires Inv(s) && s.phase == Complete && Run(s, steps).Some?
    ensures var r := Run(s, steps).value;
            r.phase == Complete && !r.timedOut && !r.closed && r.spentAt == s.spentAt
    decreases |steps|
  {
    if steps != [] {
      StepKeepsInv(s, steps[0]);
      CompletionIsFinal(Apply(s, steps[0]), steps[1..]);
    }
  }

  /** Once nothing is left when a prompt closes, no later step completes the set-up. */
  lemma {:induction false} NothingLeftNeverCompletes(s: State, steps: seq<Step>)
    requires Inv(s) && s.phase != Complete && s.timeout <= s.spent && Run(s, steps).Some?
    ensures Run(s, steps).value.phase != Complete
    decreases |steps|
  {
    if steps != [] {
      StepKeepsInv(s, steps[0]);
      NothingLeftNeverCompletes(Apply(s, steps[0]), steps[1..]);
    }
  }

  // ---- What the timers and prompts bring about -----------------------------

  /** A timer that gets the lock before completion times the set-up out and closes the socket there is. */
  lemma ExpiryTakesEffect(timeout: real, now: real, steps: seq<Step>)
    requires timeout > 0.0 && Run(Init(timeout, now), steps).Some?
    requires Enabled(Run(Init(timeout, now), steps).value, Expire)
    ensures var s := Run(Init(timeout, now), steps).value;
            var s' := Apply(s, Expire);
            if s.phase == Complete then s' == s.(fired := s.fired - 1)
            else s'.timedOut && s'.closed
  {
    RunKeepsInv(Init(timeout, now), steps);
  }

  lemma RunFirst(s: State, step: Step, rest: seq<Step>)
    requires Enabled(s, step)
    ensures Run(s, [step] + rest) == Run(Apply(s, step), rest)
  {
    assert ([step] + rest)[1..] == rest;
  }

  /** Connecting for `before`, then a prompt the operator thinks about, then connecting for `after`. */
  function Prompted(before: real, thinking: real, after: real): (steps: seq<Step>) {
    [Dial] + ([Arm(0.0)] + ([Tick(before)] + ([Pause] + ([Tick(thinking)] +
    ([Resume(0.0)] + ([Tick(after)] + ([Finish] + [])))))))
  }

  /** Where that leads, step by step. */
  lemma PromptedRuns(timeout: real, now: real, before: real, thinking: real, after: real) returns (s6: State)
    requires timeout > 0.0 && before >= 0.0 && thinking >= 0.0 && after >= 0.0
    ensures s6.timeout == timeout && s6.phase == Connecting && s6.paused.None? && !s6.timedOut
    ensures s6.now == now + before + thinking && s6.spent == before
    ensures s6.deadline == s6.now + if before < timeout then timeout - before else 0.0
    ensures Run(Init(timeout, now), Prompted(before, thinking, after)) ==
            Run(s6, [Tick(after)] + ([Finish] + []))
  {
    var s0 := Init(timeout, now);
    var s1 := Apply(s0, Dial);
    var s2 := Apply(s1, Arm(0.0));
    var s3 := Apply(s2, Tick(before));
    var s4 := Apply(s3, Pause);
    var s5 := Apply(s4, Tick(thinking));
    s6 := Apply(s5, Resume(0.0));
    var t6 := [Tick(after)] + ([Finish] + []);
    RunFirst(s5, Resume(0.0), t6);
    RunFirst(s4, Tick(thinking), [Resume(0.0)] + t6);
    RunFirst(s3, Pause, [Tick(thinking)] + ([Resume(0.0)] + t6));
    RunFirst(s2, Tick(before), [Pause] + ([Tick(thinking)] + ([Resume(0.0)] + t6)));
    RunFirst(s1, Arm(0.0), [Tick(before)] + ([Pause] + ([Tick(thinking)] + ([Resume(0.0)] + t6))));
    RunFirst(s0, Dial, [Arm(0.0)] + ([Tick(before)] + ([Pause] + ([Tick(thinking)] + ([Resume(0.0)] + t6)))));
  }

  /** However long the operator thinks, the set-up completes exactly when the rest took less than the timeout. */
  lemma ThinkingIsFree(timeout: real, now: real, before: real, thinking: real, after: real)
    requires timeout > 0.0 && before >= 0.0 && thinking >= 0.0 && after >= 0.0
    ensures var r := Run(Init(timeout, now), Prompted(before, thinking, after));
            && r.Some? && r.value.now == now + before + thinking + after
            && (r.value.phase == Complete <==> before + after < timeout)
            && (r.value.phase == Complete ==> r.value.spentAt == Some(before + after))
  {
    var s6 := PromptedRuns(timeout, now, before, thinking, after);
    var s7 := Apply(s6, Tick(after));
    RunFirst(s6, Tick(after), [Finish] + []);
    RunFirst(s7, Finish, []);
  }

  function Stalled(timeout: real, lag: real): (steps: seq<Step>) {
    [Dial] + ([Arm(lag)] + ([Tick(timeout + lag)] + ([Fire] + ([Expire] + []))))
  }

  /** A connection that stalls is timed out and its socket closed, however late the timer was started. */
  lemma StallTimesOut(timeout: real, now: real, lag: real)
    requires timeout > 0.0 && lag >= 0.0
    ensures var r := Run(Init(timeout, now), Stalled(timeout, lag));
            r.Some? && r.value.timedOut && r.value.closed && r.value.phase != Complete
  {
    var s0 := Init(timeout, now);
    var s1 := Apply(s0, Dial);
    var s2 := Apply(s1, Arm(lag));
    var s3 := Apply(s2, Tick(timeout + lag));
    var s4 := Apply(s3, Fire);
    RunFirst(s4, Expire, []);
    RunFirst(s3, Fire, [Expire] + []);
    RunFirst(s2, Tick(timeout + lag), [Fire] + ([Expire] + []));
    RunFirst(s1, Arm(lag), [Tick(timeout + lag)] + ([Fire] + ([Expire] + [])));
    RunFirst(s0, Dial, [Arm(lag)] + ([Tick(timeout + lag)] + ([Fire] + ([Expire] + []))));
  }

  /** Once completion has cancelled its timer, no further timer fires. */
  lemma {:induction false} CancelledStaysSilent(s: State, steps: seq<Step>)
    requires Inv(s) && s.phase == Complete && s.due.None? && Run(s, steps).Some?
    ensures Run(s, steps).value.due.None? && Run(s, steps).value.fired <= s.fired
    decreases |steps|
  {
    if steps != [] {
      StepKeepsInv(s, steps[0]);
      CancelledStaysSilent(Apply(s, steps[0]), steps[1..]);
    }
  }
}
