/**
 The signer endpoints as the client sees them. A world answers every request with an
 arbitrary value that may depend on everything sent before; a log records each message
 together with its answer.
 */
module Exchange {
  import opened Basics
  import opened Requests
  import Hex
  import Plan

  type Client = int

  /** Answer carries any decoded body; everything else the transport can do is a failure. */
  datatype Reply<+T> = NoConnection | Refused | Answer(body: T)

  datatype PlanReply = PlanReply(transactions: seq<string>, mutations: Option<Plan.MutationReport>)

  datatype Event =
    | Planned(to: Client, entries: seq<SignEntry>, plan: Reply<PlanReply>)
    | Components(to: Client, request: ComponentRequest, components: Reply<ComponentResponse>)
    | Signed(to: Client, requestId: string, entries: seq<SignEntry>, signed: Reply<seq<string>>)
    | Assembled(to: Client, assembly: AssemblyRequest, group: Reply<AssemblyResponse>)
    | Cancelled(to: Client, requestId: string)

  /** A message that a cosigner sees: sent to another client, or asking for cosigner signatures. */
  predicate ForCosigner(user: Client, e: Event) {
    e.to != user || (e.Components? && exists k :: 0 <= k < |e.request.targets| && e.request.targets[k].kind == Cosigner)
  }

  datatype World = World(
    token: seq<Event> -> Bytes,
    plan: (seq<Event>, Client, seq<SignEntry>) -> Reply<PlanReply>,
    components: (seq<Event>, Client, ComponentRequest) -> Reply<ComponentResponse>,
    sign: (seq<Event>, Client, seq<SignEntry>) -> Reply<seq<string>>,
    assemble: (seq<Event>, Client, AssemblyRequest) -> Reply<AssemblyResponse>)
  {
    /** Random tokens have 16 bytes. */
    ghost predicate Lawful() {
      forall past :: |token(past)| == 16
    }
  }

  datatype Error =
    | BadInput         // the caller's arguments were rejected
    | InvalidRequest   // a request failed the client's own check
    | Unreachable      // no answer
    | RefusedBySigner  // an error answer
    | BadReply         // an answer that does not match the request
    | BadPlan          // a plan that is not acceptable
    | NoRoute          // no cosigner for a target
    | Incomplete       // a signature is missing

  // ---- Request identifiers -------------------------------------------------

  function FreshId(token: Bytes): string {
    "sdk-" + Hex.Encode(token)
  }

  function ChosenId(w: World, past: seq<Event>, id: string): string {
    if id == "" then FreshId(w.token(past)) else id
  }

  lemma {:induction false} HexIsIdText(b: Bytes)
    ensures |Hex.Encode(b)| == 2 * |b|
    ensures forall i :: 0 <= i < |Hex.Encode(b)| ==> IdChar(Hex.Encode(b)[i])
  {
    if b != [] {
      HexIsIdText(b[1..]);
      assert forall d :: 0 <= d < 16 ==> IdChar(Hex.Digit(d));
    }
  }

  /** Different random tokens make different identifiers. */
  lemma FreshIdsDiffer(a: Bytes, b: Bytes)
    ensures FreshId(a) == FreshId(b) <==> a == b
  {
    assert FreshId(a)[4..] == Hex.Encode(a) && FreshId(b)[4..] == Hex.Encode(b);
    Hex.RoundTrip(a, false);
    Hex.RoundTrip(b, false);
  }

  lemma ChosenIdOk(w: World, past: seq<Event>, id: string)
    requires w.Lawful() && IdOk(id)
    ensures IdOk(ChosenId(w, past, id)) && ChosenId(w, past, id) != ""
    ensures id != "" ==> ChosenId(w, past, id) == id
  {
    HexIsIdText(w.token(past));
  }

  // ---- Requests left unanswered -------------------------------------------

  /** A request that may be waiting for an operator, to which no answer came. */
  predicate Silent(e: Event) {
    match e
    case Components(_, request, NoConnection) => request.targets != [] && request.targets[0].kind != Cosigner
    case Signed(_, _, _, NoConnection) => true
    case _ => false
  }

  predicate Cancels(cancel: Event, e: Event) {
    match e
    case Components(to, request, _) => cancel == Cancelled(to, request.requestId)
    case Signed(to, requestId, _, _) => cancel == Cancelled(to, requestId)
    case _ => false
  }

  /** Every such request is cancelled at once, under its own identifier and at the same client. */
  predicate Settled(log: seq<Event>) {
    forall k :: 0 <= k < |log| && Silent(log[k]) ==> k + 1 < |log| && Cancels(log[k + 1], log[k])
  }

  lemma SettledConcat(a: seq<Event>, b: seq<Event>)
    requires Settled(a) && Settled(b)
    ensures Settled(a + b)
  {
    var all := a + b;
    forall k | 0 <= k < |all| && Silent(all[k]) ensures k + 1 < |all| && Cancels(all[k + 1], all[k]) {
      if k < |a| {
        assert all[k] == a[k] && all[k + 1] == a[k + 1];
      } else {
        assert all[k] == b[k - |a|] && b[k - |a| + 1] == all[k + 1];
      }
    }
  }

  // ---- Client calls --------------------------------------------------------

  /** The ways a single call can fail. */
  predicate CallError(e: Error) {
    e in {InvalidRequest, Unreachable, RefusedBySigner, BadReply}
  }

  /** The transport failed, or the signer refused, or its answer was not acceptable. */
  predicate Fault<T>(reply: Reply<T>, acceptable: bool, e: Error) {
    match reply
    case NoConnection => e == Unreachable
    case Refused => e == RefusedBySigner
    case Answer(_) => !acceptable && e == BadReply
  }

  /** The reply recorded with a request is why the call failed with `e`. */
  ghost predicate Explains(x: Event, e: Error) {
    match x
    case Planned(_, _, reply) => Fault(reply, true, e)
    case Components(_, request, reply) => Fault(reply, reply.Answer? && Accepted(request, reply.body), e)
    case Signed(_, _, entries, reply) => Fault(reply, reply.Answer? && SignReplyOk(entries, reply.body), e)
    case Assembled(_, request, reply) => Fault(reply, reply.Answer? && AcceptedGroup(request, reply.body), e)
    case Cancelled(_, _) => false
  }

  /** The last message that is not a best-effort cancellation. */
  function LastRequest(log: seq<Event>): Event
    requires log != []
  {
    if |log| >= 2 && log[|log| - 1].Cancelled? then log[|log| - 2] else log[|log| - 1]
  }

  /** A log that ends in a failed call: its last request explains the error. */
  ghost predicate EndsFailed(log: seq<Event>, e: Error) {
    log != [] && !log[0].Cancelled? && Explains(LastRequest(log), e)
  }

  lemma LastRequestConcat(past: seq<Event>, log: seq<Event>)
    requires log != [] && !log[0].Cancelled?
    ensures past + log != [] && LastRequest(past + log) == LastRequest(log)
  {
    var all := past + log;
    assert all[|all| - 1] == log[|log| - 1];
    if |log| >= 2 {
      assert all[|all| - 2] == log[|log| - 2];
    }
  }

  lemma EndsFailedConcat(past: seq<Event>, log: seq<Event>, e: Error)
    requires EndsFailed(log, e) && (past == [] || !past[0].Cancelled?)
    ensures EndsFailed(past + log, e)
  {
    LastRequestConcat(past, log);
    assert (past + log)[0] == (if past == [] then log[0] else past[0]);
  }

  /** The log ends with an assembly answered with `signed`. */
  ghost predicate EndsAssembled(log: seq<Event>, signed: seq<string>) {
    && log != []
    && var last := log[|log| - 1];
    && last.Assembled? && last.group.Answer? && last.group.body.signedGroup == signed
  }

  lemma EndsAssembledConcat(past: seq<Event>, log: seq<Event>, signed: seq<string>)
    requires EndsAssembled(log, signed)
    ensures EndsAssembled(past + log, signed)
  {
    assert (past + log)[|past + log| - 1] == log[|log| - 1];
  }

  method PlanRequests(w: World, past: seq<Event>, to: Client, entries: seq<SignEntry>)
    returns (log: seq<Event>, r: Result<PlanReply, Error>)
    ensures Settled(log)
    ensures r.Failure? ==> CallError(r.error)
    ensures r.Failure? && EntriesOk(entries) ==> EndsFailed(log, r.error)
    ensures EntriesOk(entries) ==> log == [Planned(to, entries, w.plan(past, to, entries))]
    ensures EntriesOk(entries) ==> r != Failure(InvalidRequest)
    ensures !EntriesOk(entries) ==> log == [] && r == Failure(InvalidRequest)
    ensures r.Success? ==> w.plan(past, to, entries) == Answer(r.value)
  {
    var ok := ValidateEntries(entries);
    if !ok {
      return [], Failure(InvalidRequest);
    }
    var reply := w.plan(past, to, entries);
    log := [Planned(to, entries, reply)];
    match reply
    case NoConnection => r := Failure(Unreachable);
    case Refused => r := Failure(RefusedBySigner);
    case Answer(body) => r := Success(body);
  }

  /** What the log gains when a component request is sent. */
  function ComponentLog(w: World, past: seq<Event>, to: Client, request: ComponentRequest): seq<Event>
    requires request.targets != []
  {
    var reply := w.components(past, to, request);
    [Components(to, request, reply)] +
    (if reply.NoConnection? && request.targets[0].kind != Cosigner then [Cancelled(to, request.requestId)] else [])
  }

  /** A reply the client accepts for `request`. */
  ghost predicate Accepted(request: ComponentRequest, r: ComponentResponse) {
    ResponseOk(r) && Answers(r, request) && r.requestId == request.requestId
  }

  method RequestComponents(w: World, past: seq<Event>, to: Client, unnamed: ComponentRequest)
    returns (log: seq<Event>, request: ComponentRequest, r: Result<ComponentResponse, Error>)
    ensures Settled(log)
    ensures r.Failure? ==> CallError(r.error)
    ensures r.Failure? && ComponentRequestOk(request) ==> EndsFailed(log, r.error)
    ensures request == unnamed.(requestId := ChosenId(w, past, unnamed.requestId))
    ensures ComponentRequestOk(request) ==> log == ComponentLog(w, past, to, request) && r != Failure(InvalidRequest)
    ensures !ComponentRequestOk(request) ==> log == [] && r == Failure(InvalidRequest)
    ensures r.Success? ==> w.components(past, to, request) == Answer(r.value) && Accepted(request, r.value)
  {
    request := unnamed.(requestId := ChosenId(w, past, unnamed.requestId));
    var ok := ValidateComponentRequest(request);
    if !ok {
      return [], request, Failure(InvalidRequest);
    }
    var reply := w.components(past, to, request);
    log := ComponentLog(w, past, to, request);
    match reply
    case NoConnection => r := Failure(Unreachable);
    case Refused => r := Failure(RefusedBySigner);
    case Answer(body) =>
      var matches := ValidateResponseFor(body, request);
      r := if matches && body.requestId == request.requestId then Success(body) else Failure(BadReply);
  }

  function SignLog(w: World, past: seq<Event>, to: Client, id: string, entries: seq<SignEntry>): seq<Event> {
    var reply := w.sign(past, to, entries);
    [Signed(to, id, entries, reply)] + (if reply.NoConnection? then [Cancelled(to, id)] else [])
  }

  /** The identifier a `/sign` request goes out under: the caller's own, or a new one. */
  function SignId(w: World, past: seq<Event>, requestId: Option<string>): string {
    if requestId.Some? then requestId.value else FreshId(w.token(past))
  }

  ghost predicate SignRequestOk(id: string, entries: seq<SignEntry>) {
    id != "" && IdOk(id) && EntriesOk(entries)
  }

  lemma FreshSignRequestOk(w: World, past: seq<Event>, entries: seq<SignEntry>)
    requires w.Lawful() && EntriesOk(entries)
    ensures SignRequestOk(SignId(w, past, None), entries)
  {
    ChosenIdOk(w, past, "");
  }

  method SignRequests(w: World, past: seq<Event>, to: Client, entries: seq<SignEntry>, requestId: Option<string>)
    returns (log: seq<Event>, r: Result<seq<string>, Error>)
    ensures Settled(log)
    ensures r.Failure? ==> CallError(r.error)
    ensures
      var id := SignId(w, past, requestId);
      if SignRequestOk(id, entries) then
        && log == SignLog(w, past, to, id, entries)
        && r != Failure(InvalidRequest)
        && (r.Failure? ==> EndsFailed(log, r.error))
      else log == [] && r == Failure(InvalidRequest)
    ensures r.Success? ==> w.sign(past, to, entries) == Answer(r.value) && SignReplyOk(entries, r.value)
    ensures log != [] ==>
      && log[0].Signed? && log[0].to == to && log[0].entries == entries
      && log[0].requestId == if requestId.Some? then requestId.value else FreshId(w.token(past))
  {
    var id := SignId(w, past, requestId);
    if id == "" || !IdOk(id) {
      return [], Failure(InvalidRequest);
    }
    var ok := ValidateEntries(entries);
    if !ok {
      return [], Failure(InvalidRequest);
    }
    var reply := w.sign(past, to, entries);
    log := SignLog(w, past, to, id, entries);
    match reply
    case NoConnection => r := Failure(Unreachable);
    case Refused => r := Failure(RefusedBySigner);
    case Answer(body) =>
      var complete := ValidateSignReply(entries, body);
      r := if complete then Success(body) else Failure(BadReply);
  }

  /** Planning data of passthrough items stays with the client. */
  function Bare(items: seq<PassthroughItem>): (r: seq<PassthroughItem>)
    ensures |r| == |items| && PassthroughIndices(r) == PassthroughIndices(items)
    ensures forall i :: 0 <= i < |r| ==> r[i] == PassthroughItem(items[i].index, items[i].signedHex, None)
  {
    seq(|items|, i requires 0 <= i < |items| => PassthroughItem(items[i].index, items[i].signedHex, None))
  }

  ghost predicate AcceptedGroup(request: AssemblyRequest, r: AssemblyResponse) {
    AssemblyResponseOk(r) && r.requestId == request.requestId
  }

  method RequestAssemble(w: World, past: seq<Event>, to: Client, unnamed: AssemblyRequest)
    returns (log: seq<Event>, request: AssemblyRequest, r: Result<AssemblyResponse, Error>)
    ensures Settled(log)
    ensures r.Failure? ==> CallError(r.error)
    ensures r.Failure? && AssemblyRequestOk(request) ==> EndsFailed(log, r.error)
    ensures request == unnamed.(
                         requestId := ChosenId(w, past, unnamed.requestId),
                         passthrough := Bare(unnamed.passthrough))
    ensures AssemblyRequestOk(request) ==>
      log == [Assembled(to, request, w.assemble(past, to, request))] && r != Failure(InvalidRequest)
    ensures !AssemblyRequestOk(request) ==> log == [] && r == Failure(InvalidRequest)
    ensures r.Success? ==>
      w.assemble(past, to, request) == Answer(r.value) && AcceptedGroup(request, r.value)
  {
    request := unnamed.(
      requestId := ChosenId(w, past, unnamed.requestId),
      passthrough := Bare(unnamed.passthrough));
    var ok := ValidateAssemblyRequest(request);
    if !ok {
      return [], request, Failure(InvalidRequest);
    }
    var reply := w.assemble(past, to, request);
    log := [Assembled(to, request, reply)];
    match reply
    case NoConnection => r := Failure(Unreachable);
    case Refused => r := Failure(RefusedBySigner);
    case Answer(body) =>
      var complete := ValidateAssemblyResponse(body);
      r := if complete && body.requestId == request.requestId then Success(body) else Failure(BadReply);
  }
}
