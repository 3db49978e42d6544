/** The Codex session: requests matched to responses while server requests are answered in between, and turns
    decided by the first decisive message. */
module Session {
  import opened Types
  import opened Json
  import Machine

  /** What `try_wait` says of the child when a stream has closed. */
  datatype ChildStatus = Exited | Alive | WaitFailed

  datatype Incoming =
    | StdoutJson(value: Value)
    | StdoutMalformed(line: string)
    | Stderr(line: string)
    | StreamClosed(status: ChildStatus)

  /** One result of waiting on the inbox. A session reads its polls in order; past the last one the channel is
      closed. */
  datatype Poll = Got(incoming: Incoming) | Elapsed | CancelSeen

  datatype Error =
    | ResponseTimeout
    | PortExit
    | ResponseError
    | ChildError
    | TurnTimeout
    | TurnCancelled
    | TurnFailed
    | TurnInputRequired

  datatype Result<+T> = Ok(value: T) | Err(error: Error)

  datatype Progress = Continue | Completed

  datatype AnswerBody = Approval | ToolResult | InputRequired | Unsupported(name: string)

  /** A line written to the child. */
  datatype Line = Call(id: nat, name: string) | Notice(name: string) | Answer(request: Value, body: AnswerBody)

  /** An update sent to the orchestrator. */
  datatype Emission = Emission(event: string, tokens: Option<Tokens>, turnCount: Option<nat>)

  // ---------------------------------------------------------------- one message

  datatype Kind =
    | ServerRequest(id: Value, name: string)
    | Unanswerable
    | Notification(name: string)
    | Silent

  function Classify(v: Value): Kind {
    var name, id := Get(v, "method"), Get(v, "id");
    if name.Some? && id.Some? then
      if name.value.Str? then ServerRequest(id.value, name.value.s) else Unanswerable
    else if name.Some? && name.value.Str? then Notification(name.value.s)
    else Silent
  }

  predicate AsksUser(name: string) {
    name == "item/tool/requestUserInput" || name == "mcpServer/elicitation/request"
  }

  predicate AsksApproval(name: string) {
    || name == "item/commandExecution/requestApproval" || name == "execCommandApproval"
    || name == "item/fileChange/requestApproval" || name == "applyPatchApproval"
  }

  function BodyFor(name: string): AnswerBody {
    if AsksApproval(name) then Approval
    else if name == "item/tool/call" then ToolResult
    else if AsksUser(name) then InputRequired
    else Unsupported(name)
  }

  /** What a message does to the turn it arrives in. */
  function Effect(kind: Kind): Result<Progress> {
    match kind
    case ServerRequest(_, name) => if AsksUser(name) then Err(TurnInputRequired) else Ok(Continue)
    case Unanswerable => Err(ResponseError)
    case Notification(name) =>
      if name == "turn/completed" then Ok(Completed)
      else if name == "turn/failed" then Err(TurnFailed)
      else if name == "turn/cancelled" then Err(TurnCancelled)
      else Ok(Continue)
    case Silent => Ok(Continue)
  }

  function AnswersTo(kind: Kind): seq<Line> {
    if kind.ServerRequest? then [Answer(kind.id, BodyFor(kind.name))] else []
  }

  /** The updates a message gives rise to. A tool call that is not known is reported without a turn count. */
  function UpdatesFor(v: Value, turnCount: Option<nat>): seq<Emission> {
    var params := Get(v, "params").GetOr(Null);
    match Classify(v)
    case ServerRequest(_, name) =>
      if AsksApproval(name) then [Emission("approval_auto_approved", None, turnCount)]
      else if name == "item/tool/call" then
        if OptStr(Get(params, "tool")) == Some("linear_graphql") then []
        else [Emission("unsupported_tool_call", None, None)]
      else if AsksUser(name) then [Emission("turn_input_required", None, turnCount)]
      else []
    case Notification(name) =>
      if name == "turn/completed" then [Emission("turn_completed", ExtractTokens(params), turnCount)]
      else if name == "turn/failed" then [Emission("turn_failed", ExtractTokens(params), turnCount)]
      else if name == "turn/cancelled" then [Emission("turn_cancelled", None, turnCount)]
      else if name == "thread/tokenUsage/updated" then [Emission("notification", ExtractTokens(params), turnCount)]
      else if name == "account/rateLimits/updated" then [Emission("notification", None, turnCount)]
      else [Emission("other_message", None, turnCount)]
    case _ => []
  }

  function UpdatesOf(incoming: Incoming, turnCount: Option<nat>): seq<Emission> {
    match incoming
    case StdoutJson(v) => UpdatesFor(v, turnCount)
    case StdoutMalformed(_) => [Emission("malformed", None, turnCount)]
    case Stderr(_) => [Emission("notification", None, turnCount)]
    case StreamClosed(_) => []
  }

  /** The orchestrator is sent an event that it shows as an error. */
  predicate HasFailure(updates: seq<Emission>) {
    exists i :: 0 <= i < |updates| && Machine.IsFailureEvent(updates[i].event)
  }

  /** Read for itself, the message is a failure exactly when the orchestrator is sent an event it shows as one. */
  predicate Reported(v: Value, turnCount: Option<nat>) {
    Effect(Classify(v)).Err? <==> HasFailure(UpdatesFor(v, turnCount))
  }

  /** Among messages read for themselves, only those with an id whose method is not a string fail in silence. */
  lemma MessagesAreReportedIff(v: Value, turnCount: Option<nat>)
    ensures |UpdatesFor(v, turnCount)| <= 1
    ensures Reported(v, turnCount) <==> !Classify(v).Unanswerable?
    ensures HasFailure(UpdatesFor(v, turnCount)) ==> Effect(Classify(v)).Err?
  {
    hide ExtractTokens, Classify, Effect, UpdatesFor;
    match Classify(v) {
      case ServerRequest(_, _) => RequestsAreReported(v, turnCount);
      case Notification(_) => NotificationsAreReported(v, turnCount);
      case _ => SilenceIsEmpty(v, turnCount);
    }
  }

  lemma RequestNamesDiffer(name: string)
    ensures AsksUser(name) ==> !AsksApproval(name) && name != "item/tool/call"
  {
  }

  /** Which of the session's events the orchestrator shows as errors. */
  lemma FailureEvents()
    ensures Machine.IsFailureEvent("turn_failed") && Machine.IsFailureEvent("turn_cancelled")
    ensures Machine.IsFailureEvent("turn_input_required")
    ensures !Machine.IsFailureEvent("turn_completed") && !Machine.IsFailureEvent("notification")
    ensures !Machine.IsFailureEvent("other_message") && !Machine.IsFailureEvent("approval_auto_approved")
    ensures !Machine.IsFailureEvent("unsupported_tool_call") && !Machine.IsFailureEvent("malformed")
  {
  }

  lemma RequestsAreReported(v: Value, turnCount: Option<nat>)
    requires Classify(v).ServerRequest?
    ensures |UpdatesFor(v, turnCount)| <= 1 && Reported(v, turnCount)
  {
    hide Classify, AsksUser, AsksApproval, Get, Machine.IsFailureEvent;
    RequestNamesDiffer(Classify(v).name);
    FailureEvents();
    var updates := UpdatesFor(v, turnCount);
    assert AsksUser(Classify(v).name) <==> updates != [] && Machine.IsFailureEvent(updates[0].event);
  }

  lemma NotificationsAreReported(v: Value, turnCount: Option<nat>)
    requires Classify(v).Notification?
    ensures |UpdatesFor(v, turnCount)| <= 1 && Reported(v, turnCount)
  {
    hide ExtractTokens, Classify, Get, Machine.IsFailureEvent;
    FailureEvents();
    var updates := UpdatesFor(v, turnCount);
    assert Effect(Classify(v)).Err? <==> Machine.IsFailureEvent(updates[0].event);
  }

  lemma SilenceIsEmpty(v: Value, turnCount: Option<nat>)
    requires Classify(v).Silent? || Classify(v).Unanswerable?
    ensures UpdatesFor(v, turnCount) == [] && (Effect(Classify(v)).Err? <==> Classify(v).Unanswerable?)
  {
  }

  function PollEffect(incoming: Incoming): Result<Progress> {
    match incoming
    case StdoutJson(v) => Effect(Classify(v))
    case StreamClosed(Exited) => Err(PortExit)
    case StreamClosed(WaitFailed) => Err(ChildError)
    case _ => Ok(Continue)
  }

  // ---------------------------------------------------------------- waiting for a response

  predicate Responds(v: Value, id: nat) {
    OptU64(Get(v, "id")) == Some(id)
  }

  /** What one poll decides for a pending request: `None` to go on. A completion is as good as nothing. */
  function RequestVerdict(p: Poll, id: nat): Option<Result<Value>> {
    match p
    case Elapsed => Some(Err(ResponseTimeout))
    case CancelSeen => None
    case Got(m) =>
      if m.StdoutJson? && Responds(m.value, id) then
        var result := Get(m.value, "result");
        Some(if result.Some? then Ok(result.value) else Err(ResponseError))
      else
        match PollEffect(m)
        case Ok(_) => None
        case Err(e) => Some(Err(e))
  }

  /** What one poll decides for a running turn. */
  function TurnVerdict(p: Poll): Option<Result<()>> {
    match p
    case Elapsed => Some(Err(TurnTimeout))
    case CancelSeen => Some(Err(TurnCancelled))
    case Got(m) =>
      match PollEffect(m)
      case Ok(Continue) => None
      case Ok(Completed) => Some(Ok(()))
      case Err(e) => Some(Err(e))
  }

  /** How many polls a pending request consumes. */
  function RequestSpan(polls: seq<Poll>, id: nat): (n: nat)
    ensures n <= |polls|
  {
    if polls == [] then 0 else if RequestVerdict(polls[0], id).Some? then 1 else 1 + RequestSpan(polls[1..], id)
  }

  function RequestResult(polls: seq<Poll>, id: nat): Result<Value> {
    if polls == [] then Err(PortExit)
    else if RequestVerdict(polls[0], id).Some? then RequestVerdict(polls[0], id).value
    else RequestResult(polls[1..], id)
  }

  function TurnSpan(polls: seq<Poll>): (n: nat)
    ensures n <= |polls|
  {
    if polls == [] then 0 else if TurnVerdict(polls[0]).Some? then 1 else 1 + TurnSpan(polls[1..])
  }

  function TurnResult(polls: seq<Poll>): Result<()> {
    if polls == [] then Err(PortExit)
    else if TurnVerdict(polls[0]).Some? then TurnVerdict(polls[0]).value
    else TurnResult(polls[1..])
  }

  /** The handshake of `start` as a fold: the thread id, if the second response names one. */
  function StartResult(polls: seq<Poll>, id: nat): Result<Option<string>> {
    match RequestResult(polls, id)
    case Err(e) => Err(e)
    case Ok(_) =>
      match RequestResult(polls[RequestSpan(polls, id)..], id + 1)
      case Err(e) => Err(e)
      case Ok(v) => Ok(ExtractString(v, [["thread", "id"], ["threadId"]]))
  }

  function StartRest(polls: seq<Poll>, id: nat): seq<Poll> {
    var rest := polls[RequestSpan(polls, id)..];
    if RequestResult(polls, id).Err? then rest else rest[RequestSpan(rest, id + 1)..]
  }

  /** What the handshake writes: two requests with a notice between them, and its answers. */
  function StartLines(polls: seq<Poll>, id: nat): seq<Line> {
    var rest := polls[RequestSpan(polls, id)..];
    var first := [Call(id, "initialize")] + AnswersIn(polls[..RequestSpan(polls, id)], Some(id));
    if RequestResult(polls, id).Err? then first
    else
      var second := [Call(id + 1, "thread/start")] + AnswersIn(rest[..RequestSpan(rest, id + 1)], Some(id + 1));
      first + [Notice("initialized")] + second
  }

  function StartUpdates(polls: seq<Poll>, id: nat): seq<Emission> {
    var rest := polls[RequestSpan(polls, id)..];
    var first := UpdatesIn(polls[..RequestSpan(polls, id)], Some(id), None);
    if RequestResult(polls, id).Err? then first
    else first + UpdatesIn(rest[..RequestSpan(rest, id + 1)], Some(id + 1), None)
  }

  /** The handshake after what was written and emitted before it, in the order it happens. */
  lemma StartInPieces(polls: seq<Poll>, id: nat, before: seq<Line>, heard: seq<Emission>)
    ensures var n, one := RequestSpan(polls, id), RequestResult(polls, id);
      var lines := before + [Call(id, "initialize")] + AnswersIn(polls[..n], Some(id));
      var told := heard + UpdatesIn(polls[..n], Some(id), None);
      var rest := polls[n..];
      var k, two := RequestSpan(rest, id + 1), RequestResult(rest, id + 1);
      && (one.Err? ==>
            && StartResult(polls, id) == Err(one.error) && StartRest(polls, id) == rest
            && before + StartLines(polls, id) == lines && heard + StartUpdates(polls, id) == told)
      && (one.Ok? ==>
            && StartRest(polls, id) == rest[k..]
            && before + StartLines(polls, id) ==
                lines + [Notice("initialized")] + [Call(id + 1, "thread/start")] + AnswersIn(rest[..k], Some(id + 1))
            && heard + StartUpdates(polls, id) == told + UpdatesIn(rest[..k], Some(id + 1), None)
            && (two.Err? ==> StartResult(polls, id) == Err(two.error))
            && (two.Ok? ==>
                  StartResult(polls, id) == Ok(ExtractString(two.value, [["thread", "id"], ["threadId"]]))))
  {
    hide RequestSpan, RequestResult, AnswersIn, UpdatesIn, ExtractString;
  }

  /** `run_turn` as one fold over the inbox. */
  function RunTurnResult(hasThread: bool, polls: seq<Poll>, id: nat): Result<()> {
    if !hasThread then Err(ResponseError)
    else
      match RequestResult(polls, id)
      case Err(e) => Err(e)
      case Ok(_) => TurnResult(polls[RequestSpan(polls, id)..])
  }

  /** What `run_turn` leaves unread. */
  function RunTurnRest(hasThread: bool, polls: seq<Poll>, id: nat): (rest: seq<Poll>)
    ensures |rest| <= |polls|
  {
    if !hasThread then polls
    else
      var rest := polls[RequestSpan(polls, id)..];
      if RequestResult(polls, id).Err? then rest else rest[TurnSpan(rest)..]
  }

  /** What `run_turn` writes: its own request, then one answer per answerable server request it reads. */
  function RunTurnLines(hasThread: bool, polls: seq<Poll>, id: nat): seq<Line> {
    if !hasThread then []
    else
      var span := RequestSpan(polls, id);
      var asked := [Call(id, "turn/start")] + AnswersIn(polls[..span], Some(id));
      if RequestResult(polls, id).Err? then asked
      else asked + AnswersIn(polls[span..][..TurnSpan(polls[span..])], None)
  }

  function RunTurnUpdates(hasThread: bool, polls: seq<Poll>, id: nat, turnCount: nat): seq<Emission> {
    if !hasThread then []
    else
      var span := RequestSpan(polls, id);
      var waiting := UpdatesIn(polls[..span], Some(id), None);
      if RequestResult(polls, id).Err? then waiting
      else
        waiting + [Emission("session_started", None, Some(turnCount))]
        + UpdatesIn(polls[span..][..TurnSpan(polls[span..])], None, Some(turnCount))
  }

  /** Waiting for request `id`, nothing before `k` decides and `k` does. */
  ghost predicate DecidesRequest(polls: seq<Poll>, id: nat, k: int) {
    && 0 <= k < |polls| && RequestVerdict(polls[k], id).Some?
    && forall i :: 0 <= i < k ==> RequestVerdict(polls[i], id).None?
  }

  ghost predicate DecidesTurn(polls: seq<Poll>, from: int, k: int) {
    && 0 <= from <= k < |polls| && TurnVerdict(polls[k]).Some?
    && forall i :: from <= i < k ==> TurnVerdict(polls[i]).None?
  }

  /** The result of a request is the verdict of its first decisive poll, or a closed port if there is none. */
  lemma {:induction false} RequestIsFirstVerdict(polls: seq<Poll>, id: nat)
    ensures forall k :: DecidesRequest(polls, id, k) ==>
              RequestSpan(polls, id) == k + 1 && RequestResult(polls, id) == RequestVerdict(polls[k], id).value
    ensures (forall i :: 0 <= i < |polls| ==> RequestVerdict(polls[i], id).None?) ==>
              RequestSpan(polls, id) == |polls| && RequestResult(polls, id) == Err(PortExit)
    ensures RequestResult(polls, id).Ok? ==> exists k :: DecidesRequest(polls, id, k)
  {
    hide RequestVerdict;
    if polls != [] {
      if RequestVerdict(polls[0], id).Some? {
        assert DecidesRequest(polls, id, 0);
      } else {
        RequestIsFirstVerdict(polls[1..], id);
        forall k | DecidesRequest(polls, id, k)
          ensures RequestSpan(polls, id) == k + 1 && RequestResult(polls, id) == RequestVerdict(polls[k], id).value
        {
          assert DecidesRequest(polls[1..], id, k - 1);
        }
        if RequestResult(polls, id).Ok? {
          var k :| DecidesRequest(polls[1..], id, k);
          assert DecidesRequest(polls, id, k + 1);
        }
      }
    }
  }

  lemma {:induction false} TurnIsFirstVerdict(polls: seq<Poll>, from: nat)
    requires from <= |polls|
    ensures forall k :: DecidesTurn(polls, from, k) ==>
              TurnSpan(polls[from..]) == k + 1 - from && TurnResult(polls[from..]) == TurnVerdict(polls[k]).value
    ensures (forall i :: from <= i < |polls| ==> TurnVerdict(polls[i]).None?) ==>
              TurnSpan(polls[from..]) == |polls| - from && TurnResult(polls[from..]) == Err(PortExit)
    ensures TurnResult(polls[from..]).Ok? ==> exists k :: DecidesTurn(polls, from, k)
    decreases |polls| - from
  {
    hide TurnVerdict;
    if from < |polls| {
      assert polls[from..][0] == polls[from] && polls[from..][1..] == polls[from + 1..];
      assert polls[from..] != [];
      if TurnVerdict(polls[from]).Some? {
        assert DecidesTurn(polls, from, from);
      } else {
        TurnIsFirstVerdict(polls, from + 1);
        forall k | DecidesTurn(polls, from, k)
          ensures TurnSpan(polls[from..]) == k + 1 - from && TurnResult(polls[from..]) == TurnVerdict(polls[k]).value
        {
          assert DecidesTurn(polls, from + 1, k);
        }
        if TurnResult(polls[from..]).Ok? {
          var k :| DecidesTurn(polls, from + 1, k);
          assert DecidesTurn(polls, from, k);
        }
      }
    }
  }

  predicate IsGoodResponse(p: Poll, id: nat) {
    p.Got? && p.incoming.StdoutJson? && Responds(p.incoming.value, id) && Get(p.incoming.value, "result").Some?
  }

  predicate IsCompletion(p: Poll) {
    p.Got? && p.incoming.StdoutJson? && Classify(p.incoming.value) == Notification("turn/completed")
  }

  /** A request succeeds only with the result of the response that bears its own id. */
  lemma RequestMatchesId(polls: seq<Poll>, id: nat)
    requires RequestResult(polls, id).Ok?
    ensures exists k :: DecidesRequest(polls, id, k) && IsGoodResponse(polls[k], id)
              && Get(polls[k].incoming.value, "result") == Some(RequestResult(polls, id).value)
  {
    RequestIsFirstVerdict(polls, id);
    var k :| DecidesRequest(polls, id, k);
    assert IsGoodResponse(polls[k], id);
  }

  /** The request is answered at `a`, the turn completed at `b`, and nothing decides before either. */
  ghost predicate AnsweredThenCompleted(polls: seq<Poll>, id: nat, a: int, b: int) {
    && DecidesRequest(polls, id, a) && IsGoodResponse(polls[a], id)
    && DecidesTurn(polls, a + 1, b) && IsCompletion(polls[b])
  }

  /** A turn ends well exactly when its `turn/start` is answered and a completion arrives after the answer, with
      nothing decisive before either. A completion that comes before the answer counts for nothing. */
  lemma TurnSucceedsIff(polls: seq<Poll>, id: nat)
    ensures RunTurnResult(true, polls, id).Ok? <==> exists a, b :: AnsweredThenCompleted(polls, id, a, b)
  {
    hide RunTurnResult, AnsweredThenCompleted;
    if RunTurnResult(true, polls, id).Ok? { var _, _ := SuccessIsWitnessed(polls, id); }
    forall a, b | AnsweredThenCompleted(polls, id, a, b) ensures RunTurnResult(true, polls, id).Ok? {
      WitnessSucceeds(polls, id, a, b);
    }
  }

  lemma SuccessIsWitnessed(polls: seq<Poll>, id: nat) returns (a: int, b: int)
    requires RunTurnResult(true, polls, id).Ok?
    ensures AnsweredThenCompleted(polls, id, a, b)
  {
    hide RequestVerdict, TurnVerdict, IsGoodResponse, IsCompletion;
    RequestMatchesId(polls, id);
    a :| DecidesRequest(polls, id, a) && IsGoodResponse(polls[a], id);
    RequestIsFirstVerdict(polls, id);
    TurnIsFirstVerdict(polls, a + 1);
    b :| DecidesTurn(polls, a + 1, b);
    CompletionIsNotified(polls[b]);
  }

  lemma WitnessSucceeds(polls: seq<Poll>, id: nat, a: int, b: int)
    requires AnsweredThenCompleted(polls, id, a, b)
    ensures RunTurnResult(true, polls, id).Ok?
  {
    hide RequestVerdict, TurnVerdict, IsGoodResponse, IsCompletion;
    RequestIsFirstVerdict(polls, id);
    GoodResponseDecides(polls[a], id);
    TurnIsFirstVerdict(polls, a + 1);
    CompletionIsNotified(polls[b]);
  }

  /** A completion that comes first is lost: with nothing after the answer the turn ends on a closed port. */
  lemma EarlyCompletionIsLost(completion: Poll, response: Poll, id: nat)
    requires IsCompletion(completion) && IsGoodResponse(response, id)
    requires !Responds(completion.incoming.value, id)
    ensures RunTurnResult(true, [completion, response], id) == Err(PortExit)
    ensures RunTurnResult(true, [response, completion], id).Ok?
  {
    hide Responds, Classify, RequestVerdict, TurnVerdict;
    var early, late := [completion, response], [response, completion];
    assert early[1..] == [response] && early[2..] == [] && late[1..] == [completion];
    CompletionDecidesNoRequest(completion, id);
    GoodResponseDecides(response, id);
    CompletionIsNotified(completion);
    assert RequestSpan([response], id) == 1 && RequestSpan(early, id) == 2 && RequestSpan(late, id) == 1;
    assert RequestResult([response], id).Ok? && RequestResult(early, id) == RequestResult([response], id);
    assert late[RequestSpan(late, id)..] == [completion];
  }

  lemma CompletionDecidesNoRequest(p: Poll, id: nat)
    requires IsCompletion(p) && !Responds(p.incoming.value, id)
    ensures RequestVerdict(p, id).None?
  {
  }

  /** Two messages of that kind. */
  lemma EarlyCompletionExample(id: nat)
    requires id <= U64_MAX
    ensures var completion := Got(StdoutJson(Obj([Field("method", Str("turn/completed"))])));
      var response := Got(StdoutJson(Obj([Field("id", Int(id)), Field("result", Null)])));
      RunTurnResult(true, [completion, response], id) == Err(PortExit)
  {
    var done := Obj([Field("method", Str("turn/completed"))]);
    var answer := Obj([Field("id", Int(id)), Field("result", Null)]);
    assert done.fields[1..] == [] && answer.fields[1..] == [Field("result", Null)];
    assert Get(done, "id") == None && Get(done, "method") == Some(Str("turn/completed"));
    assert Lookup(answer.fields[1..], "result") == Some(Null);
    assert Get(answer, "id") == Some(Int(id)) && Get(answer, "result") == Some(Null);
    EarlyCompletionIsLost(Got(StdoutJson(done)), Got(StdoutJson(answer)), id);
  }

  lemma GoodResponseDecides(p: Poll, id: nat)
    requires IsGoodResponse(p, id)
    ensures RequestVerdict(p, id).Some? && RequestVerdict(p, id).value.Ok?
  {
  }

  lemma CompletionIsNotified(p: Poll)
    ensures TurnVerdict(p).Some? && TurnVerdict(p).value.Ok? <==> IsCompletion(p)
  {
  }

  // ---------------------------------------------------------------- who gets an answer

  /** The answers written while reading `polls` with request `pending` open. */
  function AnswersIn(polls: seq<Poll>, pending: Option<nat>): seq<Line> {
    if polls == [] then []
    else AnswersIn(polls[..|polls| - 1], pending) + AnswersAt(polls[|polls| - 1], pending)
  }

  /** The updates sent while reading `polls`: none for the awaited response itself. */
  function UpdatesIn(polls: seq<Poll>, pending: Option<nat>, turnCount: Option<nat>): seq<Emission> {
    if polls == [] then []
    else UpdatesIn(polls[..|polls| - 1], pending, turnCount) + UpdatesAt(polls[|polls| - 1], pending, turnCount)
  }

  function UpdatesAt(p: Poll, pending: Option<nat>, turnCount: Option<nat>): seq<Emission> {
    if !p.Got? || (p.incoming.StdoutJson? && pending.Some? && Responds(p.incoming.value, pending.value)) then []
    else UpdatesOf(p.incoming, turnCount)
  }

  function AnswersAt(p: Poll, pending: Option<nat>): seq<Line> {
    if !p.Got? || !p.incoming.StdoutJson? then []
    else if pending.Some? && Responds(p.incoming.value, pending.value) then []
    else AnswersTo(Classify(p.incoming.value))
  }

  // ---------------------------------------------------------------- who is told of a failure

  /** The poll ends what waits for it with an error: the request `pending`, or the turn if there is none. */
  predicate Fails(p: Poll, pending: Option<nat>) {
    match pending
    case Some(id) => RequestVerdict(p, id).Some? && RequestVerdict(p, id).value.Err?
    case None => TurnVerdict(p).Some? && TurnVerdict(p).value.Err?
  }

  predicate IsResponse(p: Poll, pending: Option<nat>) {
    p.Got? && p.incoming.StdoutJson? && pending.Some? && Responds(p.incoming.value, pending.value)
  }

  /** The ways to fail that no event tells of: time running out, a cancelled token while a turn runs, an output
      stream closed by a child that is gone, an error in place of the awaited result, and a message with an id
      whose method is not a string. */
  predicate FailsSilently(p: Poll, pending: Option<nat>) {
    match p
    case Elapsed => true
    case CancelSeen => pending.None?
    case Got(StreamClosed(status)) => status != Alive
    case Got(StdoutJson(v)) => if IsResponse(p, pending) then Get(v, "result").None? else Classify(v).Unanswerable?
    case Got(_) => false
  }

  /** A poll is a failure without a failure event exactly if it is one of the silent ways to fail; and an event is
      never sent without a failure. */
  lemma FailuresAreReportedIff(p: Poll, pending: Option<nat>, turnCount: Option<nat>)
    ensures |UpdatesAt(p, pending, turnCount)| <= 1
    ensures Fails(p, pending) && !HasFailure(UpdatesAt(p, pending, turnCount)) <==> FailsSilently(p, pending)
    ensures HasFailure(UpdatesAt(p, pending, turnCount)) ==> Fails(p, pending)
  {
    hide Classify, UpdatesFor, Effect, Responds, Get, Machine.IsFailureEvent;
    FailureEvents();
    if p.Got? && p.incoming.StdoutJson? && !IsResponse(p, pending) {
      MessagesAreReportedIff(p.incoming.value, turnCount);
      UnanswerableFails(p.incoming.value);
    }
  }

  lemma UnanswerableFails(v: Value)
    ensures Classify(v).Unanswerable? ==> Effect(Classify(v)).Err?
  {
  }

  /** Of what was read, the last poll failed, and not silently. */
  predicate EndsLoudly(read: seq<Poll>, pending: Option<nat>) {
    read != [] && Fails(read[|read| - 1], pending) && !FailsSilently(read[|read| - 1], pending)
  }

  lemma HasFailureConcat(a: seq<Emission>, b: seq<Emission>)
    ensures HasFailure(a + b) <==> HasFailure(a) || HasFailure(b)
  {
    if HasFailure(a) {
      var i :| 0 <= i < |a| && Machine.IsFailureEvent(a[i].event);
      assert (a + b)[i] == a[i];
    }
    if HasFailure(b) {
      var i :| 0 <= i < |b| && Machine.IsFailureEvent(b[i].event);
      assert (a + b)[|a| + i] == b[i];
    }
  }

  /** Where only the last poll can fail, an event tells of a failure exactly if the last poll fails and not
      silently. */
  lemma {:induction false} OnlyLastReports(read: seq<Poll>, pending: Option<nat>, turnCount: Option<nat>)
    requires forall i :: 0 <= i < |read| - 1 ==> !Fails(read[i], pending)
    ensures HasFailure(UpdatesIn(read, pending, turnCount)) <==> EndsLoudly(read, pending)
  {
    hide Fails, FailsSilently, UpdatesAt, HasFailure;
    if read == [] {
      assert !HasFailure([]) by { NoUpdatesNoFailure(); }
    } else {
      var init, last := read[..|read| - 1], read[|read| - 1];
      assert init != [] ==> !Fails(init[|init| - 1], pending);
      OnlyLastReports(init, pending, turnCount);
      HasFailureConcat(UpdatesIn(init, pending, turnCount), UpdatesAt(last, pending, turnCount));
      FailuresAreReportedIff(last, pending, turnCount);
    }
  }

  lemma NoUpdatesNoFailure()
    ensures !HasFailure([])
  {
  }

  lemma {:induction false} RequestReadsToVerdict(polls: seq<Poll>, id: nat)
    ensures forall i :: 0 <= i < RequestSpan(polls, id) - 1 ==> RequestVerdict(polls[i], id).None?
    ensures RequestResult(polls, id).Ok? ==>
              && RequestSpan(polls, id) > 0
              && RequestVerdict(polls[RequestSpan(polls, id) - 1], id) == Some(RequestResult(polls, id))
  {
    hide RequestVerdict;
    if polls != [] && RequestVerdict(polls[0], id).None? { RequestReadsToVerdict(polls[1..], id); }
  }

  lemma {:induction false} TurnReadsToVerdict(polls: seq<Poll>)
    ensures forall i :: 0 <= i < TurnSpan(polls) - 1 ==> TurnVerdict(polls[i]).None?
  {
    hide TurnVerdict;
    if polls != [] && TurnVerdict(polls[0]).None? { TurnReadsToVerdict(polls[1..]); }
  }

  /** Of a whole turn the orchestrator is sent a failure event exactly when the last poll read, in the phase in
      which the turn ended, failed and not silently. */
  lemma TurnIsReportedIff(polls: seq<Poll>, id: nat, turnCount: nat)
    ensures HasFailure(RunTurnUpdates(true, polls, id, turnCount)) <==>
            if RequestResult(polls, id).Err? then EndsLoudly(ReadBefore(polls, id), Some(id))
            else EndsLoudly(ReadAfter(polls, id), None)
  {
    hide RequestVerdict, TurnVerdict, RequestSpan, RequestResult, TurnSpan, UpdatesIn, HasFailure, FailsSilently;
    var before, after := ReadBefore(polls, id), ReadAfter(polls, id);
    RequestReadsToVerdict(polls, id);
    OnlyLastReports(before, Some(id), None);
    if RequestResult(polls, id).Ok? {
      var started := [Emission("session_started", None, Some(turnCount))];
      TurnReadsToVerdict(polls[RequestSpan(polls, id)..]);
      OnlyLastReports(after, None, Some(turnCount));
      StartIsNoFailure(turnCount);
      HasFailureConcat(UpdatesIn(before, Some(id), None) + started, UpdatesIn(after, None, Some(turnCount)));
      HasFailureConcat(UpdatesIn(before, Some(id), None), started);
      assert !EndsLoudly(before, Some(id));
    }
  }

  lemma StartIsNoFailure(turnCount: nat)
    ensures !HasFailure([Emission("session_started", None, Some(turnCount))])
  {
  }

  lemma OnePoll(p: Poll, id: nat)
    requires RequestVerdict(p, id).Some?
    ensures RequestSpan([p], id) == 1 && RequestResult([p], id) == RequestVerdict(p, id).value
    ensures UpdatesIn([p][..1], Some(id), None) == UpdatesAt(p, Some(id), None)
  {
    hide RequestVerdict, UpdatesAt;
    assert [p][..1] == [p] && [p][..0] == [];
  }

  /** An error in place of the answer to `turn/start` ends the turn, and nobody is told. */
  lemma ErrorResponseIsSilent(id: nat, turnCount: nat)
    requires id <= U64_MAX
    ensures var polls := [Got(StdoutJson(Obj([Field("id", Int(id)), Field("error", Str("boom"))])))];
      RunTurnResult(true, polls, id) == Err(ResponseError) && RunTurnUpdates(true, polls, id, turnCount) == []
  {
    var v := Obj([Field("id", Int(id)), Field("error", Str("boom"))]);
    var polls := [Got(StdoutJson(v))];
    assert v.fields[1..] == [Field("error", Str("boom"))] && v.fields[1..][1..] == [];
    assert Get(v, "id") == Some(Int(id)) && Get(v, "result") == None;
    assert RequestVerdict(polls[0], id) == Some(Err(ResponseError)) && UpdatesAt(polls[0], Some(id), None) == [];
    OnePoll(polls[0], id);
  }

  /** So does a message with an id and a method that is not a string. */
  lemma UnanswerableIsSilent(id: nat, turnCount: nat)
    requires id != 1 && id <= U64_MAX
    ensures var polls := [Got(StdoutJson(Obj([Field("id", Int(1)), Field("method", Null)])))];
      RunTurnResult(true, polls, id) == Err(ResponseError) && RunTurnUpdates(true, polls, id, turnCount) == []
  {
    var v := Obj([Field("id", Int(1)), Field("method", Null)]);
    var polls := [Got(StdoutJson(v))];
    assert v.fields[1..] == [Field("method", Null)];
    assert Get(v, "id") == Some(Int(1)) && Get(v, "method") == Some(Null);
    assert RequestVerdict(polls[0], id) == Some(Err(ResponseError)) && UpdatesAt(polls[0], Some(id), None) == [];
    OnePoll(polls[0], id);
  }

  /** A message with both a method and an id. */
  predicate IsServerRequest(p: Poll) {
    p.Got? && p.incoming.StdoutJson? && Get(p.incoming.value, "method").Some? && Get(p.incoming.value, "id").Some?
  }

  /** Its method is a string and its id is not the one the session is waiting for. */
  predicate Answerable(p: Poll, pending: Option<nat>)
    requires IsServerRequest(p)
  {
    && Get(p.incoming.value, "method").value.Str?
    && !(pending.Some? && Responds(p.incoming.value, pending.value))
  }

  function RequestIdAt(p: Poll): seq<Value> {
    if IsServerRequest(p) then [Get(p.incoming.value, "id").value] else []
  }

  /** The ids of the server requests among `polls`, in order. */
  function RequestIds(polls: seq<Poll>): seq<Value> {
    if polls == [] then [] else RequestIds(polls[..|polls| - 1]) + RequestIdAt(polls[|polls| - 1])
  }

  function AnswerIds(lines: seq<Line>): seq<Value> {
    if lines == [] then []
    else
      var last := lines[|lines| - 1];
      AnswerIds(lines[..|lines| - 1]) + if last.Answer? then [last.request] else []
  }

  lemma {:induction false} AnswerIdsConcat(a: seq<Line>, b: seq<Line>)
    ensures AnswerIds(a + b) == AnswerIds(a) + AnswerIds(b)
  {
    if b == [] {
      assert a + b == a;
    } else {
      assert (a + b)[..|a + b| - 1] == a + b[..|b| - 1];
      AnswerIdsConcat(a, b[..|b| - 1]);
    }
  }

  lemma AnswerAtOne(p: Poll, pending: Option<nat>)
    ensures AnswerIds(AnswersAt(p, pending)) ==
            if IsServerRequest(p) && Answerable(p, pending) then RequestIdAt(p) else []
    ensures |RequestIdAt(p)| == if IsServerRequest(p) then 1 else 0
  {
    var lines := AnswersAt(p, pending);
    if lines != [] { assert lines[..|lines| - 1] == []; }
  }

  lemma {:induction false} AnswersAreAnswerable(polls: seq<Poll>, pending: Option<nat>)
    ensures |AnswerIds(AnswersIn(polls, pending))| <= |RequestIds(polls)|
    ensures AnswerIds(AnswersIn(polls, pending)) == RequestIds(polls) <==>
            forall i :: 0 <= i < |polls| && IsServerRequest(polls[i]) ==> Answerable(polls[i], pending)
  {
    hide IsServerRequest, Answerable, AnswersAt, RequestIdAt;
    if polls != [] {
      var init, last := polls[..|polls| - 1], polls[|polls| - 1];
      AnswersAreAnswerable(init, pending);
      AnswerIdsConcat(AnswersIn(init, pending), AnswersAt(last, pending));
      AnswerAtOne(last, pending);
      assert forall i :: 0 <= i < |init| ==> init[i] == polls[i];
      var answered, asked, id := AnswerIds(AnswersIn(init, pending)), RequestIds(init), RequestIdAt(last);
      if IsServerRequest(last) && Answerable(last, pending) && answered + id == asked + id {
        assert answered == (answered + id)[..|answered|] == (asked + id)[..|asked|] == asked;
      }
    }
  }

  lemma {:induction false} RequestIdsConcat(a: seq<Poll>, b: seq<Poll>)
    ensures RequestIds(a + b) == RequestIds(a) + RequestIds(b)
  {
    hide RequestIdAt;
    if b == [] {
      assert a + b == a;
    } else {
      assert (a + b)[..|a + b| - 1] == a + b[..|b| - 1];
      RequestIdsConcat(a, b[..|b| - 1]);
    }
  }

  /** What a turn reads before and after its `turn/start` is answered. */
  function ReadBefore(polls: seq<Poll>, id: nat): seq<Poll> {
    polls[..RequestSpan(polls, id)]
  }

  function ReadAfter(polls: seq<Poll>, id: nat): seq<Poll> {
    var rest := polls[RequestSpan(polls, id)..];
    if RequestResult(polls, id).Err? then [] else rest[..TurnSpan(rest)]
  }

  ghost predicate AllAnswerable(polls: seq<Poll>, pending: Option<nat>) {
    forall i :: 0 <= i < |polls| && IsServerRequest(polls[i]) ==> Answerable(polls[i], pending)
  }

  /** Over a whole turn the ids answered are the ids of the server requests it reads, in order, once each, exactly
      when all of them have string methods and none that comes before the answer to `turn/start` bears its id. */
  lemma TurnAnswersItsRequestsIff(polls: seq<Poll>, id: nat)
    ensures polls == ReadBefore(polls, id) + ReadAfter(polls, id) + RunTurnRest(true, polls, id)
    ensures AnswerIds(RunTurnLines(true, polls, id)) == RequestIds(ReadBefore(polls, id) + ReadAfter(polls, id)) <==>
            AllAnswerable(ReadBefore(polls, id), Some(id)) && AllAnswerable(ReadAfter(polls, id), None)
  {
    hide RequestSpan, RequestResult, TurnSpan, AnswersIn, AnswerIds, RequestIds, IsServerRequest, Answerable;
    var before, after := ReadBefore(polls, id), ReadAfter(polls, id);
    AnswersAreAnswerable(before, Some(id));
    AnswersAreAnswerable(after, None);
    RequestIdsConcat(before, after);
    NothingRead(None);
    var call, first, second := [Call(id, "turn/start")], AnswersIn(before, Some(id)), AnswersIn(after, None);
    assert RunTurnLines(true, polls, id) == call + first + second;
    CallsAnswerNothing(id);
    AnswerIdsConcat(call + first, second);
    AnswerIdsConcat(call, first);
    assert [] + AnswerIds(first) == AnswerIds(first);
    SplitEqual(AnswerIds(first), AnswerIds(second), RequestIds(before), RequestIds(after));
  }

  lemma NothingRead(pending: Option<nat>)
    ensures AnswersIn([], pending) == [] && forall turnCount :: UpdatesIn([], pending, turnCount) == []
  {
  }

  lemma CallsAnswerNothing(id: nat)
    ensures AnswerIds([Call(id, "turn/start")]) == []
  {
    assert [Call(id, "turn/start")][..0] == [];
  }

  lemma SplitEqual<T>(a: seq<T>, b: seq<T>, c: seq<T>, d: seq<T>)
    requires |a| <= |c| && |b| <= |d|
    ensures a + b == c + d <==> a == c && b == d
  {
    if a + b == c + d {
      assert a == (a + b)[..|a|] == (c + d)[..|c|] == c;
      assert b == (a + b)[|a|..] == (c + d)[|c|..] == d;
    }
  }

  // ---------------------------------------------------------------- the session object

  function ClientIds(lines: seq<Line>): seq<nat> {
    if lines == [] then []
    else
      var last := lines[|lines| - 1];
      ClientIds(lines[..|lines| - 1]) + if last.Call? then [last.id] else []
  }

  /** Strictly increasing, and all below `next`. */
  ghost predicate Increasing(ids: seq<nat>, next: nat) {
    && (forall i, j :: 0 <= i < j < |ids| ==> ids[i] < ids[j])
    && (forall i :: 0 <= i < |ids| ==> ids[i] < next)
  }

  lemma {:induction false} NoCallsAmongAnswers(lines: seq<Line>, answers: seq<Line>)
    requires forall i :: 0 <= i < |answers| ==> !answers[i].Call?
    ensures ClientIds(lines + answers) == ClientIds(lines)
  {
    if answers == [] {
      assert lines + answers == lines;
    } else {
      assert (lines + answers)[..|lines + answers| - 1] == lines + answers[..|answers| - 1];
      NoCallsAmongAnswers(lines, answers[..|answers| - 1]);
    }
  }

  lemma {:induction false} AnswersHoldNoCalls(polls: seq<Poll>, pending: Option<nat>)
    ensures forall i :: 0 <= i < |AnswersIn(polls, pending)| ==> AnswersIn(polls, pending)[i].Answer?
  {
    if polls != [] { AnswersHoldNoCalls(polls[..|polls| - 1], pending); }
  }

  lemma AnswersGrow(polls: seq<Poll>, n: nat, pending: Option<nat>)
    requires n < |polls|
    ensures AnswersIn(polls[..n + 1], pending) == AnswersIn(polls[..n], pending) + AnswersAt(polls[n], pending)
    ensures forall turnCount :: UpdatesIn(polls[..n + 1], pending, turnCount)
                                == UpdatesIn(polls[..n], pending, turnCount) + UpdatesAt(polls[n], pending, turnCount)
  {
    assert polls[..n + 1][..n] == polls[..n];
  }

  lemma FoldsShift(polls: seq<Poll>, i: nat, id: nat)
    requires i < |polls|
    ensures RequestVerdict(polls[i], id).None? ==>
              && RequestSpan(polls[i..], id) == 1 + RequestSpan(polls[i + 1..], id)
              && RequestResult(polls[i..], id) == RequestResult(polls[i + 1..], id)
    ensures RequestVerdict(polls[i], id).Some? ==>
              RequestSpan(polls[i..], id) == 1 && RequestResult(polls[i..], id) == RequestVerdict(polls[i], id).value
    ensures TurnVerdict(polls[i]).None? ==>
              && TurnSpan(polls[i..]) == 1 + TurnSpan(polls[i + 1..])
              && TurnResult(polls[i..]) == TurnResult(polls[i + 1..])
    ensures TurnVerdict(polls[i]).Some? ==>
              TurnSpan(polls[i..]) == 1 && TurnResult(polls[i..]) == TurnVerdict(polls[i]).value
  {
    hide RequestVerdict, TurnVerdict;
    assert polls[i..][0] == polls[i] && polls[i..][1..] == polls[i + 1..] && polls[i..] != [];
  }

  class CodexSession {
    var inbox: seq<Poll>
    var written: seq<Line>
    var emitted: seq<Emission>
    var nextRequestId: nat
    var threadId: Option<string>
    var turnId: Option<string>
    var sessionId: Option<string>

    /** Client ids only ever grow. */
    ghost predicate Valid()
      reads this
    {
      Increasing(ClientIds(written), nextRequestId)
    }

    constructor (inbox: seq<Poll>)
      ensures Valid() && this.inbox == inbox && written == [] && emitted == [] && threadId == None && nextRequestId == 1
    {
      this.inbox, written, emitted, nextRequestId := inbox, [], [], 1;
      threadId, turnId, sessionId := None, None, None;
    }

    method Emit(event: string, tokens: Option<Tokens>, turnCount: Option<nat>)
      modifies this`emitted
      ensures emitted == old(emitted) + [Emission(event, tokens, turnCount)]
    {
      emitted := emitted + [Emission(event, tokens, turnCount)];
    }

    method Write(line: Line)
      modifies this`written
      ensures written == old(written) + [line]
    {
      written := written + [line];
    }

    /** `handle_server_request`: one answer, before anything else happens. */
    method HandleServerRequest(v: Value, turnCount: Option<nat>) returns (r: Result<Progress>)
      requires Get(v, "method").Some? && Get(v, "id").Some?
      modifies this`written, this`emitted
      ensures written == old(written) + AnswersTo(Classify(v)) && emitted == old(emitted) + UpdatesFor(v, turnCount)
      ensures r == Effect(Classify(v))
    {
      hide Get, AsksUser, AsksApproval;
      RequestNamesDiffer(OptStr(Get(v, "method")).GetOr(""));
      var name := OptStr(Get(v, "method"));
      if name.None? { return Err(ResponseError); }
      var id := Get(v, "id").value;
      if AsksApproval(name.value) {
        Write(Answer(id, Approval));
        Emit("approval_auto_approved", None, turnCount);
      } else if name.value == "item/tool/call" {
        if OptStr(Get(Get(v, "params").GetOr(Null), "tool")).GetOr("") != "linear_graphql" {
          Emit("unsupported_tool_call", None, None);
        }
        Write(Answer(id, ToolResult));
      } else if AsksUser(name.value) {
        Write(Answer(id, InputRequired));
        Emit("turn_input_required", None, turnCount);
        return Err(TurnInputRequired);
      } else {
        Write(Answer(id, Unsupported(name.value)));
      }
      return Ok(Continue);
    }

    method HandleValue(v: Value, turnCount: Option<nat>) returns (r: Result<Progress>)
      modifies this`written, this`emitted
      ensures written == old(written) + AnswersTo(Classify(v)) && emitted == old(emitted) + UpdatesFor(v, turnCount)
      ensures r == Effect(Classify(v))
    {
      hide Get, ExtractTokens, AsksUser, AsksApproval, BodyFor;
      if Get(v, "method").Some? && Get(v, "id").Some? {
        r := HandleServerRequest(v, turnCount);
        return;
      }
      var name := OptStr(Get(v, "method"));
      var params := Get(v, "params").GetOr(Null);
      if name == Some("turn/completed") {
        Emit("turn_completed", ExtractTokens(params), turnCount);
        return Ok(Completed);
      } else if name == Some("turn/failed") {
        Emit("turn_failed", ExtractTokens(params), turnCount);
        return Err(TurnFailed);
      } else if name == Some("turn/cancelled") {
        Emit("turn_cancelled", None, turnCount);
        return Err(TurnCancelled);
      } else if name == Some("thread/tokenUsage/updated") {
        Emit("notification", ExtractTokens(params), turnCount);
      } else if name == Some("account/rateLimits/updated") {
        Emit("notification", None, turnCount);
      } else if name.Some? {
        Emit("other_message", None, turnCount);
      }
      return Ok(Continue);
    }

    method HandleIncoming(m: Incoming, turnCount: Option<nat>) returns (r: Result<Progress>)
      modifies this`written, this`emitted
      ensures written == old(written) + AnswersAt(Got(m), None) && emitted == old(emitted) + UpdatesOf(m, turnCount)
      ensures r == PollEffect(m)
    {
      match m {
        case StdoutJson(v) => r := HandleValue(v, turnCount);
        case StdoutMalformed(_) =>
          Emit("malformed", None, turnCount);
          r := Ok(Continue);
        case Stderr(_) =>
          Emit("notification", None, turnCount);
          r := Ok(Continue);
        case StreamClosed(status) =>
          r := match status case Exited => Err(PortExit) case WaitFailed => Err(ChildError) case Alive => Ok(Continue);
      }
    }

    /** `request`: a new id, then messages are handled until one decides. */
    method Request(name: string) returns (r: Result<Value>)
      requires Valid()
      modifies this`inbox, this`written, this`emitted, this`nextRequestId
      ensures Valid() && nextRequestId == old(nextRequestId) + 1
      ensures r == RequestResult(old(inbox), old(nextRequestId))
      ensures inbox == old(inbox)[RequestSpan(old(inbox), old(nextRequestId))..]
      ensures var id, read := old(nextRequestId), old(inbox)[..RequestSpan(old(inbox), old(nextRequestId))];
        && written == old(written) + [Call(id, name)] + AnswersIn(read, Some(id))
        && emitted == old(emitted) + UpdatesIn(read, Some(id), None)
    {
      hide RequestSpan, RequestResult, AnswersIn, UpdatesIn, ClientIds, Increasing;
      var id := nextRequestId;
      nextRequestId := nextRequestId + 1;
      CallIsLast(written, id, name);
      Write(Call(id, name));
      r := AwaitResponse(id);
    }

    /** The loop of `request`. */
    method AwaitResponse(id: nat) returns (r: Result<Value>)
      requires Valid()
      modifies this`inbox, this`written, this`emitted
      ensures Valid()
      ensures r == RequestResult(old(inbox), id)
      ensures inbox == old(inbox)[RequestSpan(old(inbox), id)..]
      ensures written == old(written) + AnswersIn(old(inbox)[..RequestSpan(old(inbox), id)], Some(id))
      ensures emitted == old(emitted) + UpdatesIn(old(inbox)[..RequestSpan(old(inbox), id)], Some(id), None)
    {
      hide RequestVerdict, TurnVerdict, TurnSpan, TurnResult, AnswersAt, UpdatesAt, AnswersIn, UpdatesIn,
           ClientIds, Increasing;
      ghost var all, sent, told := inbox, written, emitted;
      ghost var n := 0;
      assert all[..0] == [] && all[0..] == all;
      NothingRead(Some(id));
      while true
        invariant 0 <= n <= |all| && inbox == all[n..]
        invariant RequestSpan(all, id) == n + RequestSpan(inbox, id)
        invariant RequestResult(all, id) == RequestResult(inbox, id)
        invariant written == sent + AnswersIn(all[..n], Some(id))
        invariant emitted == told + UpdatesIn(all[..n], Some(id), None)
        decreases |all| - n
      {
        if inbox == [] {
          r := Err(PortExit);
          break;
        }
        var poll := inbox[0];
        inbox := inbox[1..];
        FoldsShift(all, n, id);
        AnswersGrow(all, n, Some(id));
        var verdict := TakeForRequest(poll, id);
        n := n + 1;
        if verdict.Some? {
          r := verdict.value;
          break;
        }
      }
      AnswersHoldNoCalls(all[..n], Some(id));
      NoCallsAmongAnswers(sent, AnswersIn(all[..n], Some(id)));
      assert written == sent + AnswersIn(all[..n], Some(id));
    }

    /** One turn of the loop in `request`. */
    method TakeForRequest(poll: Poll, id: nat) returns (verdict: Option<Result<Value>>)
      modifies this`written, this`emitted
      ensures verdict == RequestVerdict(poll, id)
      ensures written == old(written) + AnswersAt(poll, Some(id)) &&
              emitted == old(emitted) + UpdatesAt(poll, Some(id), None)
    {
      match poll {
        case Elapsed => verdict := Some(Err(ResponseTimeout));
        case CancelSeen => verdict := None;
        case Got(m) =>
          if m.StdoutJson? && OptU64(Get(m.value, "id")) == Some(id) {
            var result := Get(m.value, "result");
            verdict := Some(if result.Some? then Ok(result.value) else Err(ResponseError));
          } else {
            var handled := HandleIncoming(m, None);
            verdict := if handled.Err? then Some(Err(handled.error)) else None;
          }
      }
    }

    /** The handshake of `start`. */
    method Start() returns (r: Result<()>)
      requires Valid()
      modifies this
      ensures Valid()
      ensures var started := StartResult(old(inbox), old(nextRequestId));
        && (started.Ok? ==> r == Ok(()) && threadId == started.value && nextRequestId == old(nextRequestId) + 2)
        && (started.Err? ==> r == Err(started.error) && threadId == old(threadId))
      ensures inbox == StartRest(old(inbox), old(nextRequestId))
      ensures written == old(written) + StartLines(old(inbox), old(nextRequestId))
      ensures emitted == old(emitted) + StartUpdates(old(inbox), old(nextRequestId))
    {
      hide RequestSpan, RequestResult, AnswersIn, UpdatesIn, ExtractString, ClientIds, Increasing;
      hide StartResult, StartRest, StartLines, StartUpdates;
      StartInPieces(inbox, nextRequestId, written, emitted);
      var initialized := Request("initialize");
      if initialized.Err? { return Err(initialized.error); }
      NoticeIsNoCall(written, "initialized");
      Write(Notice("initialized"));
      var thread := Request("thread/start");
      if thread.Err? { return Err(thread.error); }
      threadId := ExtractString(thread.value, [["thread", "id"], ["threadId"]]);
      return Ok(());
    }

    method RunTurn(turnCount: nat) returns (r: Result<()>)
      requires Valid()
      modifies this
      ensures Valid() && threadId == old(threadId)
      ensures r == RunTurnResult(old(threadId).Some?, old(inbox), old(nextRequestId))
      ensures inbox == RunTurnRest(old(threadId).Some?, old(inbox), old(nextRequestId))
      ensures nextRequestId == old(nextRequestId) + if old(threadId).Some? then 1 else 0
      ensures written == old(written) + RunTurnLines(old(threadId).Some?, old(inbox), old(nextRequestId))
      ensures emitted == old(emitted) + RunTurnUpdates(old(threadId).Some?, old(inbox), old(nextRequestId), turnCount)
      ensures threadId.Some? && RequestResult(old(inbox), old(nextRequestId)).Ok? ==>
                && var answer := RequestResult(old(inbox), old(nextRequestId)).value;
                && turnId == ExtractString(answer, [["turn", "id"], ["turnId"]])
                && sessionId == if turnId.Some? then Some(threadId.value + "-" + turnId.value) else None
    {
      hide RequestSpan, RequestResult, TurnSpan, TurnResult, AnswersIn, UpdatesIn, ExtractString, ClientIds, Increasing;
      if threadId.None? { return Err(ResponseError); }
      var started := Request("turn/start");
      if started.Err? { return Err(started.error); }
      turnId := ExtractString(started.value, [["turn", "id"], ["turnId"]]);
      sessionId := if turnId.Some? then Some(threadId.value + "-" + turnId.value) else None;
      Emit("session_started", None, Some(turnCount));

      r := AwaitTurn(turnCount);
    }

    /** The loop of `run_turn`. */
    method AwaitTurn(turnCount: nat) returns (r: Result<()>)
      requires Valid()
      modifies this`inbox, this`written, this`emitted
      ensures Valid()
      ensures r == TurnResult(old(inbox))
      ensures inbox == old(inbox)[TurnSpan(old(inbox))..]
      ensures written == old(written) + AnswersIn(old(inbox)[..TurnSpan(old(inbox))], None)
      ensures emitted == old(emitted) + UpdatesIn(old(inbox)[..TurnSpan(old(inbox))], None, Some(turnCount))
    {
      hide RequestVerdict, TurnVerdict, RequestSpan, RequestResult, AnswersAt, UpdatesAt, AnswersIn, UpdatesIn,
           ClientIds, Increasing;
      ghost var all, sent, told := inbox, written, emitted;
      ghost var n := 0;
      assert all[..0] == [] && all[0..] == all;
      NothingRead(None);
      while true
        invariant 0 <= n <= |all| && inbox == all[n..]
        invariant TurnSpan(all) == n + TurnSpan(inbox) && TurnResult(all) == TurnResult(inbox)
        invariant written == sent + AnswersIn(all[..n], None) &&
                  emitted == told + UpdatesIn(all[..n], None, Some(turnCount))
        decreases |all| - n
      {
        if inbox == [] {
          r := Err(PortExit);
          break;
        }
        var poll := inbox[0];
        inbox := inbox[1..];
        FoldsShift(all, n, 0);
        AnswersGrow(all, n, None);
        var verdict := TakeForTurn(poll, turnCount);
        n := n + 1;
        if verdict.Some? {
          r := verdict.value;
          break;
        }
      }
      AnswersHoldNoCalls(all[..n], None);
      NoCallsAmongAnswers(sent, AnswersIn(all[..n], None));
      assert written == sent + AnswersIn(all[..n], None);
    }

    /** One turn of the loop in `run_turn`. */
    method TakeForTurn(poll: Poll, turnCount: nat) returns (verdict: Option<Result<()>>)
      modifies this`written, this`emitted
      ensures verdict == TurnVerdict(poll)
      ensures written == old(written) + AnswersAt(poll, None) &&
              emitted == old(emitted) + UpdatesAt(poll, None, Some(turnCount))
    {
      match poll {
        case Elapsed => verdict := Some(Err(TurnTimeout));
        case CancelSeen => verdict := Some(Err(TurnCancelled));
        case Got(m) =>
          var handled := HandleIncoming(m, Some(turnCount));
          verdict := match handled
            case Ok(Continue) => None
            case Ok(Completed) => Some(Ok(()))
            case Err(e) => Some(Err(e));
      }
    }
  }

  lemma NoticeIsNoCall(lines: seq<Line>, name: string)
    ensures ClientIds(lines + [Notice(name)]) == ClientIds(lines)
  {
    NoCallsAmongAnswers(lines, [Notice(name)]);
  }

  lemma CallIsLast(lines: seq<Line>, id: nat, name: string)
    requires Increasing(ClientIds(lines), id)
    ensures Increasing(ClientIds(lines + [Call(id, name)]), id + 1)
  {
    assert (lines + [Call(id, name)])[..|lines|] == lines;
  }
}
