/** What each message of the agent means, in the protocol's own words: the answer it gets, the update it gives rise
    to, and what it does to the request or turn that waits. */
module Protocol {
  import opened Types
  import opened Json
  import opened Session

  function Message(v: Value): Poll {
    Got(StdoutJson(v))
  }

  // ---------------------------------------------------------------- answers

  const APPROVALS := [
    "item/commandExecution/requestApproval", "execCommandApproval",
    "item/fileChange/requestApproval", "applyPatchApproval"
  ]

  const QUESTIONS := ["item/tool/requestUserInput", "mcpServer/elicitation/request"]

  /** Approvals are granted, tool calls get their result, questions to the user are refused, and whatever else is
      asked is answered as unsupported under its own name. */
  ghost predicate Befits(name: string, body: AnswerBody) {
    && (name in APPROVALS ==> body == Approval)
    && (name == "item/tool/call" ==> body == ToolResult)
    && (name in QUESTIONS ==> body == InputRequired)
    && (name !in APPROVALS && name !in QUESTIONS && name != "item/tool/call" ==> body == Unsupported(name))
  }

  lemma NamesMean(name: string)
    ensures AsksApproval(name) == (name in APPROVALS)
    ensures AsksUser(name) == (name in QUESTIONS)
  {
    assert APPROVALS[0] in APPROVALS && APPROVALS[1] in APPROVALS;
    assert APPROVALS[2] in APPROVALS && APPROVALS[3] in APPROVALS;
    assert QUESTIONS[0] in QUESTIONS && QUESTIONS[1] in QUESTIONS;
  }

  lemma BodyBefits(name: string)
    ensures Befits(name, BodyFor(name))
  {
    NamesMean(name);
    RequestNamesDiffer(name);
    hide AsksApproval, AsksUser;
    assert "item/tool/call" !in APPROVALS && "item/tool/call" !in QUESTIONS;
  }

  /** The line answers the server request that the poll brought. */
  ghost predicate Answers(line: Line, p: Poll) {
    && IsServerRequest(p) && Get(p.incoming.value, "method").value.Str?
    && line.Answer? && line.request == Get(p.incoming.value, "id").value
    && Befits(Get(p.incoming.value, "method").value.s, line.body)
  }

  /** The server requests among `polls` that can be answered, in order. */
  function Askings(polls: seq<Poll>, pending: Option<nat>): seq<Poll> {
    if polls == [] then []
    else
      var last := polls[|polls| - 1];
      Askings(polls[..|polls| - 1], pending) + if IsServerRequest(last) && Answerable(last, pending) then [last] else []
  }

  ghost predicate AllAnswered(lines: seq<Line>, polls: seq<Poll>) {
    |lines| == |polls| && forall k :: 0 <= k < |lines| ==> Answers(lines[k], polls[k])
  }

  lemma AnswerFits(p: Poll, pending: Option<nat>)
    ensures AllAnswered(AnswersAt(p, pending), if IsServerRequest(p) && Answerable(p, pending) then [p] else [])
  {
    hide BodyFor, Befits;
    if IsServerRequest(p) && Answerable(p, pending) { BodyBefits(Get(p.incoming.value, "method").value.s); }
  }

  lemma {:induction false} AnswersFit(polls: seq<Poll>, pending: Option<nat>)
    ensures AllAnswered(AnswersIn(polls, pending), Askings(polls, pending))
  {
    hide AnswersAt, Answers, IsServerRequest, Answerable;
    if polls != [] {
      AnswersFit(polls[..|polls| - 1], pending);
      AnswerFits(polls[|polls| - 1], pending);
    }
  }

  /** What a turn writes: its own request, then exactly one befitting answer per request it reads that can be
      answered, in order. What it sends: the updates of what it reads, without a turn count until its start is
      answered and told. */
  lemma TurnTranscript(polls: seq<Poll>, id: nat, turnCount: nat)
    ensures var lines, first := RunTurnLines(true, polls, id), |Askings(ReadBefore(polls, id), Some(id))|;
      && 1 + first <= |lines| && lines[0] == Call(id, "turn/start")
      && AllAnswered(lines[1..1 + first], Askings(ReadBefore(polls, id), Some(id)))
      && AllAnswered(lines[1 + first..], Askings(ReadAfter(polls, id), None))
    ensures RunTurnUpdates(true, polls, id, turnCount) ==
            UpdatesIn(ReadBefore(polls, id), Some(id), None) +
            if RequestResult(polls, id).Err? then []
            else
              [Emission("session_started", None, Some(turnCount))] +
              UpdatesIn(ReadAfter(polls, id), None, Some(turnCount))
  {
    hide AnswersIn, UpdatesIn, Askings, RequestSpan, RequestResult, TurnSpan, AllAnswered;
    var before, after := ReadBefore(polls, id), ReadAfter(polls, id);
    var lines, first, second := RunTurnLines(true, polls, id), AnswersIn(before, Some(id)), AnswersIn(after, None);
    AnswersFit(before, Some(id));
    AnswersFit(after, None);
    NothingRead(None);
    assert lines == [Call(id, "turn/start")] + first + second;
    SameLength(first, Askings(before, Some(id)));
    assert lines[1..1 + |first|] == first && lines[1 + |first|..] == second;
  }

  lemma SameLength(lines: seq<Line>, polls: seq<Poll>)
    requires AllAnswered(lines, polls)
    ensures |lines| == |polls|
  {
  }

  /** The handshake: two requests around a notice, with one befitting answer per request read in between. */
  lemma StartTranscript(polls: seq<Poll>, id: nat)
    ensures var rest := polls[RequestSpan(polls, id)..];
      var lines, n := StartLines(polls, id), |Askings(polls[..RequestSpan(polls, id)], Some(id))|;
      && 1 + n <= |lines| && lines[0] == Call(id, "initialize")
      && AllAnswered(lines[1..1 + n], Askings(polls[..RequestSpan(polls, id)], Some(id)))
      && (RequestResult(polls, id).Err? ==> |lines| == 1 + n)
      && (RequestResult(polls, id).Ok? ==>
            && 3 + n <= |lines| && lines[1 + n] == Notice("initialized") && lines[2 + n] == Call(id + 1, "thread/start")
            && AllAnswered(lines[3 + n..], Askings(rest[..RequestSpan(rest, id + 1)], Some(id + 1))))
  {
    hide AnswersIn, Askings, RequestSpan, RequestResult, AllAnswered;
    var rest := polls[RequestSpan(polls, id)..];
    var lines := StartLines(polls, id);
    var first := AnswersIn(polls[..RequestSpan(polls, id)], Some(id));
    var second := AnswersIn(rest[..RequestSpan(rest, id + 1)], Some(id + 1));
    AnswersFit(polls[..RequestSpan(polls, id)], Some(id));
    AnswersFit(rest[..RequestSpan(rest, id + 1)], Some(id + 1));
    SameLength(first, Askings(polls[..RequestSpan(polls, id)], Some(id)));
    assert lines[1..1 + |first|] == first;
    if RequestResult(polls, id).Ok? { assert lines[3 + |first|..] == second; }
  }

  /** The handshake gives the thread id that the second response names, nested or flat, if it names one. */
  lemma ThreadMeans(polls: seq<Poll>, id: nat)
    ensures var first, rest := RequestResult(polls, id), polls[RequestSpan(polls, id)..];
      var second := RequestResult(rest, id + 1);
      && (StartResult(polls, id).Ok? <==> first.Ok? && second.Ok?)
      && (first.Err? ==> StartResult(polls, id) == Err(first.error))
      && (first.Ok? && second.Err? ==> StartResult(polls, id) == Err(second.error))
      && (first.Ok? && second.Ok? ==>
            var v := second.value;
            var nested := if Get(v, "thread").Some? then OptStr(Get(Get(v, "thread").value, "id")) else None;
            StartResult(polls, id) == Ok(if nested.Some? then nested else OptStr(Get(v, "threadId"))))
  {
    hide RequestResult, RequestSpan, Get, ExtractString;
    var second := RequestResult(polls[RequestSpan(polls, id)..], id + 1);
    if second.Ok? { NestedOrFlat(second.value, "thread", "id", "threadId"); }
  }

  // ---------------------------------------------------------------- verdicts and updates

  /** Nothing is decided for a pending request, or for a turn if there is none. */
  predicate GoesOn(p: Poll, pending: Option<nat>) {
    match pending
    case Some(id) => RequestVerdict(p, id).None?
    case None => TurnVerdict(p).None?
  }

  /** The request or the turn ends with this error. */
  predicate EndsWith(p: Poll, pending: Option<nat>, e: Error) {
    match pending
    case Some(id) => RequestVerdict(p, id) == Some(Err(e))
    case None => TurnVerdict(p) == Some(Err(e))
  }

  const KNOWN_NOTIFICATIONS := [
    "turn/completed", "turn/failed", "turn/cancelled", "thread/tokenUsage/updated", "account/rateLimits/updated"
  ]

  ghost predicate IsNotification(v: Value, name: string) {
    Get(v, "method") == Some(Str(name)) && Get(v, "id").None?
  }

  /** Notifications: a completion ends a turn well and a pending request not at all, a failure or cancellation ends
      either; completions, failures and usage reports carry the counts found in their parameters. */
  lemma NotificationMeans(v: Value, name: string, pending: Option<nat>, turnCount: Option<nat>)
    requires IsNotification(v, name)
    ensures var p, sent := Message(v), UpdatesAt(Message(v), pending, turnCount);
      var counts := ExtractTokens(Get(v, "params").GetOr(Null));
      && (name == "turn/completed" ==>
            && sent == [Emission("turn_completed", counts, turnCount)]
            && (if pending.Some? then GoesOn(p, pending) else TurnVerdict(p) == Some(Ok(()))))
      && (name == "turn/failed" ==>
            sent == [Emission("turn_failed", counts, turnCount)] && EndsWith(p, pending, TurnFailed))
      && (name == "turn/cancelled" ==>
            sent == [Emission("turn_cancelled", None, turnCount)] && EndsWith(p, pending, TurnCancelled))
      && (name == "thread/tokenUsage/updated" ==>
            sent == [Emission("notification", counts, turnCount)] && GoesOn(p, pending))
      && (name == "account/rateLimits/updated" ==>
            sent == [Emission("notification", None, turnCount)] && GoesOn(p, pending))
      && (name !in KNOWN_NOTIFICATIONS ==> sent == [Emission("other_message", None, turnCount)] && GoesOn(p, pending))
  {
    hide ExtractTokens, Get;
    var names := KNOWN_NOTIFICATIONS;
    assert names[0] in names && names[1] in names && names[2] in names && names[3] in names && names[4] in names;
  }

  /** Server requests: only a question to the user ends what waits; approvals, questions and calls of unknown tools
      are told. */
  lemma ServerRequestMeans(v: Value, name: string, pending: Option<nat>, turnCount: Option<nat>)
    requires Get(v, "method") == Some(Str(name)) && Get(v, "id").Some?
    requires pending.Some? ==> !Responds(v, pending.value)
    ensures var p, sent := Message(v), UpdatesAt(Message(v), pending, turnCount);
      && (name in QUESTIONS ==>
            sent == [Emission("turn_input_required", None, turnCount)] && EndsWith(p, pending, TurnInputRequired))
      && (name !in QUESTIONS ==> GoesOn(p, pending))
      && (name in APPROVALS ==> sent == [Emission("approval_auto_approved", None, turnCount)])
      && (name == "item/tool/call" ==>
            sent == if OptStr(Get(Get(v, "params").GetOr(Null), "tool")) == Some("linear_graphql") then []
                    else [Emission("unsupported_tool_call", None, None)])
      && (name !in QUESTIONS && name !in APPROVALS && name != "item/tool/call" ==> sent == [])
  {
    NamesMean(name);
    RequestNamesDiffer(name);
    hide AsksApproval, AsksUser, Get, Responds;
  }

  /** The response to the pending request settles it; anything else without a string for a method is passed over,
      unless it has an id and a method of another kind. */
  lemma OtherMessageMeans(v: Value, pending: Option<nat>, turnCount: Option<nat>)
    ensures var p, sent := Message(v), UpdatesAt(Message(v), pending, turnCount);
      if pending.Some? && OptU64(Get(v, "id")) == pending then
        && sent == []
        && RequestVerdict(p, pending.value) ==
           Some(if Get(v, "result").Some? then Ok(Get(v, "result").value) else Err(ResponseError))
      else if Get(v, "method").Some? && !Get(v, "method").value.Str? && Get(v, "id").Some? then
        sent == [] && EndsWith(p, pending, ResponseError)
      else if Get(v, "method").None? || !Get(v, "method").value.Str? then
        sent == [] && GoesOn(p, pending)
      else true
  {
    hide Get;
  }

  /** What is no message: time running out, the token, a line that is no JSON, the error stream, a closed stream. */
  lemma StreamMeans(line: string, pending: Option<nat>, turnCount: Option<nat>)
    ensures EndsWith(Elapsed, pending, if pending.Some? then ResponseTimeout else TurnTimeout)
    ensures if pending.Some? then GoesOn(CancelSeen, pending) else EndsWith(CancelSeen, pending, TurnCancelled)
    ensures UpdatesAt(Elapsed, pending, turnCount) == UpdatesAt(CancelSeen, pending, turnCount) == []
    ensures GoesOn(Got(StdoutMalformed(line)), pending) && GoesOn(Got(Stderr(line)), pending)
    ensures UpdatesAt(Got(StdoutMalformed(line)), pending, turnCount) == [Emission("malformed", None, turnCount)]
    ensures UpdatesAt(Got(Stderr(line)), pending, turnCount) == [Emission("notification", None, turnCount)]
    ensures EndsWith(Got(StreamClosed(Exited)), pending, PortExit)
    ensures EndsWith(Got(StreamClosed(WaitFailed)), pending, ChildError)
    ensures GoesOn(Got(StreamClosed(Alive)), pending)
    ensures forall status :: UpdatesAt(Got(StreamClosed(status)), pending, turnCount) == []
  {
  }

  /** The start of the turn is answered at `a`, and the time of the turn runs out at `b` with nothing decisive
      before. */
  ghost predicate RunsOut(polls: seq<Poll>, id: nat, a: int, b: int) {
    DecidesRequest(polls, id, a) && IsGoodResponse(polls[a], id) && DecidesTurn(polls, a + 1, b) && polls[b] == Elapsed
  }

  /** A turn times out exactly when its own time runs out; running out of time for the answer to its start is
      another error. */
  lemma TimeoutMeans(polls: seq<Poll>, id: nat)
    ensures RunTurnResult(true, polls, id) == Err(TurnTimeout) <==> exists a, b :: RunsOut(polls, id, a, b)
  {
    hide RequestVerdict, TurnVerdict, IsGoodResponse, RunTurnResult;
    if RunTurnResult(true, polls, id) == Err(TurnTimeout) { var _, _ := TimeoutIsWitnessed(polls, id); }
    forall a, b | RunsOut(polls, id, a, b) ensures RunTurnResult(true, polls, id) == Err(TurnTimeout) {
      WitnessTimesOut(polls, id, a, b);
    }
  }

  lemma TimeoutIsWitnessed(polls: seq<Poll>, id: nat) returns (a: int, b: int)
    requires RunTurnResult(true, polls, id) == Err(TurnTimeout)
    ensures RunsOut(polls, id, a, b)
  {
    hide RequestVerdict, TurnVerdict, IsGoodResponse;
    NoRequestTimesOutTheTurn(polls, id);
    RequestMatchesId(polls, id);
    a :| DecidesRequest(polls, id, a) && IsGoodResponse(polls[a], id);
    RequestIsFirstVerdict(polls, id);
    b := TimeoutPosition(polls, a + 1);
    OnlyTimeTimesOut(polls[b]);
  }

  lemma {:induction false} TimeoutPosition(polls: seq<Poll>, from: nat) returns (b: int)
    requires from <= |polls| && TurnResult(polls[from..]) == Err(TurnTimeout)
    ensures DecidesTurn(polls, from, b) && TurnVerdict(polls[b]) == Some(Err(TurnTimeout))
    decreases |polls| - from
  {
    hide TurnVerdict;
    assert from < |polls| by { assert polls[|polls|..] == []; }
    assert polls[from..][0] == polls[from] && polls[from..][1..] == polls[from + 1..];
    if TurnVerdict(polls[from]).Some? {
      b := from;
    } else {
      b := TimeoutPosition(polls, from + 1);
    }
  }

  lemma {:induction false} NoRequestTimesOutTheTurn(polls: seq<Poll>, id: nat)
    ensures RequestResult(polls, id) != Err(TurnTimeout)
  {
    hide RequestVerdict;
    if polls != [] {
      OnlyTimeFailsSo(polls[0], id);
      NoRequestTimesOutTheTurn(polls[1..], id);
    }
  }

  lemma OnlyTimeFailsSo(p: Poll, id: nat)
    ensures RequestVerdict(p, id) != Some(Err(TurnTimeout))
  {
  }

  lemma OnlyTimeTimesOut(p: Poll)
    ensures TurnVerdict(p) == Some(Err(TurnTimeout)) <==> p == Elapsed
  {
  }

  lemma WitnessTimesOut(polls: seq<Poll>, id: nat, a: int, b: int)
    requires RunsOut(polls, id, a, b)
    ensures RunTurnResult(true, polls, id) == Err(TurnTimeout)
  {
    hide RequestVerdict, TurnVerdict, IsGoodResponse;
    RequestIsFirstVerdict(polls, id);
    GoodResponseDecides(polls[a], id);
    TurnIsFirstVerdict(polls, a + 1);
    OnlyTimeTimesOut(polls[b]);
  }
}
