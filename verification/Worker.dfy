/** The worker of one issue: turns in one session until the issue is no longer active, the cap is reached, or
    something goes wrong. */
module Worker {
  import opened Types
  import opened Session
  import opened Machine
  import D = Dispatching
  import Runs
  import Steps

  datatype Refresh = Answered(issues: seq<Issue>) | TrackerFailed

  /** What surrounds one turn: the first prompt's rendering, the messages that arrive, whether the token was
      cancelled by the time the turn ended, and the tracker's answer. */
  datatype Turn = Turn(promptRenders: bool, arrivals: seq<Poll>, cancelled: bool, refresh: Refresh)

  /** How one turn ended. */
  datatype TurnEnd =
    | NoPrompt
    | Broke(error: Error, cancelled: bool)
    | Interrupted
    | NoRefresh
    | Refreshed(issues: seq<Issue>)

  function EndOf(result: Result<()>, cancelled: bool, refresh: Refresh): TurnEnd {
    match result
    case Err(e) => Broke(e, cancelled)
    case Ok(_) =>
      if cancelled then Interrupted
      else match refresh case TrackerFailed => NoRefresh case Answered(issues) => Refreshed(issues)
  }

  /** `is_cancelled` once the turn has read `read`: a token that was seen cancelled stays cancelled. */
  function TokenRead(turn: Turn, read: seq<Poll>): bool {
    turn.cancelled || CancelSeen in read
  }

  /** `issues.pop()`: the last answer replaces the issue. */
  function After(issue: Issue, end: TurnEnd): Issue {
    if end.Refreshed? && end.issues != [] then end.issues[|end.issues| - 1] else issue
  }

  predicate GoesOn(config: Config, issue: Issue, end: TurnEnd, n: nat) {
    end.Refreshed? && config.IsActive(After(issue, end).state) && n < config.maxTurns
  }

  /** How turn `n` ends, given the messages already waiting and the id of its request. */
  function EndAt(hasThread: bool, inbox: seq<Poll>, id: nat, turn: Turn, n: nat): TurnEnd {
    if n == 1 && !turn.promptRenders then NoPrompt
    else
      var polls := inbox + turn.arrivals;
      var rest := RunTurnRest(hasThread, polls, id);
      EndOf(RunTurnResult(hasThread, polls, id), TokenRead(turn, polls[..|polls| - |rest|]), turn.refresh)
  }

  /** The turn loop of `run_issue_worker` from turn `n` on. */
  function Trace(config: Config, issue: Issue, hasThread: bool, inbox: seq<Poll>, id: nat, turns: seq<Turn>,
                 n: nat): (ends: seq<TurnEnd>)
    requires n >= 1 && |turns| >= n && |turns| >= config.maxTurns
    ensures ends != []
    decreases SaturatingSub(config.maxTurns, n)
  {
    var turn := turns[n - 1];
    var end := EndAt(hasThread, inbox, id, turn, n);
    if GoesOn(config, issue, end, n) then
      var rest := RunTurnRest(hasThread, inbox + turn.arrivals, id);
      [end] + Trace(config, After(issue, end), hasThread, rest, id + 1, turns, n + 1)
    else [end]
  }

  /** The issue as it stands after `i` turns. */
  function IssueAt(issue: Issue, ends: seq<TurnEnd>, i: nat): Issue
    requires i <= |ends|
  {
    if i == 0 then issue else After(IssueAt(issue, ends, i - 1), ends[i - 1])
  }

  function ExitOf(end: TurnEnd): Exit {
    match end
    case NoPrompt => Failed
    case Broke(e, cancelled) => if cancelled then Canceled else if e == TurnTimeout then TimedOut else Failed
    case Interrupted => Canceled
    case NoRefresh => Failed
    case Refreshed(_) => Succeeded
  }

  /** The code at the front of an error's text. */
  function ErrorCode(e: Error): string {
    match e
    case ResponseTimeout => "response_timeout"
    case PortExit => "port_exit"
    case ResponseError => "response_error"
    case ChildError => "io"
    case TurnTimeout => "turn_timeout"
    case TurnCancelled => "turn_cancelled"
    case TurnFailed => "turn_failed"
    case TurnInputRequired => "turn_input_required"
  }

  /** The codes, one by one. */
  lemma CodesMean()
    ensures ErrorCode(ResponseTimeout) == "response_timeout" && ErrorCode(ResponseError) == "response_error"
    ensures ErrorCode(PortExit) == "port_exit" && ErrorCode(ChildError) == "io"
    ensures ErrorCode(TurnTimeout) == "turn_timeout" && ErrorCode(TurnCancelled) == "turn_cancelled"
    ensures ErrorCode(TurnFailed) == "turn_failed" && ErrorCode(TurnInputRequired) == "turn_input_required"
  {
  }

  function ErrorOf(end: TurnEnd): Option<string> {
    match end
    case NoPrompt => Some("template_render_error")
    case Broke(e, _) => Some(ErrorCode(e))
    case Interrupted => Some("worker canceled")
    case NoRefresh => Some("linear_api_request")
    case Refreshed(_) => None
  }

  function OutcomeOf(issue: Issue, ends: seq<TurnEnd>): Outcome
    requires ends != []
  {
    Outcome(IssueAt(issue, ends, |ends|), ExitOf(ends[|ends| - 1]), ErrorOf(ends[|ends| - 1]), |ends|)
  }

  // ---------------------------------------------------------------- what a trace says

  /** Every turn but the last is followed by another; the last one is not. Turns number `from`, `from + 1`, ... */
  ghost predicate WellEnded(config: Config, issue: Issue, ends: seq<TurnEnd>, from: nat) {
    && ends != []
    && (forall i :: 0 <= i < |ends| - 1 ==> GoesOn(config, IssueAt(issue, ends, i), ends[i], from + i))
    && !GoesOn(config, IssueAt(issue, ends, |ends| - 1), ends[|ends| - 1], from + |ends| - 1)
  }

  lemma {:induction false} TraceIsWellEnded(config: Config, issue: Issue, hasThread: bool, inbox: seq<Poll>, id: nat,
                                            turns: seq<Turn>, n: nat)
    requires n >= 1 && |turns| >= n && |turns| >= config.maxTurns
    ensures WellEnded(config, issue, Trace(config, issue, hasThread, inbox, id, turns, n), n)
    ensures n + |Trace(config, issue, hasThread, inbox, id, turns, n)| - 1 <= Larger(n, config.maxTurns)
    decreases SaturatingSub(config.maxTurns, n)
  {
    hide GoesOn, EndAt, RunTurnRest, After;
    var turn := turns[n - 1];
    var end := EndAt(hasThread, inbox, id, turn, n);
    if GoesOn(config, issue, end, n) {
      MoreTurnsLeft(config, issue, end, n);
      var next, rest := After(issue, end), RunTurnRest(hasThread, inbox + turn.arrivals, id);
      TraceIsWellEnded(config, next, hasThread, rest, id + 1, turns, n + 1);
      PrependWellEnded(config, issue, end, Trace(config, next, hasThread, rest, id + 1, turns, n + 1), n);
    } else {
      assert Trace(config, issue, hasThread, inbox, id, turns, n) == [end];
    }
  }

  function Larger(a: nat, b: nat): nat {
    if a < b then b else a
  }

  lemma MoreTurnsLeft(config: Config, issue: Issue, end: TurnEnd, n: nat)
    requires GoesOn(config, issue, end, n)
    ensures n < config.maxTurns
  {
  }

  lemma {:induction false} IssueAtShift(issue: Issue, end: TurnEnd, rest: seq<TurnEnd>, i: nat)
    requires i <= |rest|
    ensures IssueAt(issue, [end] + rest, i + 1) == IssueAt(After(issue, end), rest, i)
  {
    hide After;
    if i > 0 { IssueAtShift(issue, end, rest, i - 1); }
  }

  lemma {:induction false} IssueAtPrefix(issue: Issue, ends: seq<TurnEnd>, more: seq<TurnEnd>, i: nat)
    requires i <= |ends|
    ensures IssueAt(issue, ends + more, i) == IssueAt(issue, ends, i)
  {
    hide After;
    if i > 0 { IssueAtPrefix(issue, ends, more, i - 1); }
  }

  lemma PrependWellEnded(config: Config, issue: Issue, end: TurnEnd, rest: seq<TurnEnd>, n: nat)
    requires GoesOn(config, issue, end, n) && WellEnded(config, After(issue, end), rest, n + 1)
    ensures WellEnded(config, issue, [end] + rest, n)
  {
    hide GoesOn, After;
    var ends := [end] + rest;
    forall i | 0 <= i < |ends| - 1 ensures GoesOn(config, IssueAt(issue, ends, i), ends[i], n + i) {
      if i > 0 {
        IssueAtShift(issue, end, rest, i - 1);
        assert GoesOn(config, IssueAt(After(issue, end), rest, i - 1), rest[i - 1], n + 1 + (i - 1));
      }
    }
    IssueAtShift(issue, end, rest, |rest| - 1);
  }

  /** The loop ends within the cap, but runs at least once. */
  lemma TurnsAreCapped(config: Config, issue: Issue, hasThread: bool, inbox: seq<Poll>, id: nat, turns: seq<Turn>)
    requires |turns| >= 1 && |turns| >= config.maxTurns
    ensures var o := OutcomeOf(issue, Trace(config, issue, hasThread, inbox, id, turns, 1));
      1 <= o.turnCount <= Larger(1, config.maxTurns)
  {
    TraceIsWellEnded(config, issue, hasThread, inbox, id, turns, 1);
  }

  /** A worker succeeds exactly when its last turn was refreshed; then every turn was, every refresh but the last
      found the issue active, and the last found it inactive or was the last one allowed. */
  lemma SuccessMeans(config: Config, issue: Issue, ends: seq<TurnEnd>)
    requires WellEnded(config, issue, ends, 1)
    ensures OutcomeOf(issue, ends).exit == Succeeded <==>
            && (forall i :: 0 <= i < |ends| ==> ends[i].Refreshed?)
            && (forall i :: 1 <= i < |ends| ==> config.IsActive(IssueAt(issue, ends, i).state))
            && (!config.IsActive(IssueAt(issue, ends, |ends|).state) || |ends| >= config.maxTurns)
  {
    hide Config.IsActive, After;
    forall i | 0 <= i < |ends| - 1 ensures ends[i].Refreshed? {
      assert GoesOn(config, IssueAt(issue, ends, i), ends[i], 1 + i);
    }
    forall i | 1 <= i < |ends| ensures config.IsActive(IssueAt(issue, ends, i).state) {
      assert GoesOn(config, IssueAt(issue, ends, i - 1), ends[i - 1], 1 + (i - 1));
    }
  }

  /** The tracker answers a refresh only with the issue that was asked for. */
  predicate FaithfulTracker(id: Id, ends: seq<TurnEnd>) {
    forall i :: 0 <= i < |ends| && ends[i].Refreshed? ==>
      forall k :: 0 <= k < |ends[i].issues| ==> ends[i].issues[k].id == id
  }

  lemma {:induction false} IdentityKept(issue: Issue, ends: seq<TurnEnd>, i: nat)
    requires FaithfulTracker(issue.id, ends) && i <= |ends|
    ensures IssueAt(issue, ends, i).id == issue.id
  {
    if i > 0 { IdentityKept(issue, ends, i - 1); }
  }

  /** The token read as cancelled when the last turn ended. */
  predicate SawCancel(ends: seq<TurnEnd>) {
    ends != [] && var last := ends[|ends| - 1]; last.Interrupted? || (last.Broke? && last.cancelled)
  }

  /** What the orchestrator relies on: a worker keeps its issue and reports `Canceled` only if it saw its token
      cancelled. */
  lemma OutcomeMeetsContract(issue: Issue, ends: seq<TurnEnd>)
    requires ends != [] && FaithfulTracker(issue.id, ends)
    ensures Steps.WorkerContract(issue.id, SawCancel(ends), OutcomeOf(issue, ends))
    ensures OutcomeOf(issue, ends).exit == Canceled <==> SawCancel(ends)
  {
    IdentityKept(issue, ends, |ends|);
  }

  /** A turn ends as `Canceled` exactly when its token was cancelled by its end, or was seen so while it read. */
  lemma SeenCancelEnds(hasThread: bool, inbox: seq<Poll>, id: nat, turn: Turn, n: nat)
    requires n > 1 || turn.promptRenders
    ensures var polls := inbox + turn.arrivals;
      var read := polls[..|polls| - |RunTurnRest(hasThread, polls, id)|];
      ExitOf(EndAt(hasThread, inbox, id, turn, n)) == Canceled <==> turn.cancelled || CancelSeen in read
  {
    hide RunTurnRest, RunTurnResult;
  }

  /** A turn whose wait is decided by the cancelled token, after its start was answered, fails as cancelled and
      ends its worker as `Canceled`, whatever else is read as the token's state. */
  lemma CancelDecidesTurn(inbox: seq<Poll>, id: nat, turn: Turn, n: nat, a: int, b: int)
    requires n > 1 || turn.promptRenders
    requires var polls := inbox + turn.arrivals;
      && DecidesRequest(polls, id, a) && IsGoodResponse(polls[a], id)
      && DecidesTurn(polls, a + 1, b) && polls[b] == CancelSeen
    ensures RunTurnResult(true, inbox + turn.arrivals, id) == Err(TurnCancelled)
    ensures EndAt(true, inbox, id, turn, n) == Broke(TurnCancelled, true)
    ensures ExitOf(EndAt(true, inbox, id, turn, n)) == Canceled
  {
    hide RequestSpan, RequestResult, TurnSpan, TurnResult, RequestVerdict, IsGoodResponse;
    var polls := inbox + turn.arrivals;
    RequestIsFirstVerdict(polls, id);
    GoodResponseDecides(polls[a], id);
    TurnIsFirstVerdict(polls, a + 1);
    var rest := RunTurnRest(true, polls, id);
    assert |polls| - |rest| == b + 1;
    assert polls[..b + 1][b] == CancelSeen;
  }

  /** A token, once cancelled, stays so over any run. */
  lemma {:induction false} TokensStayCancelled(w: World, steps: seq<Steps.Step>)
    requires Runs.Legal(w, steps)
    ensures w.cancelled <= Runs.Exec(w, steps).cancelled
    decreases |steps|
  {
    hide Steps.Enabled, Steps.Apply;
    if steps != [] {
      StepCancels(w, steps[0]);
      TokensStayCancelled(Steps.Apply(w, steps[0]), steps[1..]);
    }
  }

  lemma StepCancels(w: World, s: Steps.Step)
    requires Steps.Enabled(w, s)
    ensures w.cancelled <= Steps.Apply(w, s).cancelled
  {
    hide FinishWorker, RetryDue, DispatchAll, Reconcile, D.SortForDispatch, Absorb;
    match s
    case Tick(now, answers, candidates) =>
      ReconcileCancels(w, now, answers);
      if candidates.Some? { LoopCancels(Reconcile(w, now, answers), D.SortForDispatch(candidates.value), now); }
    case WorkerEvent(now) =>
      if w.events[0].event.Finished? {
        Runs.FinishFrame(w.(events := w.events[1..]), w.events[0].worker, w.events[0].event.outcome, now);
      }
    case RetryWakeup(now, candidates, pollError) => Runs.WakeupFrame(w, now, candidates, pollError);
    case _ =>
  }

  lemma DispatchCancels(w: World, issue: Issue, attempt: Option<nat>, now: int)
    ensures Dispatch(w, issue, attempt, now).cancelled == w.cancelled
  {
  }

  lemma ReconcileCancels(w: World, now: int, answers: Option<seq<Issue>>)
    ensures w.cancelled <= Reconcile(w, now, answers).cancelled
  {
    hide Stalled, Judge, Judged, Stopped;
  }

  lemma {:induction false} LoopCancels(w: World, issues: seq<Issue>, now: int)
    ensures DispatchAll(w, issues, now).cancelled == w.cancelled
    decreases |issues|
  {
    hide ShouldDispatch, Slots, Dispatch;
    if issues != [] && Slots(w) > 0 {
      if ShouldDispatch(w, issues[0], None) {
        DispatchCancels(w, issues[0], None, now);
        LoopCancels(Dispatch(w, issues[0], None, now), issues[1..], now);
      } else {
        LoopCancels(w, issues[1..], now);
      }
    }
  }

  /** What a worker reports is a move the orchestrator allows for: if its reading of the token was true when it was
      made, at `w`, then its outcome may be queued at any later time. */
  lemma WorkerMayFinish(w: World, steps: seq<Steps.Step>, g: nat, issue: Issue, ends: seq<TurnEnd>)
    requires Runs.Legal(w, steps)
    requires ends != [] && FaithfulTracker(issue.id, ends) && (SawCancel(ends) ==> g in w.cancelled)
    ensures var t := Runs.Exec(w, steps);
      g < |t.sessions| && t.sessions[g].phase == Working && t.sessions[g].id == issue.id ==>
        Steps.Enabled(t, Steps.Finish(g, OutcomeOf(issue, ends)))
  {
    hide Runs.Exec, Runs.Legal, SawCancel, OutcomeOf, FaithfulTracker;
    TokensStayCancelled(w, steps);
    OutcomeMeetsContract(issue, ends);
  }

  // ---------------------------------------------------------------- the worker itself

  /** The stages before the first turn that can end a worker. */
  datatype Setup = Ready | SetupFailed(error: string)

  /** `run_issue_worker`. `setup` stands for the workspace and the `before_run` hook. */
  method RunIssueWorker(config: Config, issue: Issue, setup: Setup, session: CodexSession, turns: seq<Turn>)
    returns (outcome: Outcome, ends: seq<TurnEnd>)
    requires session.Valid() && |turns| >= 1 && |turns| >= config.maxTurns
    modifies session
    ensures session.Valid()
    ensures setup.SetupFailed? ==> outcome == Outcome(issue, Failed, Some(setup.error), 0) && ends == []
    ensures setup.Ready? && ends == [] ==> outcome.exit == Failed && outcome.issue == issue && outcome.turnCount == 0
    ensures ends != [] ==> WellEnded(config, issue, ends, 1) && outcome == OutcomeOf(issue, ends)
    ensures FaithfulTracker(issue.id, ends) ==> Steps.WorkerContract(issue.id, SawCancel(ends), outcome)
    ensures var polls, id := old(session.inbox), old(session.nextRequestId);
      setup.Ready? ==>
        match StartResult(polls, id)
        case Err(e) => ends == [] && outcome == Outcome(issue, Failed, Some(ErrorCode(e)), 0)
        case Ok(thread) => ends == Trace(config, issue, thread.Some?, StartRest(polls, id), id + 2, turns, 1)
  {
    hide StartResult, StartRest, StartLines, StartUpdates, Trace, RunTurnRest, Increasing, ClientIds;
    ends := [];
    if setup.SetupFailed? {
      return Outcome(issue, Failed, Some(setup.error), 0), ends;
    }
    var started := session.Start();
    if started.Err? {
      return Outcome(issue, Failed, Some(ErrorCode(started.error)), 0), ends;
    }
    ghost var hadThread, inbox, id := session.threadId.Some?, session.inbox, session.nextRequestId;
    outcome, ends := RunTurns(config, issue, session, turns);
    TraceIsWellEnded(config, issue, hadThread, inbox, id, turns, 1);
    if FaithfulTracker(issue.id, ends) { OutcomeMeetsContract(issue, ends); }
  }

  /** One turn: the prompt, the session, the token, the tracker. */
  method TakeTurn(session: CodexSession, turn: Turn, turnCount: nat)
    returns (end: TurnEnd, exit: Exit, error: Option<string>)
    requires session.Valid()
    modifies session
    ensures session.Valid() && session.threadId == old(session.threadId)
    ensures end == EndAt(session.threadId.Some?, old(session.inbox), old(session.nextRequestId), turn, turnCount)
    ensures exit == ExitOf(end) && error == ErrorOf(end)
    ensures end.Refreshed? ==>
              && session.inbox ==
                 RunTurnRest(session.threadId.Some?, old(session.inbox) + turn.arrivals, old(session.nextRequestId))
              && session.nextRequestId == old(session.nextRequestId) + 1
  {
    hide RunTurnRest, RunTurnLines, RunTurnUpdates, Increasing, ClientIds;
    if turnCount == 1 && !turn.promptRenders {
      return NoPrompt, Failed, Some("template_render_error");
    }
    session.inbox := session.inbox + turn.arrivals;
    var polls := session.inbox;
    var result := session.RunTurn(turnCount);
    var cancelled := TokenRead(turn, polls[..|polls| - |session.inbox|]);
    if result.Err? {
      exit := if cancelled then Canceled else if result.error == TurnTimeout then TimedOut else Failed;
      return Broke(result.error, cancelled), exit, Some(ErrorCode(result.error));
    }
    if cancelled { return Interrupted, Canceled, Some("worker canceled"); }
    match turn.refresh {
      case TrackerFailed => return NoRefresh, Failed, Some("linear_api_request");
      case Answered(issues) => return Refreshed(issues), Succeeded, None;
    }
  }

  lemma NoTurnYet(issue: Issue)
    ensures IssueAt(issue, [], 0) == issue
  {
  }

  lemma LastIssue(issue: Issue, ends: seq<TurnEnd>, end: TurnEnd)
    ensures IssueAt(issue, ends + [end], |ends| + 1) == After(IssueAt(issue, ends, |ends|), end)
  {
    hide After;
    IssueAtPrefix(issue, ends, [end], |ends|);
  }

  lemma TraceStep(config: Config, issue: Issue, hasThread: bool, inbox: seq<Poll>, id: nat, turns: seq<Turn>,
                  ends: seq<TurnEnd>)
    requires |turns| > |ends| && |turns| >= config.maxTurns
    ensures var n, turn := |ends| + 1, turns[|ends|];
      var end := EndAt(hasThread, inbox, id, turn, n);
      ends + Trace(config, issue, hasThread, inbox, id, turns, n) ==
      if GoesOn(config, issue, end, n) then
        ends + [end] + Trace(config, After(issue, end), hasThread, RunTurnRest(hasThread, inbox + turn.arrivals, id),
        id + 1, turns, n + 1)
      else ends + [end]
  {
    hide EndAt, RunTurnRest, After, Config.IsActive;
  }

  /** The turn loop. */
  method RunTurns(config: Config, issue: Issue, session: CodexSession, turns: seq<Turn>)
    returns (outcome: Outcome, ends: seq<TurnEnd>)
    requires session.Valid() && |turns| >= 1 && |turns| >= config.maxTurns
    modifies session
    ensures session.Valid()
    ensures ends == Trace(config, issue, old(session.threadId).Some?, old(session.inbox),
            old(session.nextRequestId), turns, 1)
    ensures outcome == OutcomeOf(issue, ends)
  {
    hide Trace, EndAt, RunTurnRest, ExitOf, ErrorOf, IssueAt, Increasing, ClientIds, Config.IsActive;
    ends := [];
    var current, turnCount := issue, 0;
    NoTurnYet(issue);
    ghost var thread := session.threadId.Some?;
    ghost var goal := Trace(config, issue, thread, session.inbox, session.nextRequestId, turns, 1);
    while true
      invariant session.Valid() && session.threadId.Some? == thread
      invariant turnCount == |ends| && turnCount < |turns| && (turnCount == 0 || turnCount < config.maxTurns)
      invariant goal == ends + Trace(config, current, thread, session.inbox, session.nextRequestId, turns,
                turnCount + 1)
      invariant IssueAt(issue, ends, |ends|) == current
      decreases SaturatingSub(Larger(1, config.maxTurns), turnCount)
    {
      TraceStep(config, current, thread, session.inbox, session.nextRequestId, turns, ends);
      turnCount := turnCount + 1;
      var end, exit, error := TakeTurn(session, turns[turnCount - 1], turnCount);
      LastIssue(issue, ends, end);
      ends := ends + [end];
      match end {
        case Refreshed(issues) => if issues != [] { current := issues[|issues| - 1]; }
        case _ =>
      }
      outcome := Outcome(current, exit, error, turnCount);
      if !end.Refreshed? || !config.IsActive(current.state) || turnCount >= config.maxTurns { break; }
    }
  }
}
