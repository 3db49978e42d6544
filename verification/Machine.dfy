/** The orchestrator's handlers as functions on one world state.

    A `World` holds the fields of `OrchestratorState` and, below them, what surrounds the event loop: the
    identifiers whose workspace it asked to be removed, sleeping retry timers, the two channels, one record per
    spawned worker and the set of cancelled tokens. `faults` records each time a handler takes a path the design
    rules out; `marks` keeps, per issue, what happened to its attempts. Neither influences a handler. */
module Machine {
  import opened Text
  import opened Types
  import Backoff

  datatype StopReason = Terminal | NonActive | Stall

  datatype Live = Live(
    sessionId: Option<string>,
    lastEvent: Option<string>,
    lastTimestamp: Option<int>,
    lastMessage: Option<string>,
    current: Tokens,
    reported: Tokens,
    turnCount: nat)

  const FRESH_LIVE := Live(None, None, None, None, NO_TOKENS, NO_TOKENS, 0)

  datatype Recent = Recent(at: int, event: string, message: string)

  const RECENT_EVENT_LIMIT: nat := 20

  /** `RunningRuntime`; `worker` is the identity of the worker task and of its token. */
  datatype Running = Running(
    issueId: Id,
    identifier: string,
    issue: Issue,
    attempt: Option<nat>,
    startedAt: int,
    live: Live,
    recent: seq<Recent>,
    lastError: Option<string>,
    worker: nat,
    stopReason: Option<StopReason>)

  /** `RetryRuntimeEntry`; `handle` is the identity of the sleeping timer task. */
  datatype Retry = Retry(
    issueId: Id,
    identifier: string,
    attempt: nat,
    dueAt: int,
    error: Option<string>,
    handle: nat)

  datatype Event = Progress(update: Update) | Finished(outcome: Outcome)

  /** A queued worker event with the worker that sent it. */
  datatype Stamped = Stamped(worker: nat, event: Event)

  datatype Phase = Working | Ended | Done

  /** One spawned worker: `Ended` while its `Finished` is queued, `Done` once that is handled. */
  datatype Session = Session(
    id: Id,
    identifier: string,
    attempt: Option<nat>,
    phase: Phase,
    sent: seq<Update>,
    seen: seq<Update>)

  datatype Mark = Fresh | Clean | Setback

  datatype Fault =
    | AbortedTimer
    | StaleWakeup
    | ReplacedWorker
    | DroppedUpdate
    | ForeignUpdate
    | StrayFinish
    | ForeignFinish
    | UnexplainedCancel

  datatype World = World(
    config: Config,
    running: map<Id, Running>,
    claimed: set<Id>,
    retries: map<Id, Retry>,
    totals: Tokens,
    refreshQueued: bool,
    cleanups: seq<string>,
    timers: map<nat, Id>,
    nextTimer: nat,
    wakeups: seq<Id>,
    events: seq<Stamped>,
    sessions: seq<Session>,
    cancelled: set<nat>,
    marks: map<Id, seq<Mark>>,
    faults: set<Fault>)

  function Init(config: Config): World {
    World(config, map[], {}, map[], NO_TOKENS, false, [], map[], 0, [], [], [], {}, map[], {})
  }

  // ---------------------------------------------------------------- claims and retries

  /** The moves below touch claims, retries and timers; who runs, and what was counted, stays. */
  ghost predicate SameRuns(a: World, b: World) {
    && b.config == a.config && b.running == a.running && b.totals == a.totals
    && b.sessions == a.sessions && b.events == a.events && b.cancelled == a.cancelled
    && b.cleanups == a.cleanups && b.refreshQueued == a.refreshQueued
  }

  /** The guard every map insertion and removal shares: a retry entry that is still there is aborted. */
  function AbortRetry(w: World, id: Id): (t: World)
    ensures SameRuns(w, t) && w.faults <= t.faults && id !in t.retries
  {
    if id in w.retries then
      w.(retries := w.retries - {id},
         timers := w.timers - {w.retries[id].handle},
         faults := w.faults + {AbortedTimer})
    else w
  }

  function ReleaseClaim(w: World, id: Id): (t: World)
    ensures SameRuns(w, t) && w.faults <= t.faults && id !in t.retries && id !in t.claimed
  {
    AbortRetry(w, id).(claimed := w.claimed - {id})
  }

  function ScheduleRetry(w: World, id: Id, identifier: string, attempt: nat, error: Option<string>, delayMs: nat,
                         now: int): (t: World)
    ensures SameRuns(w, t) && w.faults <= t.faults && id in t.retries && id in t.claimed
  {
    var a := AbortRetry(w, id);
    a.(claimed := a.claimed + {id},
       timers := a.timers[a.nextTimer := id],
       nextTimer := a.nextTimer + 1,
       retries := a.retries[id := Retry(id, identifier, attempt, now + Backoff.AsI64(delayMs), error, a.nextTimer)])
  }

  function Delay(w: World, attempt: nat): nat {
    Backoff.RetryDelayMs(attempt, w.config.maxBackoffMs)
  }

  function Marked(w: World, id: Id, mark: Mark): (t: World)
    ensures SameRuns(w, t) && t.faults == w.faults && t.retries == w.retries
  {
    w.(marks := w.marks[id := (if id in w.marks then w.marks[id] else []) + [mark]])
  }

  /** A setback: the issue waits for its next attempt. */
  function Requeue(w: World, id: Id, identifier: string, attempt: nat, error: Option<string>, now: int): (t: World)
    ensures SameRuns(w, t) && w.faults <= t.faults && id in t.retries && id in t.claimed
  {
    ScheduleRetry(Marked(w, id, Setback), id, identifier, attempt, error, Delay(w, attempt), now)
  }

  // ---------------------------------------------------------------- dispatch

  function Slots(w: World): nat {
    SaturatingSub(w.config.maxAgents, |w.running|)
  }

  function InState(running: map<Id, Running>, state: string): set<Id> {
    set id | id in running && Normalize(running[id].issue.state) == state
  }

  function StateCount(running: map<Id, Running>, state: string): nat {
    |InState(running, state)|
  }

  predicate Blocked(config: Config, issue: Issue) {
    && Normalize(issue.state) == "todo"
    && exists i :: 0 <= i < |issue.blockedBy|
         && (issue.blockedBy[i].state.None? || !config.IsTerminal(issue.blockedBy[i].state.value))
  }

  /** The checks of `should_dispatch` that no dispatch of another issue can change. */
  predicate Eligible(w: World, issue: Issue, allowed: Option<Id>) {
    && issue.id != "" && issue.identifier != "" && issue.title != "" && issue.state != ""
    && w.config.IsActive(issue.state) && !w.config.IsTerminal(issue.state)
    && issue.id !in w.running
    && (issue.id !in w.claimed || allowed == Some(issue.id))
    && !Blocked(w.config, issue)
  }

  predicate StateHasRoom(w: World, state: string) {
    StateCount(w.running, Normalize(state)) < w.config.Limit(Normalize(state))
  }

  predicate ShouldDispatch(w: World, issue: Issue, allowed: Option<Id>) {
    Eligible(w, issue, allowed) && Slots(w) > 0 && StateHasRoom(w, issue.state)
  }

  function NewRunning(issue: Issue, attempt: Option<nat>, now: int, worker: nat): Running {
    Running(issue.id, issue.identifier, issue, attempt, now, FRESH_LIVE, [], None, worker, None)
  }

  /** A new worker and its row. */
  function Launch(w: World, issue: Issue, attempt: Option<nat>, now: int): World {
    w.(sessions := w.sessions + [Session(issue.id, issue.identifier, attempt, Working, [], [])],
       claimed := w.claimed + {issue.id},
       running := w.running[issue.id := NewRunning(issue, attempt, now, |w.sessions|)],
       marks := if attempt.None? then w.marks[issue.id := [Fresh]] else w.marks,
       faults := w.faults + if issue.id in w.running then {ReplacedWorker} else {})
  }

  function Dispatch(w: World, issue: Issue, attempt: Option<nat>, now: int): World {
    Launch(AbortRetry(w, issue.id), issue, attempt, now)
  }

  /** The dispatch loop of `run_tick` over candidates that are already sorted. */
  function DispatchAll(w: World, issues: seq<Issue>, now: int): World
    decreases |issues|
  {
    if issues == [] || Slots(w) == 0 then w
    else if ShouldDispatch(w, issues[0], None) then
      DispatchAll(Dispatch(w, issues[0], None, now), issues[1..], now)
    else
      DispatchAll(w, issues[1..], now)
  }

  // ---------------------------------------------------------------- reconcile

  /** `cancel_running_issue` on one entry: the first reason stays. */
  function Stopped(r: Running, reason: StopReason): Running {
    r.(stopReason := if r.stopReason.None? then Some(reason) else r.stopReason)
  }

  function CancelRunning(w: World, id: Id, reason: StopReason): World {
    if id in w.running then
      w.(running := w.running[id := Stopped(w.running[id], reason)],
         cancelled := w.cancelled + {w.running[id].worker})
    else w
  }

  predicate Stalled(config: Config, r: Running, now: int) {
    && config.stallTimeoutMs > 0
    && now - r.live.lastTimestamp.GetOr(r.startedAt) > config.stallTimeoutMs
  }

  function ReconcileStalled(w: World, now: int): World {
    w.(running := map id | id in w.running ::
                    if Stalled(w.config, w.running[id], now) then Stopped(w.running[id], Stall) else w.running[id],
       cancelled := w.cancelled +
                    set id | id in w.running && Stalled(w.config, w.running[id], now) :: w.running[id].worker)
  }

  /** The answer for `id` in a list collected into a map: the last one wins. */
  function Answer(answers: seq<Issue>, id: Id): (a: Option<Issue>)
    ensures a.Some? ==> a.value.id == id && a.value in answers
    ensures a.None? ==> forall i :: 0 <= i < |answers| ==> answers[i].id != id
  {
    if answers == [] then None
    else if answers[|answers| - 1].id == id then Some(answers[|answers| - 1])
    else Answer(answers[..|answers| - 1], id)
  }

  datatype Verdict = Keep | Replace(issue: Issue) | Stop(reason: StopReason)

  function Judge(config: Config, answer: Option<Issue>): Verdict {
    match answer
    case None => Keep
    case Some(issue) =>
      if config.IsTerminal(issue.state) then Stop(Terminal)
      else if config.IsActive(issue.state) then Replace(issue)
      else Stop(NonActive)
  }

  function Judged(r: Running, verdict: Verdict): Running {
    match verdict
    case Keep => r
    case Replace(issue) => r.(issue := issue)
    case Stop(reason) => Stopped(r, reason)
  }

  function ReconcileStates(w: World, answers: seq<Issue>): World {
    w.(running := map id | id in w.running :: Judged(w.running[id], Judge(w.config, Answer(answers, id))),
       cancelled := w.cancelled +
                    set id | id in w.running && Judge(w.config, Answer(answers, id)).Stop? :: w.running[id].worker)
  }

  /** `None` stands for a tracker that failed. */
  function Reconcile(w: World, now: int, answers: Option<seq<Issue>>): World {
    var stalled := ReconcileStalled(w, now);
    if answers.None? then stalled else ReconcileStates(stalled, answers.value)
  }

  // ---------------------------------------------------------------- worker events

  /** The events that set `last_error`. */
  predicate IsFailureEvent(event: string) {
    event == "turn_failed" || event == "turn_cancelled" || event == "turn_input_required" || event == "startup_failed"
  }

  function LastN<T>(s: seq<T>, n: nat): seq<T> {
    if |s| <= n then s else s[|s| - n..]
  }

  function ToRecent(u: Update): Recent {
    Recent(u.at, u.event, u.message.GetOr(""))
  }

  function Absorb(r: Running, u: Update): Running {
    var live := r.live.(
      sessionId := u.sessionId,
      lastEvent := Some(u.event),
      lastTimestamp := Some(u.at),
      lastMessage := if u.message.Some? then u.message else r.live.lastMessage,
      current := u.tokens.GetOr(r.live.current),
      reported := u.tokens.GetOr(r.live.reported),
      turnCount := u.turnCount.GetOr(r.live.turnCount));
    r.(live := live,
       recent := LastN(r.recent + [ToRecent(u)], RECENT_EVENT_LIMIT),
       lastError := if IsFailureEvent(u.event) then Some(u.message.GetOr("")) else r.lastError)
  }

  function ApplyUpdate(w: World, worker: nat, u: Update): World {
    if u.issueId !in w.running then w.(faults := w.faults + {DroppedUpdate})
    else
      var r := w.running[u.issueId];
      w.(running := w.running[u.issueId := Absorb(r, u)],
         totals := if u.tokens.Some? then w.totals.Plus(u.tokens.value.Minus(r.live.reported)) else w.totals,
         sessions := if worker < |w.sessions|
                     then w.sessions[worker := w.sessions[worker].(seen := w.sessions[worker].seen + [u])]
                     else w.sessions,
         faults := w.faults + if r.worker != worker then {ForeignUpdate} else {})
  }

  /** `cleanup_workspace` is asked for. */
  function CleanUp(w: World, identifier: string): World {
    w.(cleanups := w.cleanups + [identifier])
  }

  function NextAttempt(attempt: Option<nat>): nat {
    match attempt case Some(n) => n + 1 case None => 1
  }

  const CONTINUATION_DELAY_MS: nat := 1000

  /** `handle_worker_finished` after the running entry `r` was taken out. */
  function Settle(w: World, r: Running, o: Outcome, now: int): World {
    var id, next := o.issue.id, NextAttempt(r.attempt);
    match r.stopReason
    case Some(Terminal) => ReleaseClaim(CleanUp(w, o.issue.identifier), id)
    case Some(NonActive) => ReleaseClaim(w, id)
    case Some(Stall) => Requeue(w, id, o.issue.identifier, next, Some("stalled session"), now)
    case None =>
      match o.exit
      case Succeeded => ScheduleRetry(Marked(w, id, Clean), id, o.issue.identifier, 1, None, CONTINUATION_DELAY_MS, now)
      case TimedOut => Requeue(w, id, o.issue.identifier, next, Some("worker turn timeout"), now)
      case Canceled =>
        var odd := w.(faults := w.faults + {UnexplainedCancel});
        Requeue(odd, id, o.issue.identifier, next, Some("worker canceled"), now)
      case Failed => Requeue(w, id, o.issue.identifier, next, o.error, now)
  }

  /** `running.remove` and the end of the sender's record. */
  function TakeOut(w: World, worker: nat, id: Id): World {
    w.(running := w.running - {id},
       sessions := if worker < |w.sessions|
                   then w.sessions[worker := w.sessions[worker].(phase := Done)] else w.sessions,
       faults := w.faults +
                 (if id !in w.running then {StrayFinish}
                  else if w.running[id].worker != worker then {ForeignFinish} else {}))
  }

  function FinishWorker(w: World, worker: nat, o: Outcome, now: int): World {
    var out := TakeOut(w, worker, o.issue.id);
    if o.issue.id in w.running then Settle(out, w.running[o.issue.id], o, now) else out
  }

  function HandleEvent(w: World, e: Stamped, now: int): World {
    match e.event
    case Progress(u) => ApplyUpdate(w, e.worker, u)
    case Finished(o) => FinishWorker(w, e.worker, o, now)
  }

  // ---------------------------------------------------------------- retry wake-ups

  /** `Iterator::find` by id. */
  function FindCandidate(issues: seq<Issue>, id: Id): (found: Option<Issue>)
    ensures found.Some? ==> found.value.id == id && found.value in issues
    ensures found.None? ==> forall i :: 0 <= i < |issues| ==> issues[i].id != id
  {
    if issues == [] then None else if issues[0].id == id then Some(issues[0]) else FindCandidate(issues[1..], id)
  }

  const NO_SLOTS_ERROR := "no available orchestrator slots"

  /** `handle_retry_due` after the entry `retry` was taken out. */
  function Resume(w: World, id: Id, retry: Retry, candidates: Option<seq<Issue>>, pollError: string, now: int): World {
    var next := retry.attempt + 1;
    if candidates.None? then
      Requeue(w, id, retry.identifier, next, Some("retry poll failed: " + pollError), now)
    else
      match FindCandidate(candidates.value, id)
      case None => ReleaseClaim(w, id)
      case Some(issue) =>
        if Slots(w) == 0 || !ShouldDispatch(w, issue, Some(id)) then
          Requeue(w, issue.id, issue.identifier, next, Some(NO_SLOTS_ERROR), now)
        else
          Dispatch(w, issue, Some(retry.attempt), now)
  }

  function RetryDue(w: World, id: Id, candidates: Option<seq<Issue>>, pollError: string, now: int): World {
    if id !in w.retries then w.(faults := w.faults + {StaleWakeup})
    else Resume(w.(retries := w.retries - {id}), id, w.retries[id], candidates, pollError, now)
  }
}
