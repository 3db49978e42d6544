/** The orchestrator as the source writes it: handlers that update their maps in place. Each is proved to move the
    world exactly as the function of the same step does, so all that is proved of runs holds of it. */
module Orchestrator {
  import opened Types
  import opened Machine
  import opened Steps
  import Invariant
  import Runs
  import D = Dispatching

  datatype DebugRow = DebugRow(issueId: Id, isRunning: bool, restartCount: nat, retryAttempt: Option<nat>)

  /** `apply_absolute_tokens`. */
  method ApplyAbsoluteTokens(live: Live, totals: Tokens, latest: Tokens) returns (live': Live, totals': Tokens)
    ensures live' == live.(current := latest, reported := latest)
    ensures totals' == totals.Plus(latest.Minus(live.reported))
  {
    var deltaInput := SaturatingSub(latest.input, live.reported.input);
    var deltaOutput := SaturatingSub(latest.output, live.reported.output);
    var deltaTotal := SaturatingSub(latest.total, live.reported.total);
    live' := live.(current := latest, reported := latest);
    totals' := Tokens(totals.input + deltaInput, totals.output + deltaOutput, totals.total + deltaTotal);
  }

  /** What `apply_session_update` does to the running entry and the totals. */
  method AbsorbUpdate(entry: Running, totals: Tokens, u: Update) returns (r: Running, totals': Tokens)
    ensures r == Absorb(entry, u)
    ensures totals' == if u.tokens.Some? then totals.Plus(u.tokens.value.Minus(entry.live.reported)) else totals
  {
    var live := entry.live;
    totals' := totals;
    if u.message.Some? { live := live.(lastMessage := u.message); }
    live := live.(lastEvent := Some(u.event), lastTimestamp := Some(u.at), sessionId := u.sessionId);
    if u.turnCount.Some? { live := live.(turnCount := u.turnCount.value); }
    if u.tokens.Some? { live, totals' := ApplyAbsoluteTokens(live, totals, u.tokens.value); }
    var message := u.message.GetOr("");
    var recent := entry.recent + [Recent(u.at, u.event, message)];
    if |recent| > RECENT_EVENT_LIMIT {
      var drain := |recent| - RECENT_EVENT_LIMIT;
      recent := recent[drain..];
    }
    r := entry.(live := live, recent := recent);
    if IsFailureEvent(u.event) { r := r.(lastError := Some(message)); }
  }

  /** `running` with the ids in `done` stopped as stalled. */
  function StopAll(running: map<Id, Running>, done: set<Id>): map<Id, Running> {
    map id | id in running :: if id in done then Stopped(running[id], Stall) else running[id]
  }

  /** `running` with the ids in `done` treated as the tracker's answers say. */
  function JudgeAll(config: Config, running: map<Id, Running>, answers: seq<Issue>, done: set<Id>): map<Id, Running> {
    map id | id in running ::
      if id in done then Judged(running[id], Judge(config, Answer(answers, id))) else running[id]
  }

  function TokensOf(running: map<Id, Running>, ids: set<Id>): set<nat> {
    set id | id in ids && id in running :: running[id].worker
  }

  function StalledIds(w: World, now: int): set<Id> {
    set id | id in w.running && Stalled(w.config, w.running[id], now)
  }

  function StoppedIds(w: World, answers: seq<Issue>, done: set<Id>): set<Id> {
    set id | id in w.running && id in done && Judge(w.config, Answer(answers, id)).Stop?
  }

  lemma TokensOfOneMore(running: map<Id, Running>, ids: set<Id>, id: Id)
    requires id in running
    ensures TokensOf(running, ids + {id}) == TokensOf(running, ids) + {running[id].worker}
  {
  }

  lemma StopOneMore(running: map<Id, Running>, done: set<Id>, id: Id)
    requires id in running && id !in done
    ensures id in StopAll(running, done) && StopAll(running, done)[id] == running[id]
    ensures StopAll(running, done)[id := Stopped(running[id], Stall)] == StopAll(running, done + {id})
  {
  }

  lemma JudgeOneMore(config: Config, running: map<Id, Running>, answers: seq<Issue>, done: set<Id>, id: Id)
    requires id in running && id !in done
    ensures id in JudgeAll(config, running, answers, done) &&
            JudgeAll(config, running, answers, done)[id] == running[id]
    ensures JudgeAll(config, running, answers, done)[id := Judged(running[id], Judge(config, Answer(answers, id)))]
            == JudgeAll(config, running, answers, done + {id})
  {
  }

  lemma StoppedOneMore(w: World, answers: seq<Issue>, done: set<Id>, id: Id)
    requires id in w.running
    ensures StoppedIds(w, answers, done + {id}) ==
            StoppedIds(w, answers, done) + if Judge(w.config, Answer(answers, id)).Stop? then {id} else {}
  {
  }

  lemma StalledAreRunning(w: World, now: int)
    ensures StalledIds(w, now) <= w.running.Keys
    ensures w.config.stallTimeoutMs <= 0 ==> StalledIds(w, now) == {}
  {
  }

  lemma StalledAsSets(w: World, now: int)
    ensures ReconcileStalled(w, now) ==
            w.(running := StopAll(w.running, StalledIds(w, now)),
               cancelled := w.cancelled + TokensOf(w.running, StalledIds(w, now)))
  {
  }

  lemma StatesAsSets(w: World, answers: seq<Issue>)
    ensures ReconcileStates(w, answers) ==
            w.(running := JudgeAll(w.config, w.running, answers, w.running.Keys),
               cancelled := w.cancelled + TokensOf(w.running, StoppedIds(w, answers, w.running.Keys)))
  {
    hide Judge, Judged;
  }

  function RunningNames(running: map<Id, Running>, ids: set<Id>): set<string> {
    set id | id in ids && id in running :: running[id].identifier
  }

  function RetryNames(retries: map<Id, Retry>, ids: set<Id>): set<string> {
    set id | id in ids && id in retries :: retries[id].identifier
  }

  lemma NoNames(running: map<Id, Running>, retries: map<Id, Retry>)
    ensures RunningNames(running, {}) == {} && RetryNames(retries, {}) == {}
  {
  }

  lemma RunningNamesOneMore(running: map<Id, Running>, ids: set<Id>, id: Id)
    requires id in running
    ensures RunningNames(running, ids + {id}) == RunningNames(running, ids) + {running[id].identifier}
  {
  }

  lemma RetryNamesOneMore(retries: map<Id, Retry>, ids: set<Id>, id: Id)
    requires id in retries
    ensures RetryNames(retries, ids + {id}) == RetryNames(retries, ids) + {retries[id].identifier}
  {
  }

  function AttemptOf(retries: map<Id, Retry>, id: Id): Option<nat> {
    if id in retries then Some(retries[id].attempt) else None
  }

  ghost predicate IsRunningRow(running: map<Id, Running>, retries: map<Id, Retry>, key: string, row: DebugRow) {
    && row.isRunning && row.retryAttempt == AttemptOf(retries, row.issueId)
    && row.issueId in running && running[row.issueId].identifier == key
    && row.restartCount == running[row.issueId].attempt.GetOr(0)
  }

  ghost predicate IsRetryRow(retries: map<Id, Retry>, key: string, row: DebugRow) {
    && !row.isRunning
    && row.issueId in retries && retries[row.issueId].identifier == key
    && row.retryAttempt == Some(retries[row.issueId].attempt) == Some(row.restartCount + 1)
  }

  lemma RowFacts(w: World)
    requires Invariant.Inv(w)
    ensures forall id :: id in w.running ==> w.running[id].issueId == id && id !in w.retries
    ensures forall id :: id in w.retries ==> w.retries[id].issueId == id && w.retries[id].attempt >= 1
  {
  }

  lemma NothingDone(w: World, answers: seq<Issue>)
    ensures StopAll(w.running, {}) == w.running
    ensures JudgeAll(w.config, w.running, answers, {}) == w.running
    ensures TokensOf(w.running, {}) == {} && StoppedIds(w, answers, {}) == {}
  {
  }

  class Service {
    // OrchestratorState
    var config: Config
    var running: map<Id, Running>
    var claimed: set<Id>
    var retryAttempts: map<Id, Retry>
    var codexTotals: Tokens
    var refreshQueued: bool

    // the runtime around it: workspaces asked to be removed, sleeping timers, channels, spawned workers, their tokens
    var cleanups: seq<string>
    var timers: map<nat, Id>
    var nextTimer: nat
    var wakeups: seq<Id>
    var events: seq<Stamped>
    var sessions: seq<Session>
    var cancelled: set<nat>

    // history
    var marks: map<Id, seq<Mark>>
    var faults: set<Fault>

    function View(): World
      reads this
    {
      World(config, running, claimed, retryAttempts, codexTotals, refreshQueued, cleanups,
            timers, nextTimer, wakeups, events, sessions, cancelled, marks, faults)
    }

    constructor (config: Config)
      ensures View() == Init(config)
    {
      this.config, running, claimed, retryAttempts := config, map[], {}, map[];
      codexTotals, refreshQueued := NO_TOKENS, false;
      cleanups, timers, nextTimer, wakeups, events, sessions, cancelled := [], map[], 0, [], [], [], {};
      marks, faults := map[], {};
    }

    method CancelRunningIssue(id: Id, reason: StopReason)
      modifies `running, `cancelled
      ensures View() == CancelRunning(old(View()), id, reason)
    {
      if id in running {
        var r := running[id];
        if r.stopReason.None? {
          running := running[id := r.(stopReason := Some(reason))];
        } else {
          running := running[id := r];
        }
        cancelled := cancelled + {r.worker};
      }
    }

    method DropRetry(id: Id)
      modifies `retryAttempts, `timers, `faults
      ensures View() == AbortRetry(old(View()), id)
    {
      if id in retryAttempts {
        var handle := retryAttempts[id].handle;
        retryAttempts := retryAttempts - {id};
        timers := timers - {handle};
        faults := faults + {AbortedTimer};
      }
    }

    method ReleaseIssue(id: Id)
      modifies `claimed, `retryAttempts, `timers, `faults
      ensures View() == ReleaseClaim(old(View()), id)
    {
      claimed := claimed - {id};
      DropRetry(id);
    }

    method QueueRetry(id: Id, identifier: string, attempt: nat, error: Option<string>, delayMs: nat, now: int)
      modifies `claimed, `retryAttempts, `timers, `nextTimer, `faults
      ensures View() == ScheduleRetry(old(View()), id, identifier, attempt, error, delayMs, now)
    {
      DropRetry(id);
      claimed := claimed + {id};
      var dueAt := now + Machine.Backoff.AsI64(delayMs);
      var handle := nextTimer;
      timers, nextTimer := timers[handle := id], nextTimer + 1;
      retryAttempts := retryAttempts[id := Retry(id, identifier, attempt, dueAt, error, handle)];
    }

    method Note(id: Id, mark: Mark)
      modifies `marks
      ensures View() == Marked(old(View()), id, mark)
    {
      marks := marks[id := (if id in marks then marks[id] else []) + [mark]];
    }

    method DispatchIssue(issue: Issue, attempt: Option<nat>, now: int)
      modifies `running, `claimed, `retryAttempts, `timers, `sessions, `marks, `faults
      ensures View() == Dispatch(old(View()), issue, attempt, now)
    {
      hide AbortRetry, Launch;
      DropRetry(issue.id);
      LaunchWorker(issue, attempt, now);
    }

    /** The part of `dispatch_issue` after the abort. */
    method LaunchWorker(issue: Issue, attempt: Option<nat>, now: int)
      modifies `running, `claimed, `sessions, `marks, `faults
      ensures View() == Launch(old(View()), issue, attempt, now)
    {
      hide NewRunning;
      NoteLaunch(issue.id, attempt);
      var worker := SpawnWorker(issue, attempt);
      claimed, running := claimed + {issue.id}, running[issue.id := NewRunning(issue, attempt, now, worker)];
    }

    /** `spawn_worker`: the identity of the new task and its token. */
    method SpawnWorker(issue: Issue, attempt: Option<nat>) returns (worker: nat)
      modifies `sessions
      ensures worker == |old(sessions)|
      ensures sessions == old(sessions) + [Session(issue.id, issue.identifier, attempt, Working, [], [])]
    {
      worker := |sessions|;
      sessions := sessions + [Session(issue.id, issue.identifier, attempt, Working, [], [])];
    }

    /** History only. */
    method NoteLaunch(id: Id, attempt: Option<nat>)
      modifies `marks, `faults
      ensures marks == if attempt.None? then old(marks)[id := [Fresh]] else old(marks)
      ensures faults == old(faults) + if id in running then {ReplacedWorker} else {}
    {
      if attempt.None? { marks := marks[id := [Fresh]]; }
      faults := faults + if id in running then {ReplacedWorker} else {};
    }

    /** History only. */
    method NoteSeen(worker: nat, u: Update, mine: bool)
      modifies `sessions, `faults
      ensures sessions == if worker < |old(sessions)|
                          then old(sessions)[worker := old(sessions)[worker].(seen := old(sessions)[worker].seen + [u])]
                          else old(sessions)
      ensures faults == old(faults) + if mine then {} else {ForeignUpdate}
    {
      if worker < |sessions| {
        sessions := sessions[worker := sessions[worker].(seen := sessions[worker].seen + [u])];
      }
      faults := faults + if mine then {} else {ForeignUpdate};
    }

    method ApplySessionUpdate(worker: nat, u: Update)
      modifies `running, `codexTotals, `sessions, `faults
      ensures View() == ApplyUpdate(old(View()), worker, u)
    {
      hide Absorb;
      if u.issueId !in running {
        faults := faults + {DroppedUpdate};
        return;
      }
      var r := running[u.issueId];
      NoteSeen(worker, u, r.worker == worker);
      r, codexTotals := AbsorbUpdate(r, codexTotals, u);
      running := running[u.issueId := r];
    }

    method HandleWorkerFinished(worker: nat, o: Outcome, now: int)
      modifies this
      ensures View() == FinishWorker(old(View()), worker, o, now)
    {
      hide Settle;
      var id := o.issue.id;
      if worker < |sessions| { sessions := sessions[worker := sessions[worker].(phase := Done)]; }
      if id !in running {
        faults := faults + {StrayFinish};
        assert running - {id} == running;
        return;
      }
      var r := running[id];
      if r.worker != worker { faults := faults + {ForeignFinish}; }
      running := running - {id};
      assert View() == TakeOut(old(View()), worker, id);
      SettleOutcome(r, o, now);
    }

    method SettleOutcome(r: Running, o: Outcome, now: int)
      modifies `cleanups, `claimed, `retryAttempts, `timers, `nextTimer, `marks, `faults
      ensures View() == Settle(old(View()), r, o, now)
    {
      hide ScheduleRetry, ReleaseClaim, Requeue;
      var id := o.issue.id;
      var next := if r.attempt.Some? then r.attempt.value + 1 else 1;
      match r.stopReason {
        case Some(Terminal) =>
          cleanups := cleanups + [o.issue.identifier];
          ReleaseIssue(id);
        case Some(NonActive) => ReleaseIssue(id);
        case Some(Stall) => RequeueIssue(id, o.issue.identifier, next, Some("stalled session"), now);
        case None =>
          match o.exit {
            case Succeeded =>
              Note(id, Clean);
              QueueRetry(id, o.issue.identifier, 1, None, CONTINUATION_DELAY_MS, now);
            case TimedOut => RequeueIssue(id, o.issue.identifier, next, Some("worker turn timeout"), now);
            case Canceled =>
              faults := faults + {UnexplainedCancel};
              RequeueIssue(id, o.issue.identifier, next, Some("worker canceled"), now);
            case Failed => RequeueIssue(id, o.issue.identifier, next, o.error, now);
          }
      }
    }

    method RequeueIssue(id: Id, identifier: string, attempt: nat, error: Option<string>, now: int)
      modifies `claimed, `retryAttempts, `timers, `nextTimer, `marks, `faults
      ensures View() == Requeue(old(View()), id, identifier, attempt, error, now)
    {
      hide ScheduleRetry;
      var delayMs := Machine.Backoff.RetryDelayMs(attempt, config.maxBackoffMs);
      Note(id, Setback);
      QueueRetry(id, identifier, attempt, error, delayMs, now);
    }

    method HandleRetryDue(id: Id, candidates: Option<seq<Issue>>, pollError: string, now: int)
      modifies this
      ensures View() == RetryDue(old(View()), id, candidates, pollError, now)
    {
      hide Resume;
      if id !in retryAttempts {
        faults := faults + {StaleWakeup};
        return;
      }
      var retry := retryAttempts[id];
      retryAttempts := retryAttempts - {id};
      ResumeIssue(id, retry, candidates, pollError, now);
    }

    /** The rest of `handle_retry_due`, with the entry in hand. */
    method ResumeIssue(id: Id, retry: Retry, candidates: Option<seq<Issue>>, pollError: string, now: int)
      modifies this
      ensures View() == Resume(old(View()), id, retry, candidates, pollError, now)
    {
      hide Requeue, ReleaseClaim, Dispatch, ShouldDispatch, Slots;
      if candidates.None? {
        RequeueIssue(id, retry.identifier, retry.attempt + 1, Some("retry poll failed: " + pollError), now);
        return;
      }
      var found := FindCandidate(candidates.value, id);
      if found.None? {
        ReleaseIssue(id);
        return;
      }
      var issue := found.value;
      if Slots(View()) == 0 || !ShouldDispatch(View(), issue, Some(id)) {
        RequeueIssue(issue.id, issue.identifier, retry.attempt + 1, Some(NO_SLOTS_ERROR), now);
        return;
      }
      DispatchIssue(issue, Some(retry.attempt), now);
    }

    /** `reconcile_stalled_runs`; the map is walked in any order. */
    method ReconcileStalledRuns(now: int)
      modifies this
      ensures View() == ReconcileStalled(old(View()), now)
    {
      hide StopAll, TokensOf, StalledIds, Stopped, ReconcileStalled;
      ghost var start, all := View(), StalledIds(View(), now);
      StalledAsSets(start, now);
      StalledAreRunning(start, now);
      NothingDone(start, []);
      assert start.cancelled + {} == start.cancelled;
      if config.stallTimeoutMs <= 0 { return; }
      var stalled := CollectStalled(now);
      assert all - stalled == {};
      while stalled != {}
        invariant stalled <= all
        invariant View() == start.(running := StopAll(start.running, all - stalled),
                                   cancelled := start.cancelled + TokensOf(start.running, all - stalled))
        decreases stalled
      {
        var id :| id in stalled;
        ghost var done := all - stalled;
        stalled := stalled - {id};
        assert all - stalled == done + {id};
        StopOneMore(start.running, done, id);
        TokensOfOneMore(start.running, done, id);
        CancelRunningIssue(id, Stall);
      }
      assert all - {} == all;
    }

    method CollectStalled(now: int) returns (stalled: set<Id>)
      requires config.stallTimeoutMs > 0
      ensures stalled == StalledIds(View(), now)
    {
      stalled := {};
      var todo := running.Keys;
      while todo != {}
        invariant todo <= running.Keys
        invariant stalled == set id | id in running && id !in todo && Stalled(config, running[id], now)
        decreases todo
      {
        var id :| id in todo;
        todo := todo - {id};
        if now - running[id].live.lastTimestamp.GetOr(running[id].startedAt) > config.stallTimeoutMs {
          stalled := stalled + {id};
        }
      }
    }

    /** `reconcile_running_issues`. `answers` is what the tracker returns for the running ids, `None` if it fails. */
    method ReconcileRunningIssues(now: int, answers: Option<seq<Issue>>)
      modifies this
      ensures View() == Reconcile(old(View()), now, answers)
    {
      hide JudgeAll, TokensOf, StoppedIds, ReconcileStates, ReconcileStalled;
      ReconcileStalledRuns(now);
      if answers.None? { return; }
      ghost var start := View();
      StatesAsSets(start, answers.value);
      NothingDone(start, answers.value);
      var todo := running.Keys;
      var byId := Collect(answers.value);
      assert start.running.Keys - todo == {};
      assert start.cancelled + {} == start.cancelled;
      while todo != {}
        invariant todo <= start.running.Keys
        invariant var done := start.running.Keys - todo;
          View() == start.(
            running := JudgeAll(start.config, start.running, answers.value, done),
            cancelled := start.cancelled + TokensOf(start.running, StoppedIds(start, answers.value, done)))
        decreases todo
      {
        var id :| id in todo;
        ghost var done := start.running.Keys - todo;
        todo := todo - {id};
        assert start.running.Keys - todo == done + {id};
        JudgeOneMore(start.config, start.running, answers.value, done, id);
        StoppedOneMore(start, answers.value, done, id);
        TokensOfOneMore(start.running, StoppedIds(start, answers.value, done), id);
        ghost var before := StoppedIds(start, answers.value, done);
        assert before + {} == before;
        FollowAnswer(id, if id in byId then Some(byId[id]) else None);
        assert View().cancelled == start.cancelled +
               TokensOf(start.running, StoppedIds(start, answers.value, done + {id}));
      }
      assert start.running.Keys - {} == start.running.Keys;
    }

    method FollowAnswer(id: Id, answer: Option<Issue>)
      requires id in running
      modifies this
      ensures View() == old(View()).(running := old(running)[id := Judged(old(running)[id], Judge(config, answer))],
                                     cancelled := old(cancelled) +
                                       if Judge(config, answer).Stop? then {old(running)[id].worker} else {})
    {
      if answer.Some? {
        var issue := answer.value;
        if config.IsTerminal(issue.state) {
          CancelRunningIssue(id, Terminal);
        } else if config.IsActive(issue.state) {
          running := running[id := running[id].(issue := issue)];
        } else {
          CancelRunningIssue(id, NonActive);
        }
      }
    }

    /** Collecting into a map: a later issue replaces an earlier one with its id. */
    method Collect(issues: seq<Issue>) returns (byId: map<Id, Issue>)
      ensures forall id :: Answer(issues, id) == if id in byId then Some(byId[id]) else None
    {
      byId := map[];
      for i := 0 to |issues|
        invariant forall id :: Answer(issues[..i], id) == if id in byId then Some(byId[id]) else None
      {
        byId := byId[issues[i].id := issues[i]];
        assert issues[..i + 1][..i] == issues[..i];
      }
      assert issues[..|issues|] == issues;
    }

    method Tick(now: int, answers: Option<seq<Issue>>, candidates: Option<seq<Issue>>)
      modifies this
      ensures View() == RunTick(old(View()), now, answers, candidates)
    {
      ReconcileRunningIssues(now, answers);
      if !config.dispatchable || candidates.None? { return; }
      var issues := D.SortForDispatch(candidates.value);
      ghost var goal := DispatchAll(View(), issues, now);
      var i := 0;
      while i < |issues|
        invariant 0 <= i <= |issues|
        invariant DispatchAll(View(), issues[i..], now) == goal
      {
        if Slots(View()) == 0 { break; }
        assert issues[i..][1..] == issues[i + 1..];
        if ShouldDispatch(View(), issues[i], None) {
          DispatchIssue(issues[i], None, now);
        }
        i := i + 1;
      }
    }

    /** One arm of the `select!` loop, or one move of the runtime around it. */
    method Perform(s: Step)
      requires Enabled(View(), s)
      modifies this
      ensures View() == Apply(old(View()), s)
    {
      hide RunTick, ApplyUpdate, FinishWorker, RetryDue;
      match s {
        case Tick(now, answers, candidates) =>
          Tick(now, answers, candidates);
          refreshQueued := false;
        case WorkerEvent(now) => HandleWorkerEvent(now);
        case RetryWakeup(now, candidates, pollError) =>
          var id := wakeups[0];
          wakeups := wakeups[1..];
          HandleRetryDue(id, candidates, pollError, now);
        case Refresh => refreshQueued := true;
        case Reload(loaded) => if loaded.Some? { config := loaded.value; }
        case _ => Surroundings(s);
      }
    }

    method HandleWorkerEvent(now: int)
      requires events != []
      modifies this
      ensures View() == Apply(old(View()), WorkerEvent(now))
    {
      hide ApplyUpdate, FinishWorker;
      var e := events[0];
      events := events[1..];
      match e.event {
        case Progress(u) => ApplySessionUpdate(e.worker, u);
        case Finished(o) => HandleWorkerFinished(e.worker, o, now);
      }
    }

    /** What happens outside the event loop: a timer fires, a worker sends. */
    method Surroundings(s: Step)
      requires Enabled(View(), s) && (s.TimerFires? || s.Emit? || s.Finish?)
      modifies this
      ensures View() == Apply(old(View()), s)
    {
      match s {
        case TimerFires(h) => timers, wakeups := timers - {h}, wakeups + [timers[h]];
        case Emit(g, u) =>
          sessions := sessions[g := sessions[g].(sent := sessions[g].sent + [u])];
          events := events + [Stamped(g, Progress(u))];
        case Finish(g, o) =>
          sessions := sessions[g := sessions[g].(phase := Ended)];
          events := events + [Stamped(g, Finished(o))];
      }
    }

    /** The event loop over any schedule: the invariant holds whenever control is back at `select!`. */
    method Run(steps: seq<Step>)
      requires Invariant.Inv(View()) && Runs.Legal(View(), steps)
      modifies this
      ensures View() == Runs.Exec(old(View()), steps)
      ensures Invariant.Inv(View())
    {
      hide Invariant.Inv, Enabled, Apply;
      ghost var start := View();
      for i := 0 to |steps|
        invariant Invariant.Inv(View())
        invariant Runs.Legal(View(), steps[i..])
        invariant Runs.Exec(View(), steps[i..]) == Runs.Exec(start, steps)
      {
        assert steps[i..][0] == steps[i] && steps[i..][1..] == steps[i + 1..];
        StepKeeps(View(), steps[i]);
        Perform(steps[i]);
      }
    }

    /** `build_issue_debug_map`: running rows first, a retry row only where no row is yet. */
    method BuildIssueDebugMap() returns (rows: map<string, DebugRow>)
      requires Invariant.Inv(View())
      ensures rows.Keys == RunningNames(running, running.Keys) + RetryNames(retryAttempts, retryAttempts.Keys)
      ensures forall key :: key in rows ==>
                if key in RunningNames(running, running.Keys) then IsRunningRow(running, retryAttempts, key, rows[key])
                else IsRetryRow(retryAttempts, key, rows[key])
      ensures forall key :: key in rows && rows[key].isRunning ==> rows[key].retryAttempt == None
    {
      RowFacts(View());
      hide Invariant.Inv;
      rows := RunningRows();
      rows := AddRetryRows(rows);
    }

    method RunningRows() returns (rows: map<string, DebugRow>)
      requires forall id :: id in running ==> running[id].issueId == id
      ensures rows.Keys == RunningNames(running, running.Keys)
      ensures forall key :: key in rows ==> IsRunningRow(running, retryAttempts, key, rows[key])
    {
      hide RunningNames;
      rows := map[];
      var todo := running.Keys;
      NoNames(running, retryAttempts);
      assert running.Keys - todo == {};
      while todo != {}
        invariant todo <= running.Keys
        invariant rows.Keys == RunningNames(running, running.Keys - todo)
        invariant forall key :: key in rows ==> IsRunningRow(running, retryAttempts, key, rows[key])
        decreases todo
      {
        var id :| id in todo;
        ghost var done := running.Keys - todo;
        todo := todo - {id};
        assert running.Keys - todo == done + {id};
        RunningNamesOneMore(running, done, id);
        var r := running[id];
        var row := DebugRow(r.issueId, true, r.attempt.GetOr(0), AttemptOf(retryAttempts, r.issueId));
        rows := rows[r.identifier := row];
      }
      assert running.Keys - {} == running.Keys;
    }

    method AddRetryRows(busy: map<string, DebugRow>) returns (rows: map<string, DebugRow>)
      requires forall id :: id in retryAttempts ==> retryAttempts[id].issueId == id && retryAttempts[id].attempt >= 1
      ensures rows.Keys == busy.Keys + RetryNames(retryAttempts, retryAttempts.Keys)
      ensures forall key :: key in rows ==>
                if key in busy then rows[key] == busy[key] else IsRetryRow(retryAttempts, key, rows[key])
    {
      hide RetryNames;
      rows := busy;
      var todo := retryAttempts.Keys;
      NoNames(running, retryAttempts);
      assert retryAttempts.Keys - todo == {};
      while todo != {}
        invariant todo <= retryAttempts.Keys
        invariant rows.Keys == busy.Keys + RetryNames(retryAttempts, retryAttempts.Keys - todo)
        invariant forall key :: key in rows ==>
                    if key in busy then rows[key] == busy[key] else IsRetryRow(retryAttempts, key, rows[key])
        decreases todo
      {
        var id :| id in todo;
        ghost var done := retryAttempts.Keys - todo;
        todo := todo - {id};
        assert retryAttempts.Keys - todo == done + {id};
        RetryNamesOneMore(retryAttempts, done, id);
        var retry := retryAttempts[id];
        if retry.identifier !in rows {
          var row := DebugRow(retry.issueId, false, SaturatingSub(retry.attempt, 1), Some(retry.attempt));
          rows := rows[retry.identifier := row];
        }
      }
      assert retryAttempts.Keys - {} == retryAttempts.Keys;
    }
  }
}
