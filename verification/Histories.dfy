/** Properties of whole runs: stop reasons, session lifetimes, attempts and per-state limits. */
module Histories {
  import opened Text
  import opened Types
  import opened Machine
  import opened Invariant
  import opened Steps
  import opened Runs
  import D = Dispatching

  // ---------------------------------------------------------------- what one step does to the rows

  /** A row that is there before and after, for the same worker, keeps its attempt and any stop reason it has. */
  ghost predicate RowsKeep(a: map<Id, Running>, b: map<Id, Running>) {
    forall id :: id in a && id in b && b[id].worker == a[id].worker ==>
      b[id].attempt == a[id].attempt && (a[id].stopReason.Some? ==> b[id].stopReason == a[id].stopReason)
  }

  lemma ReconciledRowsKeep(a: World, b: World)
    requires Reconciled(a, b)
    ensures RowsKeep(a.running, b.running) && b.running.Keys == a.running.Keys
  {
  }

  lemma ReconcileRows(w: World, now: int, answers: Option<seq<Issue>>)
    requires RunningKeyed(w.running)
    ensures RowsKeep(w.running, Reconcile(w, now, answers).running)
    ensures Reconcile(w, now, answers).running.Keys == w.running.Keys
  {
    hide ReconcileStalled, ReconcileStates;
    var stalled := ReconcileStalled(w, now);
    StalledReconciles(w, now);
    ReconciledRowsKeep(w, stalled);
    if answers.Some? {
      StatesReconcile(stalled, answers.value);
      ReconciledRowsKeep(stalled, ReconcileStates(stalled, answers.value));
    }
  }

  lemma TickRows(w: World, now: int, answers: Option<seq<Issue>>, candidates: Option<seq<Issue>>)
    requires RunningKeyed(w.running)
    ensures RowsKeep(w.running, RunTick(w, now, answers, candidates).running)
  {
    hide DispatchAll, D.SortForDispatch, Reconcile;
    ReconcileRows(w, now, answers);
    var r := Reconcile(w, now, answers);
    if candidates.Some? {
      D.LoopStartsOnlyEligible(r, D.SortForDispatch(candidates.value), now);
      assert forall id :: id in w.running ==> id in r.running;
    }
  }

  lemma EventRows(w: World, e: Stamped, now: int)
    ensures RowsKeep(w.running, HandleEvent(w, e, now).running)
  {
    hide FinishWorker, Absorb;
    match e.event
    case Progress(u) => if u.issueId in w.running { AbsorbFrame(w.running[u.issueId], u); }
    case Finished(o) => FinishFrame(w, e.worker, o, now);
  }

  lemma WakeupRows(w: World, now: int, candidates: Option<seq<Issue>>, pollError: string)
    requires w.wakeups != []
    ensures RowsKeep(w.running, Apply(w, RetryWakeup(now, candidates, pollError)).running)
  {
    hide Apply, ShouldDispatch, FindCandidate;
    WakeupFrame(w, now, candidates, pollError);
    var id := w.wakeups[0];
    if id in w.retries && Restarts(w, id, candidates) {
      StartIsNew(w, FindCandidate(candidates.value, id).value, Some(id));
    }
  }

  lemma StartIsNew(w: World, issue: Issue, allowed: Option<Id>)
    requires ShouldDispatch(w, issue, allowed)
    ensures issue.id !in w.running
  {
  }

  lemma StepRows(w: World, s: Step)
    requires Inv(w) && Enabled(w, s)
    ensures RowsKeep(w.running, Apply(w, s).running)
  {
    hide Body, Claims, HandleEvent, RunTick, RowsKeep;
    match s
    case Tick(now, answers, candidates) =>
      assert RunningKeyed(w.running) by { InvRows(w); }
      TickRows(w, now, answers, candidates);
    case WorkerEvent(now) => EventRows(w.(events := w.events[1..]), w.events[0], now);
    case RetryWakeup(now, candidates, pollError) => WakeupRows(w, now, candidates, pollError);
    case _ => SameRowsKeep(w.running);
  }

  lemma SameRowsKeep(running: map<Id, Running>)
    ensures RowsKeep(running, running)
  {
  }

  lemma InvRows(w: World)
    requires Inv(w)
    ensures RunningKeyed(w.running) && Workers(w.running, w.sessions)
  {
  }

  // ---------------------------------------------------------------- what one step does to the sessions

  /** Workers are only added; an issue never changes hands and a finished worker never comes back. */
  ghost predicate SessionsAdvance(a: seq<Session>, b: seq<Session>) {
    && |a| <= |b|
    && forall g :: 0 <= g < |a| ==> b[g].id == a[g].id && (a[g].phase == Done ==> b[g].phase == Done)
  }

  lemma {:induction false} LoopSessions(w: World, issues: seq<Issue>, now: int)
    ensures SessionsAdvance(w.sessions, DispatchAll(w, issues, now).sessions)
    decreases |issues|
  {
    hide ShouldDispatch, Slots;
    if issues != [] && Slots(w) > 0 {
      if ShouldDispatch(w, issues[0], None) {
        var d := Dispatch(w, issues[0], None, now);
        assert SessionsAdvance(w.sessions, d.sessions);
        LoopSessions(d, issues[1..], now);
      } else {
        LoopSessions(w, issues[1..], now);
      }
    }
  }

  lemma EventSessions(w: World, e: Stamped, now: int)
    requires e.worker < |w.sessions| && w.sessions[e.worker].phase != Done
    ensures SessionsAdvance(w.sessions, HandleEvent(w, e, now).sessions)
  {
    hide FinishWorker, Absorb;
    match e.event
    case Progress(u) => if u.issueId in w.running { AbsorbFrame(w.running[u.issueId], u); }
    case Finished(o) => FinishFrame(w, e.worker, o, now);
  }

  lemma StepSessions(w: World, s: Step)
    requires Inv(w) && Enabled(w, s)
    ensures SessionsAdvance(w.sessions, Apply(w, s).sessions)
  {
    hide Wakes, Workers, Faithful, Cancellation, Conserved, Shown, RunningPaid, RetriesPaid, TotalCredit, Claims,
         HandleEvent, Resume, DispatchAll, D.SortForDispatch, Reconcile;
    match s
    case Tick(now, answers, candidates) =>
      var r := Reconcile(w, now, answers);
      assert r.sessions == w.sessions by { ReconcileSessions(w, now, answers); }
      if candidates.Some? { LoopSessions(r, D.SortForDispatch(candidates.value), now); }
    case WorkerEvent(now) => EventSessions(w.(events := w.events[1..]), w.events[0], now);
    case RetryWakeup(now, candidates, pollError) =>
      var id := w.wakeups[0];
      if id in w.retries {
        var out := w.(wakeups := w.wakeups[1..], retries := w.retries - {id});
        ResumeFrame(out, id, w.retries[id], candidates, pollError, now);
        PrefixAdvances(w.sessions, Apply(w, s).sessions);
      }
    case _ =>
  }

  lemma PrefixAdvances(a: seq<Session>, b: seq<Session>)
    requires |a| <= |b| && b[..|a|] == a
    ensures SessionsAdvance(a, b)
  {
    assert forall g :: 0 <= g < |a| ==> b[g] == b[..|a|][g];
  }

  lemma ReconcileSessions(w: World, now: int, answers: Option<seq<Issue>>)
    ensures Reconcile(w, now, answers).sessions == w.sessions
  {
  }

  lemma {:induction false} RunSessions(w: World, steps: seq<Step>)
    requires Inv(w) && Legal(w, steps)
    ensures SessionsAdvance(w.sessions, Exec(w, steps).sessions)
    decreases |steps|
  {
    hide Inv, Enabled, Apply;
    if steps != [] {
      StepSessions(w, steps[0]);
      StepKeeps(w, steps[0]);
      RunSessions(Apply(w, steps[0]), steps[1..]);
    }
  }

  /** From the moment a worker is stopped for a reason until it is done, over any run, its row names that first
      reason and its token stays cancelled. */
  lemma {:induction false} FirstReasonSticks(w: World, steps: seq<Step>, g: nat)
    requires Inv(w) && Legal(w, steps) && g < |w.sessions| && w.sessions[g].phase != Done
    requires w.sessions[g].id in w.running && w.running[w.sessions[g].id].stopReason.Some?
    ensures |w.sessions| <= |Exec(w, steps).sessions|
    ensures var id, t := w.sessions[g].id, Exec(w, steps);
      t.sessions[g].phase != Done ==>
        && id in t.running && t.running[id].worker == g
        && t.running[id].stopReason == w.running[id].stopReason
        && g in t.cancelled
    decreases |steps|
  {
    hide Enabled, Apply, Wakes, Mail, Faithful, Conserved, Shown, RunningPaid, RetriesPaid, TotalCredit, Claims, Exec,
         Legal;
    RunSessions(w, steps);
    ExecUnfolds(w, steps);
    if steps != [] && Exec(w, steps).sessions[g].phase != Done {
      var t := Apply(w, steps[0]);
      StepSessions(w, steps[0]);
      StepRows(w, steps[0]);
      StepKeeps(w, steps[0]);
      RunSessions(t, steps[1..]);
      assert t.sessions[g].phase != Done;
      FirstReasonSticks(t, steps[1..], g);
    }
  }

  lemma ExecUnfolds(w: World, steps: seq<Step>)
    requires Legal(w, steps)
    ensures steps == [] ==> Exec(w, steps) == w
    ensures steps != [] ==> Enabled(w, steps[0]) && Legal(Apply(w, steps[0]), steps[1..])
    ensures steps != [] ==> Exec(w, steps) == Exec(Apply(w, steps[0]), steps[1..])
  {
  }

  // ---------------------------------------------------------------- attempts

  /** `Owed`, read off the history directly: setbacks since the last base, plus what the base starts from. */
  lemma {:induction false} OwedCounts(marks: seq<Mark>, base: nat)
    requires base < |marks| && marks[base] != Setback
    requires forall i :: base < i < |marks| ==> marks[i] == Setback
    ensures Owed(marks) == (if marks[base] == Clean then 1 else 0) + (|marks| - 1 - base)
  {
    if base < |marks| - 1 { OwedCounts(marks[..|marks| - 1], base); }
  }

  /** The last point at which the count began anew. */
  ghost predicate IsBase(marks: seq<Mark>, base: int) {
    0 <= base < |marks| && marks[base] != Setback && forall i :: base < i < |marks| ==> marks[i] == Setback
  }

  lemma {:induction false} HasBase(marks: seq<Mark>)
    requires marks != [] && marks[0] == Fresh
    ensures exists base :: IsBase(marks, base)
  {
    var n := |marks| - 1;
    if marks[n] != Setback {
      assert IsBase(marks, n);
    } else {
      HasBase(marks[..n]);
      var base :| IsBase(marks[..n], base);
      assert IsBase(marks, base);
    }
  }

  /** `attempt` is 0 after a fresh claim or 1 after a clean end, and one more for each setback since. */
  ghost predicate Accounts(marks: seq<Mark>, attempt: nat) {
    exists base :: IsBase(marks, base) && attempt == (if marks[base] == Clean then 1 else 0) + (|marks| - 1 - base)
  }

  lemma OwedAccounts(marks: seq<Mark>)
    requires marks != [] && marks[0] == Fresh
    ensures Accounts(marks, Owed(marks))
  {
    HasBase(marks);
    var base :| IsBase(marks, base);
    OwedCounts(marks, base);
  }

  /** After any run, every retry and every restarted worker bears the attempt its history accounts for, which is at
      least one; a worker without an attempt is on its first claim. */
  lemma AttemptAccounting(config: Config, steps: seq<Step>, id: Id)
    requires Legal(Init(config), steps)
    ensures var w := Exec(Init(config), steps);
      && (id in w.retries ==>
            id in w.marks && w.retries[id].attempt >= 1 && Accounts(w.marks[id], w.retries[id].attempt))
      && (id in w.running && w.running[id].attempt.Some? ==>
            id in w.marks && w.running[id].attempt.value >= 1 && Accounts(w.marks[id], w.running[id].attempt.value))
      && (id in w.running ==> id in w.marks && (w.running[id].attempt.None? <==> w.marks[id] == [Fresh]))
  {
    hide Exec, Legal, Accounts, Owed;
    NoFaultEver(config, steps);
    var w := Exec(Init(config), steps);
    if id in w.running {
      RunningHistory(w, id);
      OwedAccounts(w.marks[id]);
    }
    if id in w.retries {
      RetryHistory(w, id);
      OwedAccounts(w.marks[id]);
    }
  }

  lemma RunningHistory(w: World, id: Id)
    requires Inv(w) && id in w.running
    ensures Paid(w.marks, id, w.running[id].attempt)
  {
  }

  lemma RetryHistory(w: World, id: Id)
    requires Inv(w) && id in w.retries
    ensures Paid(w.marks, id, Some(w.retries[id].attempt))
  {
  }

  /** No attempt exceeds `n`. */
  ghost predicate AttemptsWithin(w: World, n: nat) {
    && (forall id :: id in w.running ==> w.running[id].attempt.GetOr(0) <= n)
    && (forall id :: id in w.retries ==> w.retries[id].attempt <= n)
  }

  lemma {:induction false} LoopAttempts(w: World, issues: seq<Issue>, now: int, n: nat)
    requires AttemptsWithin(w, n)
    ensures AttemptsWithin(DispatchAll(w, issues, now), n)
    decreases |issues|
  {
    hide ShouldDispatch, Slots;
    if issues != [] && Slots(w) > 0 {
      if ShouldDispatch(w, issues[0], None) {
        LoopAttempts(Dispatch(w, issues[0], None, now), issues[1..], now, n);
      } else {
        LoopAttempts(w, issues[1..], now, n);
      }
    }
  }

  lemma ScheduleAttempts(w: World, id: Id, identifier: string, attempt: nat, error: Option<string>, delayMs: nat,
                         now: int, n: nat)
    requires AttemptsWithin(w, n) && attempt <= n
    ensures AttemptsWithin(ScheduleRetry(w, id, identifier, attempt, error, delayMs, now), n)
  {
  }

  lemma QuietAttempts(w: World, id: Id, n: nat)
    requires AttemptsWithin(w, n)
    ensures AttemptsWithin(w, n + 1) && AttemptsWithin(ReleaseClaim(w, id), n + 1)
  {
  }

  lemma CleanUpAttempts(w: World, identifier: string, id: Id, n: nat)
    requires AttemptsWithin(w, n)
    ensures AttemptsWithin(ReleaseClaim(CleanUp(w, identifier), id), n + 1)
  {
  }

  lemma RequeueAttempts(w: World, id: Id, identifier: string, attempt: nat, error: Option<string>, now: int, n: nat)
    requires AttemptsWithin(w, n) && attempt <= n
    ensures AttemptsWithin(Requeue(w, id, identifier, attempt + 1, error, now), n + 1)
  {
    hide Delay, AttemptsWithin, ScheduleRetry;
    MarkedAttempts(w, id, Setback, n);
    ScheduleAttempts(Marked(w, id, Setback), id, identifier, attempt + 1, error, Delay(w, attempt + 1), now, n + 1);
  }

  lemma MarkedAttempts(w: World, id: Id, mark: Mark, n: nat)
    requires AttemptsWithin(w, n)
    ensures AttemptsWithin(Marked(w, id, mark), n + 1)
    ensures AttemptsWithin(w.(faults := w.faults + {UnexplainedCancel}), n)
  {
  }

  lemma SettleAttempts(w: World, r: Running, o: Outcome, now: int, n: nat)
    requires AttemptsWithin(w, n) && r.attempt.GetOr(0) <= n
    ensures AttemptsWithin(Settle(w, r, o, now), n + 1)
  {
    hide ScheduleRetry, ReleaseClaim, Requeue, Marked, AttemptsWithin;
    var id, identifier, past := o.issue.id, o.issue.identifier, r.attempt.GetOr(0);
    QuietAttempts(w, id, n);
    match r.stopReason {
      case Some(Stall) => RequeueAttempts(w, id, identifier, past, Some("stalled session"), now, n);
      case Some(Terminal) => CleanUpAttempts(w, identifier, id, n);
      case Some(NonActive) =>
      case None =>
        match o.exit {
          case Succeeded =>
            MarkedAttempts(w, id, Clean, n);
            ScheduleAttempts(Marked(w, id, Clean), id, identifier, 1, None, CONTINUATION_DELAY_MS, now, n + 1);
          case TimedOut => RequeueAttempts(w, id, identifier, past, Some("worker turn timeout"), now, n);
          case Canceled =>
            MarkedAttempts(w, id, Clean, n);
            var odd := w.(faults := w.faults + {UnexplainedCancel});
            RequeueAttempts(odd, id, identifier, past, Some("worker canceled"), now, n);
          case Failed => RequeueAttempts(w, id, identifier, past, o.error, now, n);
        }
    }
  }

  /** One step raises no attempt by more than one. */
  lemma StepAttempts(w: World, s: Step, n: nat)
    requires Enabled(w, s) && AttemptsWithin(w, n)
    ensures AttemptsWithin(Apply(w, s), n + 1)
  {
    hide DispatchAll, D.SortForDispatch, Reconcile, HandleEvent, RetryDue;
    match s
    case Tick(now, answers, candidates) =>
      ReconcileAttempts(w, now, answers, n);
      if candidates.Some? { LoopAttempts(Reconcile(w, now, answers), D.SortForDispatch(candidates.value), now, n); }
    case WorkerEvent(now) => EventAttempts(w.(events := w.events[1..]), w.events[0], now, n);
    case RetryWakeup(now, candidates, pollError) => WakeupAttempts(w, now, candidates, pollError, n);
    case _ =>
  }

  lemma ReconcileAttempts(w: World, now: int, answers: Option<seq<Issue>>, n: nat)
    requires AttemptsWithin(w, n)
    ensures AttemptsWithin(Reconcile(w, now, answers), n)
  {
    hide Stalled, Judge;
  }

  lemma EventAttempts(w: World, e: Stamped, now: int, n: nat)
    requires AttemptsWithin(w, n)
    ensures AttemptsWithin(HandleEvent(w, e, now), n + 1)
  {
    hide Settle, Absorb;
    match e.event
    case Progress(u) => if u.issueId in w.running { AbsorbFrame(w.running[u.issueId], u); }
    case Finished(o) =>
      if o.issue.id in w.running { SettleAttempts(TakeOut(w, e.worker, o.issue.id), w.running[o.issue.id], o, now, n); }
  }

  lemma DispatchAttempts(w: World, issue: Issue, attempt: nat, now: int, n: nat)
    requires AttemptsWithin(w, n) && attempt <= n
    ensures AttemptsWithin(Dispatch(w, issue, Some(attempt), now), n + 1)
  {
  }

  lemma ResumeAttempts(w: World, id: Id, retry: Retry, candidates: Option<seq<Issue>>, pollError: string, now: int,
                       n: nat)
    requires AttemptsWithin(w, n) && retry.attempt <= n
    ensures AttemptsWithin(Resume(w, id, retry, candidates, pollError, now), n + 1)
  {
    hide Requeue, ReleaseClaim, Dispatch, AttemptsWithin, ShouldDispatch, Slots;
    QuietAttempts(w, id, n);
    RequeueAttempts(w, id, retry.identifier, retry.attempt, Some("retry poll failed: " + pollError), now, n);
    if candidates.Some? && FindCandidate(candidates.value, id).Some? {
      var issue := FindCandidate(candidates.value, id).value;
      RequeueAttempts(w, id, issue.identifier, retry.attempt, Some(NO_SLOTS_ERROR), now, n);
      DispatchAttempts(w, issue, retry.attempt, now, n);
    }
  }

  lemma WakeupAttempts(w: World, now: int, candidates: Option<seq<Issue>>, pollError: string, n: nat)
    requires w.wakeups != [] && AttemptsWithin(w, n)
    ensures AttemptsWithin(Apply(w, RetryWakeup(now, candidates, pollError)), n + 1)
  {
    hide Resume;
    var id := w.wakeups[0];
    if id in w.retries {
      var out := w.(wakeups := w.wakeups[1..], retries := w.retries - {id});
      ResumeAttempts(out, id, w.retries[id], candidates, pollError, now, n);
    }
  }

  /** In a run of fewer than 2^32 steps no attempt counter leaves its 32 bits. */
  lemma {:induction false} AttemptsFit(w: World, steps: seq<Step>, n: nat)
    requires Legal(w, steps) && AttemptsWithin(w, n)
    ensures AttemptsWithin(Exec(w, steps), n + |steps|)
    decreases |steps|
  {
    hide Enabled, Apply, AttemptsWithin;
    if steps != [] {
      StepAttempts(w, steps[0], n);
      AttemptsFit(Apply(w, steps[0]), steps[1..], n + 1);
    }
  }

  lemma NoAttemptOverflow(config: Config, steps: seq<Step>)
    requires Legal(Init(config), steps) && |steps| <= U32_MAX
    ensures AttemptsWithin(Exec(Init(config), steps), U32_MAX)
  {
    AttemptsFit(Init(config), steps, 0);
  }

  // ---------------------------------------------------------------- per-state limits

  /** No step but reconcile's refresh of issue states takes a state over its limit. */
  lemma StateLimits(w: World, s: Step, state: string)
    requires Enabled(w, s)
    ensures var base := if s.Tick? then Reconcile(w, s.now, s.answers).running else w.running;
      StateCount(Apply(w, s).running, state) <= D.Max(StateCount(base, state), w.config.Limit(state))
  {
    hide DispatchAll, HandleEvent, RetryDue, D.SortForDispatch, Reconcile, StateCount, Config.Limit;
    match s
    case Tick(now, answers, candidates) =>
      assert Reconcile(w, now, answers).config == w.config by { ReconcileSize(w, now, answers); }
      if candidates.Some? { D.LoopLimits(Reconcile(w, now, answers), D.SortForDispatch(candidates.value), now, state); }
    case WorkerEvent(now) => EventStates(w.(events := w.events[1..]), w.events[0], now, state);
    case RetryWakeup(now, candidates, pollError) => WakeupConcurrency(w, now, candidates, pollError, state);
    case _ =>
  }

  lemma FewerInState(a: map<Id, Running>, b: map<Id, Running>, state: string)
    requires forall id :: id in b ==> id in a && b[id].issue == a[id].issue
    ensures StateCount(b, state) <= StateCount(a, state)
  {
    hide Normalize;
    Subset(InState(b, state), InState(a, state));
  }

  lemma Subset(a: set<Id>, b: set<Id>)
    requires a <= b
    ensures |a| <= |b|
  {
    assert b == a + (b - a);
  }

  lemma EventStates(w: World, e: Stamped, now: int, state: string)
    ensures StateCount(HandleEvent(w, e, now).running, state) <= StateCount(w.running, state)
  {
    hide FinishWorker, Absorb, StateCount;
    match e.event
    case Progress(u) =>
      if u.issueId in w.running { AbsorbFrame(w.running[u.issueId], u); }
      FewerInState(w.running, HandleEvent(w, e, now).running, state);
    case Finished(o) =>
      FinishFrame(w, e.worker, o, now);
      FewerInState(w.running, HandleEvent(w, e, now).running, state);
  }
}
