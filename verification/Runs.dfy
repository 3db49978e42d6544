/** What is true in every state the service can reach, whatever the tracker, the workers and the clock do. */
module Runs {
  import opened Text
  import opened Types
  import opened Machine
  import opened Invariant
  import opened Steps
  import Backoff
  import D = Dispatching

  predicate Legal(w: World, steps: seq<Step>)
    decreases |steps|
  {
    steps == [] || (Enabled(w, steps[0]) && Legal(Apply(w, steps[0]), steps[1..]))
  }

  function Exec(w: World, steps: seq<Step>): World
    requires Legal(w, steps)
    decreases |steps|
  {
    if steps == [] then w else Exec(Apply(w, steps[0]), steps[1..])
  }

  /** The invariant holds after every run, from any state where it holds. */
  lemma {:induction false} RunKeeps(w: World, steps: seq<Step>)
    requires Inv(w) && Legal(w, steps)
    ensures Inv(Exec(w, steps))
    decreases |steps|
  {
    hide Inv, Enabled, Apply;
    if steps != [] {
      StepKeeps(w, steps[0]);
      RunKeeps(Apply(w, steps[0]), steps[1..]);
    }
  }

  /** In no run does a handler abort a timer, meet a stale wake-up, replace a live worker, drop or misdirect an
      update, or find a cancelled worker without a reason. */
  lemma NoFaultEver(config: Config, steps: seq<Step>)
    requires Legal(Init(config), steps)
    ensures Inv(Exec(Init(config), steps))
    ensures Exec(Init(config), steps).faults == {}
  {
    InitHolds(config);
    RunKeeps(Init(config), steps);
  }

  // ---------------------------------------------------------------- claims and wake-ups

  /** The published running and retrying counts add up to the claims. */
  lemma ClaimPartition(w: World)
    requires Inv(w)
    ensures w.claimed == w.running.Keys + w.retries.Keys && w.running.Keys !! w.retries.Keys
    ensures |w.claimed| == |w.running| + |w.retries|
  {
    hide Wakes, Workers, Mail, Faithful, Cancellation, Conserved, Shown, RunningPaid, RetriesPaid, TotalCredit;
    assert |w.running.Keys + w.retries.Keys| == |w.running.Keys| + |w.retries.Keys|;
  }

  function SleepingTimers(w: World, id: Id): nat {
    |set h | h in w.timers && w.timers[h] == id|
  }

  function QueuedWakeups(w: World, id: Id): nat {
    multiset(w.wakeups)[id]
  }

  lemma {:induction false} DistinctCount<T>(s: seq<T>, x: T)
    requires Distinct(s)
    ensures multiset(s)[x] == if x in s then 1 else 0
  {
    if s != [] {
      assert s == [s[0]] + s[1..];
      DistinctCount(s[1..], x);
      assert s[0] !in s[1..];
    }
  }

  /** Every retrying id has exactly one wake-up under way, and no other id has any. */
  lemma OneWakeupPerRetry(w: World, id: Id)
    requires Inv(w)
    ensures SleepingTimers(w, id) + QueuedWakeups(w, id) == if id in w.retries then 1 else 0
  {
    hide Workers, Mail, Faithful, Cancellation, Conserved, Shown, RunningPaid, RetriesPaid, TotalCredit, Claims;
    DistinctCount(w.wakeups, id);
    var sleeping := set h | h in w.timers && w.timers[h] == id;
    if id in w.retries && Asleep(w.retries[id], id, w.timers) {
      assert sleeping == {w.retries[id].handle};
    } else {
      assert sleeping == {};
    }
  }

  // ---------------------------------------------------------------- sessions

  predicate Unfinished(w: World, g: int, id: Id) {
    0 <= g < |w.sessions| && w.sessions[g].id == id && w.sessions[g].phase != Done
  }

  predicate FromIssue(w: World, k: nat, id: Id)
    requires k < |w.events|
  {
    w.events[k].worker < |w.sessions| && w.sessions[w.events[k].worker].id == id
  }

  /** One issue, one session: its entry has one unfinished worker, and every queued event of the issue is from that
      worker, the last of them its `Finished` once it ended. */
  lemma SessionIsolation(w: World, id: Id)
    requires Inv(w)
    ensures forall a, b :: Unfinished(w, a, id) && Unfinished(w, b, id) ==> a == b
    ensures id in w.running <==> exists g :: Unfinished(w, g, id)
    ensures forall k :: 0 <= k < |w.events| && FromIssue(w, k, id) ==>
              id in w.running && w.running[id].worker == w.events[k].worker
    ensures forall j, k :: 0 <= j < k < |w.events| && FromIssue(w, j, id) && FromIssue(w, k, id) ==>
            !w.events[j].event.Finished?
    ensures id in w.running && w.sessions[w.running[id].worker].phase == Ended ==>
              exists k :: IsFinish(w.events, k, w.running[id].worker)
  {
    hide Wakes, Faithful, Cancellation, Conserved, Shown, RunningPaid, RetriesPaid, TotalCredit, Claims;
    if id in w.running {
      var g := w.running[id].worker;
      assert Unfinished(w, g, id);
    }
  }

  /** After any run, what a worker sent was absorbed in order, under its own row and no other: all of it once the
      worker is done, the part that is no longer queued until then. The row shows the last of it. */
  lemma UpdatesReachTheirRow(config: Config, steps: seq<Step>, g: nat)
    requires Legal(Init(config), steps) && g < |Exec(Init(config), steps).sessions|
    ensures var w := Exec(Init(config), steps); var s := w.sessions[g];
      && s.sent == s.seen + Pending(w.events, g)
      && (s.phase == Done ==> s.seen == s.sent)
      && (s.phase != Done ==>
            && s.id in w.running && w.running[s.id].worker == g
            && w.running[s.id].live.current == LastReport(s.seen)
            && w.running[s.id].recent == LastN(Recents(s.seen), RECENT_EVENT_LIMIT))
  {
    hide Exec, Legal, Wakes, Faithful, Cancellation, RunningPaid, RetriesPaid, TotalCredit, Claims, Pending,
         LastReport, Recents, LastN;
    NoFaultEver(config, steps);
    var w := Exec(Init(config), steps);
    if w.sessions[g].phase == Done { NothingPending(w.events, g); }
  }

  // ---------------------------------------------------------------- token totals

  /** Each report is at least the one before it. */
  predicate Rising(us: seq<Update>) {
    us == [] || (
      var before := us[..|us| - 1];
      Rising(before) && (us[|us| - 1].tokens.Some? ==> LastReport(before).Leq(us[|us| - 1].tokens.value)))
  }

  lemma {:induction false} RisingPrefix(a: seq<Update>, b: seq<Update>)
    requires Rising(a + b)
    ensures Rising(a)
  {
    if b == [] {
      assert a + b == a;
    } else {
      assert (a + b)[..|a + b| - 1] == a + b[..|b| - 1];
      RisingPrefix(a, b[..|b| - 1]);
    }
  }

  /** Rising reports telescope: their increments add up to the last one. */
  lemma {:induction false} RisingCredit(us: seq<Update>)
    requires Rising(us)
    ensures Credit(us) == LastReport(us)
  {
    if us != [] { RisingCredit(us[..|us| - 1]); }
  }

  function Higher(a: Tokens, b: Tokens): Tokens {
    Tokens(D.Max(a.input, b.input), D.Max(a.output, b.output), D.Max(a.total, b.total))
  }

  /** The highest counts ever reported, field by field. */
  function Peak(us: seq<Update>): Tokens {
    if us == [] then NO_TOKENS else Higher(Peak(us[..|us| - 1]), us[|us| - 1].tokens.GetOr(NO_TOKENS))
  }

  function TotalPeak(sessions: seq<Session>): Tokens {
    if sessions == [] then NO_TOKENS
    else TotalPeak(sessions[..|sessions| - 1]).Plus(Peak(sessions[|sessions| - 1].seen))
  }

  lemma {:induction false} PeakIsHighest(us: seq<Update>, i: nat)
    requires i < |us| && us[i].tokens.Some?
    ensures us[i].tokens.value.Leq(Peak(us))
  {
    if i < |us| - 1 { PeakIsHighest(us[..|us| - 1], i); }
  }

  /** Whatever a session reports, its credit is no less than its peak. */
  lemma {:induction false} CreditCoversPeak(us: seq<Update>)
    ensures Peak(us).Leq(Credit(us))
  {
    CreditCoversLast(us);
    if us != [] { CreditCoversPeak(us[..|us| - 1]); }
  }

  lemma {:induction false} CreditCoversLast(us: seq<Update>)
    ensures LastReport(us).Leq(Credit(us))
  {
    if us != [] { CreditCoversLast(us[..|us| - 1]); }
  }

  lemma {:induction false} PeaksAddUp(sessions: seq<Session>)
    ensures TotalPeak(sessions).Leq(TotalCredit(sessions))
  {
    hide Peak, Credit;
    if sessions != [] {
      PeaksAddUp(sessions[..|sessions| - 1]);
      CreditCoversPeak(sessions[|sessions| - 1].seen);
    }
  }

  /** After any run, with any reports, the published totals are no less than the sum of the sessions' peaks. */
  lemma TotalsCoverPeaks(config: Config, steps: seq<Step>)
    requires Legal(Init(config), steps)
    ensures var w := Exec(Init(config), steps); TotalPeak(w.sessions).Leq(w.totals)
  {
    hide Legal, Exec, TotalPeak, TotalCredit, Claims, Wakes, Workers, Mail, Faithful, Cancellation, Conserved, Shown,
         RunningPaid, RetriesPaid;
    NoFaultEver(config, steps);
    PeaksAddUp(Exec(Init(config), steps).sessions);
  }

  /** What one session contributes: its final report once done, its running row's tokens until then. */
  function Contribution(w: World, g: nat): Tokens
    requires g < |w.sessions|
  {
    var s := w.sessions[g];
    if s.phase == Done then LastReport(s.sent)
    else if s.id in w.running then w.running[s.id].live.current else NO_TOKENS
  }

  function Contributions(w: World, n: nat): Tokens
    requires n <= |w.sessions|
  {
    if n == 0 then NO_TOKENS else Contributions(w, n - 1).Plus(Contribution(w, n - 1))
  }

  lemma ContributionIsCredit(w: World, g: nat)
    requires Inv(w) && g < |w.sessions| && Rising(w.sessions[g].sent)
    ensures Contribution(w, g) == Credit(w.sessions[g].seen)
  {
    hide Wakes, Faithful, Cancellation, RunningPaid, RetriesPaid, TotalCredit, Claims, Credit, LastReport;
    var s := w.sessions[g];
    assert s.sent == s.seen + Pending(w.events, g);
    RisingPrefix(s.seen, Pending(w.events, g));
    RisingCredit(s.seen);
    if s.phase == Done {
      NothingPending(w.events, g);
      assert s.sent == s.seen;
    }
  }

  lemma {:induction false} ContributionsAddUp(w: World, n: nat)
    requires Inv(w) && n <= |w.sessions| && forall g :: 0 <= g < |w.sessions| ==> Rising(w.sessions[g].sent)
    ensures Contributions(w, n) == TotalCredit(w.sessions[..n])
  {
    hide Inv, Rising, Contribution, Credit;
    if n > 0 {
      ContributionsAddUp(w, n - 1);
      ContributionIsCredit(w, n - 1);
      assert w.sessions[..n][..n - 1] == w.sessions[..n - 1];
    }
  }

  /** If no session's counters go back, the totals are exactly the final reports of the finished sessions plus the
      current tokens of the running ones. */
  lemma TokenConservation(w: World)
    requires Inv(w) && forall g :: 0 <= g < |w.sessions| ==> Rising(w.sessions[g].sent)
    ensures w.totals == Contributions(w, |w.sessions|)
  {
    hide Rising, Contribution, Credit, Wakes, Workers, Mail, Faithful, Cancellation, Conserved, Shown, RunningPaid,
         RetriesPaid, Claims;
    ContributionsAddUp(w, |w.sessions|);
    assert w.sessions[..|w.sessions|] == w.sessions;
  }

  lemma SameRunsChain(a: World, b: World, c: World)
    requires SameRuns(a, b) && SameRuns(b, c)
    ensures SameRuns(a, c)
  {
  }

  lemma FaultKeepsRuns(w: World, fault: Fault)
    ensures SameRuns(w, w.(faults := w.faults + {fault}))
  {
  }

  /** What a settled row has removed: the workspace of an issue found terminal. */
  function Removed(r: Running, o: Outcome): seq<string> {
    if r.stopReason == Some(Terminal) then [o.issue.identifier] else []
  }

  lemma SettleFrame(w: World, r: Running, o: Outcome, now: int)
    ensures SameRuns(w.(cleanups := w.cleanups + Removed(r, o)), Settle(w, r, o, now))
  {
    assert w.cleanups + [] == w.cleanups;
    hide SameRuns, ScheduleRetry, ReleaseClaim, Requeue, Marked, NextAttempt;
    var t := Settle(w, r, o, now);
    if r.stopReason.None? && o.exit == Succeeded { SameRunsChain(w, Marked(w, o.issue.id, Clean), t); }
    if r.stopReason.None? && o.exit == Canceled {
      FaultKeepsRuns(w, UnexplainedCancel);
      SameRunsChain(w, w.(faults := w.faults + {UnexplainedCancel}), t);
    }
  }

  /** A finish takes out one row, has its workspace removed if it was terminal, ends its sender's record and leaves
      the rest of this alone. */
  ghost predicate Taken(a: World, b: World, worker: nat, o: Outcome) {
    && b.refreshQueued == a.refreshQueued
    && b.cleanups == a.cleanups + (if o.issue.id in a.running then Removed(a.running[o.issue.id], o) else [])
    && b.config == a.config && b.totals == a.totals && b.events == a.events && b.cancelled == a.cancelled
    && b.running == a.running - {o.issue.id}
    && b.sessions == (if worker < |a.sessions|
                      then a.sessions[worker := a.sessions[worker].(phase := Done)] else a.sessions)
  }

  lemma FinishFrame(w: World, worker: nat, o: Outcome, now: int)
    ensures Taken(w, FinishWorker(w, worker, o, now), worker, o)
  {
    hide Settle;
    if o.issue.id in w.running { SettleFrame(TakeOut(w, worker, o.issue.id), w.running[o.issue.id], o, now); }
  }

  /** An update changes what a row shows, not what it is. */
  lemma AbsorbFrame(r: Running, u: Update)
    ensures var t := Absorb(r, u); t == r.(live := t.live, recent := t.recent, lastError := t.lastError)
  {
  }

  /** The wake-up that dispatches its issue. */
  predicate Restarts(w: World, id: Id, candidates: Option<seq<Issue>>) {
    && candidates.Some?
    && var found := FindCandidate(candidates.value, id);
    && found.Some? && ShouldDispatch(w, found.value, Some(id))
  }

  lemma DispatchableHasSlot(w: World, issue: Issue, allowed: Option<Id>)
    requires ShouldDispatch(w, issue, allowed)
    ensures Slots(w) > 0
  {
  }

  lemma ResumeCases(w: World, id: Id, retry: Retry, candidates: Option<seq<Issue>>, pollError: string, now: int)
    ensures var t := Resume(w, id, retry, candidates, pollError, now);
      if Restarts(w, id, candidates)
      then t == Dispatch(w, FindCandidate(candidates.value, id).value, Some(retry.attempt), now)
      else SameRuns(w, t)
  {
    hide ShouldDispatch, Slots, Dispatch, Requeue, ReleaseClaim;
    if Restarts(w, id, candidates) { DispatchableHasSlot(w, FindCandidate(candidates.value, id).value, Some(id)); }
  }

  /** A wake-up that starts its issue adds a row and a worker, and leaves the rest of this alone. */
  ghost predicate Woken(a: World, b: World, issue: Issue, attempt: nat, now: int) {
    && b.cleanups == a.cleanups && b.refreshQueued == a.refreshQueued
    && b.config == a.config && b.totals == a.totals && b.events == a.events && b.cancelled == a.cancelled
    && b.running == a.running[issue.id := NewRunning(issue, Some(attempt), now, |a.sessions|)]
    && b.sessions == a.sessions + [Session(issue.id, issue.identifier, Some(attempt), Working, [], [])]
  }

  /** A wake-up either starts its issue or changes neither rows nor workers. */
  lemma WakeupFrame(w: World, now: int, candidates: Option<seq<Issue>>, pollError: string)
    requires w.wakeups != []
    ensures var id, t := w.wakeups[0], Apply(w, RetryWakeup(now, candidates, pollError));
      if id in w.retries && Restarts(w, id, candidates)
      then Woken(w, t, FindCandidate(candidates.value, id).value, w.retries[id].attempt, now)
      else SameRuns(w, t)
  {
    hide Resume, Dispatch, ShouldDispatch, Woken, SameRuns;
    var id, t := w.wakeups[0], Apply(w, RetryWakeup(now, candidates, pollError));
    var out := w.(wakeups := w.wakeups[1..]);
    WakeupSetsAside(w, out, t);
    if id in w.retries {
      out := out.(retries := w.retries - {id});
      WakeupSetsAside(w, out, t);
      ResumeCases(out, id, w.retries[id], candidates, pollError, now);
      if candidates.Some? && FindCandidate(candidates.value, id).Some? {
        var issue := FindCandidate(candidates.value, id).value;
        SameVerdict(w, out, issue, Some(id));
        DispatchWakes(out, issue, w.retries[id].attempt, now);
        WokenSetsAside(w, out, t, issue, w.retries[id].attempt, now);
      }
    } else {
      FaultKeepsRuns(out, StaleWakeup);
    }
  }

  lemma WakeupSetsAside(w: World, out: World, t: World)
    requires out == w.(wakeups := out.wakeups, retries := out.retries)
    ensures SameRuns(out, t) ==> SameRuns(w, t)
  {
  }

  lemma WokenSetsAside(w: World, out: World, t: World, issue: Issue, attempt: nat, now: int)
    requires out == w.(wakeups := out.wakeups, retries := out.retries)
    ensures Woken(out, t, issue, attempt, now) ==> Woken(w, t, issue, attempt, now)
  {
  }

  lemma SameVerdict(a: World, b: World, issue: Issue, allowed: Option<Id>)
    requires b.config == a.config && b.running == a.running && b.claimed == a.claimed
    ensures ShouldDispatch(b, issue, allowed) == ShouldDispatch(a, issue, allowed)
  {
    hide Blocked, StateCount;
  }

  lemma DispatchWakes(w: World, issue: Issue, attempt: nat, now: int)
    ensures Woken(w, Dispatch(w, issue, Some(attempt), now), issue, attempt, now)
  {
  }

  /** With any reports the totals never go back. */
  lemma TotalsNeverDecrease(w: World, s: Step)
    requires Enabled(w, s)
    ensures w.totals.Leq(Apply(w, s).totals)
  {
    hide FinishWorker, RetryDue, DispatchAll, Reconcile, D.SortForDispatch, Absorb;
    match s
    case Tick(now, answers, candidates) =>
      assert Reconcile(w, now, answers).totals == w.totals by { ReconcileTotals(w, now, answers); }
      if candidates.Some? { LoopTotals(Reconcile(w, now, answers), D.SortForDispatch(candidates.value), now); }
    case WorkerEvent(now) =>
      if w.events[0].event.Finished? {
        FinishFrame(w.(events := w.events[1..]), w.events[0].worker, w.events[0].event.outcome, now);
      }
    case RetryWakeup(now, candidates, pollError) => WakeupFrame(w, now, candidates, pollError);
    case _ =>
  }

  lemma ReconcileTotals(w: World, now: int, answers: Option<seq<Issue>>)
    ensures Reconcile(w, now, answers).totals == w.totals
  {
  }

  lemma {:induction false} LoopTotals(w: World, issues: seq<Issue>, now: int)
    ensures DispatchAll(w, issues, now).totals == w.totals
    decreases |issues|
  {
    hide ShouldDispatch, Slots;
    if issues != [] && Slots(w) > 0 {
      if ShouldDispatch(w, issues[0], None) {
        LoopTotals(Dispatch(w, issues[0], None, now), issues[1..], now);
      } else {
        LoopTotals(w, issues[1..], now);
      }
    }
  }

  // ---------------------------------------------------------------- stop reasons

  predicate ReportsCancel(e: Stamped) {
    e.event.Finished? && e.event.outcome.exit == Canceled
  }

  /** After any run, a worker's token is cancelled exactly when its row names a reason, and a queued `Canceled`
      outcome comes from a worker whose row does. */
  lemma CancellationAgreement(config: Config, steps: seq<Step>)
    requires Legal(Init(config), steps)
    ensures var w := Exec(Init(config), steps);
      && (forall id :: id in w.running ==> (w.running[id].worker in w.cancelled <==> w.running[id].stopReason.Some?))
      && (forall k :: 0 <= k < |w.events| && ReportsCancel(w.events[k]) ==>
            var id := w.events[k].event.outcome.issue.id;
            id in w.running && w.running[id].worker == w.events[k].worker && w.running[id].stopReason.Some?)
  {
    hide Exec, Legal, Wakes, Conserved, Shown, RunningPaid, RetriesPaid, TotalCredit, Claims;
    NoFaultEver(config, steps);
  }

  /** A reconcile that finds an issue both stalled and terminal stops it as stalled. */
  lemma StallComesFirst(w: World, now: int, answers: Option<seq<Issue>>, id: Id)
    requires id in w.running && w.running[id].stopReason.None? && Stalled(w.config, w.running[id], now)
    ensures Reconcile(w, now, answers).running[id].stopReason == Some(Stall)
  {
  }

  /** The head of the queue, a `Finished`, and the world once its entry is taken out. */
  function TakenOut(w: World): World
    requires w.events != [] && w.events[0].event.Finished?
  {
    TakeOut(w.(events := w.events[1..]), w.events[0].worker, w.events[0].event.outcome.issue.id)
  }

  lemma FinishSettles(w: World, now: int)
    requires Inv(w) && w.events != [] && w.events[0].event.Finished?
    ensures var o, out := w.events[0].event.outcome, TakenOut(w);
      && o.issue.id in w.running
      && Apply(w, WorkerEvent(now)) == Settle(out, w.running[o.issue.id], o, now)
      && o.issue.id !in out.running && o.issue.id !in out.retries
      && out.config == w.config && out.cleanups == w.cleanups
      && (o.exit == Canceled ==> w.running[o.issue.id].stopReason.Some?)
  {
    hide Wakes, Mail, Conserved, Shown, RunningPaid, RetriesPaid, TotalCredit, Cancellation, Settle;
    HeadIsCurrent(w.running, w.sessions, w.events);
    if w.events[0].event.outcome.exit == Canceled { CancelIsExplained(w); }
  }

  lemma RequeueEntry(w: World, id: Id, identifier: string, attempt: nat, error: Option<string>, now: int)
    ensures var entry := Requeue(w, id, identifier, attempt, error, now).retries[id];
      && entry.identifier == identifier && entry.attempt == attempt && entry.error == error
      && entry.dueAt - now == Backoff.AsI64(Delay(w, attempt))
  {
    hide Backoff.AsI64, Backoff.RetryDelayMs;
  }

  /** Where each finish leaves its issue. */
  lemma FinishDestination(w: World, now: int)
    requires Inv(w) && w.events != [] && w.events[0].event.Finished?
    ensures var o, t := w.events[0].event.outcome, Apply(w, WorkerEvent(now));
      && o.issue.id in w.running && o.issue.id !in t.running
      && var reason := w.running[o.issue.id].stopReason;
      && (reason == Some(Terminal) || reason == Some(NonActive) ==>
         o.issue.id !in t.claimed && o.issue.id !in t.retries)
      && (reason == Some(Stall) ==> o.issue.id in t.retries && t.retries[o.issue.id].error == Some("stalled session"))
      && (reason == None ==> o.exit != Canceled && o.issue.id in t.retries)
      && t.cleanups == w.cleanups + (if reason == Some(Terminal) then [o.issue.identifier] else [])
  {
    hide Inv, Apply, TakenOut, Requeue, ScheduleRetry, ReleaseClaim, Marked, NextAttempt;
    var o, out := w.events[0].event.outcome, TakenOut(w);
    FinishSettles(w, now);
    SettleFrame(out, w.running[o.issue.id], o, now);
    RequeueEntry(out, o.issue.id, o.issue.identifier, NextAttempt(w.running[o.issue.id].attempt),
                 Some("stalled session"), now);
  }

  lemma DelayOf(w: World, attempt: nat)
    requires attempt >= 1 && w.config.maxBackoffMs <= I64_MAX
    ensures Backoff.AsI64(Delay(w, attempt)) == Backoff.Min(10_000 * Backoff.Pow2(attempt - 1), w.config.maxBackoffMs)
  {
    hide Backoff.Pow2, Backoff.AsI64, Backoff.RetryDelayMs;
    Backoff.DelayIsExact(attempt, w.config.maxBackoffMs);
    Backoff.CastKeepsDelayIff(w.config.maxBackoffMs);
    assert Backoff.AsI64(Delay(w, attempt)) == Delay(w, attempt);
  }

  lemma ContinuationEntry(w: World, id: Id, identifier: string, now: int)
    ensures var entry := ScheduleRetry(w, id, identifier, 1, None, CONTINUATION_DELAY_MS, now).retries[id];
      entry.identifier == identifier && entry.attempt == 1 && entry.error == None && entry.dueAt - now == 1000
  {
  }

  /** The error a finish leaves in the retry entry. */
  function FinishError(r: Running, o: Outcome): Option<string> {
    if r.stopReason.Some? then Some("stalled session")
    else match o.exit
      case Succeeded => None
      case TimedOut => Some("worker turn timeout")
      case _ => o.error
  }

  /** The retry a finish leaves: after a clean end the first attempt in one second, otherwise the next attempt
      after exactly the capped power of two. */
  lemma FinishSchedules(w: World, now: int)
    requires Inv(w) && w.events != [] && w.events[0].event.Finished? && w.config.maxBackoffMs <= I64_MAX
    ensures var o, t := w.events[0].event.outcome, Apply(w, WorkerEvent(now));
      && o.issue.id in w.running
      && var r := w.running[o.issue.id];
      && var clean := r.stopReason.None? && o.exit == Succeeded;
      && (o.issue.id in t.retries <==> r.stopReason.None? || r.stopReason == Some(Stall))
      && (o.issue.id in t.retries ==>
            var entry := t.retries[o.issue.id];
            && entry.identifier == o.issue.identifier && entry.error == FinishError(r, o)
            && entry.attempt == (if clean then 1 else r.attempt.GetOr(0) + 1)
            && entry.dueAt - now ==
               (if clean then 1000 else Backoff.Min(10_000 * Backoff.Pow2(entry.attempt - 1), w.config.maxBackoffMs)))
  {
    hide Inv, Apply, TakenOut, Requeue, ScheduleRetry, ReleaseClaim, Marked, Delay, Backoff.AsI64, Backoff.Pow2;
    var o, out := w.events[0].event.outcome, TakenOut(w);
    FinishSettles(w, now);
    var id, r := o.issue.id, w.running[o.issue.id];
    DelayOf(out, NextAttempt(r.attempt));
    RequeueEntry(out, id, o.issue.identifier, NextAttempt(r.attempt), FinishError(r, o), now);
    ContinuationEntry(Marked(out, id, Clean), id, o.issue.identifier, now);
  }

  /** Where a wake-up leaves its issue: it runs, with the same attempt, exactly when it is a candidate that may be
      dispatched; it is released exactly when it is no longer a candidate; otherwise it waits one attempt more, for
      exactly the capped power of two, and says why. */
  lemma RequeueSchedules(w: World, now: int, candidates: Option<seq<Issue>>, pollError: string)
    requires Inv(w) && w.wakeups != [] && w.config.maxBackoffMs <= I64_MAX
    ensures var id, t := w.wakeups[0], Apply(w, RetryWakeup(now, candidates, pollError));
      && id in w.retries
      && (id in t.running <==> Restarts(w, id, candidates))
      && (id !in t.claimed <==> Gone(id, candidates))
      && (id in t.retries <==> !Restarts(w, id, candidates) && !Gone(id, candidates))
      && (id in t.running ==> t.running[id].attempt == Some(w.retries[id].attempt))
      && (id in t.retries ==>
            && t.retries[id].attempt == w.retries[id].attempt + 1
            && t.retries[id].error == RequeueError(candidates, pollError)
            && t.retries[id].identifier ==
               (if candidates.None? then w.retries[id].identifier
                else FindCandidate(candidates.value, id).value.identifier)
            && t.retries[id].dueAt - now ==
               Backoff.Min(10_000 * Backoff.Pow2(w.retries[id].attempt), w.config.maxBackoffMs))
  {
    hide Inv, Body, Claims, Resume, Backoff.Pow2, ShouldDispatch;
    var id := w.wakeups[0];
    WakeHolds(w);
    NotRunning(w, id);
    var out := w.(wakeups := w.wakeups[1..], retries := w.retries - {id});
    if candidates.Some? && FindCandidate(candidates.value, id).Some? {
      SameVerdict(w, out, FindCandidate(candidates.value, id).value, Some(id));
    }
    ResumeEntry(out, id, w.retries[id], candidates, pollError, now);
  }

  function RequeueError(candidates: Option<seq<Issue>>, pollError: string): Option<string> {
    Some(if candidates.None? then "retry poll failed: " + pollError else NO_SLOTS_ERROR)
  }

  /** The tracker answered, and no longer with this issue. */
  predicate Gone(id: Id, candidates: Option<seq<Issue>>) {
    candidates.Some? && FindCandidate(candidates.value, id).None?
  }

  lemma ResumeEntry(w: World, id: Id, retry: Retry, candidates: Option<seq<Issue>>, pollError: string, now: int)
    requires id !in w.running && id in w.claimed && id !in w.retries && w.config.maxBackoffMs <= I64_MAX
    ensures var t := Resume(w, id, retry, candidates, pollError, now);
      && (id in t.running <==> Restarts(w, id, candidates))
      && (id !in t.claimed <==> Gone(id, candidates))
      && (id in t.retries <==> !Restarts(w, id, candidates) && !Gone(id, candidates))
      && (id in t.running ==> t.running[id].attempt == Some(retry.attempt))
      && (id in t.retries ==>
            && t.retries[id].attempt == retry.attempt + 1
            && t.retries[id].error == RequeueError(candidates, pollError)
            && t.retries[id].identifier ==
               (if candidates.None? then retry.identifier else FindCandidate(candidates.value, id).value.identifier)
            && t.retries[id].dueAt - now == Backoff.Min(10_000 * Backoff.Pow2(retry.attempt), w.config.maxBackoffMs))
  {
    hide Requeue, ReleaseClaim, Dispatch, ShouldDispatch, Slots, Delay, Backoff.AsI64, Backoff.Pow2;
    var next := retry.attempt + 1;
    DelayOf(w, next);
    ResumeCases(w, id, retry, candidates, pollError, now);
    if candidates.None? {
      RequeueEntry(w, id, retry.identifier, next, Some("retry poll failed: " + pollError), now);
    } else {
      var found := FindCandidate(candidates.value, id);
      if found.Some? {
        RequeueEntry(w, id, found.value.identifier, next, Some(NO_SLOTS_ERROR), now);
        DispatchEntry(w, found.value, Some(retry.attempt), now);
      }
    }
  }

  lemma DispatchEntry(w: World, issue: Issue, attempt: Option<nat>, now: int)
    requires issue.id !in w.retries
    ensures var t := Dispatch(w, issue, attempt, now);
      issue.id in t.running && t.running[issue.id].attempt == attempt && issue.id in t.claimed && issue.id !in t.retries
  {
  }

  lemma NotRunning(w: World, id: Id)
    requires Inv(w) && id in w.retries
    ensures id !in w.running && id in w.claimed
  {
  }

  // ---------------------------------------------------------------- concurrency

  /** `running` grows only up to the limit in force. */
  lemma StepConcurrency(w: World, s: Step)
    requires Enabled(w, s)
    ensures |Apply(w, s).running| <= D.Max(|w.running|, w.config.maxAgents)
    ensures s.Reload? ==> Apply(w, s) == w.(config := s.config.GetOr(w.config))
    ensures !s.Reload? ==> Apply(w, s).config == w.config
  {
    hide DispatchAll, Reconcile, HandleEvent, RetryDue, D.SortForDispatch;
    match s
    case Tick(now, answers, candidates) =>
      var r := Reconcile(w, now, answers);
      ReconcileSize(w, now, answers);
      if candidates.Some? {
        D.LoopLimits(r, D.SortForDispatch(candidates.value), now, "");
        D.LoopStartsOnlyEligible(r, D.SortForDispatch(candidates.value), now);
      }
    case WorkerEvent(now) =>
      EventConcurrency(w.(events := w.events[1..]), w.events[0], now);
    case RetryWakeup(now, candidates, pollError) =>
      WakeupConcurrency(w, now, candidates, pollError, "");
    case _ =>
  }

  lemma ReconcileSize(w: World, now: int, answers: Option<seq<Issue>>)
    ensures var r := Reconcile(w, now, answers); |r.running| == |w.running| && r.config == w.config
  {
    hide Stalled, Judge, Judged;
    var r := Reconcile(w, now, answers);
    assert r.running.Keys == w.running.Keys;
    assert |r.running.Keys| == |w.running.Keys|;
  }

  lemma MapSizes(running: map<Id, Running>, id: Id, r: Running)
    ensures id in running ==> |running[id := r]| == |running|
    ensures |running - {id}| <= |running|
  {
    assert id in running ==> running[id := r].Keys == running.Keys;
    assert (running - {id}).Keys == running.Keys - {id};
    assert |running[id := r]| == |running[id := r].Keys| && |running - {id}| == |(running - {id}).Keys|;
  }

  lemma EventConcurrency(w: World, e: Stamped, now: int)
    ensures |HandleEvent(w, e, now).running| <= |w.running|
    ensures HandleEvent(w, e, now).config == w.config
  {
    hide FinishWorker, Absorb;
    match e.event
    case Progress(u) => if u.issueId in w.running { MapSizes(w.running, u.issueId, Absorb(w.running[u.issueId], u)); }
    case Finished(o) =>
      FinishFrame(w, e.worker, o, now);
      if o.issue.id in w.running {
        MapSizes(w.running, o.issue.id, w.running[o.issue.id]);
      } else {
        assert w.running - {o.issue.id} == w.running;
      }
  }

  /** A wake-up respects the global limit and the limit of every state. */
  lemma WakeupConcurrency(w: World, now: int, candidates: Option<seq<Issue>>, pollError: string, state: string)
    requires w.wakeups != []
    ensures var t := Apply(w, RetryWakeup(now, candidates, pollError));
      && t.config == w.config
      && |t.running| <= D.Max(|w.running|, w.config.maxAgents)
      && StateCount(t.running, state) <= D.Max(StateCount(w.running, state), w.config.Limit(state))
  {
    hide StateCount, Apply, ShouldDispatch, Config.Limit, FindCandidate;
    var id := w.wakeups[0];
    WakeupFrame(w, now, candidates, pollError);
    if id in w.retries && Restarts(w, id, candidates) {
      var issue := FindCandidate(candidates.value, id).value;
      RoomForOne(w, issue, Some(id), NewRunning(issue, Some(w.retries[id].attempt), now, |w.sessions|), state);
    }
  }

  lemma RoomForOne(w: World, issue: Issue, allowed: Option<Id>, r: Running, state: string)
    requires ShouldDispatch(w, issue, allowed) && r.issue == issue
    ensures |w.running[issue.id := r]| <= w.config.maxAgents
    ensures StateCount(w.running[issue.id := r], state) <= D.Max(StateCount(w.running, state), w.config.Limit(state))
  {
    hide Blocked, StateCount, Normalize, Config.Limit;
    D.CountInsert(w.running, issue.id, r, state);
  }

  /** The largest global limit in force at any time of a run. */
  function PeakLimit(limit: nat, steps: seq<Step>): nat
    decreases |steps|
  {
    if steps == [] then limit
    else
      var next := if steps[0].Reload? && steps[0].config.Some? then steps[0].config.value.maxAgents else limit;
      D.Max(limit, PeakLimit(next, steps[1..]))
  }

  /** At no time do more issues run than the largest limit seen so far, reloads included. */
  lemma {:induction false} RunConcurrency(w: World, steps: seq<Step>)
    requires Legal(w, steps)
    ensures |Exec(w, steps).running| <= D.Max(|w.running|, PeakLimit(w.config.maxAgents, steps))
    decreases |steps|
  {
    hide Enabled, Apply;
    if steps != [] {
      var t := Apply(w, steps[0]);
      StepConcurrency(w, steps[0]);
      RunConcurrency(t, steps[1..]);
    }
  }
}
