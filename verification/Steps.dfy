/** The moves of the service and of what surrounds it, and that each keeps the invariant. */
module Steps {
  import opened Text
  import opened Types
  import opened Machine
  import opened Invariant
  import Dispatching

  datatype Step =
    // one turn of the event loop
    | Tick(now: int, answers: Option<seq<Issue>>, candidates: Option<seq<Issue>>)
    | WorkerEvent(now: int)
    | RetryWakeup(now: int, candidates: Option<seq<Issue>>, pollError: string)
    | Refresh
    | Reload(config: Option<Config>)
    // what happens around it
    | TimerFires(handle: nat)
    | Emit(worker: nat, update: Update)
    | Finish(worker: nat, outcome: Outcome)

  /** What every worker guarantees about its outcome; `Worker.OutcomeMeetsContract` proves it of the turn loop. */
  predicate WorkerContract(id: Id, cancelled: bool, o: Outcome) {
    && (o.exit == Canceled ==> cancelled)
    && o.issue.id == id
  }

  predicate Enabled(w: World, s: Step) {
    match s
    case WorkerEvent(_) => w.events != []
    case RetryWakeup(_, _, _) => w.wakeups != []
    case TimerFires(h) => h in w.timers
    case Emit(g, u) => g < |w.sessions| && w.sessions[g].phase == Working && u.issueId == w.sessions[g].id
    case Finish(g, o) =>
      g < |w.sessions| && w.sessions[g].phase == Working && WorkerContract(w.sessions[g].id, g in w.cancelled, o)
    case _ => true
  }

  /** `run_tick`, with the queued refresh cleared after it. */
  function RunTick(w: World, now: int, answers: Option<seq<Issue>>, candidates: Option<seq<Issue>>): World {
    var r := Reconcile(w, now, answers);
    if !r.config.dispatchable || candidates.None? then r
    else Dispatching.DispatchTick(r, candidates.value, now)
  }

  function Apply(w: World, s: Step): World
    requires Enabled(w, s)
  {
    match s
    case Tick(now, answers, candidates) => RunTick(w, now, answers, candidates).(refreshQueued := false)
    case WorkerEvent(now) => HandleEvent(w.(events := w.events[1..]), w.events[0], now)
    case RetryWakeup(now, candidates, pollError) =>
      RetryDue(w.(wakeups := w.wakeups[1..]), w.wakeups[0], candidates, pollError, now)
    case Refresh => w.(refreshQueued := true)
    case Reload(config) => w.(config := config.GetOr(w.config))
    case TimerFires(h) => w.(timers := w.timers - {h}, wakeups := w.wakeups + [w.timers[h]])
    case Emit(g, u) =>
      w.(sessions := w.sessions[g := w.sessions[g].(sent := w.sessions[g].sent + [u])],
         events := w.events + [Stamped(g, Progress(u))])
    case Finish(g, o) =>
      w.(sessions := w.sessions[g := w.sessions[g].(phase := Ended)],
         events := w.events + [Stamped(g, Finished(o))])
  }

  // ---------------------------------------------------------------- timers

  lemma FireKeepsWakes(retries: map<Id, Retry>, timers: map<nat, Id>, next: nat, wakeups: seq<Id>, h: nat)
    requires Wakes(retries, timers, next, wakeups) && h in timers
    ensures Wakes(retries, timers - {h}, next, wakeups + [timers[h]])
  {
    var id := timers[h];
    var queue := wakeups + [id];
    assert Asleep(retries[id], id, timers);
    assert queue[|wakeups|] == id;
    assert forall x :: x in queue <==> x in wakeups || x == id;
  }

  /** The head of the wake-up queue is for an entry whose timer is gone and which has no second message. */
  lemma WakeIsCurrent(retries: map<Id, Retry>, timers: map<nat, Id>, next: nat, wakeups: seq<Id>)
    requires Wakes(retries, timers, next, wakeups) && wakeups != []
    ensures wakeups[0] in retries
    ensures Wakes(retries - {wakeups[0]}, timers, next, wakeups[1..])
  {
    var id := wakeups[0];
    assert forall k :: 0 <= k < |wakeups| - 1 ==> wakeups[1..][k] == wakeups[k + 1];
    assert id !in wakeups[1..];
    assert forall x :: x in wakeups[1..] ==> x in wakeups;
    assert forall x :: x in wakeups && x != id ==> x in wakeups[1..];
  }

  // ---------------------------------------------------------------- the event queue

  lemma {:induction false} PendingAppend(events: seq<Stamped>, e: Stamped, g: nat)
    ensures Pending(events + [e], g) ==
            Pending(events, g) + if e.worker == g && e.event.Progress? then [e.event.update] else []
  {
    if events == [] {
      assert [e][1..] == [];
    } else {
      PendingAppend(events[1..], e, g);
      assert (events + [e])[1..] == events[1..] + [e];
    }
  }

  /** Same workers, same issues, same phases. */
  ghost predicate SameRoster(a: seq<Session>, b: seq<Session>) {
    |a| == |b| && forall g :: 0 <= g < |a| ==> a[g].id == b[g].id && a[g].phase == b[g].phase
  }

  lemma FinishStays(events: seq<Stamped>, tail: seq<Stamped>, k: int, g: int)
    requires events != [] && tail == events[1..]
    requires IsFinish(events, k, g) && k > 0
    ensures IsFinish(tail, k - 1, g)
  {
  }

  lemma PopProgressMail(events: seq<Stamped>, a: seq<Session>, b: seq<Session>)
    requires Mail(events, a) && SameRoster(a, b) && events != [] && events[0].event.Progress?
    ensures Mail(events[1..], b)
  {
    var tail := events[1..];
    assert forall k :: 0 <= k < |tail| ==> tail[k] == events[k + 1];
    forall g | 0 <= g < |b| && b[g].phase == Ended ensures exists k :: IsFinish(tail, k, g) {
      assert a[g].phase == Ended;
      var k :| IsFinish(events, k, g);
      FinishStays(events, tail, k, g);
    }
  }

  lemma PopFinishedMail(events: seq<Stamped>, sessions: seq<Session>)
    requires Mail(events, sessions) && events != [] && events[0].event.Finished?
    ensures Mail(events[1..], sessions[events[0].worker := sessions[events[0].worker].(phase := Done)])
  {
    var f := events[0].worker;
    var tail, b := events[1..], sessions[f := sessions[f].(phase := Done)];
    assert forall k :: 0 <= k < |tail| ==> tail[k] == events[k + 1];
    forall g | 0 <= g < |b| && b[g].phase == Ended ensures exists k :: IsFinish(tail, k, g) {
      assert sessions[g].phase == Ended;
      var k :| IsFinish(events, k, g);
      FinishStays(events, tail, k, g);
    }
  }

  lemma PushMail(events: seq<Stamped>, a: seq<Session>, b: seq<Session>, e: Stamped)
    requires Mail(events, a) && |a| == |b| && e.worker < |a| && a[e.worker].phase == Working
    requires forall g :: 0 <= g < |a| ==> a[g].id == b[g].id
    requires forall g :: 0 <= g < |a| && g != e.worker ==> a[g].phase == b[g].phase
    requires b[e.worker].phase == if e.event.Finished? then Ended else Working
    requires e.event.Progress? ==> e.event.update.issueId == a[e.worker].id
    ensures Mail(events + [e], b)
  {
    var queue := events + [e];
    forall g | 0 <= g < |b| && b[g].phase == Ended ensures exists k :: IsFinish(queue, k, g) {
      if g == e.worker {
        assert IsFinish(queue, |events|, g);
      } else {
        var k :| IsFinish(events, k, g);
        assert IsFinish(queue, k, g);
      }
    }
  }

  lemma PushFaithful(events: seq<Stamped>, a: seq<Session>, b: seq<Session>, e: Stamped)
    requires Faithful(events, a) && |a| == |b| && e.worker < |a|
    requires forall g :: 0 <= g < |a| ==> a[g].id == b[g].id
    requires e.event.Finished? ==> e.event.outcome.issue.id == a[e.worker].id
    ensures Faithful(events + [e], b)
  {
  }

  lemma PopFaithful(events: seq<Stamped>, a: seq<Session>, b: seq<Session>)
    requires Faithful(events, a) && events != [] && |a| <= |b|
    requires forall g :: 0 <= g < |a| ==> a[g].id == b[g].id
    requires forall k :: 0 <= k < |events| ==> events[k].worker < |a|
    ensures Faithful(events[1..], b)
  {
    assert forall k :: 0 <= k < |events| - 1 ==> events[1..][k] == events[k + 1];
  }

  lemma PushConserved(sessions: seq<Session>, events: seq<Stamped>, g: nat, b: Session, e: Stamped)
    requires Conserved(sessions, events) && g < |sessions| && e.worker == g && b.seen == sessions[g].seen
    requires b.sent == sessions[g].sent + if e.event.Progress? then [e.event.update] else []
    ensures Conserved(sessions[g := b], events + [e])
  {
    var all := sessions[g := b];
    forall k | 0 <= k < |all| ensures all[k].sent == all[k].seen + Pending(events + [e], k) {
      PendingAppend(events, e, k);
      assert sessions[k].sent == sessions[k].seen + Pending(events, k);
    }
  }

  lemma PendingHead(events: seq<Stamped>, g: nat)
    requires events != []
    ensures Pending(events, g) ==
            (if events[0].worker == g && events[0].event.Progress? then [events[0].event.update]
             else []) + Pending(events[1..], g)
  {
  }

  lemma Associative<T>(a: seq<T>, b: seq<T>, c: seq<T>)
    ensures a + (b + c) == (a + b) + c
  {
  }

  lemma PopConserved(sessions: seq<Session>, events: seq<Stamped>, b: Session)
    requires Conserved(sessions, events) && events != [] && events[0].worker < |sessions|
    requires b.sent == sessions[events[0].worker].sent
    requires b.seen == sessions[events[0].worker].seen + if events[0].event.Progress?
             then [events[0].event.update] else []
    ensures Conserved(sessions[events[0].worker := b], events[1..])
  {
    hide Pending;
    var g := events[0].worker;
    var all := sessions[g := b];
    forall k | 0 <= k < |all| ensures all[k].sent == all[k].seen + Pending(events[1..], k) {
      PendingHead(events, k);
      var head := if events[0].event.Progress? then [events[0].event.update] else [];
      Associative(sessions[k].seen, head, Pending(events[1..], k));
      assert sessions[k].sent == sessions[k].seen + Pending(events, k);
      assert k != g ==> Pending(events, k) == Pending(events[1..], k);
    }
  }

  // ---------------------------------------------------------------- token totals

  /** Replacing one record moves the total by the change of that record's credit. */
  lemma {:induction false} CreditMoves(sessions: seq<Session>, g: nat, s: Session)
    requires g < |sessions|
    ensures TotalCredit(sessions[g := s]).Plus(Credit(sessions[g].seen)) == TotalCredit(sessions).Plus(Credit(s.seen))
  {
    hide Credit;
    var n := |sessions| - 1;
    var all := sessions[g := s];
    assert TotalCredit(all) == TotalCredit(all[..n]).Plus(Credit(all[n].seen));
    if g == n {
      assert all[..n] == sessions[..n];
    } else {
      CreditMoves(sessions[..n], g, s);
      assert all[..n] == sessions[..n][g := s];
    }
  }

  lemma SeenGrows(us: seq<Update>, u: Update)
    ensures LastReport(us + [u]) == u.tokens.GetOr(LastReport(us))
    ensures Credit(us + [u]) ==
            Credit(us).Plus(if u.tokens.Some? then u.tokens.value.Minus(LastReport(us)) else NO_TOKENS)
    ensures Recents(us + [u]) == Recents(us) + [ToRecent(u)]
  {
    assert (us + [u])[..|us|] == us;
  }

  lemma LastNPush<T>(s: seq<T>, x: T, n: nat)
    requires n > 0
    ensures LastN(LastN(s, n) + [x], n) == LastN(s + [x], n)
  {
  }

  // ---------------------------------------------------------------- environment moves

  lemma TimerFiresKeeps(w: World, h: nat)
    requires Inv(w) && h in w.timers
    ensures Inv(Apply(w, TimerFires(h)))
  {
    hide Wakes, Workers, Mail, Faithful, Cancellation, Conserved, Shown, RunningPaid, RetriesPaid, TotalCredit, Claims;
    FireKeepsWakes(w.retries, w.timers, w.nextTimer, w.wakeups, h);
  }

  /** Replacing a live record by one for the same issue, seen alike, that is still not done. */
  lemma RecordKeepsRunning(running: map<Id, Running>, sessions: seq<Session>, g: nat, b: Session)
    requires Workers(running, sessions) && Shown(running, sessions) && g < |sessions|
    requires b.id == sessions[g].id && b.phase != Done && sessions[g].phase != Done && b.seen == sessions[g].seen
    ensures Workers(running, sessions[g := b]) && Shown(running, sessions[g := b])
  {
  }

  lemma PushCancellation(running: map<Id, Running>, cancelled: set<nat>, events: seq<Stamped>, workers: nat, e: Stamped)
    requires Cancellation(running, cancelled, events, workers)
    requires e.event.Finished? && e.event.outcome.exit == Canceled ==> e.worker in cancelled
    ensures Cancellation(running, cancelled, events + [e], workers)
  {
  }

  lemma EmitKeeps(w: World, g: nat, u: Update)
    requires Inv(w) && Enabled(w, Emit(g, u))
    ensures Inv(Apply(w, Emit(g, u)))
  {
    hide Wakes, Workers, Mail, Faithful, Cancellation, Conserved, Shown, RunningPaid, RetriesPaid, RunningKeyed,
         RetriesKeyed, TotalCredit, Credit, Claims;
    var t := Apply(w, Emit(g, u));
    var e := Stamped(g, Progress(u));
    PushMail(w.events, w.sessions, t.sessions, e);
    PushFaithful(w.events, w.sessions, t.sessions, e);
    PushConserved(w.sessions, w.events, g, t.sessions[g], e);
    CreditMoves(w.sessions, g, t.sessions[g]);
    RecordKeepsRunning(w.running, w.sessions, g, t.sessions[g]);
    PushCancellation(w.running, w.cancelled, w.events, |w.sessions|, e);
  }

  lemma FinishKeeps(w: World, g: nat, o: Outcome)
    requires Inv(w) && Enabled(w, Finish(g, o))
    ensures Inv(Apply(w, Finish(g, o)))
  {
    hide Wakes, Workers, Mail, Faithful, Cancellation, Conserved, Shown, RunningPaid, RetriesPaid, RunningKeyed,
         RetriesKeyed, TotalCredit, Credit, Claims;
    var t := Apply(w, Finish(g, o));
    var e := Stamped(g, Finished(o));
    PushMail(w.events, w.sessions, t.sessions, e);
    PushFaithful(w.events, w.sessions, t.sessions, e);
    PushConserved(w.sessions, w.events, g, t.sessions[g], e);
    CreditMoves(w.sessions, g, t.sessions[g]);
    RecordKeepsRunning(w.running, w.sessions, g, t.sessions[g]);
    PushCancellation(w.running, w.cancelled, w.events, |w.sessions|, e);
  }

  // ---------------------------------------------------------------- a worker update

  lemma AbsorbKeeps(r: Running, u: Update)
    ensures Absorb(r, u).worker == r.worker
  {
  }

  lemma AbsorbShows(r: Running, us: seq<Update>, u: Update)
    requires Shows(r, us)
    ensures Shows(Absorb(r, u), us + [u])
  {
    hide IsFailureEvent;
    SeenGrows(us, u);
    LastNPush(Recents(us), ToRecent(u), RECENT_EVENT_LIMIT);
    assert (us + [u])[..|us|] == us;
  }

  lemma UpdateRunning(running: map<Id, Running>, sessions: seq<Session>, id: Id, u: Update)
    requires Workers(running, sessions) && Shown(running, sessions) && id in running
    ensures var g := running[id].worker;
      var all := sessions[g := sessions[g].(seen := sessions[g].seen + [u])];
      var rows := running[id := Absorb(running[id], u)];
      Workers(rows, all) && Shown(rows, all) && SameRoster(sessions, all)
  {
    hide Shows, Absorb;
    var g := running[id].worker;
    AbsorbShows(running[id], sessions[g].seen, u);
    AbsorbKeeps(running[id], u);
  }

  lemma UpdateCancellation(running: map<Id, Running>, cancelled: set<nat>, events: seq<Stamped>, workers: nat, id: Id,
                           u: Update)
    requires Cancellation(running, cancelled, events, workers) && id in running && events != []
    ensures Cancellation(running[id := Absorb(running[id], u)], cancelled, events[1..], workers)
  {
  }

  lemma UpdatePaid(running: map<Id, Running>, marks: map<Id, seq<Mark>>, id: Id, u: Update)
    requires RunningPaid(running, marks) && RunningKeyed(running) && id in running
    ensures RunningPaid(running[id := Absorb(running[id], u)], marks)
    ensures RunningKeyed(running[id := Absorb(running[id], u)])
  {
  }

  lemma UpdateCredit(totals: Tokens, sessions: seq<Session>, g: nat, u: Update)
    requires g < |sessions| && totals == TotalCredit(sessions)
    ensures var delta := if u.tokens.Some? then u.tokens.value.Minus(LastReport(sessions[g].seen)) else NO_TOKENS;
      totals.Plus(delta) == TotalCredit(sessions[g := sessions[g].(seen := sessions[g].seen + [u])])
  {
    hide TotalCredit, Credit;
    SeenGrows(sessions[g].seen, u);
    CreditMoves(sessions, g, sessions[g].(seen := sessions[g].seen + [u]));
  }

  /** The head of the event queue is for the running entry its sender belongs to. */
  lemma HeadIsCurrent(running: map<Id, Running>, sessions: seq<Session>, events: seq<Stamped>)
    requires Workers(running, sessions) && Mail(events, sessions) && events != []
    ensures events[0].worker < |sessions|
    ensures var id := sessions[events[0].worker].id; id in running && running[id].worker == events[0].worker
    ensures events[0].event.Progress? ==> events[0].event.update.issueId == sessions[events[0].worker].id
  {
  }

  lemma UpdateKeeps(w: World, now: int)
    requires Inv(w) && w.events != [] && w.events[0].event.Progress?
    ensures Inv(Apply(w, WorkerEvent(now)))
  {
    hide Wakes, Workers, Mail, Faithful, Cancellation, Conserved, RunningPaid, RetriesPaid, TotalCredit, Claims,
         LastReport;
    var t := Apply(w, WorkerEvent(now));
    var g, u := w.events[0].worker, w.events[0].event.update;
    HeadIsCurrent(w.running, w.sessions, w.events);
    UpdateRunning(w.running, w.sessions, u.issueId, u);
    UpdateCancellation(w.running, w.cancelled, w.events, |w.sessions|, u.issueId, u);
    UpdatePaid(w.running, w.marks, u.issueId, u);
    UpdateCredit(w.totals, w.sessions, g, u);
    PopProgressMail(w.events, w.sessions, t.sessions);
    PopConserved(w.sessions, w.events, t.sessions[g]);
    MailBounds(w.events, w.sessions);
    PopFaithful(w.events, w.sessions, t.sessions);
    UpdateClaims(w.claimed, w.running, w.retries, u.issueId, Absorb(w.running[u.issueId], u));
  }

  lemma MailBounds(events: seq<Stamped>, sessions: seq<Session>)
    requires Mail(events, sessions)
    ensures forall k :: 0 <= k < |events| ==> events[k].worker < |sessions|
  {
  }

  lemma UpdateClaims(claimed: set<Id>, running: map<Id, Running>, retries: map<Id, Retry>, id: Id, r: Running)
    requires Claims(claimed, running, retries, {}) && id in running
    ensures Claims(claimed, running[id := r], retries, {})
  {
  }

  // ---------------------------------------------------------------- a finished worker

  lemma TakeOutRunning(running: map<Id, Running>, sessions: seq<Session>, id: Id)
    requires Workers(running, sessions) && Shown(running, sessions) && id in running
    ensures var g := running[id].worker;
      var all := sessions[g := sessions[g].(phase := Done)];
      Workers(running - {id}, all) && Shown(running - {id}, all)
  {
  }

  lemma TakeOutCancellation(running: map<Id, Running>, cancelled: set<nat>, events: seq<Stamped>, workers: nat, id: Id)
    requires Cancellation(running, cancelled, events, workers) && events != []
    ensures Cancellation(running - {id}, cancelled, events[1..], workers)
  {
  }

  lemma TakeOutClaims(claimed: set<Id>, running: map<Id, Running>, retries: map<Id, Retry>, id: Id)
    requires Claims(claimed, running, retries, {})
    requires id in running
    ensures Claims(claimed, running - {id}, retries, {id})
  {
  }

  lemma MarkedPaid(running: map<Id, Running>, retries: map<Id, Retry>, marks: map<Id, seq<Mark>>, id: Id,
                   history: seq<Mark>)
    requires RunningPaid(running, marks) && RetriesPaid(retries, marks) && id !in running && id !in retries
    ensures RunningPaid(running, marks[id := history]) && RetriesPaid(retries, marks[id := history])
  {
  }

  lemma MarkedKeeps(w: World, id: Id, mark: Mark)
    requires Holding(w, id)
    ensures Holding(Marked(w, id, mark), id)
  {
    hide Wakes, Workers, Mail, Cancellation, Conserved, Shown, RunningPaid, RetriesPaid, TotalCredit;
    MarkedPaid(w.running, w.retries, w.marks, id, (if id in w.marks then w.marks[id] else []) + [mark]);
  }

  /** A setback costs one attempt more; a clean end starts again at one. */
  lemma MarkedPays(w: World, id: Id, attempt: Option<nat>)
    requires Paid(w.marks, id, attempt)
    ensures Paid(Marked(w, id, Setback).marks, id, Some(NextAttempt(attempt)))
    ensures Paid(Marked(w, id, Clean).marks, id, Some(1))
  {
    var marks := w.marks[id];
    assert (marks + [Setback])[..|marks|] == marks;
    assert marks != [];
    assert Owed([Fresh]) == 0;
  }

  lemma TakeOutHolds(w: World, now: int)
    requires Core(w) && w.events != [] && w.events[0].event.Finished?
    requires w.events[0].worker < |w.sessions| &&
             w.events[0].event.outcome.issue.id == w.sessions[w.events[0].worker].id
    ensures var id := w.events[0].event.outcome.issue.id;
      id in w.running && Holding(TakeOut(w.(events := w.events[1..]), w.events[0].worker, id), id)
  {
    hide Wakes, Workers, Mail, Cancellation, Conserved, Shown, RunningPaid, RetriesPaid, TotalCredit, Claims, Credit;
    var g, id := w.events[0].worker, w.events[0].event.outcome.issue.id;
    HeadIsCurrent(w.running, w.sessions, w.events);
    var t := TakeOut(w.(events := w.events[1..]), g, id);
    TakeOutRunning(w.running, w.sessions, id);
    TakeOutCancellation(w.running, w.cancelled, w.events, |w.sessions|, id);
    TakeOutClaims(w.claimed, w.running, w.retries, id);
    PopFinishedMail(w.events, w.sessions);
    PopConserved(w.sessions, w.events, t.sessions[g]);
    CreditMoves(w.sessions, g, t.sessions[g]);
    TakeOutPaid(w.running, w.marks, id);
  }

  lemma TakeOutPaid(running: map<Id, Running>, marks: map<Id, seq<Mark>>, id: Id)
    requires RunningPaid(running, marks) && id in running
    ensures RunningPaid(running - {id}, marks) && Paid(marks, id, running[id].attempt)
  {
  }

  /** A worker that reports `Canceled` finds its stop reason set. */
  lemma CancelIsExplained(w: World)
    requires Core(w) && w.events != [] && w.events[0].event.Finished?
    requires w.events[0].event.outcome.exit == Canceled
    ensures w.events[0].worker < |w.sessions|
    ensures var id := w.sessions[w.events[0].worker].id; id in w.running && w.running[id].stopReason.Some?
  {
    HeadIsCurrent(w.running, w.sessions, w.events);
  }

  lemma RequeueKeeps(w: World, id: Id, identifier: string, attempt: Option<nat>, error: Option<string>, now: int)
    requires Holding(w, id) && Paid(w.marks, id, attempt)
    ensures Core(Requeue(w, id, identifier, NextAttempt(attempt), error, now))
  {
    hide Body, Claims, Paid, ScheduleRetry, Marked;
    MarkedPays(w, id, attempt);
    MarkedKeeps(w, id, Setback);
    var next := NextAttempt(attempt);
    ScheduleKeeps(Marked(w, id, Setback), id, identifier, next, error, Delay(w, next), now);
  }

  lemma CleanUpHolds(w: World, identifier: string, id: Id)
    requires Holding(w, id)
    ensures Holding(CleanUp(w, identifier), id)
  {
    hide Wakes, Workers, Mail, Cancellation, Conserved, Shown, RunningPaid, RetriesPaid, TotalCredit, Claims;
  }

  lemma SettleKeeps(w: World, r: Running, o: Outcome, now: int)
    requires Holding(w, o.issue.id) && Paid(w.marks, o.issue.id, r.attempt)
    requires o.exit == Canceled ==> r.stopReason.Some?
    ensures Core(Settle(w, r, o, now))
    ensures Settle(w, r, o, now).events == w.events && Settle(w, r, o, now).sessions == w.sessions
  {
    hide Body, Claims, Paid, ScheduleRetry, Marked, Requeue, ReleaseClaim;
    var id := o.issue.id;
    match r.stopReason {
      case Some(Terminal) =>
        CleanUpHolds(w, o.issue.identifier, id);
        ReleaseKeeps(CleanUp(w, o.issue.identifier), id);
      case Some(NonActive) => ReleaseKeeps(w, id);
      case Some(Stall) => RequeueKeeps(w, id, o.issue.identifier, r.attempt, Some("stalled session"), now);
      case None =>
        if o.exit == Succeeded {
          MarkedPays(w, id, r.attempt);
          MarkedKeeps(w, id, Clean);
          ScheduleKeeps(Marked(w, id, Clean), id, o.issue.identifier, 1, None, CONTINUATION_DELAY_MS, now);
        } else {
          RequeueKeeps(w, id, o.issue.identifier, r.attempt,
                       if o.exit == TimedOut then Some("worker turn timeout") else o.error, now);
        }
    }
  }

  lemma FinishedKeeps(w: World, now: int)
    requires Core(w) && w.events != [] && w.events[0].event.Finished?
    requires w.events[0].worker < |w.sessions| &&
             w.events[0].event.outcome.issue.id == w.sessions[w.events[0].worker].id
    ensures Core(Apply(w, WorkerEvent(now)))
    ensures Faithful(w.events, w.sessions) ==> Inv(Apply(w, WorkerEvent(now)))
  {
    hide Wakes, Workers, Mail, Faithful, Cancellation, Conserved, Shown, RetriesPaid, TotalCredit, Claims, Settle;
    var g, o := w.events[0].worker, w.events[0].event.outcome;
    TakeOutHolds(w, now);
    var out := TakeOut(w.(events := w.events[1..]), g, o.issue.id);
    if o.exit == Canceled { CancelIsExplained(w); }
    SettleKeeps(out, w.running[o.issue.id], o, now);
    if Faithful(w.events, w.sessions) {
      MailBounds(w.events, w.sessions);
      PopFaithful(w.events, w.sessions, out.sessions);
    }
  }

  // ---------------------------------------------------------------- a retry wake-up

  lemma WakeHolds(w: World)
    requires Inv(w) && w.wakeups != []
    ensures w.wakeups[0] in w.retries
    ensures var id := w.wakeups[0];
      && Holding(w.(wakeups := w.wakeups[1..], retries := w.retries - {id}), id)
      && Paid(w.marks, id, Some(w.retries[id].attempt))
  {
    hide Wakes, Workers, Mail, Faithful, Cancellation, Conserved, Shown, RunningPaid, TotalCredit;
    WakeIsCurrent(w.retries, w.timers, w.nextTimer, w.wakeups);
  }

  lemma ResumeKeeps(w: World, id: Id, retry: Retry, candidates: Option<seq<Issue>>, pollError: string, now: int)
    requires Holding(w, id) && Paid(w.marks, id, Some(retry.attempt))
    ensures Core(Resume(w, id, retry, candidates, pollError, now))
  {
    hide Body, Claims, Paid, ShouldDispatch, Slots, Requeue, ReleaseClaim, Dispatch;
    if candidates.None? {
      RequeueKeeps(w, id, retry.identifier, Some(retry.attempt), Some("retry poll failed: " + pollError), now);
    } else {
      var found := FindCandidate(candidates.value, id);
      if found.None? {
        ReleaseKeeps(w, id);
      } else if Slots(w) == 0 || !ShouldDispatch(w, found.value, Some(id)) {
        RequeueKeeps(w, id, found.value.identifier, Some(retry.attempt), Some(NO_SLOTS_ERROR), now);
      } else {
        DispatchKeeps(w, found.value, Some(retry.attempt), now);
      }
    }
  }

  /** A new worker or none: the queue and the records of older workers stay. */
  ghost predicate SessionsGrow(a: World, b: World) {
    b.events == a.events && |a.sessions| <= |b.sessions| && b.sessions[..|a.sessions|] == a.sessions
  }

  lemma ResumeFrame(w: World, id: Id, retry: Retry, candidates: Option<seq<Issue>>, pollError: string, now: int)
    ensures SessionsGrow(w, Resume(w, id, retry, candidates, pollError, now))
  {
    hide ShouldDispatch, Delay;
  }

  lemma GrowFaithful(w: World, t: World)
    requires Faithful(w.events, w.sessions) && Mail(w.events, w.sessions) && SessionsGrow(w, t)
    ensures Faithful(t.events, t.sessions)
  {
    assert forall g :: 0 <= g < |w.sessions| ==> t.sessions[g] == w.sessions[..][g];
  }

  lemma WakeupKeeps(w: World, now: int, candidates: Option<seq<Issue>>, pollError: string)
    requires Inv(w) && w.wakeups != []
    ensures Inv(Apply(w, RetryWakeup(now, candidates, pollError)))
  {
    hide Wakes, Workers, Mail, Faithful, Cancellation, Conserved, Shown, RunningPaid, RetriesPaid, TotalCredit,
         Claims, Resume, Paid;
    WakeHolds(w);
    var id := w.wakeups[0];
    var out := w.(wakeups := w.wakeups[1..], retries := w.retries - {id});
    ResumeKeeps(out, id, w.retries[id], candidates, pollError, now);
    ResumeFrame(out, id, w.retries[id], candidates, pollError, now);
    GrowFaithful(out, Resume(out, id, w.retries[id], candidates, pollError, now));
  }

  // ---------------------------------------------------------------- a tick

  /** What reconcile may do to a row: set a missing stop reason together with its token, or refresh the issue. */
  ghost predicate Reconciled(a: World, b: World) {
    && b == a.(running := b.running, cancelled := b.cancelled)
    && b.running.Keys == a.running.Keys
    && (forall id :: id in a.running ==>
          && b.running[id] == a.running[id].(issue := b.running[id].issue, stopReason := b.running[id].stopReason)
          && b.running[id].issue.id == a.running[id].issue.id
          && (a.running[id].stopReason.Some? ==> b.running[id].stopReason == a.running[id].stopReason))
    && (forall g :: g in b.cancelled && g !in a.cancelled ==>
          exists id :: id in a.running && a.running[id].worker == g && b.running[id].stopReason.Some?)
    && (forall id :: id in a.running && a.running[id].stopReason != b.running[id].stopReason ==>
       a.running[id].worker in b.cancelled)
    && a.cancelled <= b.cancelled
  }

  lemma StalledReconciles(w: World, now: int)
    ensures Reconciled(w, ReconcileStalled(w, now))
  {
  }

  lemma StatesReconcile(w: World, answers: seq<Issue>)
    requires RunningKeyed(w.running)
    ensures Reconciled(w, ReconcileStates(w, answers))
  {
    hide Judge, Judged, Answer;
    forall id | id in w.running ensures Followed(w.running[id], Judge(w.config, Answer(answers, id)), id) {
      VerdictFollows(w.config, w.running[id], answers, id);
    }
  }

  /** A verdict changes the issue for one with the same id, or stops the row if nothing did before. */
  ghost predicate Followed(r: Running, verdict: Verdict, id: Id) {
    var t := Judged(r, verdict);
    && t == r.(issue := t.issue, stopReason := t.stopReason)
    && t.issue.id == id
    && (verdict.Stop? ==> t.stopReason.Some? && (r.stopReason.Some? ==> t.stopReason == r.stopReason))
    && (!verdict.Stop? ==> t.stopReason == r.stopReason)
  }

  lemma VerdictFollows(config: Config, r: Running, answers: seq<Issue>, id: Id)
    requires r.issue.id == id
    ensures Followed(r, Judge(config, Answer(answers, id)), id)
  {
    hide Config.IsActive, Config.IsTerminal, Answer;
  }

  lemma ReconciledCancellation(a: World, b: World)
    requires Cancellation(a.running, a.cancelled, a.events, |a.sessions|)
    requires Workers(a.running, a.sessions) && Reconciled(a, b)
    ensures Cancellation(b.running, b.cancelled, b.events, |b.sessions|)
  {
    forall id | id in b.running ensures b.running[id].worker in b.cancelled <==> b.running[id].stopReason.Some? {
      var g := a.running[id].worker;
      if g in b.cancelled && g !in a.cancelled {
        var other :| other in a.running && a.running[other].worker == g && b.running[other].stopReason.Some?;
        assert other == a.sessions[g].id == id;
      }
    }
  }

  lemma SameShow(r: Running, t: Running, us: seq<Update>)
    requires t == r.(issue := t.issue, stopReason := t.stopReason) && Shows(r, us)
    ensures Shows(t, us)
  {
  }

  lemma ReconciledRows(a: World, b: World)
    requires Workers(a.running, a.sessions) && Shown(a.running, a.sessions) && Reconciled(a, b)
    ensures Workers(b.running, b.sessions) && Shown(b.running, b.sessions)
  {
    hide Shows;
    assert Workers(b.running, b.sessions) by { hide Shown; }
    forall id | id in b.running && b.running[id].worker < |b.sessions|
      ensures Shows(b.running[id], b.sessions[b.running[id].worker].seen)
    {
      assert Shows(a.running[id], a.sessions[a.running[id].worker].seen);
      SameShow(a.running[id], b.running[id], a.sessions[a.running[id].worker].seen);
    }
  }

  lemma ReconciledPaid(a: World, b: World)
    requires RunningPaid(a.running, a.marks) && RunningKeyed(a.running) && Reconciled(a, b)
    ensures RunningPaid(b.running, b.marks) && RunningKeyed(b.running)
  {
    hide Paid;
  }

  lemma ReconciledClaims(a: World, b: World)
    requires Claims(a.claimed, a.running, a.retries, {}) && Reconciled(a, b)
    ensures Claims(b.claimed, b.running, b.retries, {})
  {
  }

  lemma ReconciledKeeps(a: World, b: World)
    requires Inv(a) && Reconciled(a, b)
    ensures Inv(b)
  {
    hide Wakes, Workers, Mail, Faithful, Cancellation, Conserved, Shown, RunningPaid, RetriesPaid, TotalCredit, Claims;
    ReconciledCancellation(a, b);
    ReconciledRows(a, b);
    ReconciledPaid(a, b);
    ReconciledClaims(a, b);
  }

  lemma ReconcileKeeps(w: World, now: int, answers: Option<seq<Issue>>)
    requires Inv(w)
    ensures Inv(Reconcile(w, now, answers))
  {
    hide Wakes, Workers, Mail, Faithful, Cancellation, Conserved, Shown, RunningPaid, RetriesPaid, TotalCredit,
         Claims, Reconciled;
    var stalled := ReconcileStalled(w, now);
    StalledReconciles(w, now);
    ReconciledKeeps(w, stalled);
    if answers.Some? {
      StatesReconcile(stalled, answers.value);
      ReconciledKeeps(stalled, ReconcileStates(stalled, answers.value));
    }
  }

  lemma UnclaimedHolds(w: World, id: Id)
    requires Inv(w) && id !in w.claimed
    ensures Holding(w, id)
  {
    hide Wakes, Workers, Mail, Faithful, Cancellation, Conserved, Shown, RunningPaid, RetriesPaid, TotalCredit;
  }

  lemma DispatchStepKeeps(w: World, issue: Issue, now: int)
    requires Inv(w) && ShouldDispatch(w, issue, None)
    ensures Inv(Dispatch(w, issue, None, now))
    ensures issue.id !in w.retries && issue.id !in w.running
  {
    hide Wakes, Workers, Mail, Faithful, Cancellation, Conserved, Shown, RunningPaid, RetriesPaid, TotalCredit;
    UnclaimedHolds(w, issue.id);
    DispatchKeeps(w, issue, None, now);
    GrowFaithful(w, Dispatch(w, issue, None, now));
  }

  lemma {:induction false} DispatchAllKeeps(w: World, issues: seq<Issue>, now: int)
    requires Inv(w)
    ensures Inv(DispatchAll(w, issues, now))
    decreases |issues|
  {
    hide Inv, Dispatch, ShouldDispatch;
    if issues != [] && Slots(w) > 0 {
      if ShouldDispatch(w, issues[0], None) {
        DispatchStepKeeps(w, issues[0], now);
        DispatchAllKeeps(Dispatch(w, issues[0], None, now), issues[1..], now);
      } else {
        DispatchAllKeeps(w, issues[1..], now);
      }
    }
  }

  lemma TickKeeps(w: World, now: int, answers: Option<seq<Issue>>, candidates: Option<seq<Issue>>)
    requires Inv(w)
    ensures Inv(RunTick(w, now, answers, candidates))
  {
    hide Inv, Reconcile, DispatchAll;
    ReconcileKeeps(w, now, answers);
    if candidates.Some? {
      DispatchAllKeeps(Reconcile(w, now, answers), Dispatching.SortForDispatch(candidates.value), now);
    }
  }

  lemma UntrackedFields(w: World, config: Config, refresh: bool)
    requires Inv(w)
    ensures Inv(w.(config := config)) && Inv(w.(refreshQueued := refresh))
  {
    hide Wakes, Workers, Mail, Faithful, Cancellation, Conserved, Shown, RunningPaid, RetriesPaid, TotalCredit, Claims;
  }

  // ---------------------------------------------------------------- every step

  /** Whatever happens next, the invariant holds again after it. */
  lemma StepKeeps(w: World, s: Step)
    requires Inv(w) && Enabled(w, s)
    ensures Inv(Apply(w, s))
  {
    match s
    case Tick(now, answers, candidates) =>
      TickKeeps(w, now, answers, candidates);
      UntrackedFields(RunTick(w, now, answers, candidates), w.config, false);
    case WorkerEvent(now) =>
      if w.events[0].event.Progress? {
        UpdateKeeps(w, now);
      } else {
        HeadIsCurrent(w.running, w.sessions, w.events);
        FinishedKeeps(w, now);
      }
    case RetryWakeup(now, candidates, pollError) => WakeupKeeps(w, now, candidates, pollError);
    case Refresh => UntrackedFields(w, w.config, true);
    case Reload(config) => UntrackedFields(w, config.GetOr(w.config), w.refreshQueued);
    case TimerFires(h) => TimerFiresKeeps(w, h);
    case Emit(g, u) => EmitKeeps(w, g, u);
    case Finish(g, o) => FinishKeeps(w, g, o);
  }
}
