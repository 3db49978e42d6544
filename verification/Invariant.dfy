/** What holds between event-loop steps, and how each handler keeps it.

    Every clause takes just the fields it speaks of, so a handler that leaves them alone keeps it. */
module Invariant {
  import opened Types
  import opened Machine

  // ---------------------------------------------------------------- the clauses

  /** `claimed` is the disjoint union of running and retrying ids, apart from ids a handler holds in its hands. */
  ghost predicate Claims(claimed: set<Id>, running: map<Id, Running>, retries: map<Id, Retry>, held: set<Id>) {
    && (forall id :: id in claimed && id !in held ==> id in running || id in retries)
    && (forall id :: id in running ==> id in claimed && id !in retries && id !in held)
    && (forall id :: id in retries ==> id in claimed && id !in held)
  }

  ghost predicate Distinct<T>(s: seq<T>) {
    forall i, j :: 0 <= i < j < |s| ==> s[i] != s[j]
  }

  /** The timer of this entry is still sleeping. */
  ghost predicate Asleep(retry: Retry, id: Id, timers: map<nat, Id>) {
    retry.handle in timers && timers[retry.handle] == id
  }

  /** Each retry entry has its own timer asleep or its own message queued, never both; nothing else sleeps or is
      queued. */
  ghost predicate Wakes(retries: map<Id, Retry>, timers: map<nat, Id>, nextTimer: nat, wakeups: seq<Id>) {
    && (forall h :: h in timers ==> timers[h] in retries && retries[timers[h]].handle == h)
    && (forall id :: id in retries ==> retries[id].handle < nextTimer)
    && (forall id :: id in retries ==> (id in wakeups <==> !Asleep(retries[id], id, timers)))
    && (forall a, b :: a in retries && b in retries && retries[a].handle == retries[b].handle ==> a == b)
    && (forall id :: id in wakeups ==> id in retries)
    && Distinct(wakeups)
  }

  /** Running entries and workers that are not done are in one-to-one correspondence. */
  ghost predicate Workers(running: map<Id, Running>, sessions: seq<Session>) {
    && (forall id :: id in running ==>
          && running[id].worker < |sessions|
          && sessions[running[id].worker].id == id
          && sessions[running[id].worker].phase != Done)
    && (forall g :: 0 <= g < |sessions| && sessions[g].phase != Done ==>
          sessions[g].id in running && running[sessions[g].id].worker == g)
  }

  ghost predicate IsFinish(events: seq<Stamped>, k: int, g: int) {
    0 <= k < |events| && events[k].worker == g && events[k].event.Finished?
  }

  /** Queued events come from workers that are not done, carry their id, and `Finished` is the sender's last. */
  ghost predicate Mail(events: seq<Stamped>, sessions: seq<Session>) {
    && (forall k :: 0 <= k < |events| ==>
          && events[k].worker < |sessions|
          && sessions[events[k].worker].phase != Done
          && (events[k].event.Progress? ==> events[k].event.update.issueId == sessions[events[k].worker].id)
          && (events[k].event.Finished? ==> sessions[events[k].worker].phase == Ended))
    && (forall j, k :: 0 <= j < k < |events| && events[j].event.Finished? ==> events[j].worker != events[k].worker)
    && (forall g :: 0 <= g < |sessions| && sessions[g].phase == Ended ==> exists k :: IsFinish(events, k, g))
  }

  /** Every queued `Finished` names the issue its worker was started for. */
  ghost predicate Faithful(events: seq<Stamped>, sessions: seq<Session>) {
    forall k :: 0 <= k < |events| && events[k].event.Finished? && events[k].worker < |sessions| ==>
      events[k].event.outcome.issue.id == sessions[events[k].worker].id
  }

  /** A token is cancelled exactly when a stop reason is set, and only cancelled workers report `Canceled`. */
  ghost predicate Cancellation(running: map<Id, Running>, cancelled: set<nat>, events: seq<Stamped>, workers: nat) {
    && (forall id :: id in running ==> (running[id].worker in cancelled <==> running[id].stopReason.Some?))
    && (forall g :: g in cancelled ==> g < workers)
    && (forall k :: 0 <= k < |events| && events[k].event.Finished? && events[k].event.outcome.exit == Canceled ==>
          events[k].worker in cancelled)
  }

  /** The last token report among `us`. */
  function LastReport(us: seq<Update>): Tokens {
    if us == [] then NO_TOKENS else us[|us| - 1].tokens.GetOr(LastReport(us[..|us| - 1]))
  }

  /** The sum of the positive increments between successive reports. */
  function Credit(us: seq<Update>): Tokens {
    if us == [] then NO_TOKENS
    else
      var before := us[..|us| - 1];
      Credit(before).Plus(
        if us[|us| - 1].tokens.Some? then us[|us| - 1].tokens.value.Minus(LastReport(before)) else NO_TOKENS)
  }

  function TotalCredit(sessions: seq<Session>): Tokens {
    if sessions == [] then NO_TOKENS
    else TotalCredit(sessions[..|sessions| - 1]).Plus(Credit(sessions[|sessions| - 1].seen))
  }

  /** The updates of worker `g` still in the queue, in order. */
  function Pending(events: seq<Stamped>, g: nat): seq<Update> {
    if events == [] then []
    else
      (if events[0].worker == g && events[0].event.Progress? then [events[0].event.update]
       else []) + Pending(events[1..], g)
  }

  /** Everything a worker sent has been seen under its own name, in order, or is still queued. */
  ghost predicate Conserved(sessions: seq<Session>, events: seq<Stamped>) {
    forall g :: 0 <= g < |sessions| ==> sessions[g].sent == sessions[g].seen + Pending(events, g)
  }

  function Recents(us: seq<Update>): seq<Recent> {
    seq(|us|, i requires 0 <= i < |us| => ToRecent(us[i]))
  }

  function LastMessage(us: seq<Update>): Option<string> {
    if us == [] then None
    else if us[|us| - 1].message.Some? then us[|us| - 1].message else LastMessage(us[..|us| - 1])
  }

  function LastTurnCount(us: seq<Update>): nat {
    if us == [] then 0 else us[|us| - 1].turnCount.GetOr(LastTurnCount(us[..|us| - 1]))
  }

  function LastFailure(us: seq<Update>): Option<string> {
    if us == [] then None
    else if IsFailureEvent(us[|us| - 1].event) then Some(us[|us| - 1].message.GetOr(""))
    else LastFailure(us[..|us| - 1])
  }

  /** The row shows what these updates say. */
  ghost predicate Shows(r: Running, us: seq<Update>) {
    && r.live == Live(
         if us == [] then None else us[|us| - 1].sessionId,
         if us == [] then None else Some(us[|us| - 1].event),
         if us == [] then None else Some(us[|us| - 1].at),
         LastMessage(us), LastReport(us), LastReport(us), LastTurnCount(us))
    && r.recent == LastN(Recents(us), RECENT_EVENT_LIMIT)
    && r.lastError == LastFailure(us)
  }

  /** A running row shows what its own worker reported. */
  ghost predicate Shown(running: map<Id, Running>, sessions: seq<Session>) {
    forall id :: id in running && running[id].worker < |sessions| ==>
      Shows(running[id], sessions[running[id].worker].seen)
  }

  /** The attempt owed to a history: one per setback since the last fresh claim (from 0) or clean success (from 1). */
  function Owed(marks: seq<Mark>): nat {
    if marks == [] then 0
    else
      match marks[|marks| - 1]
      case Fresh => 0
      case Clean => 1
      case Setback => Owed(marks[..|marks| - 1]) + 1
  }

  /** The history starts with a fresh claim and pays for this attempt; a first claim has none. */
  ghost predicate Paid(marks: map<Id, seq<Mark>>, id: Id, attempt: Option<nat>) {
    && id in marks && marks[id] != [] && marks[id][0] == Fresh
    && (if attempt.None? then marks[id] == [Fresh] else marks[id] != [Fresh] && attempt.value == Owed(marks[id]) >= 1)
  }

  ghost predicate RunningPaid(running: map<Id, Running>, marks: map<Id, seq<Mark>>) {
    forall id :: id in running ==> Paid(marks, id, running[id].attempt)
  }

  ghost predicate RetriesPaid(retries: map<Id, Retry>, marks: map<Id, seq<Mark>>) {
    forall id :: id in retries ==> Paid(marks, id, Some(retries[id].attempt))
  }

  ghost predicate RunningKeyed(running: map<Id, Running>) {
    forall id :: id in running ==> running[id].issueId == id && running[id].issue.id == id
  }

  ghost predicate RetriesKeyed(retries: map<Id, Retry>) {
    forall id :: id in retries ==> retries[id].issueId == id
  }

  ghost predicate Body(w: World) {
    && Wakes(w.retries, w.timers, w.nextTimer, w.wakeups)
    && Workers(w.running, w.sessions)
    && Mail(w.events, w.sessions)
    && Cancellation(w.running, w.cancelled, w.events, |w.sessions|)
    && w.totals == TotalCredit(w.sessions)
    && Conserved(w.sessions, w.events)
    && Shown(w.running, w.sessions)
    && RunningPaid(w.running, w.marks)
    && RetriesPaid(w.retries, w.marks)
    && RunningKeyed(w.running)
    && RetriesKeyed(w.retries)
    && w.faults == {}
  }

  /** The invariant apart from what queued outcomes say about their issue. */
  ghost predicate Core(w: World) {
    Body(w) && Claims(w.claimed, w.running, w.retries, {})
  }

  ghost predicate Inv(w: World) {
    Core(w) && Faithful(w.events, w.sessions)
  }

  /** A handler has taken `id` out of its map and must still put it somewhere. */
  ghost predicate Holding(w: World, id: Id) {
    Body(w) && Claims(w.claimed, w.running, w.retries, {id})
  }

  lemma InitHolds(config: Config)
    ensures Inv(Init(config))
  {
  }

  // ---------------------------------------------------------------- what a handler does with a held id

  lemma WakesOfSchedule(retries: map<Id, Retry>, timers: map<nat, Id>, next: nat, wakeups: seq<Id>, id: Id,
                        retry: Retry)
    requires Wakes(retries, timers, next, wakeups) && id !in retries && retry.handle == next
    ensures next !in timers && id !in wakeups
    ensures Wakes(retries[id := retry], timers[next := id], next + 1, wakeups)
  {
    assert next !in timers;
  }

  lemma HeldIdWaits(claimed: set<Id>, running: map<Id, Running>, retries: map<Id, Retry>, id: Id, retry: Retry)
    requires Claims(claimed, running, retries, {id})
    ensures Claims(claimed + {id}, running, retries[id := retry], {})
  {
  }

  lemma ScheduleKeeps(w: World, id: Id, identifier: string, attempt: nat, error: Option<string>, delayMs: nat, now: int)
    requires Holding(w, id) && Paid(w.marks, id, Some(attempt))
    ensures Core(ScheduleRetry(w, id, identifier, attempt, error, delayMs, now))
    ensures w.nextTimer !in w.timers && id !in w.wakeups
    ensures var t := ScheduleRetry(w, id, identifier, attempt, error, delayMs, now);
      t.timers == w.timers[w.nextTimer := id] && t.wakeups == w.wakeups
  {
    hide Wakes, Workers, Mail, Cancellation, Conserved, Shown, RunningPaid, TotalCredit;
    var t := ScheduleRetry(w, id, identifier, attempt, error, delayMs, now);
    WakesOfSchedule(w.retries, w.timers, w.nextTimer, w.wakeups, id, t.retries[id]);
    HeldIdWaits(w.claimed, w.running, w.retries, id, t.retries[id]);
  }

  lemma ReleaseKeeps(w: World, id: Id)
    requires Holding(w, id)
    ensures Core(ReleaseClaim(w, id))
    ensures ReleaseClaim(w, id) == w.(claimed := w.claimed - {id})
  {
  }

  lemma {:induction false} NothingPending(events: seq<Stamped>, g: nat)
    requires forall k :: 0 <= k < |events| ==> events[k].worker != g
    ensures Pending(events, g) == []
  {
    if events != [] { NothingPending(events[1..], g); }
  }

  lemma NewWorkerMail(events: seq<Stamped>, sessions: seq<Session>, s: Session)
    requires Mail(events, sessions) && s.phase == Working
    ensures Mail(events, sessions + [s])
  {
  }

  lemma NewWorkerConserved(events: seq<Stamped>, sessions: seq<Session>, s: Session)
    requires Mail(events, sessions) && Conserved(sessions, events) && s.sent == s.seen == []
    ensures Conserved(sessions + [s], events)
  {
    var all := sessions + [s];
    forall g | 0 <= g < |all| ensures all[g].sent == all[g].seen + Pending(events, g) {
      if g < |sessions| {
        assert sessions[g].sent == sessions[g].seen + Pending(events, g);
      } else {
        NothingPending(events, g);
      }
    }
  }

  lemma EmptyCredit()
    ensures Credit([]) == NO_TOKENS
  {
  }

  lemma {:induction false} NewWorkerCredit(sessions: seq<Session>, s: Session)
    requires s.seen == []
    ensures TotalCredit(sessions + [s]) == TotalCredit(sessions)
  {
    hide Credit;
    EmptyCredit();
    assert (sessions + [s])[..|sessions|] == sessions;
  }

  lemma NewWorkerRunning(running: map<Id, Running>, sessions: seq<Session>, s: Session, r: Running)
    requires Workers(running, sessions) && Shown(running, sessions)
    requires s.phase == Working && s.seen == [] && s.id !in running
    requires r.worker == |sessions| && r.live == FRESH_LIVE && r.recent == [] && r.lastError.None?
    ensures Workers(running[s.id := r], sessions + [s])
    ensures Shown(running[s.id := r], sessions + [s])
  {
    assert Recents(s.seen) == [];
  }

  lemma NewWorkerPaid(running: map<Id, Running>, retries: map<Id, Retry>, marks: map<Id, seq<Mark>>, id: Id, r: Running)
    requires RunningPaid(running, marks) && RetriesPaid(retries, marks) && id !in retries
    requires r.attempt.Some? ==> Paid(marks, id, r.attempt)
    ensures RunningPaid(running[id := r], if r.attempt.None? then marks[id := [Fresh]] else marks)
    ensures RetriesPaid(retries, if r.attempt.None? then marks[id := [Fresh]] else marks)
  {
  }

  lemma NewWorkerCancellation(running: map<Id, Running>, cancelled: set<nat>, events: seq<Stamped>, workers: nat,
                              id: Id, r: Running)
    requires Cancellation(running, cancelled, events, workers)
    requires r.worker == workers && r.stopReason.None?
    ensures Cancellation(running[id := r], cancelled, events, workers + 1)
  {
  }

  lemma HeldIdRuns(claimed: set<Id>, running: map<Id, Running>, retries: map<Id, Retry>, id: Id, r: Running)
    requires Claims(claimed, running, retries, {id})
    ensures Claims(claimed + {id}, running[id := r], retries, {})
  {
  }

  lemma DispatchKeeps(w: World, issue: Issue, attempt: Option<nat>, now: int)
    requires Holding(w, issue.id) && (attempt.Some? ==> Paid(w.marks, issue.id, attempt))
    ensures Core(Dispatch(w, issue, attempt, now))
    ensures w.faults == Dispatch(w, issue, attempt, now).faults
  {
    hide Wakes, Workers, Mail, Cancellation, Conserved, Shown, RunningPaid, RetriesPaid, TotalCredit;
    var s := Session(issue.id, issue.identifier, attempt, Working, [], []);
    var r := NewRunning(issue, attempt, now, |w.sessions|);
    NewWorkerMail(w.events, w.sessions, s);
    NewWorkerConserved(w.events, w.sessions, s);
    NewWorkerCredit(w.sessions, s);
    NewWorkerRunning(w.running, w.sessions, s, r);
    NewWorkerPaid(w.running, w.retries, w.marks, issue.id, r);
    NewWorkerCancellation(w.running, w.cancelled, w.events, |w.sessions|, issue.id, r);
    var t := Dispatch(w, issue, attempt, now);
    assert t.running == w.running[issue.id := r] && t.sessions == w.sessions + [s] && t.retries == w.retries;
    HeldIdRuns(w.claimed, w.running, w.retries, issue.id, r);
  }
}
