/** Who is let in: which issues a tick or a wake-up starts, in the configuration's own words. */
module Admission {
  import opened Text
  import opened Types
  import opened Machine
  import opened Invariant
  import opened Steps
  import opened Runs
  import D = Dispatching

  /** A state name matches one of the list, white space and letter case aside. */
  ghost predicate Among(states: seq<string>, state: string) {
    exists i :: 0 <= i < |states| && Normalize(states[i]) == Normalize(state)
  }

  /** An issue that may be worked on: named, active and not terminal, and, while it is still to do, blocked by
      nothing but issues known to be in a terminal state. */
  ghost predicate Fit(config: Config, issue: Issue) {
    && issue.id != "" && issue.identifier != "" && issue.title != "" && issue.state != ""
    && Among(config.activeStates, issue.state) && !Among(config.terminalStates, issue.state)
    && (Normalize(issue.state) == "todo" ==>
          forall b :: b in issue.blockedBy ==> b.state.Some? && Among(config.terminalStates, b.state.value))
  }

  function InSameState(running: map<Id, Running>, state: string): set<Id> {
    set id | id in running && Normalize(running[id].issue.state) == Normalize(state)
  }

  /** The number the configuration names for the state, or else the global one. */
  function Cap(config: Config, state: string): nat {
    if Normalize(state) in config.maxByState then config.maxByState[Normalize(state)] else config.maxAgents
  }

  /** A global slot and a slot of the state are free. */
  predicate RoomFor(config: Config, running: map<Id, Running>, state: string) {
    |running| < config.maxAgents && |InSameState(running, state)| < Cap(config, state)
  }

  lemma BlockedMeans(config: Config, issue: Issue)
    ensures !Blocked(config, issue) <==>
            (Normalize(issue.state) == "todo" ==>
               forall b :: b in issue.blockedBy ==> b.state.Some? && Among(config.terminalStates, b.state.value))
  {
    hide Normalize;
    forall b | b in issue.blockedBy && b.state.Some?
      ensures config.IsTerminal(b.state.value) == Among(config.terminalStates, b.state.value)
    {
    }
    if !Blocked(config, issue) && Normalize(issue.state) == "todo" {
      forall b | b in issue.blockedBy ensures b.state.Some? && Among(config.terminalStates, b.state.value) {
        var i :| 0 <= i < |issue.blockedBy| && issue.blockedBy[i] == b;
      }
    }
  }

  lemma EligibleMeans(w: World, issue: Issue, allowed: Option<Id>)
    ensures Eligible(w, issue, allowed) <==>
            Fit(w.config, issue) && issue.id !in w.running && (issue.id !in w.claimed || allowed == Some(issue.id))
  {
    hide Blocked, Normalize;
    BlockedMeans(w.config, issue);
  }

  /** The whole test: the issue is fit, not running, not claimed by anything but its own retry, and there is room. */
  lemma ShouldDispatchMeans(w: World, issue: Issue, allowed: Option<Id>)
    ensures ShouldDispatch(w, issue, allowed) <==>
            && Fit(w.config, issue) && RoomFor(w.config, w.running, issue.state)
            && issue.id !in w.running && (issue.id !in w.claimed || allowed == Some(issue.id))
  {
    hide Eligible, Fit, Normalize;
    EligibleMeans(w, issue, allowed);
    assert InSameState(w.running, issue.state) == InState(w.running, Normalize(issue.state));
  }

  /** A fresh row for `c`, with its worker. */
  ghost predicate Fresh(t: World, c: Issue, attempt: Option<nat>, now: int) {
    && c.id in t.running && c.id in t.claimed
    && var r := t.running[c.id];
    && r.issueId == c.id && r.identifier == c.identifier && r.issue == c && r.attempt == attempt && r.startedAt == now
    && r.stopReason.None? && r.lastError.None? && r.recent == []
    && r.live == Live(None, None, None, None, NO_TOKENS, NO_TOKENS, 0)
    && r.worker < |t.sessions|
    && t.sessions[r.worker] == Session(c.id, c.identifier, attempt, Working, [], [])
  }

  // ---------------------------------------------------------------- a tick

  lemma {:induction false} LoopRecords(w: World, issues: seq<Issue>, now: int)
    requires forall id :: id in w.running ==> w.running[id].worker < |w.sessions|
    ensures var t := DispatchAll(w, issues, now);
      && |w.sessions| <= |t.sessions| && t.sessions[..|w.sessions|] == w.sessions
      && (forall id :: id in t.running && id !in w.running ==> Fresh(t, t.running[id].issue, None, now))
    decreases |issues|
  {
    hide ShouldDispatch, Slots, Dispatch, Fresh;
    if issues != [] && Slots(w) > 0 {
      if ShouldDispatch(w, issues[0], None) {
        var d, t := Dispatch(w, issues[0], None, now), DispatchAll(w, issues, now);
        DispatchRecords(w, issues[0], now);
        LoopRecords(d, issues[1..], now);
        D.LoopStartsOnlyEligible(d, issues[1..], now);
        D.LoopClaims(d, issues[1..], now);
        assert t.sessions[..|w.sessions|] == t.sessions[..|d.sessions|][..|w.sessions|];
        forall id | id in t.running && id !in w.running ensures Fresh(t, t.running[id].issue, None, now) {
          if id in d.running { FreshLasts(d, t, issues[0], now); }
        }
      } else {
        LoopRecords(w, issues[1..], now);
      }
    }
  }

  lemma DispatchRecords(w: World, c: Issue, now: int)
    requires forall id :: id in w.running ==> w.running[id].worker < |w.sessions|
    ensures var d := Dispatch(w, c, None, now);
      && Fresh(d, c, None, now) && d.running.Keys == w.running.Keys + {c.id}
      && |d.sessions| == |w.sessions| + 1 && d.sessions[..|w.sessions|] == w.sessions
      && (forall id :: id in d.running ==> d.running[id].worker < |d.sessions|)
  {
  }

  lemma FreshLasts(d: World, t: World, c: Issue, now: int)
    requires Fresh(d, c, None, now) && D.Extends(d.running, t.running) && d.claimed <= t.claimed
    requires |d.sessions| <= |t.sessions| && t.sessions[..|d.sessions|] == d.sessions
    ensures Fresh(t, t.running[c.id].issue, None, now) && t.running[c.id].issue == c
  {
    assert forall g :: 0 <= g < |d.sessions| ==> t.sessions[g] == t.sessions[..|d.sessions|][g];
  }

  /** Every row a tick adds is a fresh one for a candidate that is fit and was not claimed, within the caps. */
  lemma TickAdmits(w: World, now: int, answers: Option<seq<Issue>>, candidates: Option<seq<Issue>>, id: Id)
    requires Inv(w)
    ensures var t := Apply(w, Tick(now, answers, candidates));
      id in t.running && id !in w.running ==>
        && w.config.dispatchable && candidates.Some?
        && var c := t.running[id].issue;
        && c in candidates.value && c.id == id && id !in w.claimed
        && Fit(w.config, c) && Fresh(t, c, None, now)
        && |t.running| <= w.config.maxAgents && |InSameState(t.running, c.state)| <= Cap(w.config, c.state)
  {
    hide Inv, Reconcile, DispatchAll, D.SortForDispatch, Fit, Fresh, Eligible, StateCount, Config.Limit, InSameState,
         Cap;
    var r := Reconcile(w, now, answers);
    ReconcileLeaves(w, now, answers);
    if r.config.dispatchable && candidates.Some? {
      var s, t := D.SortForDispatch(candidates.value), D.DispatchTick(r, candidates.value, now);
      ReconciledWorkers(w, now, answers);
      LoopRecords(r, s, now);
      D.TickIsGreedy(r, candidates.value, now);
      if id in t.running && id !in w.running {
        var c := t.running[id].issue;
        assert D.StartedRow(r, candidates.value, id, t.running[id], now);
        EligibleMeans(r, c, None);
        RefreshIsNothing(t, c, now);
        CapHolds(r, s, now, id);
      }
    }
  }

  lemma RefreshIsNothing(t: World, c: Issue, now: int)
    requires Fresh(t, c, None, now)
    ensures Fresh(t.(refreshQueued := false), c, None, now)
  {
  }

  lemma ReconcileLeaves(w: World, now: int, answers: Option<seq<Issue>>)
    ensures var r := Reconcile(w, now, answers);
      && r.config == w.config && r.claimed == w.claimed && r.sessions == w.sessions && r.running.Keys == w.running.Keys
  {
    hide Stalled, Judge, Judged;
  }

  lemma ReconciledWorkers(w: World, now: int, answers: Option<seq<Issue>>)
    requires Inv(w)
    ensures forall id :: id in Reconcile(w, now, answers).running ==>
              Reconcile(w, now, answers).running[id].worker < |Reconcile(w, now, answers).sessions|
  {
    hide Inv, Reconcile;
    ReconcileKeeps(w, now, answers);
    InvWorkers(Reconcile(w, now, answers));
  }

  lemma InvWorkers(w: World)
    requires Inv(w)
    ensures forall id :: id in w.running ==> w.running[id].worker < |w.sessions|
  {
  }

  /** A loop that starts anything in a state ends within that state's cap and the global one. */
  lemma {:induction false} CapHolds(w: World, issues: seq<Issue>, now: int, id: Id)
    requires id in DispatchAll(w, issues, now).running && id !in w.running
    ensures var t := DispatchAll(w, issues, now); var state := t.running[id].issue.state;
      |t.running| <= w.config.maxAgents && |InSameState(t.running, state)| <= Cap(w.config, state)
    decreases |issues|
  {
    hide Eligible, Dispatch, Normalize, Fit;
    if issues != [] && Slots(w) > 0 {
      var c, t := issues[0], DispatchAll(w, issues, now);
      if ShouldDispatch(w, c, None) {
        var d := Dispatch(w, c, None, now);
        D.EligibleIsNew(w, c);
        D.DispatchRunning(w, c, None, now);
        if id in d.running {
          D.LoopStartsOnlyEligible(d, issues[1..], now);
          D.CountInsert(w.running, c.id, NewRunning(c, None, now, |w.sessions|), Normalize(c.state));
          D.LoopLimits(d, issues[1..], now, Normalize(c.state));
          assert InSameState(t.running, c.state) == InState(t.running, Normalize(c.state));
        } else {
          CapHolds(d, issues[1..], now, id);
        }
      } else {
        CapHolds(w, issues[1..], now, id);
      }
    }
  }

  /** Conversely, a candidate that is fit and unclaimed runs after a tick, or the global slots or those of its
      state ran out. */
  lemma TickServes(w: World, now: int, answers: Option<seq<Issue>>, candidates: seq<Issue>, c: Issue)
    requires w.config.dispatchable && c in candidates && Fit(w.config, c) && c.id !in w.claimed && c.id !in w.running
    ensures var t := Apply(w, Tick(now, answers, Some(candidates)));
      c.id in t.running || !RoomFor(w.config, t.running, c.state)
  {
    hide Reconcile, DispatchAll, D.SortForDispatch, Fit, Eligible, ShouldDispatch, RoomFor;
    var r := Reconcile(w, now, answers);
    ReconcileLeaves(w, now, answers);
    var s, t := D.SortForDispatch(candidates), D.DispatchTick(r, candidates, now);
    D.TickIsGreedy(r, candidates, now);
    D.LoopStartsOnlyEligible(r, s, now);
    EligibleMeans(r, c, None);
    if c.id !in t.running {
      D.LoopSparesOthers(r, s, now, c);
      EligibleMeans(t, c, None);
      ShouldDispatchMeans(t, c, None);
    }
  }

  // ---------------------------------------------------------------- a wake-up

  /** The first of the candidates that has this id. */
  ghost predicate FirstOf(candidates: seq<Issue>, id: Id, k: int) {
    0 <= k < |candidates| && candidates[k].id == id && forall j :: 0 <= j < k ==> candidates[j].id != id
  }

  lemma {:induction false} FindsFirst(candidates: seq<Issue>, id: Id)
    ensures forall k :: FirstOf(candidates, id, k) ==> FindCandidate(candidates, id) == Some(candidates[k])
    ensures FindCandidate(candidates, id).Some? ==> exists k :: FirstOf(candidates, id, k)
  {
    if candidates != [] {
      if candidates[0].id == id {
        assert FirstOf(candidates, id, 0);
      } else {
        FindsFirst(candidates[1..], id);
        forall k | FirstOf(candidates, id, k) ensures FindCandidate(candidates, id) == Some(candidates[k]) {
          assert FirstOf(candidates[1..], id, k - 1);
        }
        if FindCandidate(candidates, id).Some? {
          var k :| FirstOf(candidates[1..], id, k);
          assert FirstOf(candidates, id, k + 1);
        }
      }
    }
  }

  /** The tracker answers with the issue, it is fit, and there is room for it. */
  ghost predicate MayRestart(w: World, id: Id, candidates: Option<seq<Issue>>) {
    candidates.Some? && exists k ::
      && FirstOf(candidates.value, id, k)
      && Fit(w.config, candidates.value[k]) && RoomFor(w.config, w.running, candidates.value[k].state)
  }

  lemma RestartsMeans(w: World, id: Id, candidates: Option<seq<Issue>>)
    requires id !in w.running
    ensures Restarts(w, id, candidates) <==> MayRestart(w, id, candidates)
  {
    hide Fit, RoomFor, ShouldDispatch;
    if candidates.Some? {
      FindsFirst(candidates.value, id);
      if FindCandidate(candidates.value, id).Some? {
        ShouldDispatchMeans(w, FindCandidate(candidates.value, id).value, Some(id));
      }
    }
  }

  /** A wake-up starts its issue, as a fresh row with the attempt that was waiting, exactly when the tracker still
      lists it, it is fit and there is room; it starts nothing else. */
  lemma WakeupAdmitsIff(w: World, now: int, candidates: Option<seq<Issue>>, pollError: string, id: Id)
    requires Inv(w) && w.wakeups != []
    ensures var t := Apply(w, RetryWakeup(now, candidates, pollError));
      && w.wakeups[0] in w.retries
      && (id in t.running && id !in w.running <==> id == w.wakeups[0] && MayRestart(w, id, candidates))
      && (id in t.running && id !in w.running ==>
            exists k ::
              FirstOf(candidates.value, id, k) && Fresh(t, candidates.value[k], Some(w.retries[id].attempt), now))
  {
    hide Inv, Apply, ShouldDispatch, MayRestart, Fresh, FirstOf;
    var due, t := w.wakeups[0], Apply(w, RetryWakeup(now, candidates, pollError));
    WakeHolds(w);
    NotRunning(w, due);
    RestartsMeans(w, due, candidates);
    WakeupFrame(w, now, candidates, pollError);
    if Restarts(w, due, candidates) {
      var c := FindCandidate(candidates.value, due).value;
      FindsFirst(candidates.value, due);
      ClaimStays(w, now, candidates, pollError);
      WokenIsFresh(w, t, c, w.retries[due].attempt, now);
    }
  }

  lemma ClaimStays(w: World, now: int, candidates: Option<seq<Issue>>, pollError: string)
    requires Inv(w) && w.wakeups != [] && Restarts(w, w.wakeups[0], candidates)
    ensures w.wakeups[0] in Apply(w, RetryWakeup(now, candidates, pollError)).claimed
  {
    hide Inv, RetryDue;
    StepKeeps(w, RetryWakeup(now, candidates, pollError));
    WakeHolds(w);
    WakeupFrame(w, now, candidates, pollError);
    ClaimPartition(Apply(w, RetryWakeup(now, candidates, pollError)));
  }

  lemma WokenIsFresh(w: World, t: World, c: Issue, attempt: nat, now: int)
    requires Woken(w, t, c, attempt, now) && c.id in t.claimed
    ensures Fresh(t, c, Some(attempt), now)
  {
  }

  // ---------------------------------------------------------------- the order of candidates

  /** `a` comes strictly before `b`; what is absent, or the largest number there is, comes last. */
  predicate Sooner(a: Option<int>, b: Option<int>) {
    a.Some? && a.value < I64_MAX && (b.Some? ==> a.value < b.value)
  }

  predicate Same(a: Option<int>, b: Option<int>) {
    !Sooner(a, b) && !Sooner(b, a)
  }

  /** `a` is a proper beginning of `b`, or has the smaller character where they first differ. */
  ghost predicate Alphabetical(a: string, b: string) {
    exists k :: 0 <= k <= |a| && k < |b| && a[..k] == b[..k] && (k == |a| || a[k] < b[k])
  }

  lemma {:induction false} StringOrder(a: string, b: string)
    ensures Alphabetical(a, b) <==> !StringLeq(b, a)
  {
    if a == "" && b != "" {
      assert a[..0] == b[..0];
    } else if a != "" && b != "" {
      if a[0] == b[0] {
        StringOrder(a[1..], b[1..]);
        if Alphabetical(a[1..], b[1..]) {
          var x, y := a[1..], b[1..];
          var k :| 0 <= k <= |x| && k < |y| && x[..k] == y[..k] && (k == |x| || x[k] < y[k]);
          assert a[..k + 1] == [a[0]] + x[..k] && b[..k + 1] == [b[0]] + y[..k];
          assert k + 1 == |a| || a[k + 1] < b[k + 1];
        }
        if Alphabetical(a, b) {
          var k :| 0 <= k <= |a| && k < |b| && a[..k] == b[..k] && (k == |a| || a[k] < b[k]);
          assert k > 0;
          assert a[1..][..k - 1] == a[..k][1..] && b[1..][..k - 1] == b[..k][1..];
        }
      } else if a[0] < b[0] {
        assert a[..0] == b[..0];
      }
    }
  }

  predicate InRange(n: Option<int>) {
    n.Some? ==> n.value <= I64_MAX
  }

  /** Candidates are taken by priority, smallest number first and none last, then oldest first, then by identifier. */
  lemma OrderMeans(a: Issue, b: Issue)
    requires InRange(a.priority) && InRange(b.priority) && InRange(a.createdAt) && InRange(b.createdAt)
    ensures D.Before(a, b) <==>
            || Sooner(a.priority, b.priority)
            || (Same(a.priority, b.priority) &&
                (|| Sooner(a.createdAt, b.createdAt)
                 || (Same(a.createdAt, b.createdAt) && Alphabetical(a.identifier, b.identifier))))
  {
    StringOrder(a.identifier, b.identifier);
    StringLeqTotal(a.identifier, b.identifier);
  }
}
