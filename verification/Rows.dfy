/** What a running row says, and what a tick makes of it: read off what its worker sent and what the tracker
    answered. */
module Rows {
  import opened Types
  import opened Machine
  import opened Invariant
  import opened Steps
  import opened Runs
  import opened Admission
  import D = Dispatching

  // ---------------------------------------------------------------- what a row shows

  /** Update `k` is the last one that carries a message. */
  ghost predicate LastWithMessage(us: seq<Update>, k: int) {
    0 <= k < |us| && us[k].message.Some? && forall j :: k < j < |us| ==> us[j].message.None?
  }

  ghost predicate LastWithTurnCount(us: seq<Update>, k: int) {
    0 <= k < |us| && us[k].turnCount.Some? && forall j :: k < j < |us| ==> us[j].turnCount.None?
  }

  ghost predicate LastWithTokens(us: seq<Update>, k: int) {
    0 <= k < |us| && us[k].tokens.Some? && forall j :: k < j < |us| ==> us[j].tokens.None?
  }

  /** The events that count as failures. */
  predicate TellsOfFailure(u: Update) {
    u.event in ["turn_failed", "turn_cancelled", "turn_input_required", "startup_failed"]
  }

  ghost predicate LastFailing(us: seq<Update>, k: int) {
    0 <= k < |us| && TellsOfFailure(us[k]) && forall j :: k < j < |us| ==> !TellsOfFailure(us[j])
  }

  lemma FailureMeans(u: Update)
    ensures IsFailureEvent(u.event) == TellsOfFailure(u)
  {
  }

  lemma {:induction false} LastMessageMeans(us: seq<Update>)
    ensures forall k :: LastWithMessage(us, k) ==> LastMessage(us) == us[k].message
    ensures (forall k :: 0 <= k < |us| ==> us[k].message.None?) ==> LastMessage(us).None?
  {
    if us != [] {
      LastMessageMeans(us[..|us| - 1]);
      forall k | LastWithMessage(us, k) ensures LastMessage(us) == us[k].message {
        if k < |us| - 1 { assert LastWithMessage(us[..|us| - 1], k); }
      }
    }
  }

  lemma {:induction false} LastTurnCountMeans(us: seq<Update>)
    ensures forall k :: LastWithTurnCount(us, k) ==> LastTurnCount(us) == us[k].turnCount.value
    ensures (forall k :: 0 <= k < |us| ==> us[k].turnCount.None?) ==> LastTurnCount(us) == 0
  {
    if us != [] {
      LastTurnCountMeans(us[..|us| - 1]);
      forall k | LastWithTurnCount(us, k) ensures LastTurnCount(us) == us[k].turnCount.value {
        if k < |us| - 1 { assert LastWithTurnCount(us[..|us| - 1], k); }
      }
    }
  }

  lemma {:induction false} LastTokensMean(us: seq<Update>)
    ensures forall k :: LastWithTokens(us, k) ==> LastReport(us) == us[k].tokens.value
    ensures (forall k :: 0 <= k < |us| ==> us[k].tokens.None?) ==> LastReport(us) == NO_TOKENS
  {
    if us != [] {
      LastTokensMean(us[..|us| - 1]);
      forall k | LastWithTokens(us, k) ensures LastReport(us) == us[k].tokens.value {
        if k < |us| - 1 { assert LastWithTokens(us[..|us| - 1], k); }
      }
    }
  }

  lemma {:induction false} LastFailureMeans(us: seq<Update>)
    ensures forall k :: LastFailing(us, k) ==> LastFailure(us) == Some(us[k].message.GetOr(""))
    ensures (forall k :: 0 <= k < |us| ==> !TellsOfFailure(us[k])) ==> LastFailure(us).None?
  {
    hide IsFailureEvent, TellsOfFailure;
    if us != [] {
      LastFailureMeans(us[..|us| - 1]);
      FailureMeans(us[|us| - 1]);
      forall k | LastFailing(us, k) ensures LastFailure(us) == Some(us[k].message.GetOr("")) {
        if k < |us| - 1 { assert LastFailing(us[..|us| - 1], k); }
      }
    }
  }

  /** What the row says of its worker's updates, item by item. */
  ghost predicate Tells(r: Running, us: seq<Update>) {
    && (us == [] ==> r.live.sessionId.None? && r.live.lastEvent.None? && r.live.lastTimestamp.None?)
    && (us != [] ==>
          var last := us[|us| - 1];
          && r.live.sessionId == last.sessionId && r.live.lastEvent == Some(last.event)
          && r.live.lastTimestamp == Some(last.at))
    && (forall k :: LastWithMessage(us, k) ==> r.live.lastMessage == us[k].message)
    && ((forall k :: 0 <= k < |us| ==> us[k].message.None?) ==> r.live.lastMessage.None?)
    && (forall k :: LastWithTurnCount(us, k) ==> r.live.turnCount == us[k].turnCount.value)
    && ((forall k :: 0 <= k < |us| ==> us[k].turnCount.None?) ==> r.live.turnCount == 0)
    && (forall k :: LastWithTokens(us, k) ==> r.live.current == r.live.reported == us[k].tokens.value)
    && ((forall k :: 0 <= k < |us| ==> us[k].tokens.None?) ==> r.live.current == r.live.reported == NO_TOKENS)
    && (forall k :: LastFailing(us, k) ==> r.lastError == Some(us[k].message.GetOr("")))
    && ((forall k :: 0 <= k < |us| ==> !TellsOfFailure(us[k])) ==> r.lastError.None?)
  }

  /** The last twenty updates, oldest first. */
  ghost predicate Recounts(r: Running, us: seq<Update>) {
    && |r.recent| == (if |us| < 20 then |us| else 20)
    && forall k :: 0 <= k < |r.recent| ==>
         var u := us[|us| - |r.recent| + k]; r.recent[k] == Recent(u.at, u.event, u.message.GetOr(""))
  }

  lemma ShowsMeans(r: Running, us: seq<Update>)
    requires Shows(r, us)
    ensures Tells(r, us) && Recounts(r, us)
  {
    hide LastMessage, LastTurnCount, LastReport, LastFailure, TellsOfFailure, LastWithMessage, LastWithTurnCount,
         LastWithTokens, LastFailing;
    LastMessageMeans(us);
    LastTurnCountMeans(us);
    LastTokensMean(us);
    LastFailureMeans(us);
  }

  /** After any run a row says, item by item, what the updates say that were absorbed from its worker. */
  lemma RowsTell(config: Config, steps: seq<Step>, id: Id)
    requires Legal(Init(config), steps)
    ensures var w := Exec(Init(config), steps);
      id in w.running ==>
        && w.running[id].worker < |w.sessions| && w.sessions[w.running[id].worker].id == id
        && Tells(w.running[id], w.sessions[w.running[id].worker].seen)
        && Recounts(w.running[id], w.sessions[w.running[id].worker].seen)
  {
    hide Exec, Legal, Tells, Recounts, Shows, Inv;
    NoFaultEver(config, steps);
    var w := Exec(Init(config), steps);
    if id in w.running {
      RowOf(w, id);
      ShowsMeans(w.running[id], w.sessions[w.running[id].worker].seen);
    }
  }

  lemma RowOf(w: World, id: Id)
    requires Inv(w) && id in w.running
    ensures w.running[id].worker < |w.sessions| && w.sessions[w.running[id].worker].id == id
    ensures Shows(w.running[id], w.sessions[w.running[id].worker].seen)
  {
    hide Shows;
  }

  // ---------------------------------------------------------------- what a tick makes of a row

  /** When the worker was last heard of: at its last absorbed update, or else at its start. */
  function LastHeard(w: World, id: Id): int
    requires id in w.running && w.running[id].worker < |w.sessions|
  {
    var seen := w.sessions[w.running[id].worker].seen;
    if seen == [] then w.running[id].startedAt else seen[|seen| - 1].at
  }

  /** Not heard of for longer than the configuration allows. */
  predicate Silent(w: World, id: Id, now: int)
    requires id in w.running && w.running[id].worker < |w.sessions|
  {
    w.config.stallTimeoutMs > 0 && now - LastHeard(w, id) > w.config.stallTimeoutMs
  }

  /** Entry `k` is the tracker's last word on the issue. */
  ghost predicate LastWord(answers: Option<seq<Issue>>, id: Id, k: int) {
    && answers.Some? && 0 <= k < |answers.value| && answers.value[k].id == id
    && forall j :: k < j < |answers.value| ==> answers.value[j].id != id
  }

  lemma {:induction false} AnswerIsLastWord(answers: seq<Issue>, id: Id)
    ensures forall k :: LastWord(Some(answers), id, k) ==> Answer(answers, id) == Some(answers[k])
    ensures Answer(answers, id).Some? ==> exists k :: LastWord(Some(answers), id, k)
  {
    if answers != [] {
      var n := |answers| - 1;
      if answers[n].id == id {
        assert LastWord(Some(answers), id, n);
      } else {
        AnswerIsLastWord(answers[..n], id);
        forall k | LastWord(Some(answers), id, k) ensures Answer(answers, id) == Some(answers[k]) {
          assert LastWord(Some(answers[..n]), id, k);
        }
        if Answer(answers, id).Some? {
          var k :| LastWord(Some(answers[..n]), id, k);
          assert LastWord(Some(answers), id, k);
        }
      }
    }
  }

  /** The tracker's last word puts the issue in a terminal state. */
  ghost predicate Closed(config: Config, answers: Option<seq<Issue>>, id: Id) {
    exists k :: LastWord(answers, id, k) && Among(config.terminalStates, answers.value[k].state)
  }

  /** The tracker's last word puts the issue in a state that is neither active nor terminal. */
  ghost predicate Shelved(config: Config, answers: Option<seq<Issue>>, id: Id) {
    exists k :: LastWord(answers, id, k)
      && !Among(config.terminalStates, answers.value[k].state) && !Among(config.activeStates, answers.value[k].state)
  }

  /** The tracker's last word leaves the issue in an active state that is not terminal. */
  ghost predicate StillOpen(config: Config, answers: Option<seq<Issue>>, id: Id) {
    exists k :: LastWord(answers, id, k)
      && !Among(config.terminalStates, answers.value[k].state) && Among(config.activeStates, answers.value[k].state)
  }

  lemma StalledMeans(w: World, id: Id, now: int)
    requires Inv(w) && id in w.running
    ensures w.running[id].worker < |w.sessions|
    ensures Stalled(w.config, w.running[id], now) <==> Silent(w, id, now)
  {
    hide Inv, LastMessage, LastTurnCount, LastReport, LastFailure, Recents, LastN;
    RowOf(w, id);
  }

  lemma JudgeMeans(config: Config, answers: seq<Issue>, id: Id)
    ensures var verdict := Judge(config, Answer(answers, id));
      && (verdict == Stop(Terminal) <==> Closed(config, Some(answers), id))
      && (verdict == Stop(NonActive) <==> Shelved(config, Some(answers), id))
      && (verdict.Replace? <==> StillOpen(config, Some(answers), id))
      && (forall k :: LastWord(Some(answers), id, k) && verdict.Replace? ==> verdict.issue == answers[k])
      && verdict != Stop(Stall)
  {
    hide LastWord, Among, Config.IsActive, Config.IsTerminal;
    AnswerIsLastWord(answers, id);
    if Answer(answers, id).Some? {
      SameWords(config, Answer(answers, id).value.state);
    }
  }

  lemma SameWords(config: Config, state: string)
    ensures config.IsActive(state) == Among(config.activeStates, state)
    ensures config.IsTerminal(state) == Among(config.terminalStates, state)
  {
  }

  lemma ReconciledRow(w: World, now: int, answers: Option<seq<Issue>>, id: Id)
    requires id in w.running
    ensures var r := w.running[id];
      var stalled := if Stalled(w.config, r, now) then Stopped(r, Stall) else r;
      && id in Reconcile(w, now, answers).running
      && Reconcile(w, now, answers).running[id] ==
         if answers.None? then stalled else Judged(stalled, Judge(w.config, Answer(answers.value, id)))
  {
    hide Stalled, Judge, Judged, Stopped, Answer;
  }

  lemma TickLeavesRows(w: World, now: int, answers: Option<seq<Issue>>, candidates: Option<seq<Issue>>, id: Id)
    requires id in w.running
    ensures id in Reconcile(w, now, answers).running
    ensures var t := Apply(w, Tick(now, answers, candidates));
      id in t.running && t.running[id] == Reconcile(w, now, answers).running[id]
  {
    hide Reconcile, DispatchAll, D.SortForDispatch;
    ReconcileLeaves(w, now, answers);
    if candidates.Some? {
      D.LoopStartsOnlyEligible(Reconcile(w, now, answers), D.SortForDispatch(candidates.value), now);
    }
  }

  /** What a tick does to a row that is there: it stops a worker not heard of for too long as stalled; otherwise
      one whose issue the tracker reports closed as terminal, or shelved as inactive; it takes over the issue while
      that is still open; a reason that is there stays, and nothing else changes. */
  lemma TickJudges(w: World, now: int, answers: Option<seq<Issue>>, candidates: Option<seq<Issue>>, id: Id)
    requires Inv(w) && id in w.running
    ensures w.running[id].worker < |w.sessions| && id in Apply(w, Tick(now, answers, candidates)).running
    ensures var r, t := w.running[id], Apply(w, Tick(now, answers, candidates)).running[id];
      && t == r.(issue := t.issue, stopReason := t.stopReason)
      && (r.stopReason.Some? ==> t.stopReason == r.stopReason)
      && (r.stopReason.None? ==>
            && (t.stopReason == Some(Stall) <==> Silent(w, id, now))
            && (t.stopReason == Some(Terminal) <==> !Silent(w, id, now) && Closed(w.config, answers, id))
            && (t.stopReason == Some(NonActive) <==> !Silent(w, id, now) && Shelved(w.config, answers, id)))
      && (StillOpen(w.config, answers, id) ==> forall k :: LastWord(answers, id, k) ==> t.issue == answers.value[k])
      && (!StillOpen(w.config, answers, id) ==> t.issue == r.issue)
  {
    hide Inv, Apply, Reconcile, Stalled, Silent, Judge, Answer, LastWord, Closed, Shelved, StillOpen;
    StalledMeans(w, id, now);
    TickLeavesRows(w, now, answers, candidates, id);
    ReconciledRow(w, now, answers, id);
    if answers.Some? {
      JudgeMeans(w.config, answers.value, id);
    } else {
      NoLastWord(w.config, id);
    }
  }

  lemma NoLastWord(config: Config, id: Id)
    ensures !Closed(config, None, id) && !Shelved(config, None, id) && !StillOpen(config, None, id)
  {
  }

  // ---------------------------------------------------------------- a queued refresh

  /** Some refresh was asked for, and no tick came after it. */
  ghost predicate Asked(steps: seq<Step>) {
    exists i :: 0 <= i < |steps| && steps[i].Refresh? && forall j :: i < j < |steps| ==> !steps[j].Tick?
  }

  lemma {:induction false} ExecSnoc(w: World, steps: seq<Step>)
    requires steps != [] && Legal(w, steps)
    ensures var init, last := steps[..|steps| - 1], steps[|steps| - 1];
      Legal(w, init) && Enabled(Exec(w, init), last) && Exec(w, steps) == Apply(Exec(w, init), last)
    decreases |steps|
  {
    hide Enabled, Apply;
    if |steps| > 1 {
      ExecSnoc(Apply(w, steps[0]), steps[1..]);
      assert steps[..|steps| - 1][1..] == steps[1..][..|steps| - 2];
    } else {
      assert steps[1..] == [];
    }
  }

  /** A refresh stays queued until the next tick, and none is queued that was not asked for. */
  lemma {:induction false} RefreshWaitsForTick(config: Config, steps: seq<Step>)
    requires Legal(Init(config), steps)
    ensures Exec(Init(config), steps).refreshQueued <==> Asked(steps)
    decreases |steps|
  {
    hide Apply, Enabled, Exec, Legal;
    if steps == [] {
      ExecNothing(config);
    } else {
      var init, last := steps[..|steps| - 1], steps[|steps| - 1];
      ExecSnoc(Init(config), steps);
      RefreshWaitsForTick(config, init);
      StepRefresh(Exec(Init(config), init), last);
      if Asked(init) && !last.Tick? {
        var i :| 0 <= i < |init| && init[i].Refresh? && forall j :: i < j < |init| ==> !init[j].Tick?;
        assert steps[i].Refresh?;
      }
      if Asked(steps) && !last.Refresh? {
        var i :| 0 <= i < |steps| && steps[i].Refresh? && forall j :: i < j < |steps| ==> !steps[j].Tick?;
        assert init[i].Refresh?;
      }
      assert last.Refresh? ==> steps[|steps| - 1].Refresh?;
    }
  }

  lemma ExecNothing(config: Config)
    ensures Legal(Init(config), []) && !Exec(Init(config), []).refreshQueued
  {
  }

  lemma StepRefresh(w: World, s: Step)
    requires Enabled(w, s)
    ensures Apply(w, s).refreshQueued == if s.Tick? then false else s.Refresh? || w.refreshQueued
  {
    hide RunTick, Absorb, FinishWorker, RetryDue;
    match s
    case WorkerEvent(now) =>
      if w.events[0].event.Finished? {
        FinishFrame(w.(events := w.events[1..]), w.events[0].worker, w.events[0].event.outcome, now);
      }
    case RetryWakeup(now, candidates, pollError) => WakeupFrame(w, now, candidates, pollError);
    case _ =>
  }
}
