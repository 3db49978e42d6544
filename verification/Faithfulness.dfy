/** What the service needs of the tracker: that a worker's refreshed issue is the one it asked for. */
module Faithfulness {
  import opened Types
  import opened Machine
  import opened Invariant
  import opened Steps
  import opened Runs
  import D = Dispatching
  import Text

  /** A `Finished` event keeps rows and workers in correspondence, and with it the invariant, exactly when its
      outcome names the issue the worker was started for. */
  lemma FinishKeepsIffFaithful(w: World, now: int)
    requires Core(w) && w.events != [] && w.events[0].event.Finished?
    ensures w.events[0].worker < |w.sessions|
    ensures var t := Apply(w, WorkerEvent(now));
      var faithful := w.events[0].event.outcome.issue.id == w.sessions[w.events[0].worker].id;
      (Workers(t.running, t.sessions) <==> faithful) && (Core(t) <==> faithful)
  {
    hide Body, Claims, Settle, Apply;
    assert Workers(w.running, w.sessions) && Mail(w.events, w.sessions) by { CoreParts(w); }
    HeadIsCurrent(w.running, w.sessions, w.events);
    var g, o := w.events[0].worker, w.events[0].event.outcome;
    if o.issue.id == w.sessions[g].id { FinishedKeeps(w, now); } else { UnfaithfulBreaksWorkers(w, now); }
    if Core(Apply(w, WorkerEvent(now))) { CoreParts(Apply(w, WorkerEvent(now))); }
  }

  lemma CoreParts(w: World)
    requires Core(w)
    ensures Workers(w.running, w.sessions) && Mail(w.events, w.sessions)
  {
  }

  /** The sender's own row stays behind, held by a worker that is done. */
  lemma UnfaithfulBreaksWorkers(w: World, now: int)
    requires Workers(w.running, w.sessions) && Mail(w.events, w.sessions)
    requires w.events != [] && w.events[0].event.Finished?
    requires w.events[0].worker < |w.sessions| &&
             w.events[0].event.outcome.issue.id != w.sessions[w.events[0].worker].id
    ensures var t := Apply(w, WorkerEvent(now)); !Workers(t.running, t.sessions)
  {
    hide Settle, Mail;
    HeadIsCurrent(w.running, w.sessions, w.events);
    HeadFinish(w, now);
    var g, t := w.events[0].worker, Apply(w, WorkerEvent(now));
    assert w.sessions[g].id in t.running && t.running[w.sessions[g].id].worker == g && t.sessions[g].phase == Done;
  }

  lemma HeadFinish(w: World, now: int)
    requires w.events != [] && w.events[0].event.Finished?
    ensures Taken(w.(events := w.events[1..]), Apply(w, WorkerEvent(now)),
                  w.events[0].worker, w.events[0].event.outcome)
  {
    hide FinishWorker;
    FinishFrame(w.(events := w.events[1..]), w.events[0].worker, w.events[0].event.outcome, now);
  }

  /** `id` occupies a slot and nothing alive or queued will ever report for it. */
  ghost predicate Leaked(w: World, id: Id) {
    && id in w.running
    && (forall g :: 0 <= g < |w.sessions| && w.sessions[g].id == id ==> w.sessions[g].phase == Done)
    && (forall k :: 0 <= k < |w.events| && w.events[k].event.Finished? ==> w.events[k].event.outcome.issue.id != id)
  }

  lemma DispatchKeepsLeak(w: World, issue: Issue, attempt: Option<nat>, now: int, id: Id)
    requires Leaked(w, id) && issue.id != id
    ensures Leaked(Dispatch(w, issue, attempt, now), id)
  {
  }

  lemma {:induction false} LoopKeepsLeak(w: World, issues: seq<Issue>, now: int, id: Id)
    requires Leaked(w, id)
    ensures Leaked(DispatchAll(w, issues, now), id)
    decreases |issues|
  {
    hide Slots, StateHasRoom, Dispatch;
    if issues != [] && Slots(w) > 0 {
      if ShouldDispatch(w, issues[0], None) {
        DispatchKeepsLeak(w, issues[0], None, now, id);
        LoopKeepsLeak(Dispatch(w, issues[0], None, now), issues[1..], now, id);
      } else {
        LoopKeepsLeak(w, issues[1..], now, id);
      }
    }
  }

  lemma ReconcileKeepsLeak(w: World, now: int, answers: Option<seq<Issue>>, id: Id)
    requires Leaked(w, id)
    ensures Leaked(Reconcile(w, now, answers), id)
  {
    hide Stalled, Judge, Judged;
  }

  lemma EventKeepsLeak(w: World, e: Stamped, now: int, id: Id)
    requires Leaked(w, id) && (e.event.Finished? ==> e.event.outcome.issue.id != id)
    ensures Leaked(HandleEvent(w, e, now), id)
  {
    hide FinishWorker, Absorb;
    if e.event.Finished? { FinishFrame(w, e.worker, e.event.outcome, now); }
  }

  /** A leaked slot is never given back: no later step, by however faithful a tracker, takes the entry out. */
  lemma StepKeepsLeak(w: World, s: Step, id: Id)
    requires Leaked(w, id) && Enabled(w, s)
    ensures Leaked(Apply(w, s), id)
  {
    hide HandleEvent, RetryDue, DispatchAll, Reconcile, D.SortForDispatch;
    match s
    case Tick(now, answers, candidates) =>
      ReconcileKeepsLeak(w, now, answers, id);
      if candidates.Some? { LoopKeepsLeak(Reconcile(w, now, answers), D.SortForDispatch(candidates.value), now, id); }
    case WorkerEvent(now) =>
      assert forall k :: 0 <= k < |w.events| - 1 ==> w.events[1..][k] == w.events[k + 1];
      EventKeepsLeak(w.(events := w.events[1..]), w.events[0], now, id);
    case RetryWakeup(now, candidates, pollError) => WakeupKeepsLeak(w, now, candidates, pollError, id);
    case _ =>
  }

  lemma WakeupKeepsLeak(w: World, now: int, candidates: Option<seq<Issue>>, pollError: string, id: Id)
    requires Leaked(w, id) && w.wakeups != []
    ensures Leaked(Apply(w, RetryWakeup(now, candidates, pollError)), id)
  {
    hide Resume, Dispatch, Slots, StateHasRoom;
    var due := w.wakeups[0];
    if due in w.retries {
      var out := w.(wakeups := w.wakeups[1..], retries := w.retries - {due});
      ResumeCases(out, due, w.retries[due], candidates, pollError, now);
      if Restarts(out, due, candidates) {
        DispatchKeepsLeak(out, FindCandidate(candidates.value, due).value, Some(w.retries[due].attempt), now, id);
      }
    }
  }

  lemma {:induction false} LeakIsForever(w: World, steps: seq<Step>, id: Id)
    requires Leaked(w, id) && Legal(w, steps)
    ensures Leaked(Exec(w, steps), id)
    decreases |steps|
  {
    hide Leaked, Enabled, Apply;
    if steps != [] {
      StepKeepsLeak(w, steps[0], id);
      LeakIsForever(Apply(w, steps[0]), steps[1..], id);
    }
  }

  /** A worker whose last refresh answered with an id that is not running leaks its own slot. */
  lemma StrayFinishLeaks(w: World, now: int)
    requires Core(w) && w.events != [] && w.events[0].event.Finished?
    requires Faithful(w.events[1..], w.sessions) && w.events[0].event.outcome.issue.id !in w.running
    ensures w.events[0].worker < |w.sessions|
    ensures Leaked(Apply(w, WorkerEvent(now)), w.sessions[w.events[0].worker].id)
  {
    hide Body, Claims, Leaked, Apply;
    CoreParts(w);
    HeadIsCurrent(w.running, w.sessions, w.events);
    OwnRowLeaks(w, now);
  }

  /** An outcome that names another running issue does worse: that issue loses its row while its worker lives on,
      and the sender's own row leaks. */
  lemma ForeignFinishOrphans(w: World, now: int)
    requires Core(w) && w.events != [] && w.events[0].event.Finished?
    requires Faithful(w.events[1..], w.sessions) && w.events[0].event.outcome.issue.id in w.running
    ensures w.events[0].worker < |w.sessions|
    ensures var own, other := w.sessions[w.events[0].worker].id, w.events[0].event.outcome.issue.id;
      var t := Apply(w, WorkerEvent(now));
      other != own ==>
        && other !in t.running && Unfinished(t, w.running[other].worker, other)
        && Leaked(t, own)
  {
    hide Body, Claims, Settle, Apply, Leaked;
    CoreParts(w);
    HeadIsCurrent(w.running, w.sessions, w.events);
    HeadFinish(w, now);
    if w.events[0].event.outcome.issue.id != w.sessions[w.events[0].worker].id { OwnRowLeaks(w, now); }
  }

  lemma OwnRowLeaks(w: World, now: int)
    requires Workers(w.running, w.sessions) && Mail(w.events, w.sessions)
    requires w.events != [] && w.events[0].event.Finished?
    requires w.events[0].worker < |w.sessions| && Faithful(w.events[1..], w.sessions)
    requires w.events[0].event.outcome.issue.id != w.sessions[w.events[0].worker].id
    ensures Leaked(Apply(w, WorkerEvent(now)), w.sessions[w.events[0].worker].id)
  {
    hide Apply;
    HeadIsCurrent(w.running, w.sessions, w.events);
    HeadFinish(w, now);
    var id, t := w.sessions[w.events[0].worker].id, Apply(w, WorkerEvent(now));
    forall k | 0 <= k < |t.events| && t.events[k].event.Finished? ensures t.events[k].event.outcome.issue.id != id {
      assert t.events[k] == w.events[k + 1];
    }
  }

  /** If such an orphan's issue is started again, two live workers share one issue. */
  lemma RestartDoubles(w: World, now: int, candidates: Option<seq<Issue>>, pollError: string, g: nat)
    requires w.wakeups != [] && w.wakeups[0] in w.retries && Unfinished(w, g, w.wakeups[0])
    requires Restarts(w.(wakeups := w.wakeups[1..], retries := w.retries - {w.wakeups[0]}), w.wakeups[0], candidates)
    ensures var id, t := w.wakeups[0], Apply(w, RetryWakeup(now, candidates, pollError));
      Unfinished(t, g, id) && exists h :: h != g && Unfinished(t, h, id)
  {
    hide Resume, ShouldDispatch;
    var id := w.wakeups[0];
    var out := w.(wakeups := w.wakeups[1..], retries := w.retries - {id});
    ResumeCases(out, id, w.retries[id], candidates, pollError, now);
    assert Unfinished(Apply(w, RetryWakeup(now, candidates, pollError)), |w.sessions|, id);
  }

  const SAMPLE_CONFIG := Config(["Todo"], [], 1, map[], 1, 0, 0, "/", true)

  function SampleIssue(id: Id): Issue {
    Issue(id, "ABC-1", "title", "Todo", None, None, [])
  }

  lemma DispatchRefresh(w: World, issue: Issue, now: int)
    ensures Dispatch(w, issue, None, now).refreshQueued == w.refreshQueued
  {
  }

  /** The first tick with one candidate starts it. */
  lemma SampleTick(now: int)
    ensures var a := SampleIssue("a");
      Apply(Init(SAMPLE_CONFIG), Tick(now, None, Some([a]))) == Dispatch(Init(SAMPLE_CONFIG), a, None, now)
  {
    hide Text.Normalize, D.Leq, Dispatch;
    var i, a := Init(SAMPLE_CONFIG), SampleIssue("a");
    assert Reconcile(i, now, None) == i;
    assert D.SortForDispatch([a]) == [a];
    assert SAMPLE_CONFIG.IsActive("Todo") by {
      assert SAMPLE_CONFIG.activeStates[0] == "Todo";
    }
    assert InState(i.running, Text.Normalize("Todo")) == {};
    assert ShouldDispatch(i, a, None);
    var d := Dispatch(i, a, None, now);
    assert [a][1..] == [];
    assert DispatchAll(d, [], now) == d;
    assert d.refreshQueued == false by { DispatchRefresh(i, a, now); }
  }

  /** An answer without an id, which the tracker client reads as an empty id, is enough to lose a slot for good. */
  lemma MissingIdLeaks(now: int)
    ensures var w := Apply(Init(SAMPLE_CONFIG), Tick(now, None, Some([SampleIssue("a")])));
      && |w.sessions| == 1
      && var o := Outcome(SampleIssue(""), Succeeded, None, 1);
      && !WorkerContract(w.sessions[0].id, false, o)
      && var queued := w.(sessions := w.sessions[0 := w.sessions[0].(phase := Ended)],
                          events := w.events + [Stamped(0, Finished(o))]);
      && Leaked(Apply(queued, WorkerEvent(now)), "a")
  {
    SampleTick(now);
    hide Steps.RunTick;
  }
}
