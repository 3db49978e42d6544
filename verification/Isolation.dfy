/** Over whole runs: cleaning up after a finished issue leaves the directory of every live worker alone. */
module Isolation {
  import opened Types
  import opened Machine
  import opened Invariant
  import opened Steps
  import opened Runs
  import opened Histories
  import opened Paths
  import D = Dispatching
  import Faithfulness
  import W = Workspace

  /** Every issue in the list has the identifier `names` gives its id. */
  ghost predicate Named(issues: seq<Issue>, names: Id -> string) {
    forall i :: 0 <= i < |issues| ==> issues[i].identifier == names(issues[i].id)
  }

  /** The tracker never renames an issue and reloads keep the workspace root. */
  ghost predicate StepNamed(s: Step, names: Id -> string, root: string) {
    match s
    case Tick(_, _, candidates) => candidates.Some? ==> Named(candidates.value, names)
    case RetryWakeup(_, candidates, _) => candidates.Some? ==> Named(candidates.value, names)
    case Finish(_, o) => o.issue.identifier == names(o.issue.id)
    case Reload(config) => config.Some? ==> config.value.root == root
    case _ => true
  }

  ghost predicate RunNamed(steps: seq<Step>, names: Id -> string, root: string) {
    forall i :: 0 <= i < |steps| ==> StepNamed(steps[i], names, root)
  }

  /** Workers were started, and outcomes are reported, under those identifiers. */
  ghost predicate Consistent(sessions: seq<Session>, events: seq<Stamped>, names: Id -> string) {
    && (forall g :: 0 <= g < |sessions| ==> sessions[g].identifier == names(sessions[g].id))
    && (forall k :: 0 <= k < |events| && events[k].event.Finished? ==>
          events[k].event.outcome.issue.identifier == names(events[k].event.outcome.issue.id))
  }

  lemma DispatchConsistent(w: World, issue: Issue, attempt: Option<nat>, now: int, names: Id -> string)
    requires Consistent(w.sessions, w.events, names) && issue.identifier == names(issue.id)
    ensures var t := Dispatch(w, issue, attempt, now); Consistent(t.sessions, t.events, names) && t.config == w.config
  {
  }

  lemma {:induction false} LoopConsistent(w: World, issues: seq<Issue>, now: int, names: Id -> string)
    requires Consistent(w.sessions, w.events, names) && Named(issues, names)
    ensures var t := DispatchAll(w, issues, now); Consistent(t.sessions, t.events, names)
    decreases |issues|
  {
    hide Consistent, ShouldDispatch, Slots, Dispatch;
    if issues != [] && Slots(w) > 0 {
      if ShouldDispatch(w, issues[0], None) {
        DispatchConsistent(w, issues[0], None, now, names);
        LoopConsistent(Dispatch(w, issues[0], None, now), issues[1..], now, names);
      } else {
        LoopConsistent(w, issues[1..], now, names);
      }
    }
  }

  lemma SortedStaysNamed(issues: seq<Issue>, names: Id -> string)
    requires Named(issues, names)
    ensures Named(D.SortForDispatch(issues), names)
  {
    var sorted := D.SortForDispatch(issues);
    D.SortIsStable(issues);
    forall i | 0 <= i < |sorted| ensures sorted[i].identifier == names(sorted[i].id) {
      assert sorted[i] in multiset(sorted);
      assert sorted[i] in issues;
    }
  }

  lemma TickConsistent(w: World, now: int, answers: Option<seq<Issue>>, candidates: Option<seq<Issue>>,
                       names: Id -> string)
    requires Consistent(w.sessions, w.events, names) && (candidates.Some? ==> Named(candidates.value, names))
    ensures var t := RunTick(w, now, answers, candidates); Consistent(t.sessions, t.events, names)
  {
    hide Consistent, DispatchAll, D.SortForDispatch, Reconcile;
    var r := Reconcile(w, now, answers);
    assert r.sessions == w.sessions && r.events == w.events by { ReconcileQueues(w, now, answers); }
    if candidates.Some? {
      SortedStaysNamed(candidates.value, names);
      LoopConsistent(r, D.SortForDispatch(candidates.value), now, names);
    }
  }

  lemma ReconcileQueues(w: World, now: int, answers: Option<seq<Issue>>)
    ensures Reconcile(w, now, answers).sessions == w.sessions && Reconcile(w, now, answers).events == w.events
  {
  }

  lemma EventConsistent(w: World, e: Stamped, now: int, names: Id -> string)
    requires Consistent(w.sessions, w.events, names)
    ensures var t := HandleEvent(w, e, now); Consistent(t.sessions, t.events, names)
  {
    hide FinishWorker, Absorb;
    if e.event.Finished? { FinishFrame(w, e.worker, e.event.outcome, now); }
  }

  lemma WakeupConsistent(w: World, now: int, candidates: Option<seq<Issue>>, pollError: string, names: Id -> string)
    requires w.wakeups != [] && Consistent(w.sessions, w.events, names)
    requires candidates.Some? ==> Named(candidates.value, names)
    ensures var t := Apply(w, RetryWakeup(now, candidates, pollError)); Consistent(t.sessions, t.events, names)
  {
    hide Apply, ShouldDispatch;
    WakeupFrame(w, now, candidates, pollError);
  }

  lemma StepConsistent(w: World, s: Step, names: Id -> string)
    requires Enabled(w, s) && Consistent(w.sessions, w.events, names) && StepNamed(s, names, w.config.root)
    ensures Consistent(Apply(w, s).sessions, Apply(w, s).events, names) && Apply(w, s).config.root == w.config.root
  {
    hide RunTick, HandleEvent, RetryDue;
    StepConcurrency(w, s);
    match s
    case Tick(now, answers, candidates) => TickConsistent(w, now, answers, candidates, names);
    case WorkerEvent(now) =>
      assert forall k :: 0 <= k < |w.events| - 1 ==> w.events[1..][k] == w.events[k + 1];
      EventConsistent(w.(events := w.events[1..]), w.events[0], now, names);
    case RetryWakeup(now, candidates, pollError) => WakeupConsistent(w, now, candidates, pollError, names);
    case _ =>
  }

  lemma {:induction false} RunConsistent(w: World, steps: seq<Step>, names: Id -> string)
    requires Legal(w, steps) && Consistent(w.sessions, w.events, names) && RunNamed(steps, names, w.config.root)
    ensures var t := Exec(w, steps); Consistent(t.sessions, t.events, names) && t.config.root == w.config.root
    decreases |steps|
  {
    hide Consistent, Enabled, Apply, StepNamed;
    if steps != [] {
      StepConsistent(w, steps[0], names);
      RunConsistent(Apply(w, steps[0]), steps[1..], names);
    }
  }

  /** What a step asks to be removed: the workspace of an issue whose worker finishes after it was found terminal. */
  function Cleaned(w: World, s: Step): seq<string> {
    if !s.WorkerEvent? || w.events == [] || !w.events[0].event.Finished? then []
    else
      var o := w.events[0].event.outcome;
      if o.issue.id in w.running then Removed(w.running[o.issue.id], o) else []
  }

  /** Nothing else asks for a removal. */
  lemma StepCleans(w: World, s: Step)
    requires Enabled(w, s)
    ensures Apply(w, s).cleanups == w.cleanups + Cleaned(w, s)
  {
    hide FinishWorker, RetryDue, DispatchAll, Reconcile, D.SortForDispatch, Absorb, Removed;
    assert w.cleanups + [] == w.cleanups;
    match s
    case Tick(now, answers, candidates) =>
      ReconcileCleans(w, now, answers);
      if candidates.Some? { LoopCleans(Reconcile(w, now, answers), D.SortForDispatch(candidates.value), now); }
    case WorkerEvent(now) =>
      if w.events[0].event.Finished? {
        FinishFrame(w.(events := w.events[1..]), w.events[0].worker, w.events[0].event.outcome, now);
      }
    case RetryWakeup(now, candidates, pollError) => WakeupFrame(w, now, candidates, pollError);
    case _ =>
  }

  lemma ReconcileCleans(w: World, now: int, answers: Option<seq<Issue>>)
    ensures Reconcile(w, now, answers).cleanups == w.cleanups
  {
  }

  lemma {:induction false} LoopCleans(w: World, issues: seq<Issue>, now: int)
    ensures DispatchAll(w, issues, now).cleanups == w.cleanups
    decreases |issues|
  {
    hide ShouldDispatch, Slots;
    if issues != [] && Slots(w) > 0 {
      if ShouldDispatch(w, issues[0], None) {
        LoopCleans(Dispatch(w, issues[0], None, now), issues[1..], now);
      } else {
        LoopCleans(w, issues[1..], now);
      }
    }
  }

  /** The disk once these workspaces are removed, in turn. */
  function CleanedDisk(disk: W.Disk, root: PathBuf, identifiers: seq<string>): W.Disk {
    if identifiers == [] then disk
    else W.CleanupOn(CleanedDisk(disk, root, identifiers[..|identifiers| - 1]), root, identifiers[|identifiers| - 1]).1
  }

  /** Everything that is removed over a run, in order. */
  function Removals(w: World, steps: seq<Step>): seq<string>
    requires Legal(w, steps)
    decreases |steps|
  {
    if steps == [] then [] else Cleaned(w, steps[0]) + Removals(Apply(w, steps[0]), steps[1..])
  }

  lemma {:induction false} RunCleans(w: World, steps: seq<Step>)
    requires Legal(w, steps)
    ensures Exec(w, steps).cleanups == w.cleanups + Removals(w, steps)
    decreases |steps|
  {
    hide Enabled, Apply, Cleaned;
    if steps != [] {
      StepCleans(w, steps[0]);
      RunCleans(Apply(w, steps[0]), steps[1..]);
    }
  }

  /** Every issue that was ever started has a directory name of its own. */
  ghost predicate OwnKeys(sessions: seq<Session>, names: Id -> string) {
    && (forall g :: 0 <= g < |sessions| ==> IsName(W.Sanitize(names(sessions[g].id))))
    && (forall g, h :: 0 <= g < |sessions| && 0 <= h < |sessions| && sessions[g].id != sessions[h].id ==>
          W.Sanitize(names(sessions[g].id)) != W.Sanitize(names(sessions[h].id)))
  }

  /** The key of `own` and all keys of the list are names, and differ. */
  ghost predicate Spares(identifiers: seq<string>, own: string) {
    && IsName(W.Sanitize(own))
    && forall i :: 0 <= i < |identifiers| ==>
         IsName(W.Sanitize(identifiers[i])) && W.Sanitize(identifiers[i]) != W.Sanitize(own)
  }

  lemma {:induction false} CleanedDiskSpares(disk: W.Disk, root: PathBuf, identifiers: seq<string>, own: string)
    requires Proper(root) && Spares(identifiers, own)
    ensures W.SameBelow(disk, CleanedDisk(disk, root, identifiers), W.WorkspacePath(root, own))
  {
    hide W.SameBelow, W.CleanupOn, W.WorkspacePath, W.Sanitize, IsName, Proper;
    var path := W.WorkspacePath(root, own);
    if identifiers == [] {
      W.SameBelowItself(disk, path);
    } else {
      var init, last := identifiers[..|identifiers| - 1], identifiers[|identifiers| - 1];
      CleanedDiskSpares(disk, root, init, own);
      W.CleanupSparesOthers(CleanedDisk(disk, root, init), root, last, own);
      W.SameBelowChains(disk, CleanedDisk(disk, root, init), CleanedDisk(disk, root, identifiers), path);
    }
  }

  /** While a worker is not done, nothing that is removed has its key. */
  lemma {:induction false} RemovalsSpare(w: World, steps: seq<Step>, names: Id -> string, g: nat)
    requires Inv(w) && Legal(w, steps)
    requires Consistent(w.sessions, w.events, names) && RunNamed(steps, names, w.config.root)
    requires g < |w.sessions| <= |Exec(w, steps).sessions| && Exec(w, steps).sessions[g].phase != Done
    requires OwnKeys(Exec(w, steps).sessions, names)
    ensures Spares(Removals(w, steps), w.sessions[g].identifier)
    decreases |steps|
  {
    hide Inv, Enabled, Apply, StepNamed, Consistent, Cleaned, OwnKeys, Exec, Legal, W.Sanitize, IsName, Removals;
    ExecUnfolds(w, steps);
    RemovalsUnfold(w, steps);
    KeyIsName(w, Exec(w, steps), names, g) by { RunSessions(w, steps); }
    if steps != [] {
      var t := Apply(w, steps[0]);
      StepKeeps(w, steps[0]);
      StepSessions(w, steps[0]);
      StepConsistent(w, steps[0], names);
      RunSessions(t, steps[1..]);
      SameIdentifier(w, steps[0], names, g);
      RemovalsSpare(t, steps[1..], names, g);
      StepSpares(w, steps[0], t, Exec(w, steps), names, g);
    }
  }

  lemma RemovalsUnfold(w: World, steps: seq<Step>)
    requires Legal(w, steps)
    ensures steps == [] ==> Removals(w, steps) == []
    ensures steps != [] ==> Removals(w, steps) == Cleaned(w, steps[0]) + Removals(Apply(w, steps[0]), steps[1..])
  {
  }

  lemma KeyIsName(w: World, t: World, names: Id -> string, g: nat)
    requires Consistent(w.sessions, w.events, names) && OwnKeys(t.sessions, names)
    requires g < |w.sessions| && SessionsAdvance(w.sessions, t.sessions)
    ensures IsName(W.Sanitize(w.sessions[g].identifier))
  {
    hide W.Sanitize, IsName;
  }

  lemma SameIdentifier(w: World, s: Step, names: Id -> string, g: nat)
    requires Enabled(w, s) && g < |w.sessions| && SessionsAdvance(w.sessions, Apply(w, s).sessions)
    requires Consistent(w.sessions, w.events, names) && Consistent(Apply(w, s).sessions, Apply(w, s).events, names)
    ensures Apply(w, s).sessions[g].identifier == w.sessions[g].identifier
  {
    hide Apply, Enabled;
  }

  /** What one step removes has another key than any worker that is not done after it. */
  lemma StepSpares(w: World, s: Step, t: World, end: World, names: Id -> string, g: nat)
    requires Inv(w) && Enabled(w, s) && t == Apply(w, s)
    requires Consistent(w.sessions, w.events, names) && OwnKeys(end.sessions, names)
    requires g < |w.sessions| <= |t.sessions| && t.sessions[g].phase != Done
    requires SessionsAdvance(w.sessions, end.sessions)
    ensures Spares(Cleaned(w, s), w.sessions[g].identifier)
  {
    hide W.Sanitize, IsName, Body, Claims, Apply;
    if Cleaned(w, s) != [] {
      assert Workers(w.running, w.sessions) && Mail(w.events, w.sessions) by { Faithfulness.CoreParts(w); }
      HeadIsCurrent(w.running, w.sessions, w.events);
      Faithfulness.HeadFinish(w, s.now);
      var f := w.events[0].worker;
      assert w.events[0].event.outcome.issue.id == w.sessions[f].id;
      assert g != f && t.sessions[g] == w.sessions[g];
      assert w.sessions[g].id != w.sessions[f].id;
    }
  }

  /** From any moment of a run on, whatever is removed until another moment leaves the directory of every worker
      that was there and is still not done exactly as it was. */
  lemma LiveWorkspacesSurvive(config: Config, before: seq<Step>, after: seq<Step>, names: Id -> string,
                              cwd: Option<string>, disk: W.Disk, g: nat)
    requires Legal(Init(config), before) && Legal(Exec(Init(config), before), after)
    requires RunNamed(before, names, config.root) && RunNamed(after, names, config.root)
    requires OwnKeys(Exec(Exec(Init(config), before), after).sessions, names)
    requires CwdOk(cwd) && Meaning(cwd, config.root).Some?
    ensures var w, root := Exec(Init(config), before), Meaning(cwd, config.root).value;
      var t := Exec(w, after);
      && w.config.root == t.config.root == config.root
      && t.cleanups == w.cleanups + Removals(w, after)
      && |w.sessions| <= |t.sessions|
      && (g < |w.sessions| && t.sessions[g].phase != Done ==>
            W.SameBelow(disk, CleanedDisk(disk, root, Removals(w, after)),
                        W.WorkspacePath(root, w.sessions[g].identifier)))
  {
    hide Legal, Exec, Meaning, W.SameBelow, W.WorkspacePath, CleanedDisk, Inv, OwnKeys, Consistent, Removals, RunNamed,
         Spares, SessionsAdvance;
    NoFaultEver(config, before);
    StartConsistent(config, names);
    RunConsistent(Init(config), before, names);
    var w := Exec(Init(config), before);
    RunConsistent(w, after, names);
    RunCleans(w, after);
    RunSessions(w, after);
    assert |w.sessions| <= |Exec(w, after).sessions| by { Longer(w.sessions, Exec(w, after).sessions); }
    if g < |w.sessions| && Exec(w, after).sessions[g].phase != Done {
      RemovalsSpare(w, after, names, g);
      MeaningIsStable(cwd, config.root);
      CleanedDiskSpares(disk, Meaning(cwd, config.root).value, Removals(w, after), w.sessions[g].identifier);
    }
  }

  lemma Longer(a: seq<Session>, b: seq<Session>)
    requires SessionsAdvance(a, b)
    ensures |a| <= |b|
  {
  }

  lemma StartConsistent(config: Config, names: Id -> string)
    ensures Consistent(Init(config).sessions, Init(config).events, names)
  {
  }
}
