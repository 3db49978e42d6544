/** A worker read off its inputs: the messages, the token and the tracker's answers decide turn by turn how it
    ends. */
module Turns {
  import opened Types
  import opened Session
  import opened Worker
  import A = Admission

  /** All that a worker's turns depend on: whether the session has a thread, the messages waiting at first, the id
      of its first turn's request, and what surrounds each turn. */
  datatype Inputs = Inputs(hasThread: bool, inbox: seq<Poll>, id: nat, turns: seq<Turn>) {
    /** The messages turn `i` has before it, counted from 0. */
    function Before(i: nat): seq<Poll>
      requires i < |turns|
      decreases i
    {
      (if i == 0 then inbox else RunTurnRest(hasThread, Before(i - 1), id + i - 1)) + turns[i].arrivals
    }

    function Result(i: nat): Session.Result<()>
      requires i < |turns|
    {
      RunTurnResult(hasThread, Before(i), id + i)
    }

    /** The messages it reads. */
    function Read(i: nat): seq<Poll>
      requires i < |turns|
    {
      Before(i)[..|Before(i)| - |RunTurnRest(hasThread, Before(i), id + i)|]
    }

    /** Its token was cancelled by its end, or seen cancelled while it read. */
    predicate Cancelled(i: nat)
      requires i < |turns|
    {
      turns[i].cancelled || CancelSeen in Read(i)
    }

    /** It was completed, not cancelled, and the tracker answered after it. */
    predicate Good(i: nat)
      requires i < |turns|
    {
      Result(i).Ok? && !Cancelled(i) && turns[i].refresh.Answered?
    }
  }

  /** The issue after `n` refreshes: the last one of the last answer that held any. */
  function Known(issue: Issue, turns: seq<Turn>, n: nat): Issue
    requires n <= |turns|
  {
    if n == 0 then issue
    else
      match turns[n - 1].refresh
      case TrackerFailed => Known(issue, turns, n - 1)
      case Answered(issues) => if issues == [] then Known(issue, turns, n - 1) else issues[|issues| - 1]
  }

  /** The inputs of the turns after the first. */
  function Later(x: Inputs): Inputs
    requires x.turns != []
  {
    Inputs(x.hasThread, RunTurnRest(x.hasThread, x.Before(0), x.id), x.id + 1, x.turns[1..])
  }

  lemma {:induction false} LaterBefore(x: Inputs, i: nat)
    requires i + 1 < |x.turns|
    ensures Later(x).Before(i) == x.Before(i + 1)
    decreases i
  {
    hide RunTurnRest;
    if i > 0 { LaterBefore(x, i - 1); }
  }

  /** The end of turn `i` in terms of the inputs. */
  function EndBy(x: Inputs, i: nat, n: nat): TurnEnd
    requires i < |x.turns|
  {
    if n == 1 && !x.turns[i].promptRenders then NoPrompt
    else EndOf(x.Result(i), x.Cancelled(i), x.turns[i].refresh)
  }

  lemma EndAtBy(x: Inputs, n: nat)
    requires x.turns != []
    ensures EndAt(x.hasThread, x.inbox, x.id, x.turns[0], n) == EndBy(x, 0, n)
  {
  }

  /** Turn `i` of a trace ends as its inputs say. `skipped` turns came before. */
  lemma {:induction false} EndsByInputs(config: Config, issue: Issue, x: Inputs, turns: seq<Turn>, n: nat, i: nat)
    requires n >= 1 && |turns| >= n && |turns| >= config.maxTurns && x.turns == turns[n - 1..]
    requires i < |Trace(config, issue, x.hasThread, x.inbox, x.id, turns, n)|
    ensures i < |x.turns|
    ensures Trace(config, issue, x.hasThread, x.inbox, x.id, turns, n)[i] == EndBy(x, i, n + i)
    decreases i
  {
    hide EndOf, RunTurnResult, RunTurnRest, After, Config.IsActive;
    var end := EndAt(x.hasThread, x.inbox, x.id, turns[n - 1], n);
    EndAtBy(x, n);
    if i > 0 {
      assert GoesOn(config, issue, end, n);
      EndsByInputs(config, After(issue, end), Later(x), turns, n + 1, i - 1);
      LaterBefore(x, i - 1);
      LaterEnd(x, i - 1, n + i);
    }
  }

  lemma LaterEnd(x: Inputs, i: nat, n: nat)
    requires i + 1 < |x.turns| && n > 1 && Later(x).Before(i) == x.Before(i + 1)
    ensures EndBy(Later(x), i, n) == EndBy(x, i + 1, n)
  {
    hide RunTurnResult, RunTurnRest, EndOf;
    assert Later(x).turns[i] == x.turns[i + 1];
  }

  /** Refreshed turns leave the issue the tracker named. */
  lemma {:induction false} IssueIsKnown(issue: Issue, ends: seq<TurnEnd>, turns: seq<Turn>, n: nat)
    requires n <= |ends| && n <= |turns|
    requires forall i :: 0 <= i < n ==> turns[i].refresh.Answered? && ends[i] == Refreshed(turns[i].refresh.issues)
    ensures IssueAt(issue, ends, n) == Known(issue, turns, n)
  {
    if n > 0 { IssueIsKnown(issue, ends, turns, n - 1); }
  }

  /** What the end of turn `i` says of its inputs. */
  ghost predicate Means(x: Inputs, i: nat, end: TurnEnd)
    requires i < |x.turns|
  {
    var rendered := i > 0 || x.turns[i].promptRenders;
    && (end.Refreshed? <==> rendered && x.Good(i))
    && (rendered && x.Good(i) ==> x.turns[i].refresh.Answered? && end == Refreshed(x.turns[i].refresh.issues))
    && (ExitOf(end) == Succeeded <==> rendered && x.Good(i))
    && (ExitOf(end) == Canceled <==> rendered && x.Cancelled(i))
    && (ExitOf(end) == TimedOut <==> rendered && !x.Cancelled(i) && x.Result(i) == Err(TurnTimeout))
    && ErrorOf(end) ==
       if !rendered then Some("template_render_error")
       else if x.Result(i).Err? then Some(ErrorCode(x.Result(i).error))
       else if x.Cancelled(i) then Some("worker canceled")
       else if x.turns[i].refresh.TrackerFailed? then Some("linear_api_request")
       else None
  }

  lemma EndMeans(x: Inputs, i: nat)
    requires i < |x.turns|
    ensures Means(x, i, EndBy(x, i, 1 + i))
  {
    hide RunTurnResult, RunTurnRest, ErrorCode;
  }

  /** Turn `i` was good, and another one followed. */
  ghost predicate Continues(config: Config, issue: Issue, x: Inputs, i: nat)
    requires i < |x.turns|
  {
    x.Good(i) && A.Among(config.activeStates, Known(issue, x.turns, i + 1).state) && i + 1 < config.maxTurns
  }

  /** How a worker ends, from its inputs alone. Its first prompt rendered or not decides first. All its turns but
      the last were good, found the issue active and were below the cap; and the last one decides: `Succeeded` if
      it was good too, and then the issue is no longer active or the cap is reached; `Canceled` if its token read
      as cancelled; `TimedOut` if its own time ran out; and `Failed` otherwise, a tracker that fails after a
      completed turn included. */
  lemma WorkerMeans(config: Config, issue: Issue, x: Inputs)
    requires |x.turns| >= 1 && |x.turns| >= config.maxTurns
    ensures |Trace(config, issue, x.hasThread, x.inbox, x.id, x.turns, 1)| <= |x.turns|
    ensures var ends := Trace(config, issue, x.hasThread, x.inbox, x.id, x.turns, 1);
      var o, last, rendered := OutcomeOf(issue, ends), |ends| - 1, x.turns[0].promptRenders;
      && o.turnCount == |ends| >= 1
      && (forall i :: 0 <= i < last ==> Continues(config, issue, x, i))
      && (last > 0 ==> rendered)
      && (o.exit == Succeeded <==> rendered && x.Good(last))
      && (o.exit == Canceled <==> rendered && x.Cancelled(last))
      && (o.exit == TimedOut <==> rendered && !x.Cancelled(last) && x.Result(last) == Err(TurnTimeout))
      && (o.exit == Succeeded ==>
            !A.Among(config.activeStates, Known(issue, x.turns, |ends|).state) || |ends| >= config.maxTurns)
      && o.issue == Known(issue, x.turns, if o.exit == Succeeded then |ends| else last)
      && o.error == if !rendered then Some("template_render_error")
                    else if x.Result(last).Err? then Some(ErrorCode(x.Result(last).error))
                    else if x.Cancelled(last) then Some("worker canceled")
                    else if x.turns[last].refresh.TrackerFailed? then Some("linear_api_request")
                    else None
  {
    hide EndBy, Trace, Config.IsActive, A.Among, Known, IssueAt, ErrorCode, ExitOf, ErrorOf, Inputs.Good, Inputs.Result,
         Inputs.Cancelled;
    var ends := Trace(config, issue, x.hasThread, x.inbox, x.id, x.turns, 1);
    var last := |ends| - 1;
    TraceIsWellEnded(config, issue, x.hasThread, x.inbox, x.id, x.turns, 1);
    assert x.turns[0..] == x.turns;
    forall i | 0 <= i < |ends| ensures i < |x.turns| && ends[i] == EndBy(x, i, 1 + i) {
      EndsByInputs(config, issue, x, x.turns, 1, i);
    }
    forall i | 0 <= i < |ends| ensures Means(x, i, ends[i]) { EndMeans(x, i); }
    forall i | 0 <= i < last ensures ends[i].Refreshed? && i + 1 < config.maxTurns {
      assert GoesOn(config, IssueAt(issue, ends, i), ends[i], 1 + i);
    }
    forall i | 0 <= i < |ends| && ends[i].Refreshed?
      ensures x.turns[i].refresh.Answered? && ends[i] == Refreshed(x.turns[i].refresh.issues)
    {
      assert Means(x, i, ends[i]);
    }
    forall i | 0 <= i < last ensures Continues(config, issue, x, i) {
      assert GoesOn(config, IssueAt(issue, ends, i), ends[i], 1 + i);
      StepIssue(issue, ends, i);
      IssueIsKnown(issue, ends, x.turns, i + 1);
      SameWord(config, Known(issue, x.turns, i + 1).state);
    }
    IssueIsKnown(issue, ends, x.turns, last);
    StepIssue(issue, ends, last);
    if ends[last].Refreshed? {
      IssueIsKnown(issue, ends, x.turns, |ends|);
      SameWord(config, Known(issue, x.turns, |ends|).state);
    }
    FirstIsRendered(x, ends[0]);
  }

  lemma StepIssue(issue: Issue, ends: seq<TurnEnd>, i: nat)
    requires i < |ends|
    ensures IssueAt(issue, ends, i + 1) == After(IssueAt(issue, ends, i), ends[i])
    ensures !ends[i].Refreshed? ==> IssueAt(issue, ends, i + 1) == IssueAt(issue, ends, i)
  {
  }

  lemma SameWord(config: Config, state: string)
    ensures config.IsActive(state) == A.Among(config.activeStates, state)
  {
  }

  lemma FirstIsRendered(x: Inputs, end: TurnEnd)
    requires x.turns != [] && Means(x, 0, end)
    ensures end.Refreshed? ==> x.turns[0].promptRenders
  {
  }

  /** A worker succeeds exactly when every one of its turns was completed, uncancelled and refreshed. */
  lemma SuccessByInputs(config: Config, issue: Issue, x: Inputs)
    requires |x.turns| >= 1 && |x.turns| >= config.maxTurns
    ensures var ends := Trace(config, issue, x.hasThread, x.inbox, x.id, x.turns, 1);
      OutcomeOf(issue, ends).exit == Succeeded <==>
      x.turns[0].promptRenders && forall i :: 0 <= i < |ends| ==> i < |x.turns| && x.Good(i)
  {
    hide Trace, Inputs.Good, Inputs.Result, Inputs.Cancelled, OutcomeOf, Known, A.Among, ErrorCode;
    WorkerMeans(config, issue, x);
    var ends := Trace(config, issue, x.hasThread, x.inbox, x.id, x.turns, 1);
    if OutcomeOf(issue, ends).exit == Succeeded {
      forall i | 0 <= i < |ends| ensures x.Good(i) {
        assert i < |ends| - 1 ==> Continues(config, issue, x, i);
      }
    } else {
      assert !x.turns[0].promptRenders || !x.Good(|ends| - 1);
    }
  }

  /** A refresh that fails after a completed, uncancelled turn ends the worker there, as failed. */
  lemma FailedRefreshEnds(config: Config, issue: Issue, x: Inputs, i: nat)
    requires |x.turns| >= 1 && |x.turns| >= config.maxTurns
    requires i < |Trace(config, issue, x.hasThread, x.inbox, x.id, x.turns, 1)| && x.turns[0].promptRenders
    requires i < |x.turns| && x.Result(i).Ok? && !x.Cancelled(i) && x.turns[i].refresh.TrackerFailed?
    ensures var ends := Trace(config, issue, x.hasThread, x.inbox, x.id, x.turns, 1);
      var o := OutcomeOf(issue, ends);
      i == |ends| - 1 && o.exit == Failed && o.error == Some("linear_api_request")
  {
    hide Trace, Inputs.Result, Inputs.Cancelled, OutcomeOf, Known, A.Among, ErrorCode;
    WorkerMeans(config, issue, x);
    assert i < |Trace(config, issue, x.hasThread, x.inbox, x.id, x.turns, 1)| - 1 ==> Continues(config, issue, x, i);
  }
}
