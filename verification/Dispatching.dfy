/** Which candidates a tick dispatches: the stable sort and the greedy loop over it. */
module Dispatching {
  import opened Text
  import opened Types
  import opened Machine

  // ---------------------------------------------------------------- the order of candidates

  function PriorityKey(issue: Issue): int {
    issue.priority.GetOr(I64_MAX)
  }

  function AgeKey(issue: Issue): int {
    issue.createdAt.GetOr(I64_MAX)
  }

  /** Priority, then age, then identifier; an absent value sorts last. */
  predicate Leq(a: Issue, b: Issue) {
    || PriorityKey(a) < PriorityKey(b)
    || (PriorityKey(a) == PriorityKey(b) &&
        (|| AgeKey(a) < AgeKey(b)
         || (AgeKey(a) == AgeKey(b) && StringLeq(a.identifier, b.identifier))))
  }

  predicate Before(a: Issue, b: Issue) {
    !Leq(b, a)
  }

  lemma LeqTotal(a: Issue, b: Issue)
    ensures Leq(a, b) || Leq(b, a)
  {
    StringLeqTotal(a.identifier, b.identifier);
  }

  lemma LeqTransitive(a: Issue, b: Issue, c: Issue)
    requires Leq(a, b) && Leq(b, c)
    ensures Leq(a, c)
  {
    if StringLeq(a.identifier, b.identifier) && StringLeq(b.identifier, c.identifier) {
      StringLeqTransitive(a.identifier, b.identifier, c.identifier);
    }
  }

  function Insert(x: Issue, s: seq<Issue>): seq<Issue> {
    if s == [] || Leq(x, s[0]) then [x] + s else [s[0]] + Insert(x, s[1..])
  }

  /** `sort_issues_for_dispatch`. `StableSortUnique` shows that any stable sort gives this result. */
  function SortForDispatch(issues: seq<Issue>): seq<Issue> {
    if issues == [] then [] else Insert(issues[0], SortForDispatch(issues[1..]))
  }

  ghost predicate Sorted(s: seq<Issue>) {
    forall i, j :: 0 <= i < j < |s| ==> Leq(s[i], s[j])
  }

  /** The elements with the same sort key as `x`, in the order of `s`. */
  function Peers(s: seq<Issue>, x: Issue): seq<Issue> {
    if s == [] then []
    else (if Leq(s[0], x) && Leq(x, s[0]) then [s[0]] else []) + Peers(s[1..], x)
  }

  /** The same issues, with ties left in their order. */
  ghost predicate StableArrangement(s: seq<Issue>, t: seq<Issue>) {
    multiset(s) == multiset(t) && forall x :: Peers(s, x) == Peers(t, x)
  }

  lemma {:induction false} InsertKeeps(x: Issue, s: seq<Issue>)
    requires Sorted(s)
    ensures Sorted(Insert(x, s))
    ensures multiset(Insert(x, s)) == multiset([x] + s)
  {
    hide Leq;
    if s != [] {
      if Leq(x, s[0]) {
        forall k | 0 <= k < |s| ensures Leq(x, s[k]) {
          if k > 0 { LeqTransitive(x, s[0], s[k]); }
        }
      } else {
        LeqTotal(x, s[0]);
        InsertKeeps(x, s[1..]);
        var rest := Insert(x, s[1..]);
        assert s == [s[0]] + s[1..];
        forall k | 0 <= k < |rest| ensures Leq(s[0], rest[k]) {
          assert rest[k] in multiset(rest);
          assert rest[k] == x || rest[k] in s[1..];
        }
      }
    }
  }

  lemma {:induction false} InsertPeers(x: Issue, s: seq<Issue>, y: Issue)
    ensures Peers(Insert(x, s), y) == Peers([x] + s, y)
  {
    hide Leq;
    assert ([x] + s)[1..] == s;
    if s != [] && !Leq(x, s[0]) {
      InsertPeers(x, s[1..], y);
      assert ([x] + s[1..])[1..] == s[1..];
      var rest := Insert(x, s[1..]);
      assert ([s[0]] + rest)[1..] == rest;
      if Leq(x, y) && Leq(y, s[0]) { LeqTransitive(x, y, s[0]); }
    }
  }

  lemma {:induction false} SortIsStable(s: seq<Issue>)
    ensures Sorted(SortForDispatch(s)) && StableArrangement(s, SortForDispatch(s))
  {
    hide Leq;
    if s != [] {
      SortIsStable(s[1..]);
      var rest := SortForDispatch(s[1..]);
      InsertKeeps(s[0], rest);
      assert s == [s[0]] + s[1..];
      forall x ensures Peers(s, x) == Peers(SortForDispatch(s), x) {
        InsertPeers(s[0], rest, x);
        assert ([s[0]] + rest)[1..] == rest;
      }
    }
  }

  lemma HeadIsLeast(s: seq<Issue>, t: seq<Issue>)
    requires Sorted(s) && s != [] && t != [] && multiset(s) == multiset(t)
    ensures Leq(s[0], t[0])
  {
    hide Leq;
    assert t[0] in multiset(t);
    assert t[0] in s;
    var k :| 0 <= k < |s| && s[k] == t[0];
    LeqTotal(s[0], s[0]);
  }

  lemma PeersTail(s: seq<Issue>, t: seq<Issue>, x: Issue)
    requires s != [] && t != [] && s[0] == t[0] && Peers(s, x) == Peers(t, x)
    ensures Peers(s[1..], x) == Peers(t[1..], x)
  {
    hide Leq;
    var head := if Leq(s[0], x) && Leq(x, s[0]) then [s[0]] else [];
    assert Peers(s, x) == head + Peers(s[1..], x);
    assert Peers(t, x) == head + Peers(t[1..], x);
    assert Peers(s[1..], x) == Peers(s, x)[|head|..];
    assert Peers(t[1..], x) == Peers(t, x)[|head|..];
  }

  lemma FirstPeer(s: seq<Issue>, x: Issue)
    requires s != [] && Leq(s[0], x) && Leq(x, s[0])
    ensures Peers(s, x) != [] && Peers(s, x)[0] == s[0]
  {
  }

  lemma StableTail(s: seq<Issue>, t: seq<Issue>)
    requires s != [] && t != [] && s[0] == t[0] && StableArrangement(s, t)
    ensures StableArrangement(s[1..], t[1..])
  {
    hide Peers;
    assert s == [s[0]] + s[1..] && t == [t[0]] + t[1..];
    assert multiset(s[1..]) == multiset(s) - multiset{s[0]};
    assert multiset(t[1..]) == multiset(t) - multiset{t[0]};
    forall x ensures Peers(s[1..], x) == Peers(t[1..], x) {
      assert Peers(s, x) == Peers(t, x);
      PeersTail(s, t, x);
    }
  }

  /** There is only one stable sort of a list, so `sort_by` can return nothing else. */
  lemma {:induction false} StableSortUnique(s: seq<Issue>, t: seq<Issue>)
    requires Sorted(s) && Sorted(t) && StableArrangement(s, t)
    ensures s == t
  {
    hide Leq, Peers;
    assert |multiset(s)| == |s| && |multiset(t)| == |t|;
    if s != [] {
      HeadIsLeast(s, t);
      HeadIsLeast(t, s);
      LeqTotal(s[0], s[0]);
      assert Peers(s, s[0]) == Peers(t, s[0]);
      FirstPeer(s, s[0]);
      FirstPeer(t, s[0]);
      StableTail(s, t);
      StableSortUnique(s[1..], t[1..]);
    }
  }

  // ---------------------------------------------------------------- counting

  lemma CountInsert(running: map<Id, Running>, id: Id, r: Running, state: string)
    requires id !in running
    ensures StateCount(running[id := r], state) ==
            StateCount(running, state) + if Normalize(r.issue.state) == state then 1 else 0
    ensures |running[id := r]| == |running| + 1
  {
    hide Normalize;
    var more := InState(running[id := r], state);
    if Normalize(r.issue.state) == state {
      assert more == InState(running, state) + {id};
    } else {
      assert more == InState(running, state);
    }
  }

  /** Every entry of `a` is still there, unchanged. */
  ghost predicate Extends(a: map<Id, Running>, b: map<Id, Running>) {
    forall id :: id in a ==> id in b && b[id] == a[id]
  }

  function Max(a: nat, b: nat): nat {
    if a < b then b else a
  }

  lemma DispatchRunning(w: World, issue: Issue, attempt: Option<nat>, now: int)
    ensures var t := Dispatch(w, issue, attempt, now);
      && t.config == w.config
      && t.running == w.running[issue.id := NewRunning(issue, attempt, now, |w.sessions|)]
      && t.claimed == w.claimed + {issue.id}
  {
  }

  // ---------------------------------------------------------------- the loop

  /** Dispatching another issue changes no eligibility but its own. */
  lemma OthersStayEligible(w: World, h: Issue, now: int, c: Issue)
    requires Eligible(w, h, None)
    ensures var t := Dispatch(w, h, None, now);
      && (Eligible(t, c, None) ==> Eligible(w, c, None) && c.id != h.id)
      && (Eligible(w, c, None) && c.id != h.id ==> Eligible(t, c, None))
  {
    hide Blocked, Normalize;
    DispatchRunning(w, h, None, now);
  }

  lemma EligibleIsNew(w: World, c: Issue)
    requires Eligible(w, c, None)
    ensures c.id !in w.running && c.id !in w.claimed
  {
  }

  /** A row the loop added: a first attempt of an eligible candidate. */
  ghost predicate StartedRow(w: World, issues: seq<Issue>, id: Id, r: Running, now: int) {
    && r.issue in issues && Eligible(w, r.issue, None) && r.issue.id == id
    && r == NewRunning(r.issue, None, now, r.worker)
  }

  lemma RowOfLaterStep(w: World, h: Issue, issues: seq<Issue>, id: Id, r: Running, now: int)
    requires issues != [] && issues[0] == h && Eligible(w, h, None)
    requires StartedRow(Dispatch(w, h, None, now), issues[1..], id, r, now)
    ensures StartedRow(w, issues, id, r, now)
  {
    hide Eligible, Dispatch;
    OthersStayEligible(w, h, now, r.issue);
  }

  lemma RowOfTail(w: World, issues: seq<Issue>, id: Id, r: Running, now: int)
    requires issues != [] && StartedRow(w, issues[1..], id, r, now)
    ensures StartedRow(w, issues, id, r, now)
  {
  }

  /** Nothing that runs is touched, and each new entry is a fresh run of an eligible candidate. */
  lemma {:induction false} LoopStartsOnlyEligible(w: World, issues: seq<Issue>, now: int)
    ensures var t := DispatchAll(w, issues, now);
      && t.config == w.config && Extends(w.running, t.running)
      && (forall id :: id in t.running && id !in w.running ==> StartedRow(w, issues, id, t.running[id], now))
    decreases |issues|
  {
    hide Eligible, StateHasRoom, StartedRow, Dispatch, Slots;
    if issues != [] && Slots(w) > 0 {
      var h, rest, t := issues[0], issues[1..], DispatchAll(w, issues, now);
      if ShouldDispatch(w, h, None) {
        var d := Dispatch(w, h, None, now);
        DispatchRunning(w, h, None, now);
        EligibleIsNew(w, h);
        LoopStartsOnlyEligible(d, rest, now);
        assert StartedRow(w, issues, h.id, d.running[h.id], now) by { HeadRow(w, issues, now); }
        forall id | id in t.running && id !in w.running ensures StartedRow(w, issues, id, t.running[id], now) {
          if id in d.running {
            assert t.running[id] == d.running[id];
          } else {
            RowOfLaterStep(w, h, issues, id, t.running[id], now);
          }
        }
      } else {
        LoopStartsOnlyEligible(w, rest, now);
        forall id | id in t.running && id !in w.running ensures StartedRow(w, issues, id, t.running[id], now) {
          RowOfTail(w, issues, id, t.running[id], now);
        }
      }
    }
  }

  lemma HeadRow(w: World, issues: seq<Issue>, now: int)
    requires issues != [] && Eligible(w, issues[0], None)
    ensures StartedRow(w, issues, issues[0].id, NewRunning(issues[0], None, now, |w.sessions|), now)
  {
  }

  lemma {:induction false} LoopLimits(w: World, issues: seq<Issue>, now: int, state: string)
    ensures var t := DispatchAll(w, issues, now);
      && StateCount(w.running, state) <= StateCount(t.running, state)
      && StateCount(t.running, state) <= Max(StateCount(w.running, state), w.config.Limit(state))
      && |w.running| <= |t.running| <= Max(|w.running|, w.config.maxAgents)
    decreases |issues|
  {
    hide Dispatch, StateCount, Eligible, Normalize, Config.Limit;
    if issues != [] && Slots(w) > 0 {
      if ShouldDispatch(w, issues[0], None) {
        EligibleIsNew(w, issues[0]);
        DispatchRunning(w, issues[0], None, now);
        CountInsert(w.running, issues[0].id, NewRunning(issues[0], None, now, |w.sessions|), state);
        LoopLimits(Dispatch(w, issues[0], None, now), issues[1..], now, state);
      } else {
        LoopLimits(w, issues[1..], now, state);
      }
    }
  }

  /** A candidate turned down stays turned down while other issues are dispatched. */
  lemma RejectionLasts(w: World, t: World, c: Issue)
    requires t.config == w.config && Extends(w.running, t.running) && w.claimed <= t.claimed
    requires StateCount(w.running, Normalize(c.state)) <= StateCount(t.running, Normalize(c.state))
    requires |w.running| <= |t.running|
    requires !ShouldDispatch(w, c, None)
    ensures !ShouldDispatch(t, c, None)
  {
  }

  lemma {:induction false} LoopClaims(w: World, issues: seq<Issue>, now: int)
    ensures w.claimed <= DispatchAll(w, issues, now).claimed
    decreases |issues|
  {
    if issues != [] && Slots(w) > 0 {
      if ShouldDispatch(w, issues[0], None) {
        hide Dispatch;
        DispatchRunning(w, issues[0], None, now);
        LoopClaims(Dispatch(w, issues[0], None, now), issues[1..], now);
      } else {
        LoopClaims(w, issues[1..], now);
      }
    }
  }

  /** When the loop ends no candidate could be dispatched any more. */
  lemma {:induction false} LoopIsMaximal(w: World, issues: seq<Issue>, now: int, c: Issue)
    requires c in issues
    ensures !ShouldDispatch(DispatchAll(w, issues, now), c, None)
    decreases |issues|
  {
    hide Blocked, StateCount, Normalize;
    if Slots(w) > 0 {
      var t := DispatchAll(w, issues, now);
      if ShouldDispatch(w, issues[0], None) {
        var d := Dispatch(w, issues[0], None, now);
        DispatchRunning(w, issues[0], None, now);
        LoopStartsOnlyEligible(d, issues[1..], now);
        if c in issues[1..] { LoopIsMaximal(d, issues[1..], now, c); }
      } else {
        if c in issues[1..] {
          LoopIsMaximal(w, issues[1..], now, c);
        } else {
          LoopStartsOnlyEligible(w, issues[1..], now);
          LoopLimits(w, issues[1..], now, Normalize(c.state));
          LoopClaims(w, issues[1..], now);
          RejectionLasts(w, t, c);
        }
      }
    }
  }

  /** `c` was started by the loop that led from `w` to `t`. */
  predicate Started(w: World, t: World, c: Issue) {
    c.id in t.running && c.id !in w.running && t.running[c.id].issue == c
  }

  lemma HeadRuns(w: World, issues: seq<Issue>, now: int)
    requires issues != []
    ensures var h, t := issues[0], DispatchAll(w, issues, now);
      ShouldDispatch(w, h, None) ==> h.id in t.running && t.running[h.id].issue == h
  {
    hide Eligible, StateHasRoom, Dispatch;
    var h := issues[0];
    if ShouldDispatch(w, h, None) {
      var w1 := Dispatch(w, h, None, now);
      DispatchRunning(w, h, None, now);
      LoopStartsOnlyEligible(w1, issues[1..], now);
      assert h.id in w1.running;
    }
  }

  /** The loop takes its candidates one by one; leaving early once the slots are used up changes nothing. */
  lemma {:induction false} LoopSplits(w: World, a: seq<Issue>, b: seq<Issue>, now: int)
    ensures DispatchAll(w, a + b, now) == DispatchAll(DispatchAll(w, a, now), b, now)
    decreases |a|
  {
    hide ShouldDispatch, Slots, Dispatch;
    if a == [] {
      assert a + b == b;
    } else if Slots(w) > 0 {
      assert (a + b)[0] == a[0] && (a + b)[1..] == a[1..] + b;
      LoopSplits(if ShouldDispatch(w, a[0], None) then Dispatch(w, a[0], None, now) else w, a[1..], b, now);
    }
  }

  /** When the turn of entry `i` comes, it is started exactly if `should_dispatch` holds at that moment. */
  lemma LoopTakesTurns(w: World, issues: seq<Issue>, now: int, i: nat)
    requires i < |issues|
    ensures var before := DispatchAll(w, issues[..i], now);
      DispatchAll(w, issues[..i + 1], now) ==
      if ShouldDispatch(before, issues[i], None) then Dispatch(before, issues[i], None, now) else before
  {
    hide ShouldDispatch, Dispatch;
    var before := DispatchAll(w, issues[..i], now);
    assert issues[..i + 1] == issues[..i] + [issues[i]];
    LoopSplits(w, issues[..i], [issues[i]], now);
    assert [issues[i]][1..] == [];
    if ShouldDispatch(before, issues[i], None) { DispatchableHasSlot(before, issues[i]); }
  }

  lemma DispatchableHasSlot(w: World, c: Issue)
    requires ShouldDispatch(w, c, None)
    ensures Slots(w) > 0 && Eligible(w, c, None)
  {
  }

  /** The loop makes no one ineligible but those it starts. */
  lemma {:induction false} LoopSparesOthers(w: World, issues: seq<Issue>, now: int, c: Issue)
    requires Eligible(w, c, None) && c.id !in DispatchAll(w, issues, now).running
    ensures Eligible(DispatchAll(w, issues, now), c, None)
    decreases |issues|
  {
    hide Eligible, StateHasRoom, Dispatch;
    if issues != [] && Slots(w) > 0 {
      var h := issues[0];
      if ShouldDispatch(w, h, None) {
        HeadRuns(w, issues, now);
        OthersStayEligible(w, h, now, c);
        LoopSparesOthers(Dispatch(w, h, None, now), issues[1..], now, c);
      } else {
        LoopSparesOthers(w, issues[1..], now, c);
      }
    }
  }

  /** By position: if a later entry of the list was started and an earlier one is not running, the earlier one was
      ineligible from the start, or its state had no room when its turn came. Only an entry that also stands ahead
      of the earlier one is excepted. */
  lemma LoopKeepsOrder(w: World, issues: seq<Issue>, now: int, i: nat, j: nat)
    requires i < j < |issues| && issues[j] !in issues[..i]
    requires Started(w, DispatchAll(w, issues, now), issues[j]) && issues[i].id !in DispatchAll(w, issues, now).running
    ensures !Eligible(w, issues[i], None) || !StateHasRoom(DispatchAll(w, issues[..i], now), issues[i].state)
    ensures issues[j].id !in DispatchAll(w, issues[..i], now).running
  {
    hide Eligible, StateHasRoom, Dispatch, DispatchAll;
    var before, rest, t := DispatchAll(w, issues[..i], now), issues[i..], DispatchAll(w, issues, now);
    assert issues == issues[..i] + rest && rest[0] == issues[i];
    LoopSplits(w, issues[..i], rest, now);
    LoopStartsOnlyEligible(w, issues[..i], now);
    LoopStartsOnlyEligible(before, rest, now);
    HeadRuns(before, rest, now);
    if Slots(before) == 0 { FullLoop(before, rest, now); }
    if Eligible(w, issues[i], None) { LoopSparesOthers(w, issues[..i], now, issues[i]); }
  }

  lemma FullLoop(w: World, issues: seq<Issue>, now: int)
    requires Slots(w) == 0
    ensures DispatchAll(w, issues, now) == w
  {
  }

  /** In particular no entry is started before an eligible one of its own state that stands ahead of it. */
  lemma NoInversionInState(w: World, issues: seq<Issue>, now: int, i: nat, j: nat)
    requires i < j < |issues| && issues[j] !in issues[..i]
    requires Started(w, DispatchAll(w, issues, now), issues[j]) && issues[i].id !in DispatchAll(w, issues, now).running
    requires Normalize(issues[i].state) == Normalize(issues[j].state)
    ensures !Eligible(w, issues[i], None)
  {
    hide Eligible, Dispatch, DispatchAll, StateCount, Normalize, Config.Limit;
    var before, rest, t := DispatchAll(w, issues[..i], now), issues[i..], DispatchAll(w, issues, now);
    LoopKeepsOrder(w, issues, now, i, j);
    assert issues == issues[..i] + rest;
    LoopSplits(w, issues[..i], rest, now);
    LoopStartsOnlyEligible(w, issues[..i], now);
    LoopStartsOnlyEligible(before, rest, now);
    LoopLimits(before, rest, now, Normalize(issues[i].state));
    NewRowCounts(before.running, t.running, issues[j]);
  }

  lemma NewRowCounts(a: map<Id, Running>, b: map<Id, Running>, c: Issue)
    requires Extends(a, b) && c.id !in a && c.id in b && b[c.id].issue == c
    ensures StateCount(a, Normalize(c.state)) < StateCount(b, Normalize(c.state))
  {
    hide Normalize;
    var state := Normalize(c.state);
    var more := InState(a, state) + {c.id};
    assert more <= InState(b, state);
    assert InState(b, state) == more + (InState(b, state) - more);
  }

  /** `c` and `d` are different entries of `s`, and `c` turns up first. */
  predicate Precedes(s: seq<Issue>, c: Issue, d: Issue) {
    s != [] && s[0] != d && (if s[0] == c then d in s else Precedes(s[1..], c, d))
  }

  lemma {:induction false} PrecedesAt(s: seq<Issue>, c: Issue, d: Issue) returns (i: nat, j: nat)
    requires Precedes(s, c, d)
    ensures i < j < |s| && s[i] == c && s[j] == d && d !in s[..i] && c !in s[..i]
  {
    if s[0] == c {
      i := 0;
      j :| 0 <= j < |s| && s[j] == d;
    } else {
      var i', j' := PrecedesAt(s[1..], c, d);
      i, j := i' + 1, j' + 1;
      assert s[..i] == [s[0]] + s[1..][..i'];
    }
  }

  /** `c` has the smaller key, or the same key and the earlier place in the tracker's answer. */
  predicate Ahead(candidates: seq<Issue>, c: Issue, d: Issue) {
    Before(c, d) || (Leq(c, d) && Leq(d, c) && Precedes(candidates, c, d))
  }

  /** Among entries with one key, the order in a list is the order among its peers. */
  lemma {:induction false} PeersPrecede(s: seq<Issue>, x: Issue, c: Issue, d: Issue)
    requires Leq(c, x) && Leq(x, c) && Leq(d, x) && Leq(x, d)
    ensures d in s <==> d in Peers(s, x)
    ensures Precedes(s, c, d) <==> Precedes(Peers(s, x), c, d)
  {
    hide Leq;
    if s != [] {
      PeersPrecede(s[1..], x, c, d);
      assert s == [s[0]] + s[1..];
      if Leq(s[0], x) && Leq(x, s[0]) {
        assert Peers(s, x)[1..] == Peers(s[1..], x);
      } else {
        assert Peers(s, x) == Peers(s[1..], x);
      }
    }
  }

  /** The sorted list puts an issue first exactly when it is ahead: by key, or for equal keys by the tracker's
      order. */
  lemma SortPutsAheadFirst(candidates: seq<Issue>, c: Issue, d: Issue)
    requires c in candidates && d in candidates && c != d
    ensures Precedes(SortForDispatch(candidates), c, d) <==> Ahead(candidates, c, d)
  {
    hide Leq, Precedes;
    var s := SortForDispatch(candidates);
    SortIsStable(candidates);
    assert c in multiset(s) && d in multiset(s);
    LeqTotal(c, d);
    LeqTotal(c, c);
    if Leq(c, d) && Leq(d, c) {
      PeersPrecede(candidates, c, c, d);
      PeersPrecede(s, c, c, d);
    } else {
      if Before(c, d) { SmallerKeyPrecedes(s, c, d); } else { SmallerKeyPrecedes(s, d, c); }
      PrecedesOneWay(s, c, d);
    }
  }

  lemma {:induction false} SmallerKeyPrecedes(s: seq<Issue>, c: Issue, d: Issue)
    requires Sorted(s) && c in s && d in s && Before(c, d)
    ensures Precedes(s, c, d)
  {
    hide Leq;
    LeqTotal(c, c);
    var k :| 0 <= k < |s| && s[k] == c;
    assert s[0] != d by { assert s[0] == c || Leq(s[0], s[k]); }
    assert s == [s[0]] + s[1..];
    if s[0] != c { SmallerKeyPrecedes(s[1..], c, d); }
  }

  lemma {:induction false} PrecedesOneWay(s: seq<Issue>, c: Issue, d: Issue)
    ensures !(Precedes(s, c, d) && Precedes(s, d, c))
  {
    if s != [] && s[0] != c && s[0] != d { PrecedesOneWay(s[1..], c, d); }
  }

  /** `d` was started, `c` is not running. */
  predicate PassedOver(w: World, t: World, c: Issue, d: Issue) {
    Started(w, t, d) && c.id !in t.running
  }

  /** The dispatch half of a tick, as `run_tick` runs it. */
  function DispatchTick(w: World, candidates: seq<Issue>, now: int): World {
    DispatchAll(w, SortForDispatch(candidates), now)
  }

  /** When the turn of `c` came in the sorted list, its state had no room. */
  ghost predicate FullAtTurn(w: World, candidates: seq<Issue>, c: Issue, now: int) {
    var s := SortForDispatch(candidates);
    exists i :: 0 <= i < |s| && s[i] == c && c !in s[..i] && !StateHasRoom(DispatchAll(w, s[..i], now), c.state)
  }

  /** What may keep `c` from running when `d`, which it is ahead of, was started: it was ineligible from the start
      or, unless both are in one state, its state was full at its turn. */
  ghost predicate Excused(w: World, candidates: seq<Issue>, c: Issue, d: Issue, now: int) {
    || !Eligible(w, c, None)
    || (Normalize(c.state) != Normalize(d.state) && FullAtTurn(w, candidates, c, now))
  }

  /** A tick leaves nothing dispatchable behind, starts only eligible candidates within every limit, and passes
      over a candidate that is ahead of one it starts only with an excuse. */
  lemma TickIsGreedy(w: World, candidates: seq<Issue>, now: int)
    ensures var t := DispatchTick(w, candidates, now);
      && (forall c :: c in candidates ==> !ShouldDispatch(t, c, None))
      && (forall c, d :: c in candidates && d in candidates && Ahead(candidates, c, d) && PassedOver(w, t, c, d) ==>
            Excused(w, candidates, c, d, now))
      && (forall id :: id in t.running && id !in w.running ==> StartedRow(w, candidates, id, t.running[id], now))
      && (forall state :: StateCount(t.running, state) <= Max(StateCount(w.running, state), w.config.Limit(state)))
      && |t.running| <= Max(|w.running|, w.config.maxAgents)
  {
    hide ShouldDispatch, Eligible, DispatchAll, Excused, Ahead, StateCount, Config.Limit, StartedRow, PassedOver;
    var s, t := SortForDispatch(candidates), DispatchTick(w, candidates, now);
    SortIsStable(candidates);
    assert forall c :: c in candidates <==> c in multiset(candidates);
    assert forall c :: c in s <==> c in multiset(s);
    forall c | c in candidates ensures !ShouldDispatch(t, c, None) {
      LoopIsMaximal(w, s, now, c);
    }
    forall c, d | c in candidates && d in candidates && Ahead(candidates, c, d) && PassedOver(w, t, c, d)
      ensures Excused(w, candidates, c, d, now)
    {
      TickKeepsOrder(w, candidates, now, c, d);
    }
    LoopStartsOnlyEligible(w, s, now);
    forall id | id in t.running && id !in w.running ensures StartedRow(w, candidates, id, t.running[id], now) {
      RowOfArrangement(w, s, candidates, id, t.running[id], now);
    }
    forall state ensures StateCount(t.running, state) <= Max(StateCount(w.running, state), w.config.Limit(state)) {
      LoopLimits(w, s, now, state);
    }
    LoopLimits(w, s, now, "");
  }

  lemma TickKeepsOrder(w: World, candidates: seq<Issue>, now: int, c: Issue, d: Issue)
    requires c in candidates && d in candidates && Ahead(candidates, c, d)
    requires PassedOver(w, DispatchTick(w, candidates, now), c, d)
    ensures Excused(w, candidates, c, d, now)
  {
    hide Ahead, DispatchAll, Eligible, StateHasRoom, Normalize;
    var s := SortForDispatch(candidates);
    SortPutsAheadFirst(candidates, c, d);
    var i, j := PrecedesAt(s, c, d);
    LoopKeepsOrder(w, s, now, i, j);
    if Normalize(c.state) == Normalize(d.state) { NoInversionInState(w, s, now, i, j); }
  }

  lemma RowOfArrangement(w: World, s: seq<Issue>, candidates: seq<Issue>, id: Id, r: Running, now: int)
    requires multiset(s) == multiset(candidates) && StartedRow(w, s, id, r, now)
    ensures StartedRow(w, candidates, id, r, now)
  {
    assert r.issue in multiset(s);
  }
}
