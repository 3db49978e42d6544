# Symphony: a verified model of the orchestrator, its workers and their sessions

Symphony polls an issue tracker, starts one coding-agent worker per eligible issue, watches the workers, retries them with
backoff and cleans up after them. One event loop owns all scheduling state; timers and workers run beside it and reach it only
through channels and one cancellation token per worker. This project models that machinery and proves what it keeps over every
run, whatever the tracker answers, whenever a timer fires and however the workers interleave.

## How it is laid out

| file | what it holds |
|---|---|
| `Text`, `Types` | strings (trimming, splitting, comparing) and the shared records |
| `Backoff` | the retry delay in saturating 64-bit arithmetic |
| `Machine` | each handler of the event loop as a function on one `World` |
| `Invariant`, `Steps` | the invariant, the moves (loop turns and environment moves), and that each move keeps it |
| `Dispatching`, `Admission` | the dispatch order and the greedy loop; who is let in, in the configuration's own words |
| `Runs`, `Histories` | what follows for every state of every run |
| `Rows` | what a running row says and what a tick makes of it, read off the updates and the tracker's answers |
| `Faithfulness` | the one thing the tracker must guarantee, and what is lost without it |
| `Orchestrator` | class `Service`: the handlers as loops and assignments over mutable fields, each proved equal to its function of `Machine` or `Steps` |
| `Json`, `Session` | the recursive JSON searches and class `CodexSession`, the request/turn protocol over an unbounded inbox |
| `Protocol` | what each message means, by its literal method name |
| `Worker`, `Turns` | the multi-turn loop of one worker, the contract the orchestrator relies on, and how it ends read off its inputs |
| `Paths`, `Workspace`, `Isolation` | path normalization, per-issue directories on a modelled disk, and their safety over runs |
| `FrontMatter`, `Settings` | splitting a workflow file and reading its numbers, lists and limits |

A `World` holds the fields of `OrchestratorState` and what surrounds them: the workspaces asked to be removed, sleeping timers, both channels in order, one record
per spawned worker with what it sent and what was absorbed, and the cancelled tokens. Three parts are history and influence
nothing: the worker records, `marks` (what happened to each issue's attempts) and `faults` (set whenever a handler takes a path
the design rules out: aborting a live timer, finding no entry for a wake-up, replacing a running worker, dropping or misdirecting
an update, a `Finished` for an issue that is not running or from another worker, `Canceled` without a reason). `NoFaultEver`
says that set stays empty.

Assumptions: a worker's refresh is answered only with the issue it asked for (`Steps.WorkerContract`); workers do not panic;
a run ends at the shutdown signal.

## What the proofs turned up

- **A missing issue id costs a slot for good.** The tracker client reads a missing id as "" (`src/tracker.rs:324-328`). If that
  happens in a worker's refresh, its `Finished` names an id that is not running and is dropped; its own entry then stays in
  `running` forever and holds its slot (`Faithfulness.MissingIdLeaks`, `LeakIsForever`). The invariant survives a finish exactly
  when the outcome names the worker's own issue (`FinishKeepsIffFaithful`). If it names another running issue, that issue loses its
  row while its worker lives, and once it is started again two live workers share it (`ForeignFinishOrphans`, `RestartDoubles`).
- **Sanitized keys are not always directories of their own.** "" and "." mean the workspace root itself and pass the
  containment check, so cleaning up such an issue removes every workspace; ".." is refused unless the root is "/"
  (`Workspace.PathOfKey`, `AcceptedIff`, `CleanupTakesIff`). Identifiers that differ only in replaced characters share a directory
  (`KeysCollideIff`).
- **Windows line ends are not always neutral.** Rewriting LF as CR LF keeps the parse exactly when no CR LF was there in a part
  that matters; a file with mixed line ends parses differently (`FrontMatter.CrlfKeepsParseIff`, `CrlfExample`).
- **`max_turns` is truncated to 32 bits**: 4294967296 reads as 0 (`Settings.TurnLimitWraps`).
- **A completion that arrives before the answer to `turn/start` is lost** (`Session.TurnSucceedsIff`,
  `EarlyCompletionExample`).
- **An empty running total hides the counts beside it.** Counts that stand in a report are missed exactly when running totals lead
  the search past all of them (`Json.CountsLostIff`, `LostExample`).
- **Some failures are silent.** A turn can end with an error and no event that shows as one: on a timeout, a cancelled token, a
  closed stream, an error in place of an awaited result, or a message with an id whose method is not a string
  (`Session.FailuresAreReportedIff`, `TurnIsReportedIff`, `ErrorResponseIsSilent`, `UnanswerableIsSilent`).

## Model

| member | source | states |
|---|---|---|
| Text.NormalizeIdempotent | src/types.rs:281-283 | Normalizing a state name twice is normalizing it once, so normalized names can be keys. |
| Text.SpaceMeans | src/types.rs:282 | White space is the 25 characters of Unicode's White_Space property. |
| Text.TrimMeans | src/types.rs:282 | Trimming takes white space off both ends and nothing else. |
| Text.TrimOfPadded | src/types.rs:282 | Whatever white space stands around a trimmed text, trimming gives the text. |
| Text.NormalizeMeans | src/types.rs:281-283 | Two state names are taken for one if and only if they agree but for letter case and the white space around them. |
| Backoff.DelayIsExact | src/orchestrator.rs:572-575 | The doubly saturating computation is the exact integer min(10000 * 2^max(attempt-1, 0), cap) for every attempt and every 64-bit cap. |
| Backoff.DelayMonotone | src/orchestrator.rs:572-575 | More attempts never mean a shorter delay, and no delay exceeds the cap. |
| Backoff.CastKeepsDelayIff | src/orchestrator.rs:549 | The signed cast for `due_at` keeps every delay if and only if the cap fits the signed range, which `Settings.BuiltConfigIsSafe` shows of every configuration. |
| Dispatching.SortIsStable | src/orchestrator.rs:683-701 | The dispatch order sorts by priority, age and identifier, keeps all candidates, and leaves equals in their order. |
| Dispatching.StableSortUnique | src/orchestrator.rs:683-701 | Only one arrangement is sorted and stable, so the order does not depend on the sorting algorithm. |
| Dispatching.SortPutsAheadFirst | src/orchestrator.rs:683-701 | Of two candidates the sorted list puts one first if and only if its key is smaller, or the keys agree and the tracker listed it first. |
| Dispatching.CountInsert | src/orchestrator.rs:617-626 | A new running entry raises the count of its own normalized state by one and no other. |
| Dispatching.LoopStartsOnlyEligible | src/orchestrator.rs:178-186 | The dispatch loop keeps every running entry, and each entry it adds is a fresh one for a candidate that was eligible at the start. |
| Dispatching.LoopLimits | src/orchestrator.rs:178-186 | Across the loop each state's count ends at most at the larger of its start and its limit, and never shrinks. |
| Dispatching.RejectionLasts | src/orchestrator.rs:628-681 | A candidate that is turned down stays turned down while others are dispatched. |
| Dispatching.LoopIsMaximal | src/orchestrator.rs:178-186 | When the loop is over, no candidate could be dispatched any more, duplicates included. |
| Dispatching.LoopTakesTurns | src/orchestrator.rs:178-186 | At the turn of each entry of the sorted list it is started exactly if `should_dispatch` holds of the state as it is then; stopping early once the slots are used up changes nothing. |
| Dispatching.LoopKeepsOrder | src/orchestrator.rs:178-186 | By position in the sorted list: if a later entry was started and an earlier one is not running, the earlier one was ineligible from the start, or its state had no room when its turn came, before the later one was started. |
| Dispatching.NoInversionInState | src/orchestrator.rs:178-186 | If both are in one state, the earlier one was ineligible from the start: a later entry never takes a slot that an eligible earlier one of its state could have had. |
| Dispatching.TickIsGreedy | src/orchestrator.rs:178-186 | For the candidates as the tracker lists them: none could be dispatched any more; only eligible ones were started, within the global limit and every state's; and one that is ahead of a started one (by key, or by place for equal keys) is not running only if it was ineligible from the start or, both being in different states, its state was full at its turn. |
| Admission.ShouldDispatchMeans | src/orchestrator.rs:628-681 | An issue may be dispatched if and only if it is named, in a configured active state and in no terminal one, not blocked while to do by anything not known to be terminal, not running, not claimed but by its own retry, and both the global number and the number its state is given leave room. |
| Admission.OrderMeans | src/orchestrator.rs:683-701 | One candidate comes before another if and only if its priority number is smaller, none being last; for equal ones if it is older; for equal ones if its identifier comes first. |
| Admission.TickAdmits | src/orchestrator.rs:158-187 | Every row a tick adds is a fresh one, with its worker, for a listed candidate that is fit and was not claimed, within the numbers configured globally and for its state. |
| Admission.TickServes | src/orchestrator.rs:158-187 | A listed candidate that is fit and unclaimed runs after a tick, or the global slots or those of its state ran out. |
| Admission.WakeupAdmitsIff | src/orchestrator.rs:431-476 | A wake-up starts its issue, and nothing else, if and only if the tracker still lists it, it is fit and there is room; the row is fresh but for the attempt that was waiting. |
| Invariant.InitHolds | src/orchestrator.rs:96-109 | The service starts in a state that meets the invariant. |
| Invariant.ScheduleKeeps | src/orchestrator.rs:536-570 | Scheduling a retry for an id that a handler took out restores the invariant with exactly one new sleeping timer. |
| Invariant.ReleaseKeeps | src/orchestrator.rs:529-534 | Releasing such an id restores the invariant and finds no timer to abort. |
| Invariant.DispatchKeeps | src/orchestrator.rs:253-293 | Dispatching such an id restores the invariant and finds neither a timer nor a worker in its way. |
| Steps.HeadIsCurrent | src/orchestrator.rs:295-305 | The event at the head of the queue is from the worker that its issue's running entry holds. |
| Steps.WakeIsCurrent | src/orchestrator.rs:431-434 | The wake-up at the head of the queue is for an entry that is there, whose timer is gone and which has no second message. |
| Steps.CancelIsExplained | src/orchestrator.rs:407-416 | A `Canceled` outcome always meets a stop reason, so the arm without one is never taken. |
| Steps.SettleKeeps | src/orchestrator.rs:364-428 | Every way of settling a finished worker restores the invariant and leaves queue and worker records alone. |
| Steps.StepKeeps | src/orchestrator.rs:118-154 | Whatever happens next, a turn of the loop or a move around it, the invariant holds again after it. |
| Runs.RunKeeps | src/orchestrator.rs:118-154 | So it holds after every run. |
| Runs.NoFaultEver | src/orchestrator.rs:254-256 | In no run is a timer aborted, a wake-up stale, a worker replaced, an update dropped or misdirected, a finish stray, or a cancellation unexplained. |
| Runs.ClaimPartition | src/orchestrator.rs:756-759 | Claims are the disjoint union of running and retrying ids, and the published counts add up to them. |
| Runs.OneWakeupPerRetry | src/orchestrator.rs:549-569 | Sleeping timers plus queued messages for an id are exactly one if it is retrying and none otherwise. |
| Runs.SessionIsolation | src/agent.rs:102-113 | An issue runs if and only if it has an unfinished worker, it has at most one, every queued event of the issue is from it, and `Finished` is the last. |
| Runs.UpdatesReachTheirRow | src/orchestrator.rs:302-347 | What a worker sent is absorbed in order under its own row, completely once it is done, and the row shows the last report and the last twenty events of it. |
| Rows.RowsTell | src/orchestrator.rs:302-347 | After any run a row gives, item by item, the time, event and session of its worker's last absorbed update, the last message, turn count and tokens reported, the text of the last failure event, and the last twenty events. |
| Runs.RisingCredit | src/orchestrator.rs:577-598 | For reports that never go back, the credited increments add up to the last report. |
| Runs.CreditCoversPeak | src/orchestrator.rs:577-598 | For arbitrary reports the credit of a session is at least the highest count it ever reported, field by field. |
| Runs.TotalsCoverPeaks | src/orchestrator.rs:577-598 | After any run, with any reports, the published totals are at least the sum of the sessions' peaks. |
| Runs.TokenConservation | src/orchestrator.rs:577-598 | If no session's counters go back, the totals are exactly the final reports of finished sessions plus the current tokens of running ones. |
| Runs.TotalsNeverDecrease | src/orchestrator.rs:595-597 | No step lowers the totals, whatever is reported. |
| Runs.CancellationAgreement | src/orchestrator.rs:522-527 | After any run a token is cancelled if and only if its row names a reason, and every queued `Canceled` outcome is from such a row's worker. |
| Runs.StallComesFirst | src/orchestrator.rs:189-251 | A reconcile that finds an issue both stalled and terminal stops it as stalled. |
| Rows.TickJudges | src/orchestrator.rs:189-251 | What a tick makes of a row that had no reason: stalled if and only if its worker was not heard of for longer than a positive timeout; else terminal if and only if the tracker's last word on it is a terminal state; else inactive if and only if that is neither active nor terminal. It takes the issue over if and only if that is active and not terminal, keeps any reason it had, and changes nothing else. |
| Rows.RefreshWaitsForTick | src/orchestrator.rs:128-147 | A refresh is queued if and only if one was asked for after the last tick. |
| Runs.FinishDestination | src/orchestrator.rs:349-428 | A finish always finds its entry; terminal and inactive issues end in none of the maps, stalled ones and all others in the retry map; and the workspace is removed if and only if the issue was found terminal. |
| Runs.FinishSchedules | src/orchestrator.rs:358-428 | A finish leaves a retry unless the issue was terminal or inactive: the first attempt in one second after a clean end, otherwise one attempt more after exactly the capped power of two, with the matching error. |
| Runs.RequeueSchedules | src/orchestrator.rs:431-476 | A wake-up always finds its entry. The issue runs, with the same attempt, if and only if it is a candidate that may be dispatched; it is released if and only if it is no longer a candidate; otherwise it waits one attempt more for exactly the capped power of two, with the matching error and identifier. |
| Runs.StepConcurrency | src/orchestrator.rs:608-615 | A step either does not let `running` grow or ends within the limit in force; reloads change the limit and nothing else. |
| Runs.WakeupConcurrency | src/orchestrator.rs:463-475 | A retry wake-up respects the global limit and the limit of every state. |
| Runs.RunConcurrency | src/orchestrator.rs:608-615 | At no time do more issues run than the largest limit seen so far. |
| Histories.FirstReasonSticks | src/orchestrator.rs:522-527 | From the first stop reason until its worker is done, over any run, the row keeps that reason and the token stays cancelled. |
| Histories.AttemptAccounting | src/orchestrator.rs:358-362 | After any run every attempt is its base (0 fresh, 1 after a clean end) plus the setbacks since, at least one when present, and absent exactly on a first claim. |
| Histories.NoAttemptOverflow | src/orchestrator.rs:358-362 | In a run of fewer than 2^32 steps no attempt counter leaves 32 bits. |
| Histories.StateLimits | src/orchestrator.rs:463-475 | Only reconcile's refresh of issue states can take a state over its limit. |
| Faithfulness.FinishKeepsIffFaithful | src/orchestrator.rs:349-355 | A finish keeps rows and live workers in correspondence, and with it the invariant, if and only if its outcome names the issue the worker was started for. |
| Faithfulness.StrayFinishLeaks | src/orchestrator.rs:353-355 | An outcome for an id that is not running leaves its worker's own entry behind with nobody left to report for it. |
| Faithfulness.ForeignFinishOrphans | src/orchestrator.rs:353-355 | An outcome that names another running issue takes that issue's row away while its worker lives on, and leaks the sender's own. |
| Faithfulness.RestartDoubles | src/orchestrator.rs:463-475 | A wake-up that starts an issue whose old worker still lives leaves two live workers for it. |
| Faithfulness.StepKeepsLeak | src/orchestrator.rs:158-476 | No later step of any kind gives such a slot back. |
| Faithfulness.LeakIsForever | src/orchestrator.rs:158-476 | Nor does any later run. |
| Faithfulness.MissingIdLeaks | src/agent.rs:267-276 | An answer with an empty id is a concrete way to lose a slot. |
| Orchestrator.Service.ReconcileStalledRuns | src/orchestrator.rs:228-251 | The two loops, in any map order, stop exactly the stalled rows. |
| Orchestrator.Service.ReconcileRunningIssues | src/orchestrator.rs:189-226 | The loop, in any map order, treats every row as the last answer for its id says. |
| Orchestrator.Service.Tick | src/orchestrator.rs:158-187 | The loop with its early exit is reconcile followed by the greedy dispatch. |
| Orchestrator.Service.Run | src/orchestrator.rs:118-154 | The loop over any schedule ends where the model's run ends, with the invariant. |
| Orchestrator.Service.BuildIssueDebugMap | src/orchestrator.rs:769-857 | One row per identifier, running before retrying; a running row never carries a retry. |
| Json.TokensAreFirst | src/agent.rs:1021-1069 | The recursive search with early returns yields the first offer in parents-first order, following a running-total child exclusively. |
| Json.CountsLostIff | src/agent.rs:1021-1069 | Counts that stand in a report are not found if and only if a running total leads the search past every one of them; without a running total none is missed. |
| Json.LostExample | src/agent.rs:1022-1027 | An empty running total beside a named count is such a report. |
| Json.MissingTotal | src/agent.rs:1038-1045 | A missing total is input plus output, exactly when the sum fits 64 bits. |
| Json.CountsMean | src/agent.rs:1021-1059 | The counts an object names, under either spelling, come out as they are, a named total included; a running total is followed instead. |
| Json.NestedOrFlat | src/agent.rs:967-984 | Asked for a nested name or a flat one, the search takes the string under the nested name if there is one, else the flat one. |
| Json.StringIsFirst | src/agent.rs:1001-1019 | The string search yields the first string under one of the keys, parents first. |
| Json.EarliestKeyWins | src/agent.rs:1003-1008 | Of an object's own strings the one under the earliest of the keys is taken. |
| Session.FailuresAreReportedIff | src/agent.rs:484-556 | What arrives fails the pending request or the turn without an event that shows as an error if and only if it is a timeout, a cancelled token while a turn runs, a stream closed by a child that is gone, a response to the pending id without a result, or else a message with an id and a method that is no string. Such an event is never sent without a failure. |
| Session.TurnIsReportedIff | src/agent.rs:442-505 | Over a whole turn an event that shows as an error is sent if and only if the last thing read, in the phase in which the turn ended, failed in none of these ways. |
| Session.ErrorResponseIsSilent | src/agent.rs:533-544 | An error in place of the answer to `turn/start` ends the turn and nothing is reported. |
| Session.UnanswerableIsSilent | src/agent.rs:695-698 | So does a message with an id and a null method. |
| Session.RequestIsFirstVerdict | src/agent.rs:514-561 | The result of a request is decided by the first decisive message; without one the port is closed. |
| Session.TurnIsFirstVerdict | src/agent.rs:484-505 | The result of a turn is decided by the first decisive message after its start; without one the port is closed. |
| Session.RequestMatchesId | src/agent.rs:533-544 | A request succeeds only with the result of the response that bears its own id. |
| Session.TurnSucceedsIff | src/agent.rs:442-505 | A turn succeeds if and only if its start is answered and a completion follows the answer with nothing decisive before either. |
| Session.EarlyCompletionIsLost | src/agent.rs:546 | A completion followed by the answer to `turn/start`, and nothing more, is a failed turn; the other way round it is a good one. |
| Session.EarlyCompletionExample | src/agent.rs:546 | Two such messages. |
| Session.AnswersAreAnswerable | src/agent.rs:690-767 | While one request is pending, or none, the ids answered are the ids of the server requests read, in order, once each, if and only if all have string methods and ids other than the pending one. |
| Session.TurnAnswersItsRequestsIff | src/agent.rs:442-505 | The same over everything a whole turn reads, before and after its start is answered, which with what it leaves unread is the whole inbox. |
| Protocol.TurnTranscript | src/agent.rs:690-767 | A turn writes its own request and then exactly one answer per server request it reads that can be answered, in order: approvals granted, tool calls with their result, questions to the user refused, anything else unsupported under its own name. Its updates bear no turn count until its start is answered, and the count from then on. |
| Protocol.StartTranscript | src/agent.rs:390-437 | The handshake writes `initialize`, the notice `initialized` once that is answered, and `thread/start`, with such answers in between. |
| Protocol.ThreadMeans | src/agent.rs:392-437 | The handshake succeeds if and only if both its requests do, and then has the thread id the second response names, nested or flat, if it names one. |
| Protocol.NotificationMeans | src/agent.rs:616-688 | What each notification sends to the orchestrator and decides: completions, failures and usage reports carry the counts found in their parameters; a completion ends a turn well, a failure or cancellation ends either a turn or a request. |
| Protocol.ServerRequestMeans | src/agent.rs:690-767 | Only a question to the user ends what waits; approvals, questions and calls of unknown tools are told. |
| Protocol.OtherMessageMeans | src/agent.rs:532-546 | The response to the pending request settles it, with an error if it has no result; other messages without a string for a method pass, unless they have an id and a method of another kind. |
| Protocol.StreamMeans | src/agent.rs:580-603 | What time running out, the token, lines that are no JSON, the error stream and a closed stream send and decide. |
| Protocol.TimeoutMeans | src/agent.rs:482-497 | A turn times out if and only if its own time runs out after its start was answered. |
| Session.CodexSession.HandleServerRequest | src/agent.rs:690-767 | One answer per request, written before the turn goes on or ends. |
| Session.CodexSession.HandleValue | src/agent.rs:605-688 | Writes, updates and verdict are those of the message's kind. |
| Session.CodexSession.Request | src/agent.rs:514-561 | Takes a fresh id, above all before it, reads exactly up to the decisive message, and answers what it reads on the way. |
| Session.CodexSession.Start | src/agent.rs:341-440 | The handshake succeeds exactly when both its requests do, and takes the thread id from the second. |
| Session.CodexSession.RunTurn | src/agent.rs:442-505 | The method is one pure fold over the inbox: result, rest, lines written and updates sent. |
| Session.CodexSession.AwaitTurn | src/agent.rs:484-505 | The receive loop is the fold after the start was answered. |
| Worker.TraceIsWellEnded | src/agent.rs:221-294 | Each turn but the last was refreshed, found active and below the cap; the last was not all three; at least one turn runs and no more than the cap. |
| Worker.TurnsAreCapped | src/agent.rs:291-293 | The reported turn count lies between one and the larger of one and `max_turns`. |
| Worker.SuccessMeans | src/agent.rs:221-294 | A worker succeeds if and only if every turn was refreshed, every refresh but the last was active, and the last was inactive or at the cap. |
| Turns.WorkerMeans | src/agent.rs:221-294 | How a worker ends, from its messages, its token and the tracker's answers alone: every turn but the last was completed, uncancelled, refreshed, found the issue active and was below the cap; the last decides exit, error and issue. |
| Turns.SuccessByInputs | src/agent.rs:221-294 | A worker succeeds if and only if its prompt rendered and every turn was completed, uncancelled and refreshed. |
| Turns.FailedRefreshEnds | src/agent.rs:277-281 | A refresh that fails after a completed, uncancelled turn ends the worker there as failed. |
| Worker.OutcomeMeetsContract | src/agent.rs:248-264 | With a faithful tracker the outcome keeps its issue's id, and it is `Canceled` if and only if the token read as cancelled when the last turn ended. |
| Worker.CancelDecidesTurn | src/agent.rs:490-493 | A turn whose wait is decided by its cancelled token fails as cancelled, and its worker ends as `Canceled`. |
| Worker.TokensStayCancelled | src/orchestrator.rs:522-527 | Over any run no token is ever un-cancelled. |
| Worker.WorkerMayFinish | src/agent.rs:102-113 | What a worker reports is a move the orchestrator model allows at any later time, if its reading of the token was true when it was made. |
| Worker.TakeTurn | src/agent.rs:222-276 | One turn ends as prompt, session, token and tracker decide, in that order. |
| Worker.RunTurns | src/agent.rs:221-294 | The loop produces exactly the turns and the outcome of the recursive description. |
| Worker.RunIssueWorker | src/agent.rs:115-320 | A failed setup or handshake ends as `Failed` with no turn; otherwise the outcome is that of a well-ended sequence of turns and meets the contract. |
| Paths.JoinComponents | src/workspace.rs:32 | Joining a relative path appends its components, whatever slashes the base ends in. |
| Paths.ComponentsOfShow | src/workspace.rs:187-196 | Reading back the text of a normalized path gives its components. |
| Paths.ResolveIsProper | src/workspace.rs:187-196 | No "." and no ".." survives normalization of an absolute path. |
| Paths.ResolveFixed | src/workspace.rs:187-196 | A normalized path is its own normal form. |
| Paths.ResolveDistributes | src/workspace.rs:187-196 | Normalizing a prefix first makes no difference. |
| Paths.EveryRewritingAgrees | src/workspace.rs:187-196 | Cancelling ".." components in any order ends, if at all in a normalized path, in the one the loop computes. |
| Paths.SomeRewritingArrives | src/workspace.rs:187-196 | And such a sequence of cancellations always exists. |
| Paths.MeaningIsStable | src/workspace.rs:174-200 | Normalization of any path is proper and idempotent on text. |
| Paths.NormalizeToAbsolute | src/workspace.rs:174-200 | The loop over text, with push and pop, computes the normal form; it fails only for a relative path without a current directory. |
| Paths.RelativeStartsAtCwd | src/workspace.rs:174-186 | A relative path means the components of the current directory followed by its own; an absolute one has no use for the current directory. |
| Workspace.KeysCollideIff | src/workspace.rs:160-171 | Two identifiers share a key if and only if they differ only in characters that become underscores. |
| Workspace.KeyMeans | src/workspace.rs:160-171 | Letters, digits, ".", "_" and "-" stay; every other character becomes "_". |
| Workspace.PathOfKey | src/workspace.rs:30-33 | The directory is the root plus the key, except that "" and "." are the root and ".." its parent. |
| Workspace.AcceptedIff | src/workspace.rs:202-214 | Containment refuses exactly "..", unless the root is "/". |
| Workspace.NestedIff | src/workspace.rs:202-214 | One accepted directory contains another if and only if its key is no name of its own or the keys agree. |
| Workspace.EnsureSparesOthers | src/workspace.rs:22-67 | With keys that are names and differ, setting up one workspace changes nothing at or below the other. |
| Workspace.CleanupTakesIff | src/workspace.rs:124-147 | A cleanup removes another workspace if and only if its own key is no name of its own or the keys agree. |
| Workspace.CleanupSparesOthers | src/workspace.rs:124-147 | With keys that are names and differ, a cleanup changes nothing at or below the other workspace. |
| Workspace.CleanupMeans | src/workspace.rs:124-147 | When a cleanup fails, and that one that does not removes exactly what lies at or below the directory. |
| Workspace.EnsureDelivers | src/workspace.rs:22-67 | A worker gets a directory under the root, empty if it was made now; the disk stays a tree. |
| Workspace.EnsureFirst | src/workspace.rs:22-67 | Setting up a missing workspace makes exactly the directories on the way to it, asks the hook, and takes the directory away again if that fails. |
| Workspace.EnsureAgain | src/workspace.rs:35-67 | A workspace that is there is used again: nothing on the disk changes but that its "tmp" and ".elixir_ls" go with all they hold. |
| Workspace.EnsureFails | src/workspace.rs:22-67 | Each way a set-up can fail, if and only if: a file where the root is to be, a key that escapes, a file where the directory is to be, a hook that fails on a new one. |
| Workspace.CleanupThenEnsure | src/workspace.rs:124-147 | A workspace set up after its own cleanup is new and empty; a failing hook leaves nothing behind. |
| Workspace.WorkspaceManager.ValidateContainment | src/workspace.rs:202-214 | Accepts if and only if the normal form of the root is a component prefix of the normal form of the path. |
| Workspace.WorkspaceManager.EnsureWorkspace | src/workspace.rs:22-67 | Result and disk are those of the specification, starting from path text and the current directory. |
| Workspace.WorkspaceManager.CleanupWorkspace | src/workspace.rs:124-147 | Result and disk are those of the specification, starting from path text and the current directory. |
| Isolation.RunConsistent | src/agent.rs:132 | If the tracker never renames an issue and reloads keep the root, workers and outcomes bear their issue's identifier over any run. |
| Isolation.StepCleans | src/orchestrator.rs:364-370 | A step removes the workspace of the outcome's issue if it handles the finish of a row found terminal, and nothing otherwise. |
| Isolation.LiveWorkspacesSurvive | src/orchestrator.rs:364-370 | From any moment of a run on, all that is removed until another moment leaves the directory of every worker that was there and is still not done exactly as it was, if the issues started so far have keys of their own. |
| FrontMatter.SplitUndoesComposeIff | src/workflow.rs:205-219 | Splitting a composed file gives back its parts if and only if the front matter holds no closing delimiter, neither part a CR LF, and the body is trimmed. |
| FrontMatter.UnifyUndoesCrlf | src/workflow.rs:206 | Unifying line ends undoes one rewriting of LF as CR LF, whatever was there before. |
| FrontMatter.CrlfKeepsParseIff | src/workflow.rs:205-219 | Rewriting every LF as CR LF keeps the parse if and only if no CR LF stood in a part that matters. |
| FrontMatter.CrlfExample | src/workflow.rs:205-219 | A file with a CR LF in its body parses differently after the rewriting. |
| FrontMatter.TrimUnify | src/workflow.rs:206-217 | Unifying line ends and trimming commute. |
| FrontMatter.UnifyMeans | src/workflow.rs:206 | Every CR LF becomes one LF wherever it stands, and nothing else changes. |
| FrontMatter.ParseMeans | src/workflow.rs:205-224 | What each result means: no opening line and the trimmed text; an opening line, everything up to the first closing one, and the trimmed rest; or an opening line and no closing one. |
| Settings.DecimalRoundTripIff | src/workflow.rs:518-524 | A written number reads back as itself if and only if it fits a signed 64-bit number. |
| Settings.SignsMean | src/workflow.rs:518-524 | Digits may carry either sign, and read as the number they are if that fits. |
| Settings.OtherwiseNoNumber | src/workflow.rs:518-524 | Whatever else a string holds, it is no number. |
| Settings.PlacesMean | src/workflow.rs:518-524 | Digits count by their place, and zeros in front do not. |
| Settings.SettingsAreLiteral | src/workflow.rs:499-516 | A non-negative setting, as number or as string, is what the file says, except that a 32-bit setting is so if and only if it is below 2^32 and a count of zero means the default. |
| Settings.TurnLimitWraps | src/workflow.rs:504-507 | 2^32 turns read as none. |
| Settings.ListRoundTripIff | src/workflow.rs:466-477 | A joined list reads back as itself if and only if its entries are trimmed, not empty and free of commas. |
| Settings.ListIsTrimmed | src/workflow.rs:466-477 | Every piece between commas that is not blank is an entry, trimmed, in its place. |
| Settings.ListIgnoresBlanks | src/workflow.rs:466-477 | A blank piece is none. |
| Settings.LimitOfState | src/workflow.rs:342-353 | A state has a limit of its own if and only if a positive entry names it, and then the last such entry's; keys are normalized. |
| Settings.EntryMeans | src/workflow.rs:342-353 | An entry counts if and only if its number is positive, and for that number. |
| Settings.MuteEntryMeans | src/workflow.rs:342-353 | An entry that gives no number does not count. |
| Settings.BuiltConfigIsSafe | src/workflow.rs:330-353 | Whatever the file says, at least one agent may run, every limit is positive, and no retry delay wraps in the cast to a signed number. |
| Settings.BuiltConfigIsLiteral | src/workflow.rs:330-353 | Field by field, what a number in the file becomes, and what a missing, negative or malformed one does. |

## Left out

- HTTP server, dashboard, snapshot rendering, command line, logging and error texts: presentation only.
- The tracker client: an oracle that returns any list of issues or fails. Tool-call results sent back to the agent are not modelled.
- Processes, pipes, hooks' effects, session logs, file watching; writes succeed. YAML, Liquid templates and environment tokens.
- Worker panics and everything after the shutdown signal.
- Each handler reads the clock once; the source may read it again within a handler. Timers fire at any time after they were set, and stall and timeout decisions depend on the given instants alone.
- `completed`, `rate_limits`, `seconds_running`, process, thread and turn ids in rows, and the reply to a refresh request.
- Token totals are unbounded; the source adds in 64 bits. Attempts are unbounded too, but see `NoAttemptOverflow`.
- Text.NormalizeIdempotent: lower-casing changes A to Z only, where the source maps every cased Unicode letter.
- Text.NormalizeMeans: states the same narrower lower-casing.
- Update messages and the texts of errors: outcomes carry the error's code.
- Updates that a session sends are not joined field by field to the updates the orchestrator absorbs; `FailuresAreReportedIff` relates their events.
- The library sort is represented by the only stable sorted arrangement; JSON objects are walked in an arbitrary fixed order.
- Directory removal and creation complete or fail as a whole; symbolic links and permissions are not modelled. Cleanup at start-up, before any worker runs, uses the same operation.
- The orchestrator class does not call the workspace class: `Isolation` joins them by the event that triggers a cleanup.
