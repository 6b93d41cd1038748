# Verification model of the dimi agent engine

This Dafny project models the parts of the repository whose correctness depends on many steps
fitting together, and proves what they promise:

- the **turn engine** (`crates/dimi-engine/src/engine.rs`): a resumable interpreter over a message
  history with approvals, denials, same-step duplicates, stop-turn, cancellation, retries,
  compaction, steering and review injection;
- the **tool-exchange repair**, the **window projection** and the **compaction shape** that decide
  what the model gets to see (`engine.rs`, `context.rs`, `compaction.rs`);
- the **tool-call dedupe** and its canonical JSON keys (`dedupe.rs`);
- the **bounded event channel** between engine and host (`crates/dimi-bridge/src/engine.rs`);
- the **relay room** that connects one bridge with many devices (`apps/relay/src/index.ts`);
- **capped output** and its streaming (`tool.rs`), and **glob matching** of permission rules
  (`permission.rs`).

Model replies, tool results, policies, user decisions, steering texts, cancellation, thread
interleavings and network events are arbitrary: every theorem quantifies over all of them.

## How it is built

Code that computes is modelled by functions. Code that changes state is modelled twice: by a
function on values that says what one operation does, and by a class or a method with loops in the
form of the source, proved equal to it (`TurnSessions.TurnSession`, `Dedupe.DedupeState`,
`EventChannel.EngineEventChannel`, `RelayRooms.RelayRoom`, `OutputBuffers.OutputBuffer`,
`TaskOutputs.BackgroundTask`, `Exchange.CloseUnresolvedToolExchanges`, `Glob.GlobMatch`, ...). The
theorems are then about the functions, and hold of the classes through those equalities.

| file | contents |
|---|---|
| `Wrappers.dfy`, `Text.dfy` | options, sequence facts, trimming |
| `Json.dfy`, `JsonTheorems.dfy` | JSON values, canonical text, unique readability |
| `Messages.dfy` | chat messages, answered histories |
| `Exchange.dfy`, `ExchangeTheorems.dfy` | the slot-map repair, its specification, when it closes and when it changes nothing |
| `Context.dfy` | window projection, compacted shape |
| `Tools.dfy`, `Dedupe.dfy` | tool calls and results, dedupe state and streak |
| `Turn.dfy`, `TurnSession.dfy` | the engine on values, and as the object that it is |
| `TurnHistory.dfy`, `TurnProtocol.dfy`, `TurnBooks.dfy` | what one call does to the history, the event stream, the dedupe books |
| `TurnAccounts.dfy` | which calls a batch has announced, settled and answered, through all its pauses |
| `TurnVerdicts.dfy`, `TurnSteps.dfy` | what verdicts, decisions and passes mean for the history, the events and the executor |
| `TurnIsolation.dfy` | only approved calls are executed |
| `TurnRunCount.dfy` | executions are no more than the calls marked as run or decided |
| `TurnRuns.dfy` | invariants over whole runs with any number of pauses |
| `TurnAnswers.dfy` | same-step duplicates are answered alike in every run |
| `TurnPause.dfy`, `TurnPauseRuns.dfy` | approved pauses against outright approval: one call, batch, step, pass |
| `TurnGrowth.dfy`, `TurnPauseTurns.dfy` | event streams only grow; runs with resumes, whatever their passes are |
| `TurnRetries.dfy` | the retry counter against the retries in the event stream |
| `TurnPauseTheorems.dfy`, `TurnPauseCost.dfy` | when a turn with approved pauses is like one without; a turn that is not |
| `EventChannel.dfy` | the channel, its threads, every interleaving |
| `Relay.dfy`, `RelayRoom.dfy`, `RelayTheorems.dfy`, `RelayRouting.dfy` | the room, its handlers, convergence, where data goes |
| `OutputBuffer.dfy`, `TaskOutput.dfy` | UTF-8 byte caps, deltas against settled output |
| `Glob.dfy` | tokens, the table, what a pattern means |

## Properties that do not hold as one would expect

The code is modelled as it is. Where a natural claim is false of it, the exact condition is proved.

- The repair does not always produce a closed history, and is not always idempotent: it is exactly
  when no call id is declared again while the earlier call is still waiting for its result
  (`ExchangeTheorems.RepairedIsClosedIff`, `ExchangeTheorems.IdempotentIff`). Two assistant messages
  that declare the same id, with no result between them, are the counterexample
  (`ExchangeTheorems.ReopenedIdDangles`).
- An approved pause is not quite invisible: the resumed step does not reset the retry counter. Paused
  and outright step agree in everything else, and in the counter exactly when it was zero before
  (`TurnPause.PauseIsInvisibleIff`). A turn with approved pauses, once it is over, is like some turn
  without pauses exactly when none of its own passes was answered by a retryable error while its
  counter was not the number of retries since the last completed step, with a retry left to one of the
  two counts (`TurnPauseTheorems.ApprovedTurnIsLikeIff`). A concrete turn fails with the pause and
  completes without it (`TurnPauseCost.PauseCanFailATurn`).
- `OutputBuffer.truncated` is not the same as "the text differs from the input". The two disagree
  exactly for inputs that, where they stop fitting, go on with the letters of the marker, and fit
  again behind them (`OutputBuffers.FlagTellsIff`, `OutputBuffers.UnchangedYetTruncatedIff`); such an
  input comes out unchanged, with `truncated` set (`OutputBuffers.TruncationCanHide`).
- A settled task's output is the concatenation of its deltas, except for a subagent that timed out
  after it had streamed something (`TaskOutputs.DeltasEqualSettle`, `TaskOutputs.TimedOutAgentDiffers`).
- Equal keys do not always mean equal arguments: some integral floats are printed as an integer that is
  another JSON number. They are exactly the float 2^63, whose conversion saturates, and the floats
  between 2^63 and 2^64 whose shortest digits do not spell their value (`JsonTheorems.HarmlessIff`;
  10000000000000002048 is one, `JsonTheorems.InexactFloatsCollide`). A value's text tells it from every
  value without such numbers that is not equal to it exactly when it has none of them itself
  (`JsonTheorems.FaithfulIff`); with them, equal keys mean values whose numbers are printed alike
  (`JsonTheorems.MakeKeyIff`). Larger floats, 1e23 for one, are not printed as what they denote either,
  but no other number is printed so.
- The limits of `OutputBuffer` are documented in characters; the code counts UTF-8 bytes, and so does
  the model.

## Model

| member | source | states |
|---|---|---|
| Exchange.CloseUnresolvedToolExchanges | crates/dimi-engine/src/engine.rs:176-248 | the in-place slot-map rewrite yields, for every history, the declarative repair: non-tool messages stay in order, each newly opened call is followed by the first later result for it or by the placeholder, every other tool message vanishes |
| Exchange.OpenSlots | crates/dimi-engine/src/engine.rs:224-243 | opening the calls of one message gives each id that has no open slot exactly one placeholder at the recorded index, in declaration order |
| ExchangeTheorems.ForeignKept | crates/dimi-engine/src/engine.rs:176-248 | the repair keeps all messages that are not tool results, unchanged and in order |
| ExchangeTheorems.RepairedIsClosedIff | crates/dimi-engine/src/engine.rs:150-248 | the repaired history has every call followed at once by its one result exactly when no id is declared again while it is open |
| ExchangeTheorems.FixedIff | crates/dimi-engine/src/engine.rs:176-248 | the repair changes nothing exactly when the history is closed already |
| ExchangeTheorems.IdempotentIff | crates/dimi-engine/src/engine.rs:176-248 | repairing twice is repairing once exactly when no id is declared again while it is open |
| ExchangeTheorems.ReopenedIdDangles | crates/dimi-engine/src/engine.rs:224-243 | a history with one id declared twice while open, whose repair still dangles and is changed by a second repair |
| ExchangeTheorems.AnsweredRepair | crates/dimi-engine/src/engine.rs:1172-1179 | the repair of a history whose calls are all answered is closed, and is the history itself when the ids of each message differ |
| Context.FindSystem | crates/dimi-engine/src/context.rs:74-80 | finds the system message before which there is none, or nothing exactly if there is none |
| Context.ProjectWindow | crates/dimi-engine/src/context.rs:74-88 | the walk-back loop yields the specified projection: a history that fits is kept; of a longer one the system message before which there is none, and the last messages from the latest point that is not a tool result and leaves the window whole |
| Context.ProjectedMeans | crates/dimi-engine/src/context.rs:74-88 | the projection is the first system message, if there is one, and the window, extended back over tool results and no further |
| Context.ProjectedAnswered | crates/dimi-engine/src/context.rs:64-88 | projecting a history with all calls answered splits no exchange |
| Context.ProjectedTail | crates/dimi-engine/src/context.rs:64-88 | the projection ends with the last `window` messages, or has them all |
| Context.RequestIsClosed | crates/dimi-engine/src/engine.rs:1165-1179 | projection followed by repair is always closed for an answered history, and the repair changes nothing there when ids are distinct |
| Context.CompactedShape | crates/dimi-engine/src/compaction.rs:125-156 | the reverse budget loop yields the specified shape and its token count: the first system message, the longest run of recent user messages within 20,000 tokens, and a user message that ends with the trimmed summary, and nothing else |
| Context.CompactedMeans | crates/dimi-engine/src/compaction.rs:125-156 | the compacted shape is those three parts, the summary included |
| Context.CompactedKeepsRecent | crates/dimi-engine/src/compaction.rs:118-156 | the kept user messages are the longest suffix of all user messages within 20,000 tokens, in order |
| Context.CompactedIsPlain | crates/dimi-engine/src/compaction.rs:118-156 | no assistant or tool message survives compaction |
| Context.CompactedSize | crates/dimi-engine/src/compaction.rs:125-156 | the compacted history has at most the system message's tokens, 20,000, and the summary's |
| Text.TrimMeans | crates/dimi-engine/src/compaction.rs:145-153 | trimming takes the white space at both ends and nothing else |
| JsonTheorems.CanonicalIff | crates/dimi-engine/src/dedupe.rs:72-119 | two JSON values have the same canonical text exactly when they are equal up to object key order with numbers printed alike; for values without a harmful number, when they are equal up to object key order, integral floats being integers |
| JsonTheorems.MakeKeyIff | crates/dimi-engine/src/dedupe.rs:121-123 | for all values a parser can make: two calls have the same key exactly when the names are equal and the arguments equal up to object key order with numbers printed alike (the same numbers, if none is harmful), even if names contain spaces or quotes |
| JsonTheorems.NumberTextIff | crates/dimi-engine/src/dedupe.rs:107-119 | numbers of any size have the same text exactly when they are printed as the same integer, or are the same non-integral float |
| JsonTheorems.HarmlessIff | crates/dimi-engine/src/dedupe.rs:107-119 | a number is printed as a 64-bit integer that it does not denote exactly when it is the float 2^63 or a float between 2^63 and 2^64 whose shortest digits do not spell it |
| JsonTheorems.DigitsDiffer | crates/dimi-engine/src/dedupe.rs:107-119 | two integral floats are never displayed with the same shortest digits, since the digits are read back as the float |
| JsonTheorems.InexactFloatsCollide | crates/dimi-engine/src/dedupe.rs:107-119 | two floats whose text is that of a different 64-bit integer: 2^63, which saturates, and 10000000000000002048, of which only the shortest digits are printed |
| JsonTheorems.FaithfulIff | crates/dimi-engine/src/dedupe.rs:72-119 | a value's text tells it from all values without harmful numbers that are not equal to it, if and only if it has none itself |
| Dedupe.WalkCountsRun | crates/dimi-engine/src/dedupe.rs:232-259 | walking a history call by call counts exactly the maximal run of equal keys at its end |
| Dedupe.CheckFindsOriginal | crates/dimi-engine/src/dedupe.rs:175-198 | a same-step duplicate is recognised exactly when its key was called before in the step, and its original's result is always there; ids need not differ |
| Dedupe.FinalizeByTurnRun | crates/dimi-engine/src/dedupe.rs:200-228 | a result is reminded by the length of the run over all finished steps and the current prefix, and is stored under its key |
| Dedupe.RemindedMeans | crates/dimi-engine/src/dedupe.rs:205-228 | a reminder is appended to the output from the third call of a run on, a different one from the fifth (naming the number of calls) and from the eighth; the twelfth stops the turn; nothing else of a result changes |
| Dedupe.EndedStreak | crates/dimi-engine/src/dedupe.rs:230-241 | ending a step folds its calls into the streak over the whole turn |
| Dedupe.DedupeState.BeginStep | crates/dimi-engine/src/dedupe.rs:163-169 | clears the step's state and keeps the streak |
| Dedupe.DedupeState.Check | crates/dimi-engine/src/dedupe.rs:175-194 | records the call, and says whether it repeats one of this step |
| Dedupe.DedupeState.StreakUpTo | crates/dimi-engine/src/dedupe.rs:247-259 | the loop counts the run at a call of the step on top of the finished steps |
| Dedupe.DedupeState.FinalizeResult | crates/dimi-engine/src/dedupe.rs:205-228 | applies the reminder for the run length, forces a stop at twelve, and records the result |
| Dedupe.DedupeState.EndStep | crates/dimi-engine/src/dedupe.rs:232-241 | the loop folds the step into the streak |
| TurnAccounts.BatchAccounting | crates/dimi-engine/src/engine.rs:755-943 | for every mix of approved, denied, asked, duplicate and stopping calls: each call is announced once, settled once and answered by one tool message, in call order; at a pause exactly the calls before the pending one are, and at a cancellation exactly those before some call |
| TurnAccounts.ResumeAccounting | crates/dimi-engine/src/engine.rs:519-689 | whatever is decided about the pending call: it is announced, settled and answered once and the rest of its batch follows in order, up to its end, a stop, the next pause or a cancellation |
| TurnAccounts.StepAccounting | crates/dimi-engine/src/engine.rs:519-943 | from the start of a step's batch through any number of pauses, decisions and policies, each call is announced, settled and answered once, in call order, and none before its turn |
| TurnVerdicts.ApproveMeans | crates/dimi-engine/src/engine.rs:841-884 | an approved call that is not cancelled is run once; its own output begins the tool message, its progress and its error flag are told, in order, and nothing else is |
| TurnVerdicts.LostRaceMeans | crates/dimi-engine/src/engine.rs:841-867 | an approved call that loses its race against cancellation gets no answer and the turn is cancelled; it was announced only if the race was lost after that |
| TurnVerdicts.DenyMeans | crates/dimi-engine/src/engine.rs:886-907 | a denied call is not run: it is announced and answered with the policy's reason, as an error, and the batch goes on |
| TurnVerdicts.AskMeans | crates/dimi-engine/src/engine.rs:908-935 | a call the policy asks about is not run, nothing is told of it, and the turn waits for the decision on it |
| TurnVerdicts.DuplicateMeans | crates/dimi-engine/src/engine.rs:809-839 | a call that repeats one of its step is not run, whatever the policy says, and answered under its own id with the recorded result |
| TurnVerdicts.CancelMeans | crates/dimi-engine/src/engine.rs:766-800 | once the cancel flag is set the next call is not dealt with and the turn is cancelled |
| TurnVerdicts.SkipMeans | crates/dimi-engine/src/engine.rs:948-980 | the calls after a stop are not run; each is announced and answered with the same error |
| TurnVerdicts.ApprovalMeans | crates/dimi-engine/src/engine.rs:560-586 | once approved the pending call is run, and its own result is the next message and event after its start and progress |
| TurnVerdicts.RejectionMeans | crates/dimi-engine/src/engine.rs:587-613 | once rejected the pending call is announced and answered, as an error, with a text that names the tool and gives the user's feedback |
| TurnVerdicts.CancellationMeans | crates/dimi-engine/src/engine.rs:614-631 | when the request for approval is cancelled the pending call is answered with an error that names the tool |
| TurnVerdicts.NothingPending | crates/dimi-engine/src/engine.rs:520-535 | a resume without a pending call fails the turn and does nothing else |
| TurnIsolation.UnapprovedIsNotRun | crates/dimi-engine/src/engine.rs:803-935 | a call the policy does not approve is not run: the run counter stays, and no other executor and no other outcome of the race makes a difference |
| TurnIsolation.ResumeStepSame | crates/dimi-engine/src/engine.rs:519-689 | what the executor would do with a call that neither the policy nor the decision approves makes no difference to a resume: a rejected call is not executed |
| TurnIsolation.OnlyApprovedCallsRun | crates/dimi-engine/src/engine.rs:480-943 | in every run with any pauses, policies and decisions, two executors that agree on all calls approved by a policy in force or by the user make the same run: no other call is ever executed |
| TurnRunCount.RunsAreMarked | crates/dimi-engine/src/engine.rs:803-884 | in every run with any pauses, policies and decisions the executor is asked at most as often as calls are marked as run or decided, so the limit of twelve bounds what is executed |
| TurnSteps.PassBegins | crates/dimi-engine/src/engine.rs:1100-1185 | a pass moves all steers into the history, in order, begins the next step, and its request shows that history, or its window, after the repair, unless compaction replaced the history by its compacted form first |
| TurnSteps.PassAnswers | crates/dimi-engine/src/engine.rs:1165-1206 | the model is given exactly the request that was assembled, and its answer decides the pass |
| TurnSteps.PassStopped | crates/dimi-engine/src/engine.rs:1100-1133 | a pass that finds the cancel flag set, or the step limit reached, ends the turn with that outcome before anything else |
| TurnSteps.TextMeans | crates/dimi-engine/src/engine.rs:1328-1410 | a step without calls: from the set step on an ordinary finish gets the review reminder and the turn goes on; else it goes on while a steer waits; else it is over, truncated, failed as filtered, or completed as the model finished |
| TurnSteps.AskingMeans | crates/dimi-engine/src/engine.rs:1412-1440 | the message of a step with calls holds the model's text and its calls in order |
| TurnSteps.BatchDoneMeans | crates/dimi-engine/src/engine.rs:1440-1490 | a finished batch completes its step, and a stop completes the turn |
| TurnSteps.AttemptsMean | crates/dimi-engine/src/engine.rs:1244-1262 | the retry limit is the one set, ten if none is, and never less than one |
| TurnSteps.ErrorMeans | crates/dimi-engine/src/engine.rs:1208-1325 | an error without recovery: retried and announced, counted, while attempts are left and it is retryable, otherwise the turn fails with its message and used-up retries are counted anew |
| TurnSteps.OverflowMeans | crates/dimi-engine/src/engine.rs:1208-1243 | an overflow error is answered by compaction if a context size is set; if that succeeds the turn goes on and no retry is counted |
| TurnSteps.SummaryMeans | crates/dimi-engine/src/engine.rs:1032-1068 | a summary is the trimmed, non-empty text of an answer of the model that was not cut off, given an end of the history and the instruction |
| TurnSteps.CompactionAsks | crates/dimi-engine/src/engine.rs:1032-1068 | a compaction takes at most four answers |
| TurnSteps.CompactMeans | crates/dimi-engine/src/engine.rs:1017-1089 | a compaction that succeeds leaves the first system message, the recent user messages and that summary, and reports it with the sizes before and after |
| TurnSteps.CompactionTrigger | crates/dimi-engine/src/engine.rs:1134-1149 | the history is compacted before a step exactly when its estimate reached 85 per cent of the context and has grown since the last compaction |
| TurnBooks.BatchKeepsBooks | crates/dimi-engine/src/engine.rs:803-943 | through a batch the streak stays the run over the whole turn, no twelfth repeat goes on, and each message carries the output recorded under its key |
| TurnBooks.FinalizeBooks | crates/dimi-engine/src/engine.rs:868-884 | the finalized result carries the reminder for the run of identical calls that ends here, and stops the turn exactly when the tool asked for it or the run reached twelve |
| TurnBooks.DuplicatesShareOutput | crates/dimi-engine/src/engine.rs:809-884 | in the history after a whole batch, or at its first pause, the tool messages of calls that ask for the same thing have the same content |
| TurnAnswers.DuplicatesAnsweredAlike | crates/dimi-engine/src/engine.rs:809-884 | in every run, with any decisions and pauses and without any assumption: calls of one step that were checked against the step's earlier ones and ask for the same thing are answered with the same output, and the result a duplicate shares is never missing; calls skipped after a stop are not checked |
| TurnRuns.PlaySound | crates/dimi-engine/src/engine.rs:480-1493 | at every point where control returns to the caller, after any number of approval pauses, the whole-run invariant holds: on any input the pending approval, the dedupe books, the step and model-call bounds and the repair of every request; with executors that answer the call they are given also the event protocol; from an answered input also the history |
| TurnRuns.PlayReliable | crates/dimi-engine/src/engine.rs:480-1493 | what a caller gets at every return, on any input: repaired requests, the step and model-call bounds, the pending call it is asked about or the finished state; with executors that answer their calls numbered steps and a whole event stream, and from an answered input closed requests |
| TurnRuns.EveryRequestIsClosed | crates/dimi-engine/src/engine.rs:1165-1185 | every step request of every run from an answered input is closed, and with distinct ids per batch the repair changes none of them |
| TurnRuns.EveryRequestIsRepaired | crates/dimi-engine/src/engine.rs:1165-1185 | on any input and with any executors: the request sent is the repair of what was assembled, closed exactly if no id is declared in that again while its call is open, and unchanged exactly if that was closed |
| TurnRuns.EveryTurnIsBounded | crates/dimi-engine/src/engine.rs:1100-1380 | with at most m steps every `run` and `resume`, on any input, comes back, after at most m steps and 9 m model calls, whatever is retried, compacted, steered or reviewed |
| TurnRuns.LoopEnds | crates/dimi-engine/src/engine.rs:1100-1380 | the step loop makes at most one pass more than there are steps left |
| TurnRuns.EventsInOrder | crates/dimi-engine/src/engine.rs:1100-1493 | in every run on any input, finished or not, the k-th step that starts has number k, and no step is completed or interrupted twice |
| TurnRuns.FinishedTurnEvents | crates/dimi-engine/src/engine.rs:480-713 | on any input a finished turn has one start, first, and one end, last, with `finished` set before it; its steps are numbered, and each ends at most once |
| TurnRuns.AtMostTwelveInARow | crates/dimi-engine/src/dedupe.rs:200-228 | in every run on any input a stretch of identical consecutive calls is executed or decided at most twelve times |
| TurnRuns.TwelfthEndsTheTurn | crates/dimi-engine/src/engine.rs:632-884 | in every run on any input a call executed or decided as the twelfth of its run is the last one checked, and the turn is over |
| TurnBooks.TwelfthStops | crates/dimi-engine/src/engine.rs:868-884 | an approved call that makes a run of identical calls twelve long stops its batch once it was run |
| TurnBooks.TwelfthEndsResumedTurn | crates/dimi-engine/src/engine.rs:632-655 | a pending call that does so completes the turn, whatever was decided about it |
| TurnRuns.ResumeStepSound | crates/dimi-engine/src/engine.rs:520-690 | resuming a paused turn with any decision keeps the whole-run invariant |
| TurnRuns.CompactKeeps | crates/dimi-engine/src/engine.rs:1017-1089 | a compaction makes at most four model calls and changes nothing but the history and the events; if it succeeds no exchange is left in the history and one event is emitted, otherwise both are as before |
| TurnProtocol.DoneEnds | crates/dimi-engine/src/engine.rs:480-713 | an event stream that follows the protocol to its end starts and ends once |
| TurnProtocol.StepsAreNumbered | crates/dimi-engine/src/engine.rs:1151-1163 | the k-th step that starts has number k |
| TurnProtocol.OneEndPerStep | crates/dimi-engine/src/engine.rs:1100-1493 | between two ends of steps another step starts, so each step is completed or interrupted at most once |
| TurnProtocol.UnbrokenSteps | crates/dimi-engine/src/engine.rs:1100-1493 | an event stream that has not broken the protocol numbers its steps from one on and ends none of them twice |
| TurnPauseTheorems.PausesAreInvisible | crates/dimi-engine/src/engine.rs:519-690 | a run that pauses and is approved, however often, is in step with one run whose policy approves outright, in all but the retry counter, up to the first retryable error answered while the counters differ; in the counter too, without that limit, if no retries were outstanding at a pause |
| TurnPauseTheorems.ApprovedTurnIsLikeIff | crates/dimi-engine/src/engine.rs:519-690 | for any retries at any pause: a finished turn with approved pauses ends like some turn without, with the same outcome, messages, events, dedupe state and steps, if and only if none of its own passes met a retryable error while its counter differed from the retries since the last completed step, with a retry left to one of the two |
| TurnRetries.RunCounted | crates/dimi-engine/src/engine.rs:1244-1308 | as long as a run has not paused its retry counter is the number of retries announced since the last completed step |
| TurnPauseTheorems.ApprovedTurnIsSame | crates/dimi-engine/src/engine.rs:519-690 | when no retries were outstanding at a pause, some run without pauses ends with the same outcome, messages, events, dedupe state, steps and retry counter |
| TurnPauseTheorems.CalmModelNeverParts | crates/dimi-engine/src/engine.rs:1244-1308 | with a model that reports no retryable error that condition always holds |
| TurnPause.PauseIsInvisibleIff | crates/dimi-engine/src/engine.rs:1440-1462 | for any retry counter the approved pauses of a step change nothing but that counter, and not even that exactly when it was zero |
| TurnPause.ApprovalsSuffice | crates/dimi-engine/src/engine.rs:519-690 | as many approvals as a batch has calls always lead through its step |
| TurnPauseTheorems.PauseCostsRetries | crates/dimi-engine/src/engine.rs:1244-1308 | of two sessions that differ in the counter only, the one with its retries spent fails at a retryable error that the one with none spent retries; TurnPauseCost.PauseCanFailATurn has the run |
| TurnPauseTheorems.StrikeDiverges | crates/dimi-engine/src/engine.rs:1244-1308 | where a retryable error meets differing counters, the event streams of the two runs part in that pass |
| TurnPauseCost.PauseCanFailATurn | crates/dimi-engine/src/engine.rs:1244-1308 | one model (error, call, error, text), one retry allowed, no cancellation: paused and approved the turn fails, approved outright it completes |
| TurnPause.ResumeTwins | crates/dimi-engine/src/engine.rs:519-690 | an approved pending call goes on as it would have without the pause, in or out of the batch |
| TurnSessions.TurnSession.RunTurn | crates/dimi-engine/src/engine.rs:480-505 | `run` takes the input's messages, announces the turn and loops; on a new session it is the run on values |
| TurnSessions.TurnSession.ResumeTurn | crates/dimi-engine/src/engine.rs:519-690 | `resume` on the object is the resume on values |
| TurnSessions.TurnSession.PlayTurn | crates/dimi-engine/src/engine.rs:480-690 | a whole turn on the object, run and then a resume per request for approval, is the run on values, and its caller can rely on what TurnRuns.PlayReliable states, on any input |
| TurnSessions.TurnSession.TakeDecision | crates/dimi-engine/src/engine.rs:520-560 | nothing pending fails the turn, a cancel ends it, otherwise the decision is carried out |
| TurnSessions.TurnSession.CarryOutDecision | crates/dimi-engine/src/engine.rs:560-631 | approved calls run against cancellation, rejected and cancelled ones get their error result |
| TurnSessions.TurnSession.SettlePending | crates/dimi-engine/src/engine.rs:632-689 | the settled call stops the turn or the rest of its batch runs |
| TurnSessions.TurnSession.ExecuteBatch | crates/dimi-engine/src/engine.rs:755-943 | the batch loop with its early exits is the recursive batch |
| TurnSessions.TurnSession.ExecuteCall | crates/dimi-engine/src/engine.rs:766-935 | one call: cancel check, dedupe before policy, approve, deny or ask |
| TurnSessions.TurnSession.SettleDuplicate | crates/dimi-engine/src/engine.rs:809-839 | a duplicate is announced and answered with its original's result under its own id |
| TurnSessions.TurnSession.SynthesizeSkippedSiblings | crates/dimi-engine/src/engine.rs:948-980 | every call from the given index on is announced and gets the skip result |
| TurnSessions.TurnSession.ExecuteTool | crates/dimi-engine/src/engine.rs:1566-1583 | a tool is announced, run against cancellation, and its progress reported |
| TurnSessions.TurnSession.CompactHistory | crates/dimi-engine/src/engine.rs:1017-1089 | summary or nothing; only a usable summary replaces the history |
| TurnSessions.TurnSession.AskSummary | crates/dimi-engine/src/engine.rs:1032-1068 | the bounded retry loop that drops the oldest message after each unusable answer |
| TurnSessions.TurnSession.CompactIfNeeded | crates/dimi-engine/src/engine.rs:1134-1149 | compaction at the loop top: ratio 0.85, not again before the estimate grows |
| TurnSessions.TurnSession.StartStep | crates/dimi-engine/src/engine.rs:1151-1185 | counts the step, resets the step's dedupe state, announces it and assembles its request |
| TurnSessions.TurnSession.HandleError | crates/dimi-engine/src/engine.rs:1208-1325 | cancel, overflow compaction, retry, or failure, in that order |
| TurnSessions.TurnSession.CompleteTextStep | crates/dimi-engine/src/engine.rs:1328-1410 | review injection, pending steers, or the end of the turn by finish reason |
| TurnSessions.TurnSession.RunToolStep | crates/dimi-engine/src/engine.rs:1412-1490 | pushes the assistant message, runs the batch, resets the retries if it finished |
| TurnSessions.TurnSession.OneStep | crates/dimi-engine/src/engine.rs:1100-1490 | one pass of the loop: cancel, step limit, steers, compaction, step |
| TurnSessions.TurnSession.RunLoop | crates/dimi-engine/src/engine.rs:1091-1493 | the loop is the repeated pass |
| EventChannel.EngineEventChannel.Send | crates/dimi-bridge/src/engine.rs:261-276 | one pass of `send` under the mutex: wait, refuse, or append |
| EventChannel.EngineEventChannel.Recv | crates/dimi-bridge/src/engine.rs:281-294 | one pass of `recv`: wait, end, or take the oldest; a closed channel still hands out its queue |
| EventChannel.EngineEventChannel.MarkDelivered | crates/dimi-bridge/src/engine.rs:308-314 | counts one delivery |
| EventChannel.EngineEventChannel.WaitCaughtUp | crates/dimi-bridge/src/engine.rs:322-330 | may return when all pushed events are delivered or the channel is closed |
| EventChannel.EngineEventChannel.Close | crates/dimi-bridge/src/engine.rs:340-346 | marks the channel closed |
| ChannelThreads.EveryRunKeepsInv | crates/dimi-bridge/src/engine.rs:261-346 | every interleaving, spurious wake-ups included, keeps conservation and the absence of lost wake-ups |
| ChannelThreads.ConservedNext | crates/dimi-bridge/src/engine.rs:261-346 | accepted events are submitted, lost to a gone host (at most one), in flight (at most one) and queued, in order; the queue is within its cap and the counters are right |
| ChannelThreads.WakesNext | crates/dimi-bridge/src/engine.rs:261-346 | open: a sleeping waiter means undelivered events, a sleeping sender a queue that is full but for woken senders, a sleeping forwarder an empty queue; closed: nobody sleeps |
| ChannelThreads.HostSeesPrefix | crates/dimi-bridge/src/engine.rs:1003-1033 | after every run the host has a prefix of the accepted events, in order |
| ChannelThreads.WaitIsBarrier | crates/dimi-bridge/src/engine.rs:322-330 | `wait_caught_up` returns only if every accepted event was submitted or the channel is closed |
| ChannelThreads.SendEnds | crates/dimi-bridge/src/engine.rs:258-276 | `send` fails only on a closed channel and waits only on a full one |
| ChannelThreads.ClosedReleases | crates/dimi-bridge/src/engine.rs:332-346 | after close every sender and waiter returns at its next step, and queued events are still received |
| ChannelThreads.NobodyIsStuck | crates/dimi-bridge/src/engine.rs:261-346 | while a thread sleeps, the forwarder or a woken sender can move |
| ChannelThreads.ForwarderCatchesUp | crates/dimi-bridge/src/engine.rs:1003-1033 | from every reachable open state the forwarder's own steps submit everything accepted and release every waiter, in a number of steps fixed by what is outstanding |
| ChannelThreads.SendersGetThrough | crates/dimi-bridge/src/engine.rs:258-330 | from every reachable open state with room for one event, a number of productive steps fixed by what is outstanding leaves no sender asleep |
| RelayTheorems.RoomConverges | apps/relay/src/index.ts:33-141 | in every run there is at most one live bridge and one live socket per device, and with no close outstanding the bridge knows exactly the live devices and each device whether a bridge is there |
| RelayTheorems.NextKeepsInv | apps/relay/src/index.ts:33-141 | every connect, frame, peer close, close event and error event keeps the room's invariant |
| RelayTheorems.SettledConverged | apps/relay/src/index.ts:77-132 | the invariant without outstanding closes is exact agreement of all views |
| RelayTheorems.ClosesConverge | apps/relay/src/index.ts:68-75 | from every reachable state the outstanding close events alone make all views right |
| RelayTheorems.ReplacedLeavesSilently | apps/relay/src/index.ts:113-127 | the late close of a replaced socket tells nobody anything |
| RelayRouting.DeviceDataGoes | apps/relay/src/index.ts:102-107 | a device's data under a foreign id changes nothing; under its own it is added to the inbox of a live bridge, if there is one, and touches nothing else |
| RelayRouting.BridgeDataGoes | apps/relay/src/index.ts:107-111 | a bridge's data is added to the inbox of a live socket of the device it names, if there is one, and touches nothing else |
| RelayRouting.MisfitsGo | apps/relay/src/index.ts:33-66 | what is no text, too large, or not the matching register frame closes its own socket only; what is no frame, or neither register nor data, changes nothing |
| RelayRouting.DataHasItsSource | apps/relay/src/index.ts:33-111 | in every run each data frame in a bridge's inbox was received under that id on a socket registered as that device, and each in a device's inbox, under its own id, on a bridge's socket |
| RelayRooms.RelayRoom.Fetch | apps/relay/src/index.ts:14-31 | a new socket is accepted unregistered |
| RelayRooms.RelayRoom.WebSocketMessage | apps/relay/src/index.ts:33-66 | non-text, oversized and mismatched messages close the socket, non-frames are ignored, a matching register frame registers, data is routed |
| RelayRooms.RelayRoom.RegisterBridge | apps/relay/src/index.ts:77-90 | a new bridge replaces the others, hears of every live device and is announced to it |
| RelayRooms.RelayRoom.RegisterDevice | apps/relay/src/index.ts:92-100 | a new device replaces its other sockets, is announced to the bridge and told whether there is one |
| RelayRooms.RelayRoom.RouteData | apps/relay/src/index.ts:102-111 | a device's data goes to the bridge under its own id only, a bridge's to the named device |
| RelayRooms.RelayRoom.Disconnect | apps/relay/src/index.ts:113-132 | leaving is told to the other side unless a replacement is live |
| RelayRooms.RelayRoom.WebSocketClose | apps/relay/src/index.ts:68-70 | a close event disconnects the socket |
| RelayRooms.RelayRoom.WebSocketError | apps/relay/src/index.ts:72-75 | an error event disconnects the socket and closes it |
| OutputBuffers.OutputBuffer.Push | crates/dimi-engine/src/tool.rs:105-132 | pushing a chunk is pushing its characters one by one |
| OutputBuffers.ChunkingIndependent | crates/dimi-engine/src/tool.rs:104-132 | any split of a text into chunks gives the same buffer |
| OutputBuffers.PushedBounded | crates/dimi-engine/src/tool.rs:86-132 | the text has at most 50,000 + 3 + 14 bytes and every line at most 2,000 + 3 + 14 |
| OutputBuffers.LimitsMean | crates/dimi-engine/src/tool.rs:86-132 | an input of at most 50,000 bytes with lines of at most 2,000 fits, and what fits exceeds these limits by three bytes at most |
| OutputBuffers.TruncatedIff | crates/dimi-engine/src/tool.rs:86-132 | truncated exactly when the input does not fit; then the longest fitting part, one marker, and a subsequence of the rest; otherwise the input itself |
| OutputBuffers.UnchangedYetTruncatedIff | crates/dimi-engine/src/tool.rs:86-132 | an input comes out unchanged and truncated exactly when, where it stops fitting, it goes on with the letters of the marker, and every character behind them is taken |
| OutputBuffers.FlagTellsIff | crates/dimi-engine/src/tool.rs:86-132 | the flag is set exactly when the text differs from the input, for all inputs but those, and for none of those |
| OutputBuffers.TruncatedYetEqual | crates/dimi-engine/src/tool.rs:120-130 | a full line that goes on like the marker is kept as it is and yet truncated |
| OutputBuffers.TruncationCanHide | crates/dimi-engine/src/tool.rs:120-130 | there is an input that is truncated and comes out unchanged |
| TaskOutputs.TruncateUtf8ToBytes | crates/dimi-engine/src/tool.rs:488-497 | the loop yields the specified truncation |
| TaskOutputs.TruncatedIsLongest | crates/dimi-engine/src/tool.rs:480-497 | truncation keeps the longest prefix of whole characters within the cap |
| TaskOutputs.BackgroundTask.AppendAndEmit | crates/dimi-engine/src/tool.rs:791-808 | a chunk is appended up to the cap and emitted as exactly the appended delta |
| TaskOutputs.BackgroundTask.DrainOutput | crates/dimi-engine/src/tool.rs:815-831 | draining appends every waiting chunk and says whether there was any |
| TaskOutputs.BackgroundTask.SettleAs | crates/dimi-engine/src/tool.rs:2715-2810 | settling publishes the stored output; a subagent's text is stored unless it timed out or its session is gone |
| TaskOutputs.DeltasEqualSettle | crates/dimi-engine/src/tool.rs:538-739 | for every chunk sequence and way to settle, the settled output is the concatenated deltas and has at most 50,000 bytes, except for a subagent that timed out after streaming something |
| TaskOutputs.TimedOutAgentDiffers | crates/dimi-engine/src/tool.rs:538-739 | a subagent that streamed any text within the cap and timed out settles with nothing |
| TaskOutputs.LossMeansFull | crates/dimi-engine/src/tool.rs:768-808 | a chunk loses characters only when the output is within three bytes of the cap |
| TaskOutputs.ChunkMeans | crates/dimi-engine/src/tool.rs:768-808 | a chunk for which there is room is kept whole, and told as it is |
| TaskOutputs.SettleMeans | crates/dimi-engine/src/tool.rs:2715-2810 | a task settles once, with its status and what it streamed; a subagent whose session is gone is killed instead and shows nothing, nor does one that timed out; nothing changes later |
| Glob.GlobTokens | crates/dimi-engine/src/permission.rs:486-514 | the scanning loop yields the tokens |
| Glob.TokensRender | crates/dimi-engine/src/permission.rs:486-514 | tokenising loses nothing: the tokens print as the pattern |
| Glob.FillTable | crates/dimi-engine/src/permission.rs:439-476 | entry [i, j] holds exactly when the first i tokens match the first j characters |
| Glob.GlobMatch | crates/dimi-engine/src/permission.rs:433-477 | matches exactly when the trimmed pattern is a bare `*` or denotes the text |
| Glob.DenotesIff | crates/dimi-engine/src/permission.rs:425-477 | the recursive meaning of a pattern is that the text can be cut into one part per token, each covered by its token |
| Glob.NeverCrosses | crates/dimi-engine/src/permission.rs:425-432 | without `**` and a literal `/` no pattern but the bare `*` matches a text with a `/` |
| Glob.OneTokenIff | crates/dimi-engine/src/permission.rs:425-477 | a `*` matches the texts without `/`, `**` every text, `?` one character that is no `/`, and any other character itself |
| Glob.DenotesConcat | crates/dimi-engine/src/permission.rs:425-477 | two patterns in a row match exactly the texts that can be cut into one for each |
| Glob.TokensMean | crates/dimi-engine/src/permission.rs:486-514 | a pattern is read from the left, `**` before `*`, and every character but `*` and `?` as itself |
| Glob.PlainMatchesItself | crates/dimi-engine/src/permission.rs:425-477 | a pattern without wildcards matches itself only |

## Left out

- The wording of fixed texts (placeholder, reminders, skip and rejection messages, compaction prompts) is shortened; their role and number are modelled.
- Prompts, turn ids, origins, durations, retry delays with jitter, request ids, approval displays and thinking effort: data that is carried along and decides nothing. Assistant, thinking and tool-call deltas are one kind of stream event.
- Token estimation is an arbitrary function of a message, and the tool definitions an arbitrary number; the estimate's own formula (`context.rs`) would only add easy members. Usage counters are carried along unsummed.
- Counters are unbounded: the wrap-around of `u32` step and streak counters and of `u64` event counters is not modelled.
- TurnPauseTheorems.ApprovedTurnIsLikeIff: this and the theorems beside it cover runs in which the cancel flag is never seen set (races may still be lost to a cancellation): each pause asks the flag once more, so another flag history need not be the same for both runs.
- TurnRuns.EventsInOrder: this and the other theorems on event order, like those on an answered history, ask for executors that answer the call they are given (`TurnHistory.AnswersItsCall`), as the source takes the id of a result from the result; bounds, dedupe books, the limit of twelve and the repair of requests do not need it.
- Steering messages are user texts, as every sender in the repository makes them; that no accepted steer is lost is not claimed, since it does not hold when a turn ends by a stop or by its step limit.
- `TurnSessions.TurnSession.RunLoop` watches the loop for a given number of passes, because without a step limit it need not end; with a limit `TurnRuns.EveryTurnIsBounded` shows that it does.
- Summary requests are not claimed to be closed: after dropping the oldest message a retried one may start with a tool result, as in the source.
- Cancellation is seen by asking oracles at the points where the source looks or races; signal delivery and time are not modelled.
- The text of floats that are not integral: each is an opaque literal with a decimal point. Integral floats have no largest value in the model. Displaying a double is modelled by what it yields, the fewest digits that are read back as it and the nearest of those, not by its algorithm.
- Streaming, provider conversion, process handling, files, watchers and the host glue are outside the model; so are transcripts, pagination, the mobile and desktop interfaces.
- The event channel's events are opaque; an event that cannot be serialised counts as submitted. Mutual exclusion by the mutex is taken for granted: a critical section is one step.
- The relay's pairing, encryption and health routes, and the Durable Object's hibernation.
- A task sink that closes between a settle's state update and its event; the registry's limit on running tasks, which is not a bound under concurrency.
- Permission policies are arbitrary functions of a call; `evaluate`, sensitive paths and work-tree probing are lists of independent checks. Only glob matching is modelled.
