# A verified model of danso's durable journal

danso runs a language model in a loop with tools and keeps everything it did in an append-only journal, one JSON line per
entry. A run may die between any two lines; the next run rebuilds everything by reading the journal again. This project
models that protocol in Dafny and proves what it promises over any number of runs, crashes and resumes, together with the
compaction arithmetic and four smaller parts: output elision, cron retries, the stdout framer and backup/restore.

## The system in the model's terms

A **session** (`Durable.Session`) is a list of entries: messages, operation markers, compactions and long-task records.
Each names its predecessor. Whether the next append lands is a field of the session (`writable`), so that every method can
say exactly when it succeeds. Whether only long-task runs use the journal is a constant of the session (`longOnly`) that
only the proofs read.

The **reader** works in passes: the message scan with its tool-recovery table, the adjacency rules of creation and
interruption records, and the replay of the long-task ledger. `Journal.Read` does all of it one entry at a time, and is
proved to accept the same journals with the same result. Everything later is argued about that one step.

The **ledger** exists twice. Replay (`LongTask.Apply`) accepts more than live code ever writes; `LongTask.LiveWrites` says
what live code writes, and every live method of `Durable.Ledger` writes its record exactly when that predicate holds and
the append lands.

A **live journal** (`JournalHistory.Live`) is a readable one whose every entry the runtime may write where it stands
(`JournalHistory.MayWrite`): answers and markers while no task rests between two requests, a result while its call is
started, task records as live code writes them and with nothing in flight, unless they settle an answer with calls. What
holds of such journals is derived from that. `Runtime.Run` is the run loop with every crash point: each place where the
program can stop returns from the method, and what holds there is what the next run finds.

| modules | source |
|---|---|
| `LongTask`, `LongTaskHistory` | src/long_task.rs: records, replay, budgets, repeat stop, termination |
| `Messages`, `Compaction`, `Utf8`, `Summarizer`, `Elision`, `Evidence` | src/compaction.rs: checkpoints, receipts, fragments, elision |
| `Journal`, `JournalHistory`, `Durable` | src/session.rs and the ledger and status reader of src/long_task.rs |
| `Gate`, `Tools`, `Runtime` | src/runtime.rs: the provider gate, tool dispatch, the run loop |
| `CronRetry`, `CronHistory` | src/cron/retry.rs, src/cron/commit.rs, the due rule of src/cron/due.rs |
| `Framer`, `Chunking` | integrations/ccc_node.py: the stdout reader, and when its reads decide |
| `Trees`, `Backup`, `Snapshots`, `Restore`, `RoundTrip` | src/backup.rs |

## What is proved first

- Over any number of runs on one journal no tool call is executed twice, and every executed call carries the durable mark
  that blocks a replay (`Runtime.Lifetime`, `Runtime.ExecutedAtMostOnce`).
- After any number of runs that ended or died anywhere, every prefix of the journal is readable; if its ledger allows a
  resume then every call ever journaled has its result and is settled; a call is open only while the ledger waits or if it
  was journaled after the last task record; and if all runs were long ones, only while the ledger waits; and the task
  kept its request, token and record budgets (`Runtime.Lifetime`, from `JournalHistory.CrashPrefixIsSafe` and
  `JournalHistory.LiveIsFrugal`).
- In-memory ledger and journal agree after every live step, and a step that fails changes neither (`Durable.Ledger`).
- A summary is made from the whole context with old tool output elided: the requests sent carry exactly the longest
  fitting pieces of its encoding, in order, each with the summary of the pieces before it, and every request tried is
  counted on every exit (`Evidence.SummarizeContext`, `Runtime.Compact`).
- With compaction on no request of a run, for an action or a summary, exceeds the limit (`Runtime.Run`), and a gated
  request is sent only behind its durable reservation (`Gate.CompleteWith`).
- Compaction is transparent: receipts, open calls and the current request are those of the uncompacted history
  (`JournalHistory.CompactionTransparent`), and the runtime's comparison after a checkpoint cannot fail
  (`Runtime.WriteCheckpoint`).
- A live task writes at most 5 * max_requests + 3 records over all its runs (`LongTaskHistory.RecordBound`).
- The entries a run adds tell what its executor did: it ran exactly the admitted calls of the batches they hold, in order,
  and their results report exactly what it said; of the last batch of a run that died, at most one executed call is
  without its result. No batch follows the second alarm of a short run over identical batches (`Runtime.Run`).
- A restore gives back exactly the backed-up trees and touches nothing else, and accepts a fresh backup if and only if no
  copied entry is named like the token file, nesting stays within the restore's bound and the target lets it
  (`RoundTrip.IntactIffRestorable`, `RoundTrip.BackupAndRestore`).
- In any history its scheduler allows, a cron task runs its occurrences in order, numbers the runs of each 1, 2, 3, ... and
  never beyond the attempts of its policy; a second run is due exactly from the minute in which its delay ends until a
  newer occurrence comes up (`CronHistory.AttemptsAreBounded`, `CronHistory.RetryStarts`).

## Where the code does less than its words

- Replay accepts stage counts that do not add up: `tool_batch` overwrites the running count and `stage_checkpoint` does
  not compare it. `LongTaskHistory.StagesConservedIffHonest` gives the exact condition,
  `LongTaskHistory.DishonestBatchIsAccepted` a journal.
- `record_compaction` looks for any entry with the user role, the reader for a request that is neither a checkpoint nor a
  continuation notice. `Durable.Session.RecordCompaction` states exactly when the journal stays readable,
  `Durable.ContinuationOnlyIsUnreadable` gives a journal that does not.
- The id check before an answer is stored does not look at block types the reader refuses
  (`Tools.AnswerReadableIff`); `Runtime.RawAnswerIsUnreadable` is such an answer.
- A backup can be taken that its own restore refuses: depth is counted from different roots and the token file is known by
  path in one place and by name in the other (`RoundTrip.DeepTreeIsRefused`, `RoundTrip.NamesakeIsRefused`).
- With carriage returns, how the child's output is cut into reads can decide whether the cap is exceeded: exactly when one
  more byte fits after every prefix but the longest read does not (`Chunking.ReadingDecides`).
  `Chunking.ChunkingCanDecide` is a stream at the cap of 1 MiB in reads of at most 64 KiB. Without carriage returns reads
  decide nothing (`Framer.OverflowBounds`).
- A retry need not wait out its delay: the instant it is due is cut down to the minute. A retry is due early exactly
  if its delay is not in full minutes, and then by its odd seconds (`CronHistory.RetryMayBeEarly`); with a backoff of half
  a minute nothing is waited (`CronHistory.NothingIsWaited`). Delays count from the minute of the tick, not from the end
  of the payload.
- The bookkeeping of cron runs would number an occurrence from 1 again once as many other runs as rows are kept came after
  it (`CronHistory.RunsAreNumbered`, `CronHistory.ForgottenStartsOver`); the scheduler never asks for that
  (`CronHistory.AttemptsAreBounded`).

## Model

| member | source | states |
|---|---|---|
| `LongTask.TokenDelta.Total` | src/long_task.rs:158-166 | the total exists exactly when the four counts add up within 64 bits, and then is their sum |
| `LongTask.ReplayConsistent` | src/long_task.rs:225-521 | after every accepted record list: caps respected, elapsed time within the wall limit, one open reservation exactly while the provider is pending |
| `LongTaskHistory.Conservation` | src/long_task.rs:532-551 | requests, interruptions and tokens of the running task are the counts and sums of its records since creation, within the caps |
| `LongTaskHistory.ElapsedMonotone` | src/long_task.rs:523-530 | within a task elapsed times never decrease and never pass the wall limit; its limits never change |
| `LongTaskHistory.StagesConservedIffHonest` | src/long_task.rs:387-466 | requests equal checkpointed plus running stage counts after every record if and only if every recorded stage count was the one the ledger held |
| `LongTaskHistory.DishonestBatchIsAccepted` | src/long_task.rs:449-463 | a concrete accepted journal whose stage counts do not add up |
| `LongTaskHistory.LiveIsHonest` | src/long_task.rs:729-791 | live code only writes true stage counts |
| `LongTaskHistory.LiveBudget` | src/long_task.rs:603-621 | in live journals stage counts add up and the token cap is passed by the last request only |
| `LongTaskHistory.RepeatCountIsTailRun` | src/long_task.rs:413-466 | the repeat count is the length of the run of equal fingerprints that ends the task's tool batches, across checkpoints, pauses and resumes |
| `LongTaskHistory.StoppedIsSettled` | src/long_task.rs:761-791 | a task at its repeat limit is ready, paused or failed, never waiting |
| `LongTaskHistory.RepeatStopIsFinal` | src/long_task.rs:557-566 | once the repeat limit is reached no request of that task is ever started again |
| `LongTaskHistory.RecordBound` | src/long_task.rs:603-838 | a live task writes at most 5 * max_requests + 3 records over all runs and resumes |
| `Compaction.TrimIsLongestFitting` | src/compaction.rs:205-207 | trimming keeps the longest suffix of at most 4 receipts and 1024 bytes |
| `Compaction.TrimTrim` | src/compaction.rs:205-207 | trimming early loses nothing: windows compose over any cut |
| `Compaction.WindowIsLongestSuffix` | src/compaction.rs:161-208 | the sliding window over any message list is the longest fitting suffix of all its receipts |
| `Compaction.CheckpointCarries` | src/compaction.rs:209-217 | a checkpoint hands on its receipts and the current request unchanged |
| `Compaction.TrimReceipts` | src/compaction.rs:205-207 | the trimming loop computes that suffix |
| `Compaction.ObserveMessage` | src/compaction.rs:164-208 | one turn of the loop: the effect of one message on receipts and open calls |
| `Compaction.BuildCheckpoint` | src/compaction.rs:161-217 | the loop gives the latest request and one checkpoint with the windowed receipts, or fails exactly on an invalid call or a missing request |
| `Journal.ReadIsAccepted` | src/session.rs:288-348 | the reader's separate passes accept what the one-step reader accepts, with the same result |
| `Journal.ReadPrefix` | src/session.rs:288-348 | every prefix of a readable journal is readable |
| `Journal.InsertCallsExact` | src/session.rs:370-386 | calls of a message are taken exactly when their ids are new to the whole journal and distinct, and nothing else changes |
| `JournalHistory.CompactionTransparent` | src/session.rs:310-327 | for every accepted journal the compacted context and the full history agree on receipts, open calls and current request |
| `JournalHistory.CheckpointOfFullHistory` | src/compaction.rs:161-241 | a checkpoint built now equals the checkpoint of the uncompacted history, and carries the longest fitting suffix of all receipts |
| `JournalHistory.CrashPrefixIsSafe` | src/session.rs:256-277 | every prefix of a live journal is accepted; a resumable ledger means every call is settled; an open call means a waiting ledger or no task record since it was journaled, and where only long runs wrote, a waiting ledger |
| `JournalHistory.OpenCallsAreRecent` | src/runtime.rs:976-1110 | a call that is open while the ledger waits for nothing was journaled after the last task record |
| `JournalHistory.LiveAtRest` | src/runtime.rs:976-1110 | from what the runtime writes in which state: while the ledger rests, and after every task record, nothing is in flight unless the ledger waits for it |
| `JournalHistory.LiveIsFrugal` | src/long_task.rs:532-838 | the running task of a live journal keeps its request, token and record budgets and starts nothing after its repeat stop |
| `JournalHistory.LiveJournalRecords` | src/long_task.rs:1069-1072 | the task records of a live journal are live records, so all budget laws apply |
| `Durable.RecoveryTable.Message` | src/session.rs:359-399 | accepts a message exactly when the recovery rules do, with the same table after |
| `Durable.RecoveryTable.Operation` | src/session.rs:400-419 | accepts a marker exactly in the order started, result, settled |
| `Durable.Session.Append` | src/session.rs:211-239 | draws an unused id, and adds one linked entry exactly when the write lands, else changes nothing |
| `Durable.Session.RecordLongTask` | src/session.rs:78-84 | the same for a task record |
| `Durable.Session.CheckRecovery` | src/session.rs:256-277 | true exactly for an accepted journal with nothing in flight |
| `Durable.Session.Messages` | src/session.rs:250-254 | the rebuilt context, exactly when recovery is complete |
| `Durable.Session.ToolCallIds` | src/session.rs:35-37 | the ids of every call ever journaled, compacted or not |
| `Durable.Session.RecordCompaction` | src/session.rs:41-57 | succeeds exactly on a settled journal with a user entry and a valid summary; afterwards the journal is readable if and only if the context held a request, and then rereads as the checkpoint messages |
| `Durable.CompactionReads` | src/session.rs:310-327 | the reader's side of that |
| `Durable.ContinuationOnlyIsUnreadable` | src/session.rs:41-57 | a journal whose only user entry is a continuation notice takes a valid compaction and is unreadable after it |
| `Durable.ScanEntries` | src/session.rs:288-348 | the reading loop accepts exactly the accepted journals and returns their context and recovery table |
| `Durable.ValidateBindings` | src/long_task.rs:1031-1065 | true exactly when creations follow their prompt and interruptions their request |
| `Durable.InspectEntries` | src/long_task.rs:947-1025 | the read-only status accepts the readable journals with unique ids; it reports a resume exactly when the reader finds nothing in flight and the replayed ledger allows one |
| `Durable.Ledger.Apply` | src/long_task.rs:225-521 | the mutating replay step accepts and computes what the specification of replay does |
| `Durable.Ledger.AddRequest` | src/long_task.rs:532-551 | counts one request exactly when the request cap and 64 bits allow it |
| `Durable.FromRecords` | src/long_task.rs:217-223 | rebuilds the ledger exactly from an accepted record list |
| `Durable.Ledger.BeginRequest` | src/long_task.rs:603-634 | reserves exactly when resume is allowed, the clock is in order and the record lands; memory then equals replay, else nothing changed |
| `Durable.Ledger.SettleRequest` | src/long_task.rs:656-691 | settles the open reservation under the same law |
| `Durable.Ledger.FailRequest` | src/long_task.rs:693-727 | fails the open reservation under the same law |
| `Durable.Ledger.InterruptRequest` | src/long_task.rs:636-654 | records an interruption by replaying it on a copy first, under the same law |
| `Durable.Ledger.StageCheckpoint` | src/long_task.rs:729-759 | ends a stage under the same law |
| `Durable.Ledger.RecordToolBatch` | src/long_task.rs:761-791 | records a settled batch and its repeat count under the same law |
| `Durable.Ledger.FailTerminal` | src/long_task.rs:793-809 | ends the task as failed under the same law |
| `Durable.Ledger.Pause` | src/long_task.rs:811-826 | pauses a ready task under the same law |
| `Durable.Ledger.Complete` | src/long_task.rs:828-838 | completes a task whose final answer is stored under the same law |
| `Utf8.OffsetIsBoundary` | src/compaction.rs:311-315 | offsets of characters are boundaries by the byte test |
| `Utf8.BoundaryIsOffset` | src/compaction.rs:52-68 | and every boundary by the byte test is the offset of a character |
| `Utf8.FloorBoundary` | src/compaction.rs:52-58 | the largest boundary at or below an index |
| `Utf8.CeilBoundary` | src/compaction.rs:60-68 | the smallest boundary at or above an index |
| `Summarizer.TableShift` | src/compaction.rs:307-330 | the boundary table of the whole text, from an offset on and shifted, is the table of the rest |
| `Summarizer.PartitionPoint` | src/compaction.rs:328 | the first table index not below an offset |
| `Summarizer.FragmentEnd` | src/compaction.rs:324-362 | the binary search finds a cut that fits while the next does not; under a monotone wire size, the longest fragment that fits |
| `Summarizer.ReadSummary` | src/compaction.rs:393-416 | only a terminal reply made of text can be a summary |
| `Summarizer.AskForSummary` | src/compaction.rs:363-427 | the request for one fragment, sent once or twice with the shared repair; always leaves a turn |
| `Summarizer.TakeFragment` | src/compaction.rs:318-428 | one fragment with its summary: what was sent is the longest piece that fits, or nothing |
| `Summarizer.FragmentRequest` | src/compaction.rs:324-362 | the request for the longest fragment that fits, unless not even one character does |
| `Summarizer.Summarize` | src/compaction.rs:289-434 | on success exactly the fragments were sent, in order, each the longest that fits, cut between characters, with the summary before it, and concatenate to the whole text, with at most one repair; on every exit no request exceeded the threshold, the counter fell by exactly the requests tried, at most the fragment limit and one, and at least one turn is left |
| `Evidence.SummarizeContext` | src/compaction.rs:292-305 | the text summarized is the serialized context after eliding old tool output: the fragments sent are, in order, exactly its encoding, each the longest that fits |
| `Gate.TaskGrown` | src/long_task.rs:603-838 | one landed live record: the in-memory ledger is again the replay of the journal, which stays readable and live |
| `Gate.DropWait` | src/runtime.rs:167-204 | a dropped wait writes exactly one interruption or nothing; never while panicking; a deadline uses up the wall clock |
| `Gate.SettleSummary` | src/runtime.rs:282-300 | a summary is settled at once; it counts only below the token budget, and a spent budget ends the run with the task ready or paused |
| `Gate.AwaitReply` | src/runtime.rs:251-325 | every outcome of a reserved request leaves the journal live and exactly its records: a settled summary, a failure, an interruption, a pause at a spent budget, or none; an answer leaves ledger and journal in step |
| `Gate.CompleteWith` | src/runtime.rs:235-326 | one gated request: sent only once its reservation is durable, followed in the journal by its outcome, or by nothing if the run died or the action is still to be settled |
| `Tools.AnswerReadableIff` | src/session.rs:370-386 | a stored answer with fresh ids is readable if and only if every block is text or a tool call |
| `Tools.BatchStarts` | src/runtime.rs:976-999 | storing an answer with fresh ids opens exactly its calls |
| `Tools.AnswersInOrder` | src/runtime.rs:1056-1110 | one answer per call, in call order; a refused call is answered with an error |
| `Tools.RunTool` | src/runtime.rs:1057-1110 | start marker, effect, result, settlement: an admitted call is executed once and answered with its outcome, a refused one never executed, and no crash in between allows a replay |
| `Tools.RunTools` | src/runtime.rs:1056-1110 | the executor runs exactly the admitted calls in order, or a first part of them, and at every end the results journaled report exactly what it said, for all of them but perhaps the last; when the batch ends nothing is in flight and the context holds all answers |
| `Tools.ExactIsAnswered` | src/runtime.rs:1056-1110 | if the batches of a run are exactly what the executor did, every call has one answer and the executor was given the admitted calls of all batches, in order |
| `Runtime.PauseIfRequested` | src/runtime.rs:406-422 | stops only a ready or paused task; a ready one is paused by exactly one record if it lands, otherwise nothing changes |
| `Runtime.CheckBudgets` | src/runtime.rs:658-695 | goes on only when the clock it read is below the wall limit and the tokens below their budget; a stop has a spent budget or a pause request, and a ready task is then paused by one record if it lands; the request budget is never found spent while the loop counter is positive |
| `Runtime.Compact` | src/runtime.rs:711-828 | leaves the context alone exactly within the limit; else the whole elided context was sent in pieces and the checkpoint replaces it; either way the request that follows is within the limit, as is every summary request; recovery and counter plus ledger requests are kept, and a turn is always left, so the decrement after it cannot underflow |
| `Runtime.WriteCheckpoint` | src/runtime.rs:815-825 | the reread context equals the computed one, so the consistency check never fires |
| `Runtime.AddIds` | src/runtime.rs:977-979 | succeeds exactly when every id of the answer is new and distinct |
| `Runtime.AskAction` | src/runtime.rs:862-943 | the action request, gated in a long task and sent directly otherwise |
| `Runtime.FailPendingAction` | src/runtime.rs:375-387 | a refused answer fails its reservation with its usage, exactly when the record may be written and lands |
| `Runtime.SettlePendingAction` | src/runtime.rs:389-401 | a stored answer settles its reservation as tools or final |
| `Runtime.StoreAnswer` | src/runtime.rs:976-999 | a stored answer keeps the journal readable and its calls are the open batch |
| `Runtime.AfterBatch` | src/runtime.rs:1111-1167 | the run goes on only from a ready ledger below its repeat limit |
| `Runtime.MaybeCheckpoint` | src/runtime.rs:1131-1166 | a run that goes on has ended its stage exactly if the stage was due, below the stage it was to pause after, and otherwise changed nothing; counters and repeat count stay |
| `Runtime.BeforeRequest` | src/runtime.rs:657-853 | from the loop head to the request: one turn is set aside, and the request about to be sent is within the limit |
| `Runtime.ReceiveAnswer` | src/runtime.rs:862-1015 | the request carries exactly the instructions measured and the context; only an answer that passed all checks is stored, and then settled; any other leaves no entry but task records |
| `Runtime.RawAnswerIsUnreadable` | src/runtime.rs:944-979 | an answer that passes every check before it is stored, after which the journal is unreadable |
| `Runtime.Continue` | src/runtime.rs:1017-1036 | a continuation notice keeps the loop head |
| `Runtime.CompleteTask` | src/runtime.rs:1047-1051 | completion is recorded before the answer is given |
| `Runtime.FinishOrContinue` | src/runtime.rs:1016-1055 | a text answer ends the run, or continues only when cut off and allowed |
| `Runtime.GuardShortRun` | src/runtime.rs:1168-1189 | when the batches of a short run end in limit or more identical ones the first time warns and the next ends the run, and never otherwise |
| `Runtime.RunBatch` | src/runtime.rs:1056-1189 | a settled batch returns to the loop head with all answers in the context; at any end the results journaled report what the executor did; the guard of short runs ends it exactly at its second alarm |
| `Runtime.Turn` | src/runtime.rs:657-1190 | one turn keeps the journal and the execution guarantee, keeps the batches journaled since the run began in step with the executor, sends only requests within the limit, and uses up part of the budget |
| `Runtime.Admission` | src/runtime.rs:517-563 | what an invocation may do with the task it finds |
| `Runtime.StorePrompt` | src/runtime.rs:590-602 | the prompt is durable before anything else |
| `Runtime.CreateTask` | src/runtime.rs:603-616 | the creation record directly follows its prompt and replays to a fresh ready ledger |
| `Runtime.Start` | src/runtime.rs:564-646 | an admitted run enters the loop with counter plus ledger requests equal to the request budget |
| `Runtime.Loop` | src/runtime.rs:657-1204 | the loop ends; at every head memory equals the reread journal, counter plus ledger requests is constant, and the batches journaled since the run began are exactly what the executor did, with one alarm at most |
| `Runtime.Run` | src/runtime.rs:449-1204 | for any journal: a run is refused exactly when it is not admissible, also because the journal is unreadable, and then changes and sends nothing; a finished run has its answer stored last and its task completed; the batches in the entries it added are exactly what the executor ran and said, a part of the last one if it died; no batch follows a second alarm; every request was within the limit; every end keeps the guarantees |
| `Runtime.Lifetime` | src/runtime.rs:449-1204 | over any number of runs and crashes, each with its own policy: every prefix of the journal is readable, resumable only when all is settled, accounts for its open calls and keeps the task's budgets; no call is executed twice |
| `Runtime.ExecutedAtMostOnce` | src/runtime.rs:976-1110 | what that means for one id: executed once, journaled, and settled whenever a next run may start |
| `Elision.FloorIsLongest` | src/compaction.rs:52-58 | the kept head is the longest prefix within its limit |
| `Elision.TailIsLongest` | src/compaction.rs:60-68 | the kept tail is the longest suffix within its limit |
| `Elision.MarkerFits` | src/compaction.rs:70-88 | the marker stays under 256 bytes for every 64-bit count |
| `Elision.ElideFacts` | src/compaction.rs:70-88 | elision keeps whole characters of both ends, reports exactly the bytes cut, strictly shrinks, and has nothing to do on its own result |
| `Elision.ElideText` | src/compaction.rs:70-88 | the byte-level search computes that elision |
| `Elision.ElideStaleToolResults` | src/compaction.rs:90-125 | in place, only text of tool results older than the newest k changes, and the result is the number of bytes cut |
| `Elision.ElisionIsIdempotent` | src/compaction.rs:90-125 | a second pass changes nothing |
| `CronRetry.FromSpec` | src/cron/retry.rs:23-39 | every policy is within its bounds |
| `CronRetry.DelayIsIdeal` | src/cron/retry.rs:44-52 | for every policy and attempt the saturating delay is the mathematical one |
| `CronRetry.DelayMonotone` | src/cron/retry.rs:44-52 | a later attempt never waits less |
| `CronRetry.CronTask.HistoryAttempt` | src/cron/commit.rs:78-91 | one past the highest attempt on record for the occurrence |
| `CronRetry.CronTask.AppendRunHistory` | src/cron/commit.rs:96-112 | evicted and kept rows are the old rows and the new one, in order; the cap holds |
| `CronRetry.CronTask.ApplyRetryTransition` | src/cron/commit.rs:197-261 | the retry state after one finished run |
| `CronRetry.CronTask.ApplyRunLimit` | src/cron/commit.rs:158-169 | counts the run and disables the task at its limit |
| `CronRetry.CronTask.Book` | src/cron/run.rs:387-425 | the fields after one run, in order, with the run limit and the end of a one-shot task |
| `CronRetry.CronTask.RecordRun` | src/cron/run.rs:387-453 | the bookkeeping of one run on a copy: the task changes exactly when the evicted rows were archived and the copy was committed, and is quarantined as it was otherwise |
| `CronHistory.RunsKeepNumbering` | src/cron/commit.rs:78-112 | after any runs the kept rows of each occurrence are numbered upwards, and a retry state names the newest row |
| `CronHistory.HistoryIsNewest` | src/cron/commit.rs:96-112 | the kept history is the newest rows of all ever written, whatever was archived in between |
| `CronHistory.NextNumber` | src/cron/commit.rs:78-91 | the next run of an occurrence gets one more than its last if that is among the rows kept, else 1 |
| `CronHistory.RunsAreNumbered` | src/cron/commit.rs:78-112 | over any runs of any occurrences and outcomes, those of a new occurrence are numbered 1, 2, 3, ... if and only if each comes while the one before is on record |
| `CronHistory.RetryFollowsLastRun` | src/cron/commit.rs:158-261 | the retry state always speaks of the last run, whatever was pending before, and is gone with the run limit |
| `CronHistory.RetriesUntilExhausted` | src/cron/retry.rs:70-109 | after any runs: a retry is on offer exactly when the last run failed under a policy and the limit is not reached; it is ready exactly from a known minute on while attempts are left, and exhausted otherwise |
| `CronHistory.ExhaustedForGood` | src/cron/retry.rs:70-109 | an exhausted occurrence is never ready again, whatever runs in between, while its runs stay on record |
| `CronHistory.ForgottenStartsOver` | src/cron/commit.rs:78-112 | and once they are not, it starts over at 1 and can be ready again |
| `CronHistory.RunsAreInOrder` | src/cron/due.rs:158-242 | occurrences run in the order of their scheduled times, so the runs of one follow each other |
| `CronHistory.AttemptsAreBounded` | src/cron/due.rs:158-242 | in any history of due runs of a new task every occurrence is numbered 1, 2, 3, ..., runs at most as often as the policy has attempts, and the run limit holds |
| `CronHistory.RetryWaits` | src/cron/due.rs:158-242 | a second run of an occurrence directly follows a failed one with attempts to spare, no earlier than the minute in which its delay ends |
| `CronHistory.RetryStarts` | src/cron/due.rs:193-235 | in any history of due runs: the last occurrence is due again exactly if it failed under a policy with attempts to spare, the run limit is not reached, the full minutes of its delay are over, and nothing newer has come up |
| `CronHistory.RetryMayBeEarly` | src/cron/commit.rs:245-252 | there is a first minute from which it is due as long as nothing newer is; it comes before the end of the delay if and only if the delay is not in full minutes, and then by less than a minute |
| `CronHistory.NothingIsWaited` | src/cron/commit.rs:245-252 | two due runs of one occurrence at the same instant, under a backoff of 30 seconds |
| `Framer.SplitResumes` | integrations/ccc_node.py:383-393 | splitting lines can be resumed from the pending bytes |
| `Framer.SizeExact` | integrations/ccc_node.py:370-393 | counted plus pending bytes are the bytes read less the stripped carriage returns |
| `Framer.OverflowBounds` | integrations/ccc_node.py:372-393 | without carriage returns a stream overflows exactly when its bytes with line ends exceed the cap, in whatever reads; with them these are the outer bounds |
| `Framer.StdoutReader.Consume` | integrations/ccc_node.py:370-380 | one line goes to the answer or the queue, or fails the cap |
| `Framer.StdoutReader.Drain` | integrations/ccc_node.py:387-391 | takes exactly the terminated lines out of the pending bytes |
| `Framer.StdoutReader.ReadChunk` | integrations/ccc_node.py:383-393 | one read |
| `Framer.StdoutReader.ReadStdout` | integrations/ccc_node.py:364-398 | without a failure, events and answer are those of splitting the whole stream; it fails exactly on overflow; the cap holds and the end is marked in every case |
| `Chunking.PassingIsPassable` | integrations/ccc_node.py:383-393 | if any reads of a stream pass, one more byte fits after each of its prefixes |
| `Chunking.SomeReadingPasses` | integrations/ccc_node.py:383-393 | some way of reading passes if and only if one more byte fits after every prefix, if and only if reading byte by byte passes |
| `Chunking.EveryReadingPasses` | integrations/ccc_node.py:383-393 | every way of reading in reads of at most w bytes passes if and only if the longest possible read fits after every prefix |
| `Chunking.UnboundedReads` | integrations/ccc_node.py:383-393 | for reads of any length that condition is that all bytes, and all lines, fit the cap |
| `Chunking.ReadingDecides` | integrations/ccc_node.py:383-393 | the reads decide if and only if a byte always fits but the longest read does not |
| `Chunking.PaddedLineDecides` | integrations/ccc_node.py:370-393 | for every cap from 2 and reads from 3 bytes, a padded first line makes the reads decide |
| `Chunking.ChunkingCanDecide` | integrations/ccc_node.py:383-393 | at the program's cap and read size the same bytes pass in some reads and fail in others |
| `Trees.WalkIsExact` | src/backup.rs:1206-1262 | the walk lists exactly the directories and files that a path leads to |
| `Backup.CopyTree` | src/backup.rs:679-748 | copies and counts exactly what is not excluded within the bounds, fails exactly on a counter overflow, and warns exactly when something else is left out |
| `Backup.CopyEntry` | src/backup.rs:710-745 | the same for one entry |
| `Backup.TreeCopyIsKept` | src/backup.rs:679-763 | a copied tree holds only files and directories, none with a credential name, none too wide |
| `Backup.WholeIsPruned` | src/backup.rs:687-748 | when no warning was due, the bounds played no part |
| `Backup.PrunedIsExact` | src/backup.rs:750-763 | the copy holds what the source holds, path by path, except for what is excluded or below it |
| `Snapshots.ScopesAreKept` | src/memory/paths.rs:33-41 | no memory scope name looks like a credential, so leaving scopes unchecked is safe |
| `Snapshots.BuildMemory` | src/backup.rs:562-639 | the memory component, counted, with a warning exactly when it is not everything |
| `Snapshots.BuildSub` | src/backup.rs:663-676 | one tree of a component, counted, with a warning exactly when it is not everything |
| `Snapshots.Create` | src/backup.rs:373-502 | a snapshot is taken exactly when the configuration is readable, valid and not the token file, and no count overflows; its manifest records every component |
| `Restore.RejectCredentialMaterial` | src/backup.rs:1049-1081 | true exactly for a snapshot without suspicious names, within depth and width |
| `Restore.RestoreComponent.ScanDirectory` | src/backup.rs:1206-1262 | lists and counts exactly what lies below, or refuses exactly what may not be there |
| `Restore.ScanComponent` | src/backup.rs:996-1039 | accepts a component exactly when its recounted files and bytes are those of the manifest |
| `Restore.Preflight` | src/backup.rs:976-1047 | accepts exactly the intact snapshots and plans exactly their directories and files |
| `Restore.SortByDepth` | src/backup.rs:1395-1402 | no directory is ordered before one that holds it |
| `Restore.InspectTarget` | src/backup.rs:1293-1378 | lets a target pass exactly when it is empty, or with force holds no configuration, and nothing planned meets something of another kind |
| `Restore.WriteRestore` | src/backup.rs:1380-1475 | a target that passed gets exactly the planned directories and files, and everything else stays as it was |
| `RoundTrip.AllIsExact` | src/backup.rs:990-1047 | the whole plan lists exactly what the components of the snapshot hold |
| `RoundTrip.RestoreInto` | src/backup.rs:951-974 | with and without force: succeeds exactly on an intact snapshot and a target that allows it; then the target holds what the components hold and is otherwise as it was, else nothing changed |
| `RoundTrip.IntactIffRestorable` | src/backup.rs:986-1039 | a fresh snapshot is accepted if and only if no entry is named like the token file and the tree is at most 64 deep from its root |
| `RoundTrip.BackupAndRestore` | src/backup.rs:373-502 | the round trip into any target, with the exact condition for its success |
| `RoundTrip.RestoredTelegram` | src/backup.rs:643-677 | without a warning, a restored Telegram tree is the source tree except for what is excluded, where the target stays as it was |
| `RoundTrip.RestoredMemory` | src/backup.rs:562-639 | without a warning, the trees of every memory scope come back the same way |
| `RoundTrip.DeepTreeIsRefused` | src/backup.rs:1054-1056 | a tree the backup copies and the restore refuses for its depth |
| `RoundTrip.NamesakeIsRefused` | src/backup.rs:1065-1069 | a file the backup copies and the restore takes for the token file |

## Left out

- Ids and digests are opaque numbers; 0 stands for the empty id. The fingerprint of a batch is a function of its calls and answers that each run brings with it. UUID drawing, SHA-256 and JSON text are not modelled; a record that fails its shape checks is one value, `Malformed`.
- File locks, fsync, permissions, the 16 MiB cap and torn last lines: an append lands whole or not at all, and `writable` decides.
- Opening a session file (header, version, working directory) is not modelled; unique entry ids, which opening checks, are a precondition of a run.
- The clock is any sequence of readings, kept by `Gate.Host`; only the ledger enforces order. Event sinks, progress frames, streaming, usage counters, prompt wording and budget guidance are left out; a sink error is one of the crash points.
- Provider replies are arbitrary; the adapters build assistant messages from text and tool calls only, which `Gate.ProviderReply` states as their contract.
- Runtime.Run: validation of the provider history, executor preflight and configuration range checks count as crash points or are left out.
- Runtime.Compact: the serialization of the evidence and the sizes of requests are functions each run brings with it; instructions and guidance are written anew for every request.
- Compaction.CheckpointCarries: a checkpoint is a message of its own kind; a journaled message that carries the checkpoint flag under another role is not modelled.
- The stage counter is an unbounded number; a live task advances it at most max_requests times.
- Durable.Ledger.AddRequest: a failing call may leave counters moved, as in the program; its callers drop the ledger then.
- CronRetry.CronTask.RecordRun: instants are whole seconds and an occurrence is its scheduled time; whether archive and commit succeed are parameters; a task removed meanwhile, a failing quarantine, store validation and edits of the task by its user are left out.
- CronHistory.AttemptsAreBounded: which occurrence has come up since the last one run (schedule, time zone, catch-up) is a function of the task, `Proper` if it only names later ones. Every run is recorded, and ticks are taken one at a time: the program plans before it takes the task's lock and does not plan again after it, so two overlapping ticks can run one occurrence twice from the same plan.
- Framer.StdoutReader.ReadStdout: which line is a frame is a parameter, and so is the cap, 1 MiB in the program; stderr framing and process handling are left out.
- Backup.CopyTree: failed writes, file modes and the distinct warning names are left out; directory listings have a fixed order; names are text.
- Restore.Preflight: answers yes or no without the error category; the manifest's own parsing, version and timestamps are left out.
- Legacy-root warnings, CLI parsing, provider adapters, update, service and fetch code are left out as plumbing.
