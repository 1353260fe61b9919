# cloud-swe protocol proofs

A Dafny model of the hand-written protocols behind cloud-swe, a durable backend for cloud coding agents, and proofs of
what they guarantee across functions, workers, crashes and reconnects.

**Git write protocol** (`GitRecords`, `GitTransactions`, `GitBroker`, `GitBrokerSafety`, `GitBrokerOutcomes`,
`GitBrokerLimits`, `GitStore`). Proposals wait for a user's approval and are executed by broker calls that claim, write
to the remote and record what they saw. Each database transaction is a function from rows to rows, because it holds the
thread, workspace and run locks throughout; `GitTransactions` says row by row when these rows move and what they become.
`GitBroker` interleaves these functions with any number of broker calls, recovery without a context, cancellation,
generation bumps, crashes, a clock and a remote that may lose answers; `GitStore` is the store that performs them step by
step and keeps its event log replaying to its rows. `GitBrokerOutcomes` says when a call gets to write and what it records
for every answer of the remote.

**Human waits** (`RunWaits`, `RunnerAttempts`). Approvals and questions suspend a run; elapsed execution time leaves the
waits out.

**Persistence writer and delta coalescer** (`PersistenceWriter`, `DeltaCoalescer`). A bounded FIFO with commit
acknowledgements and four failure modes, and the buffer that joins streamed text pieces.

**Event replay** (`EventPages`, `SseDecoder`, `SseStream`, `EventReader`, `EventDelivery`, `ThreadProjection`,
`ProjectionMeaning`, `SnapshotReconcile`). Pages of the committed log become an event stream, which is cut into chunks,
decoded, read with reconnects and folded into the projection that the browser shows; `ProjectionMeaning` says what each
event, and a whole log, makes of what is shown.

**Fenced guest commands** (`GuestJournal`, `CommandCoordinator`, `JournalResponse`, `ProgressFrames`, `LiveOutput`).
A journal with two file locks in the guest, the coordinators that observe it over a transport that may fail, the printed
responses and their parsers, and the live output of a running command.

**Workspace continuity** (`ModalLineage`, `RepositoryCheckout`, `ThreadWorkflow`, `PersonWait`). Which filesystem a
returned sandbox holds, a checkout that can be killed anywhere, and the per-thread workflow loop.

**Texts and graphs** (`MultiEdit`, `ReadWindow`, `Checkpoint`, with `Text` and `Wrappers` beside them).

Protocols are state machines: `Next` performs one action, `Execute` a schedule of them, and a lemma over all schedules
carries an inductive invariant; beside these safety results stands, for each machine, what a run that nothing disturbs
does from beginning to end. Objects that the program updates in place are classes whose methods are tied to
specification functions; `Valid` is what every reachable object satisfies. Ghost fields record history that the program
does not keep.

## Where the code does not do what one might expect

Each of these is a theorem below, with the exact condition or a concrete run.

- Two writes to one repository can be under way at once: the exclusion covers rows, and recovery can settle a row before
  its own call has written (`packages/api/src/routers/git-broker.ts:374-388`).
- A push that was applied can be recorded as failed: its read-back is judged by the same error codes as the push, although
  the comment there speaks of confirmed rejections only (`packages/api/src/routers/git-broker.ts:395-401`).
- Both waits of a run can be open at once. A proposal can be published while a question wait is open, because
  `publishGitProposal` looks at its own wait only (`packages/db/src/git-store.ts:71`), and the runner starts an attempt
  over an answered question whose wait was not resumed (`apps/runner/src/activities.ts:737-741`). A checkpoint with a
  fresh proposal and a fresh question opens both as well, because both publications get the run row as it was locked
  (`packages/db/src/threads/checkpoints.ts:97-137`); no runner attempt carries both. Elapsed time then jumps back.
- A timed-out completion after an overflow or producer failure leaves its pending acknowledgements unsettled
  (`apps/runner/src/pi-persistence.ts:342-349`).
- A reconciler that listed a row while it was queued can later record a dispatched command as abandoned before dispatch
  (`apps/runner/src/execution-coordinator.ts:637-663`).
- A script outlives its wrapper, whose death releases the workspace (`apps/runner/src/guest-command.ts:296-311`).
- An output that starts a line with its own end marker is cut there, and a standard output that ends a line with the
  marker that begins the other section moves that section (`apps/runner/src/guest-command.ts:576-586`).
- Content that others write into the workspace between the emptiness test and the marker, or at any time while the
  marker stands, can be deleted by a rerun (`apps/runner/src/repository.ts:368-379`, `apps/runner/src/repository.ts:261-271`).
- A deletion can be confirmed over a capture that the provider failed to report (`apps/runner/src/modal.ts:432-477`).
- A literal edit is called unambiguous although a second occurrence overlaps the first
  (`apps/runner/src/guest/file-tools.py:119-121`).

## Model

| member | source | states |
|---|---|---|
| `GitBroker.FailureIsHonestUnlessMisread` | packages/api/src/routers/git-broker.ts:391-406 | A call records failure for a write the remote applied exactly when a push was applied and its own read-back is answered with one of the rejection codes; recovery, which never dispatches, never records failure |
| `GitBrokerSafety.RepositoryExclusion` | packages/db/src/git-store.ts:325-339 | Under every schedule of store transactions, broker calls, crashes and clock ticks at most one operation of a repository is executing or unknown, proved from the guards without a unique index |
| `GitBrokerSafety.DispatchedAtMostOnce` | packages/db/src/git-store.ts:296-348 | Whatever crashes, retries and recoveries happen, no operation is sent to the remote twice, and only what was sent was applied |
| `GitBrokerSafety.OnlyConsentedContentIsWritten` | packages/db/src/git-store.ts:202-239 | Whatever was sent, or counts as executing, unknown or succeeded, is approved, and its own user approved the digest of exactly that content |
| `GitBrokerSafety.SettledRowsAreHonest` | packages/api/src/routers/git-broker.ts:266-406 | A failed row whose write was applied is one of the misread pushes; a succeeded creation or comment was applied; a row that is not started was never sent |
| `GitBrokerSafety.TerminalRowsNeverChange` | packages/db/src/git-store.ts:366-370 | No action of the system changes any field of a row that succeeded or failed |
| `GitBrokerSafety.ExecutionStartsOnlyByLiveClaim` | packages/db/src/git-store.ts:308-348 | A row becomes executing only through a claim by the current owner of a live run, in the current generation, approved, unexpired and with its repository free; recovery without a context never starts a write |
| `GitBrokerSafety.OverlapBeginsExactlyThere` | packages/api/src/routers/git-broker.ts:257-268 | A step makes two calls write to one repository at once exactly when it is a claim whose guards hold by one of them, beside a call that is about to write although its row has already succeeded |
| `GitBrokerSafety.ReachableIsSafe` | packages/api/src/routers/git-broker.ts:217-407 | The inductive invariant behind these results (rows, exclusion, history, what every call remembers, one dispatcher per operation) holds after every schedule |
| `GitBrokerSafety.StepKeepsInv` | packages/api/src/routers/git-broker.ts:217-407 | Every single action keeps that invariant |
| `GitBrokerSafety.ConcludeKeepsInv` | packages/api/src/routers/git-broker.ts:266-406 | Looking, judging and recording keeps it, whether or not the recording transaction committed before it threw |
| `GitBrokerSafety.SendKeepsInv` | packages/api/src/routers/git-broker.ts:268-371 | So does the remote write, whatever becomes of its answer |
| `GitBrokerSafety.RejectionKeepsInv` | packages/api/src/routers/git-broker.ts:242-255 | So does failing a row that is still not started, the only way a row can fail without being approved |
| `GitBrokerSafety.TransactionIsBenign` | packages/db/src/git-store.ts:49-295 | Every store transaction outside a call adds rows only as fresh pending proposals and changes a row only by deciding it while nothing has been dispatched |
| `GitBrokerLimits.WritesToOneRepositoryCanOverlap` | packages/api/src/routers/git-broker.ts:374-388 | A schedule on which two calls are cleared to write to one repository at the same time, after recovery settled the first operation early |
| `GitBrokerLimits.AnAppliedPushCanBeRecordedAsFailed` | packages/api/src/routers/git-broker.ts:267-277 | A schedule on which a push that reached the remote is recorded as failed |
| `GitBrokerOutcomes.SuccessIsRecordedExactlyWhenShown` | packages/api/src/routers/git-broker.ts:279-388 | From every safe state a call records success, with its receipt, exactly when the remote acknowledged a creation, a comment or a merge, or when a look found what was approved |
| `GitBrokerOutcomes.ProblemsAreRecorded` | packages/api/src/routers/git-broker.ts:391-406 | Every refusal, moved head, lost answer and unreadable look is recorded with its code: as failed exactly for a rejection of a dispatched write, as unknown otherwise |
| `GitBrokerOutcomes.EmptyLooksAreRecorded` | packages/api/src/routers/git-broker.ts:388-390 | A look that does not find what was approved is recorded as unknown |
| `GitBrokerOutcomes.FailureIsRecordedExactlyForRejections` | packages/api/src/routers/git-broker.ts:393-406 | A call records failure exactly when a dispatched write met one of the three rejections or a moved head |
| `GitBrokerOutcomes.ThrowingRecordings` | packages/api/src/routers/git-broker.ts:391-406 | A recording that throws leaves what was committed; the call ends if it was handling a problem and otherwise goes on to record an unknown outcome |
| `GitBrokerOutcomes.RetryRecordsUnknown` | packages/api/src/routers/git-broker.ts:391-406 | That second recording is ignored by a settled row |
| `GitBrokerOutcomes.SentWritesAreHistory` | packages/api/src/routers/git-broker.ts:257-275 | What is sent and what is applied, for every outcome of a write |
| `GitBrokerOutcomes.PossibleOutcomes` | packages/api/src/routers/git-broker.ts:257-371 | The outcomes that each kind of request can have |
| `GitBrokerOutcomes.GetsToWriteExactlyWhen` | packages/api/src/routers/git-broker.ts:217-255 | An undisturbed call gets to write exactly when its run is live and owned, the operation is that run's, user's and repository's, approved, unexpired, of the current generation and not started, and its repository is free |
| `GitBrokerOutcomes.AdmittedExactlyWhenOwned` | packages/api/src/routers/git-broker.ts:217-241 | Its first steps admit it exactly when it acts for the run and the row it read was approved and not settled |
| `GitBrokerOutcomes.RecoveryLooksExactlyWhenUnsettled` | packages/api/src/routers/git-broker.ts:229-241 | Recovery looks exactly at approved operations that are executing or unknown, and never writes |
| `GitBrokerOutcomes.RepositoryProblems` | packages/api/src/routers/git-broker.ts:242-255 | A repository that is denied or replaced settles an operation that is not started; every other problem leaves the row alone |
| `GitTransactions.ApprovalMoves` | packages/db/src/git-store.ts:165-272 | All moves of an existing operation outside a call: approved or rejected exactly by its own user's decision in time, invalidated with its run, generation or cancellation, expired by an expiry; the row then says when and why |
| `GitTransactions.DecisionIsAnsweredHonestly` | packages/db/src/git-store.ts:165-242 | A decision is accepted exactly when it takes effect or was made before, and every refusal has its own condition |
| `GitTransactions.OperationsAppear` | packages/db/src/git-store.ts:49-91 | Operations appear exactly as fresh proposals of a checkpoint, pending, for the run, user and generation of their owner, and open the approval wait |
| `GitTransactions.ProposalsAreAnswered` | packages/db/src/git-store.ts:57-76 | Why a proposal is refused, condition by condition |
| `GitTransactions.ClaimsAreAnswered` | packages/db/src/git-store.ts:296-348 | A claim tells its caller to dispatch only if it starts the operation, and why it does not otherwise |
| `GitTransactions.QuestionMoves` | packages/db/src/question-store.ts:94-113 | All moves of an existing question: answered by its user while its run is live, or withdrawn with its run |
| `GitTransactions.QuestionsAppear` | packages/db/src/question-store.ts:39-92 | Questions appear only with a checkpoint of their run, for its user and thread, and open the question wait |
| `GitTransactions.QuestionsAreAnswered` | packages/db/src/question-store.ts:44-72 | Why a question is refused, condition by condition |
| `GitTransactions.AnswersAreAccepted` | packages/db/src/question-store.ts:195-283 | An answer is accepted exactly when it takes effect or was given before, and each refusal has its condition |
| `GitTransactions.RunMoves` | packages/db/src/threads/runs.ts:75-140 | All moves of a run: its status by its end or completion, its cancellation, its owner and its start |
| `GitTransactions.WaitsClose` | packages/db/src/git-store.ts:273-295 | A resume closes its wait and adds its length exactly when nothing of its kind is pending; nothing else does |
| `GitTransactions.WaitsOpen` | packages/db/src/threads/checkpoints.ts:97-137 | A checkpoint opens a wait exactly when it left something new to wait for |
| `GitTransactions.ThreadMoves` | packages/db/src/threads/workspaces.ts:471-490 | A replaced workspace gets the next generation and nothing else happens to a thread |
| `GitTransactions.OwnersAreAnswered` | packages/db/src/threads/checkpoints.ts:77-97 | Why an owner is refused: a finished run first, then another generation, then another owner |
| `GitTransactions.CheckpointsAreAnswered` | packages/db/src/threads/checkpoints.ts:77-137 | A checkpoint is accepted exactly when its owner may write and all it carries is fresh or a repeat |
| `GitStore.AppendedEventSpeaksForItsOperation` | packages/db/src/git-store.ts:25-46 | What the log says about an operation after one more event |
| `GitStore.AppendKeepsReplay` | packages/db/src/git-store.ts:145-165 | Writing a row together with the event that says so keeps the log replaying to exactly the rows |
| `GitStore.ExpiryRowByRow` | packages/db/src/git-store.ts:247-270 | Settling the selected rows one by one, in any order, gives what expiry of all rows at once gives |
| `GitStore.Store.Publish` | packages/db/src/git-store.ts:49-91 | Publishing row, wait and event together is the publication transaction; a repeated proposal changes nothing; the log still replays to the rows |
| `GitStore.Store.Settle` | packages/db/src/git-store.ts:145-165 | One decision writes the row, exactly one event and one wake-up for the run |
| `GitStore.Store.Decide` | packages/db/src/git-store.ts:202-242 | The decision transaction with all its refusals; the waiting run is signalled exactly when a row changed |
| `GitStore.Store.ExpireRows` | packages/db/src/git-store.ts:257-270 | The loop leaves every selected row as its expiry and every other row alone, with one signal per event |
| `GitStore.Store.ExpireRun` | packages/db/src/git-store.ts:243-272 | The whole expiry transaction, invalidated before expired |
| `GitStore.Store.ResumeRun` | packages/db/src/git-store.ts:273-295 | Succeeds exactly when the run exists and no approval is pending; then no approval wait is open and, unless its question wait is open too, the time the run is charged for does not jump; a refusal changes nothing |
| `GitStore.Store.ClaimOperation` | packages/db/src/git-store.ts:296-348 | The claim transaction in the order of its guards; at most one caller is told to dispatch |
| `GitStore.Store.FinishOperation` | packages/db/src/git-store.ts:349-379 | Recording an outcome; a terminal row, or one that left the expected state, stays as it is |
| `GitStore.Store.Record` | packages/db/src/git-store.ts:340-344 | A new execution status is written with its event, and the approval stays what it was |
| `GitStore.Store.AskQuestion` | packages/db/src/question-store.ts:39-92 | After a success the question is stored under its run: either it was there before and nothing changed, or its wait is open from now on and neither wait was open on the row as it was locked; a refusal changes nothing |
| `GitStore.Store.Answer` | packages/db/src/question-store.ts:193-283 | Only the owner answers, and all parts at once; the same answers again are accepted, others and late ones are refused; the run is signalled exactly when answers were stored |
| `GitStore.Store.Normalize` | packages/db/src/question-store.ts:231-249 | Answers are accepted exactly when every part has one and nothing else is answered |
| `GitStore.Store.SaveAll` | packages/db/src/threads/checkpoints.ts:97-137 | The checkpoint transaction publishes everything it carries or changes nothing, log and counters included; both publications see the run row as it was locked |
| `GitStore.Store.ResumeQuestionWait` | packages/db/src/question-store.ts:165-191 | The same for questions: no open one is left, its wait is closed, and the charged time does not jump unless the approval wait is open too |
| `GitStore.Store.CancelPendingQuestions` | packages/db/src/question-store.ts:94-113 | Withdraws exactly the open questions of the run and says which |
| `RunWaits.ExclusionBreaksExactlyThere` | packages/db/src/threads/checkpoints.ts:97-137 | Of all transactions exactly two kinds of checkpoint open both waits of a run, told from the guards: a fresh proposal while questions wait, and a fresh proposal together with a fresh question while nothing waits |
| `RunWaits.OneAtATimeDoublesOverQuestions` | packages/db/src/git-store.ts:66-76 | A checkpoint that carries one of the two opens both waits exactly when it is a fresh proposal over an open question wait |
| `RunWaits.ElapsedMeans` | packages/db/src/git-contracts.ts:128-150 | Elapsed execution time is never negative, stands still while a wait is open and leaves closed waits out |
| `RunWaits.CheckpointPublishes` | packages/db/src/threads/checkpoints.ts:97-137 | What a checkpoint leaves: the rows as they were, or as its publications leave them, where the second reads the locked row and not what the first wrote |
| `RunWaits.OverlapIsSubtractedTwice` | packages/db/src/git-store.ts:283-294 | Resuming an approval over an open question wait takes away exactly the time in which both were open |
| `RunWaits.AskingAgainChangesNothing` | packages/db/src/question-store.ts:49-65 | A question that was accepted is accepted again without any change, whatever has become of the waits |
| `RunWaits.ProposingAgainChangesNothing` | packages/db/src/git-store.ts:57-70 | So is a proposal |
| `RunWaits.TransactionKeepsCover` | packages/db/src/question-store.ts:74-92 | Every transaction keeps each pending approval and open question covered by its own open wait, at most one of each per run |
| `RunWaits.CheckpointKeepsCover` | packages/db/src/threads/checkpoints.ts:97-137 | The checkpoint transaction keeps that cover, also where it opens both waits |
| `RunWaits.SettlingKeepsCover` | packages/db/src/git-store.ts:277-294 | Closing a wait is safe because nothing pending depends on it any more |
| `RunnerAttempts.PendingAlwaysWaits` | apps/runner/src/activities.ts:720-742 | On every schedule of runner attempts, users, brokers and the clock a pending approval or open question has its wait open, and a run has at most one of each |
| `RunnerAttempts.AttemptsStartExactlyWhen` | apps/runner/src/activities.ts:720-742 | An attempt starts exactly on a live run without an approval wait and without an open question; it takes the run over and starts its clock once |
| `RunnerAttempts.ElapsedIsTimeOutsideTheWaits` | packages/db/src/git-contracts.ts:128-150 | Until a checkpoint opens the second wait of a run, at most one is open and elapsed execution time equals the time since the start outside all waits |
| `RunnerAttempts.ElapsedMovesOnlyWithTheClock` | packages/db/src/git-contracts.ts:128-150 | Until then elapsed time never decreases, grows with the clock only while no wait is open, and does not jump when a wait opens or is resumed |
| `RunnerAttempts.OnlyEarlyAttemptsDoubleWaits` | apps/runner/src/activities.ts:737-741 | That checkpoint needs an attempt that began over an unresumed question wait |
| `RunnerAttempts.DoublingIsEarly` | apps/runner/src/pi.ts:1407-1426 | An attempt never carries a proposal and a question at once, so of the two kinds of checkpoint only the proposal over waiting questions can come from one |
| `RunnerAttempts.ReachableKeepsTime` | apps/runner/src/pi.ts:1407-1426 | The accounting invariant with the tool gate of every attempt holds after every schedule |
| `RunnerAttempts.SaveEffect` | packages/db/src/threads/checkpoints.ts:97-137 | A checkpoint opens waits only of its own run and under its ownership, each only by its own fresh publication |
| `RunnerAttempts.OverlappingWaitsLoseTime` | apps/runner/src/activities.ts:737-741 | The schedule on which both waits are open at once: resuming the approval takes ten units of execution time away and the run keeps waiting |
| `PersistenceWriter.Writer.Admit` | apps/runner/src/pi-persistence.ts:271-304 | An item is admitted exactly when the writer accepts and both budgets allow it; a refused item leaves nothing behind and an exceeded budget latches an overflow failure |
| `PersistenceWriter.Writer.AssertAdmissible` | apps/runner/src/pi-persistence.ts:306-318 | The budget check passes exactly when the size is a safe non-negative integer that fits what is left of both limits |
| `PersistenceWriter.Writer.Preflight` | apps/runner/src/pi-persistence.ts:187-192 | The early check agrees with the admission that follows it |
| `PersistenceWriter.Writer.QueueHasRoom` | apps/runner/src/pi-persistence.ts:289-297 | After the checks the queue is open and has room, so the synchronous offer is never turned down |
| `PersistenceWriter.Writer.Flush` | apps/runner/src/pi-persistence.ts:195-197 | A barrier is admitted like an item of size zero, behind everything admitted before |
| `PersistenceWriter.Writer.RecordFailure` | apps/runner/src/pi-persistence.ts:341-371 | A store failure replaces an overflow or producer failure and nothing else replaces anything; a discarding mode settles every pending acknowledgement, a draining one leaves all of them alone |
| `PersistenceWriter.Writer.RefusePending` | apps/runner/src/pi-persistence.ts:360-362 | Every pending item is refused with the error, once |
| `PersistenceWriter.Writer.SettleFirst` | apps/runner/src/pi-persistence.ts:331-339 | Settling takes the item out of both counters and commits it exactly when there is no error and no store failure |
| `PersistenceWriter.Writer.Pull` | apps/runner/src/pi-persistence.ts:377-378 | The consumer takes a chunk from the front of the queue; the rest stays in order |
| `PersistenceWriter.Writer.Begin` | apps/runner/src/pi-persistence.ts:408-413 | Writes begin in admission order, one at a time, and not at all after a discarding failure |
| `PersistenceWriter.Writer.WriteReturned` | apps/runner/src/pi-persistence.ts:415-422 | A finished write commits its own acknowledgement, or none if a failure settled it before |
| `PersistenceWriter.Writer.WriteThrew` | apps/runner/src/pi-persistence.ts:415-421 | A write that throws latches a store failure, stops the consumer and leaves nothing pending |
| `PersistenceWriter.Writer.ConsumerFinishes` | apps/runner/src/pi-persistence.ts:373-384 | Without a discarding failure every admitted item was committed when the consumer ends on its own |
| `PersistenceWriter.Writer.CompleteDrained` | apps/runner/src/pi-persistence.ts:217-224 | Completion returns only when every admitted item was written and every acknowledgement is a commit; otherwise it throws the latched failure |
| `PersistenceWriter.Writer.CompleteTimesOut` | apps/runner/src/pi-persistence.ts:200-215 | After a timed-out completion every acknowledgement is settled exactly when no failure had been latched before or nothing was pending; otherwise the pending ones wait for ever |
| `PersistenceWriter.Writer.DrainTimesOut` | apps/runner/src/pi-persistence.ts:242-249 | A drain that gives up throws the failure that stands, and strands the same acknowledgements |
| `PersistenceWriter.Writer.ResolvedMeansWritten` | apps/runner/src/pi-persistence.ts:194-197 | A resolved flush, like any resolved item, means that everything admitted before it was written and acknowledged |
| `DeltaCoalescer.MergedProjectsTheSame` | apps/web/src/lib/thread-projection.ts:435-476 | Merging adjacent deltas of one message is invisible to a reader: the projected run is the same |
| `DeltaCoalescer.JoinProjectsTheSame` | apps/web/src/lib/thread-projection.ts:127-184 | Two deltas in a row project like one delta with both texts |
| `DeltaCoalescer.IndicesNeverRepeat` | apps/runner/src/pi.ts:1115-1115 | No two emitted deltas share an index, and a later one has the larger |
| `DeltaCoalescer.MergedReferenceIsMergedDirect` | apps/runner/src/pi.ts:1142-1164 | Growing the merged stream event by event is merging the stream that has one event per piece |
| `DeltaCoalescer.Coalescer.ReadersSeeTheSameRun` | apps/runner/src/pi.ts:1110-1164 | After any session events and timer firings, what was written and what is held back project the run that one event per delta would project |
| `DeltaCoalescer.Coalescer.OnEvent` | apps/runner/src/pi.ts:1737-1888 | Every event but a piece is written after all text before it; nothing emitted is ever changed or moved |
| `DeltaCoalescer.Coalescer.FlushDelta` | apps/runner/src/pi.ts:1110-1140 | A flush writes exactly what is held, with a fresh index |
| `DeltaCoalescer.Coalescer.BufferDelta` | apps/runner/src/pi.ts:1142-1164 | A piece joins what is held of its own kind and message, or follows it, and no more than the limit is held |
| `DeltaCoalescer.Coalescer.TimerFires` | apps/runner/src/pi.ts:1160-1160 | The timer only writes what is held |
| `SseDecoder.TwoReplacementsAreOneRule` | packages/api/src/client.ts:183-204 | Replacing CRLF and then CR is the one line-ending rule of section 9.2.5 of the HTML Living Standard |
| `SseDecoder.DecodingIsIndependentOfChunks` | packages/api/src/client.ts:183-204 | Consuming s and then the rest with t gives the same events and the same rest as consuming s with t at once, for every cut, inside a CRLF too |
| `SseDecoder.ConsumeSse` | packages/api/src/client.ts:183-204 | The incremental decoder computes the events and the rest that the theorems are about |
| `SseDecoder.ParseSseFrame` | packages/api/src/client.ts:147-181 | A frame is an event exactly when it has a numeric id and a type; its data lines are joined by line ends |
| `SseStream.DecodingFollowsTheStandard` | packages/api/src/client.ts:183-204 | Splitting at blank lines is the line-by-line reading of the standard, where an empty line dispatches the block before it |
| `SseStream.WireDecodes` | packages/api/src/routers/thread.ts:220-224 | Decoding what the server writes gives back the events it sent; heartbeats leave no trace |
| `SseStream.CutStreamDecodesToAPrefix` | packages/api/src/client.ts:294-325 | Wherever a connection is cut, what was decoded is a prefix of what was sent |
| `SseStream.ReadingIsDecoding` | packages/api/src/client.ts:294-325 | Reading chunk by chunk is decoding the whole text, for any chunks |
| `SseStream.StreamEvents` | packages/api/src/client.ts:294-325 | The read loop delivers the events of all chunks, or stops with an error exactly at the first chunk after which an unfinished frame outgrows the buffer |
| `EventPages.PagesRebuildTheLog` | packages/api/src/server-events.ts:68-79 | Polling page after page neither skips nor repeats an event, however the log grows between polls |
| `EventPages.PagesAreFull` | packages/api/src/routers/thread.ts:685-697 | A page holds the next events up to the limit, and all that are left if they are fewer |
| `EventPages.EventStream.Turn` | packages/api/src/server-events.ts:44-81 | Each turn emits the next committed event, a heartbeat, or nothing; it sleeps only at the tail |
| `EventReader.BatchExtends` | apps/web/src/lib/thread-event-reader.ts:53-71 | A batch that comes next takes the projection to the plain fold of the log up to the end of the batch |
| `EventReader.Reader.Connect` | apps/web/src/lib/thread-event-reader.ts:44-51 | A connection starts from the projection's cursor with an empty buffer |
| `EventReader.Reader.OnEvent` | apps/web/src/lib/thread-event-reader.ts:85-108 | Duplicates are ignored, a gap and a malformed event end the connection, and only the next event is buffered |
| `EventReader.Reader.Buffer` | apps/web/src/lib/thread-event-reader.ts:101-107 | The buffer stays below its bound because a full one is handed over at once |
| `EventReader.Reader.Flush` | apps/web/src/lib/thread-event-reader.ts:53-71 | What is handed over extends the batches so far to exactly the log from the starting cursor; an abort hands over nothing |
| `EventReader.Reader.Disconnect` | apps/web/src/lib/thread-event-reader.ts:112-128 | The last flush happens before the end of a connection; the reader stops for good only after a refused projection or a fatal error |
| `EventDelivery.ConnectionDeliversWhatComesNext` | packages/api/src/client.ts:260-325 | From rendering over any chunking and cutting to decoding: one connection delivers exactly the events that come next in the log |
| `EventDelivery.SessionAgreesWithTheLog` | apps/web/src/lib/thread-event-reader.ts:44-143 | Any number of connections, cut anywhere, leave the plain fold of a prefix of the log, and none of them is refused if the log itself can be folded |
| `ThreadProjection.EveryBatchAgreesWithTheLog` | apps/web/src/lib/thread-projection.ts:295-309 | Any selection of the log's events, in any order and with repetitions, is refused or leads to the plain fold of a longer prefix |
| `ThreadProjection.SliceExtendsTheFold` | apps/web/src/lib/thread-projection.ts:791-797 | A contiguous slice that starts at or before the cursor is never a gap: it extends the fold to its end |
| `ThreadProjection.ApplyMovesCursor` | apps/web/src/lib/thread-projection.ts:300-309 | An event moves the cursor by exactly one or changes nothing |
| `ThreadProjection.EveryProjectionIsWellKeyed` | apps/web/src/lib/thread-projection.ts:92-229 | In every projection of every log, run ids, message identities and tool calls are each unique |
| `ThreadProjection.RunStepKeepsKeys` | apps/web/src/lib/thread-projection.ts:398-660 | Every event of a run keeps its parts uniquely keyed |
| `ThreadProjection.KeepSettledSelects` | apps/web/src/lib/thread-projection.ts:412-427 | What a new attempt or turn replaces is exactly what was not settled |
| `ThreadProjection.MessageIsAuthoritative` | apps/web/src/lib/thread-projection.ts:127-184 | The completed message decides what its part shows; a cut copy never takes streamed text away; the part no longer streams |
| `ProjectionMeaning.CompletedCallsAreShown` | apps/web/src/lib/thread-projection.ts:593-633 | After a completion the call's part is failed exactly when the event says so, shows the event's output and diagnostic or else the earlier ones, and no live preview; every other part and run stays |
| `ProjectionMeaning.StartedCallsAreShown` | apps/web/src/lib/thread-projection.ts:514-543 | A call that starts has a running part; one that is already there stays as it is |
| `ProjectionMeaning.OutputsAreShown` | apps/web/src/lib/thread-projection.ts:572-591 | A partial output never replaces the final one, and the diagnostic is that of the event |
| `ProjectionMeaning.LiveRangesAreShown` | apps/web/src/lib/thread-projection.ts:545-570 | A live range that continues its stream is appended and cut to its end, one that repeats is ignored, one that skips leaves a mark |
| `ProjectionMeaning.LastCompletionDecides` | apps/web/src/lib/thread-projection.ts:593-633 | In the projection of a log the last completion of a call decides the state that its part shows, and a call without one shows running |
| `ProjectionMeaning.DeltasAreShown` | apps/web/src/lib/thread-projection.ts:435-459 | A delta is appended to its message's text, which streams |
| `ProjectionMeaning.ReasoningIsShown` | apps/web/src/lib/thread-projection.ts:460-477 | A reasoning delta is appended to the reasoning, and the text stays |
| `ProjectionMeaning.MessagesAreShown` | apps/web/src/lib/thread-projection.ts:478-512 | A completed message shows its own text and reasoning, or what had been streamed if its copy was cut |
| `ProjectionMeaning.StartedMessagesAreShown` | apps/web/src/lib/thread-projection.ts:398-434 | A message that starts streams, after unfinished parts of another attempt or turn are gone and only those |
| `ProjectionMeaning.StreamedTextIsTheDeltas` | apps/web/src/lib/thread-projection.ts:435-459 | Over any number of events streamed text is the deltas joined |
| `ProjectionMeaning.RunChangesAreShown` | apps/web/src/lib/thread-projection.ts:635-663 | A status event decides status, position and error, and a bad end makes partial exactly what was streaming |
| `ProjectionMeaning.NotesAreShown` | apps/web/src/lib/thread-projection.ts:348-397 | Steers, compactions and markers are noted at the end of their run |
| `ProjectionMeaning.OtherEventsAreShown` | apps/web/src/lib/thread-projection.ts:688-766 | Every other event changes title, workspace or the bounded count of unsupported events, and nothing else |
| `ProjectionMeaning.EventsChangeTheirRun` | apps/web/src/lib/thread-projection.ts:92-117 | An event changes the run it names and no other |
| `ProjectionMeaning.EventsAreRefused` | apps/web/src/lib/thread-projection.ts:231-270 | Only a delta without text and a range that ends before it begins are malformed |
| `SnapshotReconcile.ProjectionRemembers` | apps/web/src/lib/thread-projection.ts:295-309 | The projection knows the position and value of the last title and of every run's last status in the log |
| `SnapshotReconcile.ReconciledShowsTheLaterFacts` | apps/web/src/lib/thread-projection.ts:810-842 | A truthful snapshot at watermark w reconciled with a projection at cursor c shows the log's title and run statuses at the later of w and c |
| `SnapshotReconcile.ViewDoesNotDependOnArrival` | apps/web/src/lib/thread-projection.ts:799-842 | With newest-snapshot retention the view depends only on the newest watermark and the cursor, not on the order in which reads and events arrive |
| `SnapshotReconcile.RetainedIsNewest` | apps/web/src/lib/thread-projection.ts:799-808 | What is retained is one of the reads, with the newest watermark |
| `SnapshotReconcile.ReadsReplaceOlderOnes` | apps/web/src/lib/thread-projection.ts:799-808 | A read replaces the retained one unless that is newer and of the same thread |
| `LiveOutput.ReadBounded` | apps/runner/src/guest/command-progress.py:21-30 | However short the single reads are, the result is the file from the position on, at most the limit, and says whether there is more |
| `LiveOutput.ReadCapture` | apps/runner/src/guest/command-progress.py:62-74 | A read returns exactly the capture's bytes from the offset on, up to the limit |
| `LiveOutput.Watcher.Accept` | apps/runner/src/execution-coordinator.ts:435-461 | A range is taken exactly when it continues its stream; the offset never passes the limit, the emitted bytes stay a prefix of the capture, and nothing is emitted after a stop |
| `LiveOutput.Watcher.Publish` | apps/runner/src/execution-coordinator.ts:447-460 | Emitted ranges are contiguous from zero and their bytes are the capture's |
| `LiveOutput.Watcher.AcceptAll` | apps/runner/src/execution-coordinator.ts:435-461 | A whole observation takes each offset exactly where its contiguous ranges lead, whatever order the ranges come in |
| `LiveOutput.Watcher.ReportUnavailable` | apps/runner/src/execution-coordinator.ts:367-376 | A failure is reported once, never after a stop, and without touching what the streams show |
| `LiveOutput.Watcher.Stop` | apps/runner/src/execution-coordinator.ts:469-480 | Stopping emits nothing and is final |
| `LiveOutput.LimitsShareTheMaximum` | apps/runner/src/execution-coordinator.ts:350-353 | The two streams share the maximum |
| `LiveOutput.PreviewIsAPrefix` | apps/web/src/lib/thread-projection.ts:231-270 | Under duplicated, missing, reordered and interleaved ranges of both streams each stream shows the contiguous prefix that arrived in order, cut to its end, and the output is marked as truncated exactly when a range came ahead of its turn or a text was cut |
| `LiveOutput.ArrivalStep` | apps/web/src/lib/thread-projection.ts:231-270 | The next range extends its stream, an earlier one is ignored, a later one leaves a gap and a mark; the other stream stays as it is |
| `ProgressFrames.PrintProgress` | apps/runner/src/guest/command-progress.py:105-121 | The guest program prints the sizes and, per stream, the frame of the range it could read |
| `ProgressFrames.ParseChunks` | apps/runner/src/guest-command.ts:506-533 | The loop over the lines takes exactly the closed frames; a header without its closing line is skipped |
| `ProgressFrames.ParseProgress` | apps/runner/src/guest-command.ts:490-542 | Whatever text comes back, the parsed ranges are not empty and stay within the sizes that were parsed with them |
| `ProgressFrames.ParsedRangesStayWithin` | apps/runner/src/guest-command.ts:513-541 | Every range is cut at the announced size of its stream |
| `ProgressFrames.PrintedProgressReadsBack` | apps/runner/src/guest-command.ts:490-542 | Parsing a printed observation gives its state, its sizes and its ranges, cut at the sizes |
| `ProgressFrames.ObservedRangesAreTheCaptures` | apps/runner/src/guest-command.ts:527-532 | What the runner parses is, per stream, exactly the capture's bytes from the requested offset up to the limit and the size taken before, whatever the command wrote in between |
| `ProgressFrames.FramesReadBack` | apps/runner/src/guest-command.ts:506-533 | Any list of printed frames reads back in order |
| `ProgressFrames.FramesAreClosedByName` | apps/runner/src/guest-command.ts:517-526 | The line that closes a frame names its command and its stream |
| `GuestJournal.ScriptStartsAtMostOnce` | apps/runner/src/guest-command.ts:255-311 | Whatever is invoked, duplicated, reconciled or killed between any two file operations, a command's script starts at most once |
| `GuestJournal.SettledResponsesAreTheRecord` | apps/runner/src/guest-command.ts:177-192 | Every settled response, whichever process printed it and when, is the journal's record: the script's own exit code, success exactly for exit 0, "timed out" exactly if it left no code, and of both outputs the head of what had been captured, which is all there was when the script ended |
| `GuestJournal.TheExitIsTheScripts` | apps/runner/src/guest-command.ts:301-323 | On every schedule the code in the journal is that of the step which ended the running script, and no other |
| `GuestJournal.CapturesAreWhatWasWritten` | apps/runner/src/guest-command.ts:194-215 | On every schedule a capture is the beginning of what the started script wrote, one character beyond its limit at most |
| `GuestJournal.OverflowsAreFlagged` | apps/runner/src/guest-command.ts:211-214 | A capture that passes its limit is flagged at any time after the start |
| `GuestJournal.UndisturbedCommandsAreReported` | apps/runner/src/guest-command.ts:255-337 | A new command that nothing disturbs runs once, and its response says how the script ended and what it wrote within the limits |
| `GuestJournal.LooksPrintTheRecord` | apps/runner/src/guest-command.ts:373-415 | A later look prints a settled record to its owner and tells anyone else nothing |
| `GuestJournal.RepeatsPrintTheRecord` | apps/runner/src/guest-command.ts:255-270 | A repeated invocation does the same and starts nothing |
| `GuestJournal.SettledStatesWaitForTheLock` | apps/runner/src/guest-command.ts:177-185 | A settled state is reported exactly when the lock that it is tested under is free, and as running otherwise |
| `GuestJournal.UnsettledRecordsArePrinted` | apps/runner/src/guest-command.ts:173-192 | An unsettled record is printed as far as it goes, without output |
| `GuestJournal.SettledRecordsAreFinal` | apps/runner/src/guest-command.ts:325-332 | A settled record never changes again, and an owner is fixed once there is a state |
| `GuestJournal.LiveWrappersExclude` | apps/runner/src/guest-command.ts:281-289 | Two live wrappers are inside one workspace at the same time only if both only read |
| `GuestJournal.ScriptsOverlapAfterAWrapperDies` | apps/runner/src/guest-command.ts:296-311 | For any two owners that do not both only read, a schedule on which their scripts run side by side |
| `GuestJournal.OnlyOrphansOverlap` | apps/runner/src/guest-command.ts:281-311 | On every schedule scripts that do not both only read run side by side only if the wrapper of one of them died |
| `GuestJournal.OverlapBeginsExactlyThere` | apps/runner/src/guest-command.ts:296-311 | A step makes them overlap exactly when it launches one of them while the other runs without its wrapper |
| `GuestJournal.ReachableInv` | apps/runner/src/guest-command.ts:134-339 | The journal invariant holds after every interleaving of wrappers, reconciliations, crashes and scripts |
| `GuestJournal.StepIsLocal` | apps/runner/src/guest-command.ts:255-337 | Every single file operation keeps its journal and what its process knows consistent |
| `CommandCoordinator.ReturnedResultsAreTheJournals` | apps/runner/src/execution-coordinator.ts:483-505 | A result that the executor or a reconciler returns is the journal's record and was stored before it was returned |
| `CommandCoordinator.StoredResultsAreTheJournals` | apps/runner/src/execution-coordinator.ts:528-601 | Whatever process result the row shows is the journal's record, of a command that was sent, and the row has that record's state |
| `CommandCoordinator.OtherResultsSettleNothingElse` | apps/runner/src/execution-coordinator.ts:507-526 | Every other result stands beside an unsettled row or a failed one |
| `CommandCoordinator.SettlingStoresTheRecord` | apps/runner/src/execution-coordinator.ts:483-505 | Whoever observed the record stores it under its own state and returns it, unless the row was settled otherwise |
| `CommandCoordinator.ObservationsAreTheJournals` | apps/runner/src/execution-coordinator.ts:528-601 | What is observed is the journal's record, once there is one |
| `CommandCoordinator.OtherWritersStore` | apps/runner/src/execution-coordinator.ts:507-526 | What giving up, cancelling and abandoning store, and that a row settled otherwise refuses them |
| `CommandCoordinator.QueuedRowsAreWithdrawn` | packages/db/src/threads/runs.ts:83-91 | The end of a run and a new owner settle queued rows, each with its own reason, and no others |
| `CommandCoordinator.ReconcilersStart` | apps/runner/src/execution-coordinator.ts:603-663 | A reconciler returns a stored record at once, observes every other row, and lists only queued ones for abandonment |
| `CommandCoordinator.UndisturbedCommandsReturnTheirRecord` | apps/runner/src/execution-coordinator.ts:665-916 | An undisturbed command is sent, and its record is stored and returned as the guest left it |
| `CommandCoordinator.AbortedCommandsAreCancelled` | apps/runner/src/execution-coordinator.ts:777-787 | An executor that aborts before its dispatch cancels the row and sends nothing |
| `CommandCoordinator.AdmissionMoves` | apps/runner/src/execution-coordinator.ts:700-735 | A full guest keeps the command queued; a row that is no longer queued sends its executor to its cancellation |
| `CommandCoordinator.SettledRowsAreNotStarted` | apps/runner/src/execution-coordinator.ts:777-789 | A row that was settled in the meantime stops its executor before the dispatch |
| `CommandCoordinator.CrashesOnlyStop` | apps/runner/src/execution-coordinator.ts:665-916 | A coordinator that dies changes nothing that is stored, sent or recorded |
| `CommandCoordinator.CancelledWasNeverSent` | apps/runner/src/execution-coordinator.ts:777-787 | A command that any writer ever recorded as cancelled or superseded before its dispatch was not sent, and no later step sends it |
| `CommandCoordinator.SettledStateIsFixed` | packages/db/src/threads/commands.ts:297-320 | A settled row never changes its state |
| `CommandCoordinator.AbandonedWhileUndispatchedWasNeverSent` | apps/runner/src/execution-coordinator.ts:637-663 | A row still queued or pending when it is abandoned was not sent and never will be |
| `CommandCoordinator.AbandonedThoughSent` | apps/runner/src/execution-coordinator.ts:637-663 | In every other state that the update accepts (running, unknown, failed), a dispatched command can be recorded as abandoned before dispatch |
| `CommandCoordinator.FailedButRaced` | apps/runner/src/execution-coordinator.ts:637-663 | The stale reconciler can even replace the failure that the executor observed, stored and returned |
| `CommandCoordinator.WithdrawKeepsInv` | packages/db/src/threads/runs.ts:83-91 | Run end and a new owner settle only queued rows, so an executor can no longer dispatch them |
| `CommandCoordinator.ReachableInv` | apps/runner/src/execution-coordinator.ts:665-916 | The coordinator invariant holds after every interleaving of executor, reconcilers, guest, store and crashes |
| `JournalResponse.PrintedResponsesReadBack` | apps/runner/src/guest-command.ts:604-669 | A settled response is parsed into exactly what was recorded, empty outputs and trailing line ends included, if and only if no line after the first of either output starts with its own end marker and the standard output does not forge the beginning of the other section; the one case left open is a forgery of both the beginning and the end of that section |
| `JournalResponse.UnsettledResponsesReadBack` | apps/runner/src/guest-command.ts:604-669 | A response without a settled state is parsed into its status and no output |
| `JournalResponse.AnyOutputIsParsed` | apps/runner/src/guest-command.ts:604-669 | Whatever text comes back: no status line is no response, and a settled state with only one section is unusable |
| `JournalResponse.StatesHaveNames` | apps/runner/src/guest-command.ts:544-566 | The words of the five states read back, and no other word is a state |
| `JournalResponse.NumbersAreDigits` | apps/runner/src/guest-command.ts:566-566 | Exit codes are read with or without a sign, and nothing else is read as one |
| `JournalResponse.ForgedBeginMovesTheSection` | apps/runner/src/guest-command.ts:576-586 | A standard output that forges the beginning of the other section always changes that section, unless its end is forged as well |
| `JournalResponse.ForgedEndMarkerCutsTheOutput` | apps/runner/src/guest-command.ts:576-586 | An output that starts a line with its own end marker is cut exactly there |
| `JournalResponse.StatusLineReadsBack` | apps/runner/src/guest-command.ts:544-574 | The status line's columns read back as printed |
| `JournalResponse.StdoutReadsBack` | apps/runner/src/guest-command.ts:118-132 | The first section reads back exactly when no line of it after the first starts with its end marker, whatever else it contains |
| `JournalResponse.StderrReadsBack` | apps/runner/src/guest-command.ts:118-132 | So does the second section, if no line of the first output ends with the marker that begins it |
| `ModalLineage.MovesEvolve` | apps/runner/src/modal.ts:264-316 | Whatever others do, sandboxes are only added, finish and lose snapshots; where a filesystem came from is fixed and the tags stay truthful |
| `ModalLineage.MovesHappen` | apps/runner/src/modal.ts:264-316 | What others do to the sandboxes |
| `ModalLineage.DescentLasts` | apps/runner/src/modal.ts:201-240 | A filesystem that descends from another one does so for ever |
| `ModalLineage.Provider.Ensure` | apps/runner/src/modal.ts:373-430 | "Existing" and "restored" for a stored sandbox are reported only if the returned filesystem descends from it; every other result names the stored sandbox as replaced; and in a calm world a stored sandbox that runs with enough lifetime is kept, a finished one with a snapshot is restored, one without is replaced by a base, and without one a base is created |
| `ModalLineage.Provider.Resolve` | apps/runner/src/modal.ts:201-240 | A result is called present for a stored sandbox only if it is that sandbox or was restored from it, and superseded names what it supersedes |
| `ModalLineage.Provider.Create` | apps/runner/src/modal.ts:264-316 | The sandbox that is returned was created from the requested image; one whose create call lost its answer is adopted unless the caller aborted |
| `ModalLineage.Provider.Restore` | apps/runner/src/modal.ts:359-371 | A restored sandbox descends from the stored one; nothing is returned when the snapshot is gone |
| `ModalLineage.Provider.Keep` | apps/runner/src/modal.ts:378-393 | A running sandbox is kept only with enough lifetime left; otherwise it is finished before the restore |
| `ModalLineage.Provider.Lifecycle` | apps/runner/src/modal.ts:432-477 | A confirmed pause leaves the sandbox finished; a confirmed deletion leaves a capture behind exactly when the provider denied having it while it was there; every error leaves the outcome unknown |
| `ModalLineage.Provider.ByName` | apps/runner/src/modal.ts:173-184 | The sandbox under the workspace's name is reported with the lineage its tags state |
| `RepositoryCheckout.ClearsOnlyUnderItsMarker` | apps/runner/src/repository.ts:222-271 | From every crash point and after any reruns, workspace contents are deleted only under a marker of this very request |
| `RepositoryCheckout.UnverifiedCopiesKeepTheirMarker` | apps/runner/src/repository.ts:378-391 | Copied content whose checkout has not been verified always still has its marker |
| `RepositoryCheckout.PrintedOutcomesWereSeen` | apps/runner/src/repository.ts:236-276 | "Reused" and "cloned" are printed only for a workspace seen with a HEAD and the requested origin, "cloned" also with the branch |
| `RepositoryCheckout.OnlyLateContentIsDeleted` | apps/runner/src/repository.ts:269-271 | What clearing removes of other programs had been written after a promotion found the workspace empty: before the marker was removed, whether or not the run was killed in between |
| `RepositoryCheckout.RerunDeletesExactlyThen` | apps/runner/src/repository.ts:222-271 | From every state left under the marker of a request, a rerun can delete what others wrote exactly when the workspace holds such content, has no HEAD and no other origin, and the staging copy is not a checkout of something else |
| `RepositoryCheckout.LateContentCanBeDeleted` | apps/runner/src/repository.ts:368-379 | Such states are reached: content written between the emptiness test and the marker, or while the marker stands after a kill, is cleared by the rerun |
| `RepositoryCheckout.ReachableInv` | apps/runner/src/repository.ts:202-392 | The marker protocol's invariant holds after every schedule of steps, kills, reruns and foreign writes |
| `RepositoryCheckout.FreshRuns` | apps/runner/src/repository.ts:236-276 | A whole run without a marker reuses a checkout of the repository, clones into an empty workspace and otherwise fails, with what it leaves and prints in each case |
| `RepositoryCheckout.ContinuedRuns` | apps/runner/src/repository.ts:222-271 | A whole run under its own marker reuses a finished copy, refuses another origin or HEAD, or clears what half a copy left and promotes the kept or a fresh copy |
| `RepositoryCheckout.OtherMarkersStop` | apps/runner/src/repository.ts:222-235 | The marker of another request stops a run before it touches anything |
| `RepositoryCheckout.Interruptions` | apps/runner/src/repository.ts:202-221 | A killed script cleans nothing up; a terminated one drops its staging copy unless a marker protects it |
| `RepositoryCheckout.PromotableMeans` | apps/runner/src/repository.ts:202-221 | When a copy is what was asked for |
| `RepositoryCheckout.SuffixesDoNotMatter` | apps/runner/src/repository.ts:150-201 | Two addresses that differ in a final ".git" name one repository |
| `RepositoryCheckout.HalfDone` | apps/runner/src/repository.ts:269-276 | Deleting and copying may stop halfway, with the script still at it |
| `ThreadWorkflow.Workflow.OnStartRun` | apps/runner/src/workflows.ts:381-383 | A signalled run is queued once and not while it is the active one; nothing else changes |
| `ThreadWorkflow.Workflow.NextTurn` | apps/runner/src/workflows.ts:419-477 | Deletion comes first; runs are taken from the front in arrival order and none is dropped; continue-as-new and idling happen only when every wake that was signalled has been covered by a workspace wake |
| `ThreadWorkflow.Workflow.ContinueAsNew` | apps/runner/src/workflows.ts:432-435 | The new execution carries every pending run, and no wake that was signalled is left uncovered |
| `ThreadWorkflow.Workflow.ServeWakeWhileWaiting` | apps/runner/src/workflows.ts:332-337 | A wait for answers may serve the wake instead of the loop; it then covers every wake signalled so far |
| `ThreadWorkflow.Workflow.OnWake` | apps/runner/src/workflows.ts:389-391 | Every wake signal is counted as owed until a workspace wake covers it |
| `PersonWait.ReturnsOnlyWhenDecided` | apps/runner/src/workflows.ts:326-330 | A wait for a person, also one that begins after the decision, returns only after a status read that is no longer pending |
| `PersonWait.NeverSleepsThroughADecision` | apps/runner/src/workflows.ts:327-349 | Asleep after a decision: its signal is on its way, or has changed the observed version, or the timer is due |
| `PersonWait.DecidedWaitReturns` | apps/runner/src/workflows.ts:318-358 | Once every signal is delivered, a decided wait returns within five of its own steps |
| `PersonWait.NeverPausesEarly` | apps/runner/src/workflows.ts:318-358 | Whatever happens, a wait pauses the workspace only after one idle period |
| `PersonWait.PausesExactlyWhenDue` | apps/runner/src/workflows.ts:346-350 | It pauses exactly from a sleep that nothing has interrupted and whose pause is due |
| `PersonWait.PausesAreRetried` | apps/runner/src/workflows.ts:350-357 | A pause that is put off is tried again after that time; one that succeeds is not |
| `PersonWait.PendingWaitSleeps` | apps/runner/src/workflows.ts:325-345 | Left alone, a pending wait sleeps until the earlier of its expiry and its pause |
| `PersonWait.WakesAreServed` | apps/runner/src/workflows.ts:332-337 | A wake is served before the wait sleeps again, and the idle period starts anew |
| `PersonWait.DecisionsAreSignalled` | apps/runner/src/workflows.ts:262-270 | A decision is committed once and signalled once, and a delivered signal changes the version |
| `MultiEdit.CountOne` | apps/runner/src/guest/file-tools.py:119-122 | A count of one means that every other occurrence overlaps the leftmost one |
| `MultiEdit.OneCountCanHideAnOverlap` | apps/runner/src/guest/file-tools.py:119-121 | So a count of one does not mean a single occurrence |
| `MultiEdit.SpliceFirst` | apps/runner/src/guest/file-tools.py:127-129 | Splicing the first span after all later ones replaces it too |
| `MultiEdit.Splice` | apps/runner/src/guest/file-tools.py:127-129 | Splicing from right to left is the replacement of all spans of the original text at once |
| `MultiEdit.OutsideIsUnchanged` | apps/runner/src/guest/file-tools.py:127-129 | Every stretch of the original between two spans stands in the result, moved by what the edits before it add or remove, and every new text stands between its neighbours |
| `MultiEdit.OldTextsPutBack` | apps/runner/src/guest/file-tools.py:127-129 | Putting each old text back in its place gives the original |
| `MultiEdit.Locate` | apps/runner/src/guest/file-tools.py:116-122 | Every edit is matched against the original text; the first one without a unique match decides the error |
| `MultiEdit.FailuresSayWhy` | apps/runner/src/guest/file-tools.py:116-122 | The first edit without a unique match is named: its text is empty, occurs nowhere, or occurs twice without overlap, with the count |
| `MultiEdit.CheckOverlaps` | apps/runner/src/guest/file-tools.py:124-126 | The first overlap of neighbours is found and named by its two edits |
| `MultiEdit.OverlapsSayWhich` | apps/runner/src/guest/file-tools.py:124-126 | The overlap that is reported is that of the first two neighbours of which one reaches into the next |
| `MultiEdit.ApplyEdits` | apps/runner/src/guest/file-tools.py:110-133 | An accepted edit means that every old text matched once, all spans are apart, and the result differs from the original, is text and within the limit; the checks come in their order |
| `MultiEdit.InputsAreChecked` | apps/runner/src/guest/file-tools.py:110-115 | No edits and too long ones are refused before anything is matched, and nothing else is refused so |
| `MultiEdit.ResultsAreChecked` | apps/runner/src/guest/file-tools.py:130-133 | The replaced text comes out unless it is the old one, longer than the limit or no text |
| `MultiEdit.AcceptedExactlyWhenApart` | apps/runner/src/guest/file-tools.py:115-126 | The edits get past matching exactly when each matches once and all spans are apart; the result is then the simultaneous replacement |
| `MultiEdit.OrderDoesNotMatter` | apps/runner/src/guest/file-tools.py:115-131 | The order of the edits changes neither whether they succeed nor what they make of the file |
| `MultiEdit.SortSorts` | apps/runner/src/guest/file-tools.py:123-123 | Sorting by start neither loses nor invents a match |
| `ReadWindow.Select` | apps/runner/src/guest/file-tools.py:40-58 | A window takes line after line as long as both limits allow |
| `ReadWindow.ReadWindow` | apps/runner/src/guest/file-tools.py:40-71 | Every answer says which lines it shows, why it stops and where the next one starts |
| `ReadWindow.WindowsAreBoundedAndAdvance` | apps/runner/src/guest/file-tools.py:40-71 | No window is longer than the byte limit or has more than 2000 lines, and every announced offset advances by at least one line |
| `ReadWindow.WindowsHaveFewLines` | apps/runner/src/guest/file-tools.py:40-58 | The content of a window of a text, split into lines again, has at most 2000 of them |
| `ReadWindow.FollowingEnds` | apps/runner/src/guest/file-tools.py:40-71 | Following the announced offsets ends after at most as many windows as there are lines left |
| `ReadWindow.WindowsRebuildTheFile` | apps/runner/src/guest/file-tools.py:40-71 | If no line is too long, the windows joined by line ends are the rest of the file |
| `ReadWindow.WindowsRebuildTheText` | apps/runner/src/guest/file-tools.py:40-71 | From the beginning they are the whole text |
| `Checkpoint.ValidateEntryGraph` | packages/db/src/checkpoint.ts:434-463 | Accepts exactly the graphs with one header first, distinct ids and only backward references, where a compaction may keep itself |
| `Checkpoint.ValidateNode` | packages/db/src/checkpoint.ts:446-460 | The checks of one entry accept exactly what may stand at its place |
| `Checkpoint.Root` | packages/db/src/checkpoint.ts:434-463 | In every accepted checkpoint the parents of a node lead to an earlier or the same node without a parent, which ends its chain |
| `Checkpoint.Chain` | packages/db/src/checkpoint.ts:434-463 | Following the parents takes at most as many steps as there are entries before the node |
| `Checkpoint.ChainFollowsParents` | packages/db/src/checkpoint.ts:434-463 | Each id of the chain is the parent of the one before it, and the last one has none |
| `Checkpoint.ChainNeverRepeats` | packages/db/src/checkpoint.ts:434-463 | No node is its own ancestor |
| `Checkpoint.ChainIsTheOnlyOne` | packages/db/src/checkpoint.ts:434-463 | Whatever sequence of ids follows the parents from a node to one without a parent is its chain |
| `Checkpoint.Decode` | packages/db/src/checkpoint.ts:467-477 | The decoder as a whole, in the order of its checks |
| `Checkpoint.SanitizingTwice` | packages/db/src/checkpoint.ts:379-420 | Sanitising a sanitised message changes nothing, a printed tool failure included |
| `Checkpoint.DecodingTwice` | packages/db/src/checkpoint.ts:467-477 | Decoding an already decoded checkpoint changes nothing, and its graph is well formed |
| `Checkpoint.OnlyPublicTextsSurvive` | packages/db/src/public-failure.ts:157-166 | Nothing but public texts and printed tool failures survives in the error fields of a decoded checkpoint |
| `Checkpoint.SafeEntriesKeepTheGraph` | packages/db/src/checkpoint.ts:422-432 | Sanitising leaves the entry graph as it is |
| `Checkpoint.DecodedExactlyWhen` | packages/db/src/checkpoint.ts:467-477 | A checkpoint is decoded exactly when it is readable, its header names its session and its graph is well formed |
| `Checkpoint.DecodingKeepsTheEntries` | packages/db/src/checkpoint.ts:422-432 | Every entry keeps its id, its parent and, unless it is a message, everything |
| `Checkpoint.PlainMessagesAreUnchanged` | packages/db/src/checkpoint.ts:379-420 | Messages of a user and results of tools that succeeded come back unchanged |
| `Checkpoint.AssistantsKeepTheirText` | packages/db/src/checkpoint.ts:379-396 | An assistant's text comes back; its error texts stay exactly when they are public, and each diagnostic keeps its place and time |
| `Checkpoint.StatedFailuresSurvive` | packages/db/src/checkpoint.ts:398-413 | A failed result keeps its tool, and the valid failure that an edit states survives as exactly that |
| `Checkpoint.OtherFailuresAreGeneric` | packages/db/src/checkpoint.ts:414-418 | Nothing else of a failed result survives |
| `Checkpoint.PrintedFailuresSurvive` | packages/db/src/checkpoint.ts:398-413 | A failure that was printed into an edit's result comes back from every decoding |
| `Checkpoint.PrintedFailuresDiffer` | packages/db/src/checkpoint.ts:398-413 | Different failures print differently |
| `Checkpoint.ValidFailures` | packages/db/src/checkpoint.ts:398-403 | Which failures are valid: within the bounds, no match at all or more than one |

## Left out

- HTTP routes, sessions, capability tokens, CORS and CSRF, previews, gateways, web tools, title generation and the React interface.
- Postgres, Temporal, Effect, Modal and shell internals: a transaction, an activity, a provider call and a file operation are single steps; the scheduler is any interleaving.
- Digests are the content they stand for, so two contents never share one.
- JSON and schema validation: models start from decoded values. Event data, checkpoints and failure texts are read by functions given as parameters, which are assumed to read back what was printed; JavaScript's `Number` on digits is such a function.
- Strings are sequences of Unicode scalar values: lengths that JavaScript counts in UTF-16 units are counted in characters, and lossy UTF-8 decoding is not modelled.
- Clocks are natural numbers that never go back; every actor reads the same clock.
- Git proposals: preparing, bundling and validating a request, the pages of a recovery search (only what it finds) and the removal of bundles.
- A receipt says whether there was a write or which problem there was, not the URL or commit it also names.
- The broker's comparison of an operation with the repository on the remote is one step that may have any answer.
- `GitStore` holds the git events and wake-ups of decisions, not the other events of a thread. Answer texts are taken as they are, and who may answer is read from the question's row, not from the thread's own row beside it.
- Thread and message tables: a run's end also starts the next queued message, which no property here depends on.
- Projection: usage totals, browser and diff statistics, notices, tool arguments, structured results and legacy command results. Assistant events are assumed to carry `messageIndex`; legacy events without it have position-based keys that need not be unique.
- Snapshot reconciliation: workspace fields and the error texts of runs are carried but not characterised.
- Coalescer: events that the session writes outside its subscription callback, and checkpoint persistence at the end of a compaction.
- Persistence writer: the completion of the failure callback, and the cancellation of a wait before its budget ends; a chunk taken from the queue may have any size.
- Frame parser: a frame without an id or type is dropped and more than one space is trimmed, as in the code; the standard's field rules are not claimed. Its line and block structure is.
- Reader: the 16 ms timer is a flush at any moment; retry delays are not modelled.
- Guest journal: directory and symbolic-link checks, command bytes and standard input.
- Coordinator: one command at a time, so queue order and read slots are not modelled; observation retries and budgets are any number of observations; a metadata mismatch is only an observation that never comes.
- Printed responses: what the transport itself adds (its own standard error and truncation flag) and the metadata comparison before printing.
- Live output: base64 is a pair of inverse functions, an error in the middle of a printed observation is not modelled, and decoding a split character is left to the reader: a published range is a text with its byte range.
- Sandbox provider: the in-memory handle cache, the counting of capacity and the readiness probe's contents. Names are unique among running sandboxes, which is the provider's own rule.
- Repository checkout: disk budgets, time limits, filesystem checks and symbolic links are failures that may happen at the step where the script tests them. One checkout script runs at a time in a workspace. Full equality of copied contents is not claimed, since the script checks HEAD, origin and branch only.
- Workflow: preparation, execution and their recovery are the time between two turns; idle pauses and deferrals only delay a turn. An unsuccessful wake is not distinguished from a served one, as in the code. A cancelled run ends a wait for a person through its cancellation scope, which the wait itself does not see.
- File tools: writing files, the unified diff, replacement through a temporary file, path resolution, and the texts of messages.
- Checkpoints: the text "Agent execution failed" is assumed not to be JSON of a tool failure, and fields that sanitising does not touch are left out of the messages.
