/**
 The rows behind the Git write protocol and the two human waits, and every
 transaction on them as a function from rows to rows. Each transaction holds
 the thread, workspace and run locks for its whole length, so it is one step.
 */
module GitRecords {
  import opened Wrappers

  type RunId = nat
  type ThreadId = nat
  type OpId = nat
  type UserId = nat
  type Token = nat
  type QuestionId = nat

  datatype RequestKind = Push | PrCreate | PrComment | PrMerge | PrUpdate | PrClose | PrReopen

  /** Everything the digest covers. */
  datatype ProposalBody = ProposalBody(id: OpId, toolCallId: string, repositoryUrl: string,
                                       repositoryId: nat, kind: RequestKind, payload: string)

  /** A collision-free digest is modelled by the content it stands for. */
  datatype Digest = Digest(content: ProposalBody)

  datatype Proposal = Proposal(body: ProposalBody, digest: Digest)

  function ProposalDigest(body: ProposalBody): Digest {
    Digest(body)
  }

  datatype Approval = Pending | Approved | Rejected | Expired | Invalidated

  datatype Execution = NotStarted | Executing | Succeeded | Failed | Unknown

  datatype FailureCode = Stale | NonFastForward | BundleInvalid | AccessDenied | UpstreamFailed | InternalError | OutcomeUnknown

  datatype Receipt = NotWritten(reason: Approval) | Written | Problem(code: FailureCode)

  datatype RunStatus = Queued | Running | RunCompleted | RunFailed | RunCancelled

  datatype Owner = Owner(token: Token, generation: nat)

  datatype Run = Run(threadId: ThreadId, userId: UserId, status: RunStatus, cancelRequested: bool,
                     owner: Option<Owner>, agentStartedAt: Option<nat>,
                     approvalWaitMs: nat, approvalWaitStartedAt: Option<nat>,
                     questionWaitMs: nat, questionWaitStartedAt: Option<nat>)

  /** A thread row together with the generation of its workspace row. */
  datatype Thread = Thread(repositoryUrl: string, generation: nat)

  datatype Operation = Operation(runId: RunId, threadId: ThreadId, userId: UserId, generation: nat,
                                 proposal: Proposal, approval: Approval, execution: Execution,
                                 expiresAt: nat, decidedAt: Option<nat>, receipt: Option<Receipt>)

  datatype QuestionState = Asked | Answered | Withdrawn

  type PartId = nat

  /** A request asks several questions, each with its own id. */
  datatype QuestionRequest = QuestionRequest(id: QuestionId, toolCallId: string, parts: seq<PartId>, content: string)

  type Answers = map<PartId, string>

  datatype Question = Question(runId: RunId, threadId: ThreadId, userId: UserId, request: QuestionRequest,
                               state: QuestionState, answers: Option<Answers>)

  datatype Db = Db(threads: map<ThreadId, Thread>, runs: map<RunId, Run>,
                   ops: map<OpId, Operation>, questions: map<QuestionId, Question>)

  datatype StoreError =
    | ProposalStale | ApprovalPending | DecisionConflict | OwnershipLost | OperationUnknown
    | RunNotFound | OperationNotFound | RunTerminal | GenerationMismatch
    | QuestionStale | QuestionPending | QuestionNotFound | InvalidAnswers | AnswerConflict

  datatype Reply<+T> = Reply(db: Db, result: Result<T, StoreError>)

  datatype Context = Context(runId: RunId, generation: nat, ownershipToken: Token)

  const APPROVAL_LIFETIME_MS: nat := 86_400_000

  predicate ActiveRun(status: RunStatus) {
    status == Queued || status == Running
  }

  predicate Unsettled(execution: Execution) {
    execution == Executing || execution == Unknown
  }

  predicate Terminal(execution: Execution) {
    execution == Succeeded || execution == Failed
  }

  /** The three rows that every transaction locks exist. */
  predicate Lockable(db: Db, runId: RunId) {
    runId in db.runs && db.runs[runId].threadId in db.threads
  }

  function GenerationOf(db: Db, runId: RunId): nat
    requires Lockable(db, runId)
  {
    db.threads[db.runs[runId].threadId].generation
  }

  /** The run may still act: neither cancelled nor finished. */
  predicate Live(run: Run) {
    !run.cancelRequested && ActiveRun(run.status)
  }

  // ---- Git approvals and executions ----------------------------------------------------------

  /** Publishes a proposal once; a repeat of the same proposal changes nothing. */
  function PublishProposal(db: Db, now: nat, runId: RunId, generation: nat, p: Proposal): Reply<()>
    requires Lockable(db, runId)
  {
    var run := db.runs[runId];
    if ProposalDigest(p.body) != p.digest || run.cancelRequested then
      Reply(db, Err(ProposalStale))
    else if p.body.id in db.ops then
      var prior := db.ops[p.body.id];
      if prior.runId != runId || prior.proposal.digest != p.digest then Reply(db, Err(ProposalStale))
      else Reply(db, Ok(()))
    else if run.approvalWaitStartedAt.Some? then
      Reply(db, Err(ApprovalPending))
    else if db.threads[run.threadId].repositoryUrl != p.body.repositoryUrl then
      Reply(db, Err(ProposalStale))
    else
      var op := Operation(runId, run.threadId, run.userId, generation, p, Pending, NotStarted,
                          now + APPROVAL_LIFETIME_MS, None, None);
      Reply(db.(ops := db.ops[p.body.id := op],
                runs := db.runs[runId := run.(approvalWaitStartedAt := Some(now))]),
            Ok(()))
  }

  function SettleApproval(op: Operation, approval: Approval, now: nat): Operation {
    op.(approval := approval, decidedAt := Some(now),
        receipt := if approval == Approved then None else Some(NotWritten(approval)))
  }

  function Decision(db: Db, now: nat, userId: UserId, threadId: ThreadId, id: OpId,
                    approve: bool, digest: Digest): Reply<()>
  {
    if id !in db.ops then Reply(db, Err(OperationNotFound))
    else
      var op := db.ops[id];
      var approval := if approve then Approved else Rejected;
      if op.userId != userId || op.threadId != threadId then Reply(db, Err(OperationNotFound))
      else if !Lockable(db, op.runId) then Reply(db, Err(RunNotFound))
      else if op.proposal.digest != digest then Reply(db, Err(ProposalStale))
      else if op.approval == approval then Reply(db, Ok(()))
      else if op.approval != Pending then Reply(db, Err(DecisionConflict))
      else if op.expiresAt <= now || !Live(db.runs[op.runId]) || GenerationOf(db, op.runId) != op.generation then
        Reply(db, Err(ProposalStale))
      else
        Reply(db.(ops := db.ops[id := SettleApproval(op, approval, now)]), Ok(()))
  }

  /** What expiry makes of one row of a run, if anything. */
  function ExpiryOf(op: Operation, run: Run, generation: nat, now: nat): Option<Approval> {
    if (op.approval != Pending && op.approval != Approved) || op.execution != NotStarted then None
    else if !Live(run) || op.generation != generation then Some(Invalidated)
    else if op.expiresAt <= now then Some(Expired)
    else None
  }

  function ExpiredRow(op: Operation, run: Run, generation: nat, now: nat): Operation {
    match ExpiryOf(op, run, generation, now)
    case None => op
    case Some(approval) => SettleApproval(op, approval, now)
  }

  function Expire(db: Db, now: nat, runId: RunId): Reply<()> {
    if !Lockable(db, runId) then Reply(db, Err(RunNotFound))
    else
      Reply(db.(ops := map id | id in db.ops ::
                         if db.ops[id].runId == runId
                         then ExpiredRow(db.ops[id], db.runs[runId], GenerationOf(db, runId), now)
                         else db.ops[id]),
            Ok(()))
  }

  predicate HasPendingApproval(db: Db, runId: RunId) {
    exists id :: id in db.ops && db.ops[id].runId == runId && db.ops[id].approval == Pending
  }

  function Elapsed(since: nat, now: nat): nat {
    if since <= now then now - since else 0
  }

  function Resume(db: Db, now: nat, runId: RunId): Reply<()> {
    if !Lockable(db, runId) then Reply(db, Err(RunNotFound))
    else if HasPendingApproval(db, runId) then Reply(db, Err(ApprovalPending))
    else
      var run := db.runs[runId];
      match run.approvalWaitStartedAt
      case None => Reply(db, Ok(()))
      case Some(since) =>
        Reply(db.(runs := db.runs[runId := run.(approvalWaitMs := run.approvalWaitMs + Elapsed(since, now),
                                                approvalWaitStartedAt := None)]),
              Ok(()))
  }

  /** The run a broker call may act for, or why it may not. */
  function CheckContext(db: Db, ctx: Context): Result<Run, StoreError> {
    if !Lockable(db, ctx.runId) then Err(RunNotFound)
    else
      var run := db.runs[ctx.runId];
      if run.owner != Some(Owner(ctx.ownershipToken, ctx.generation)) || GenerationOf(db, ctx.runId) != ctx.generation then
        Err(OwnershipLost)
      else if !Live(run) then Err(RunTerminal)
      else Ok(run)
  }

  predicate RepositoryBusy(db: Db, repositoryId: nat) {
    exists id :: id in db.ops && db.ops[id].proposal.body.repositoryId == repositoryId
                 && Unsettled(db.ops[id].execution)
  }

  /** Takes the right to dispatch an approved operation; at most one caller is told to dispatch. */
  function Claim(db: Db, now: nat, id: OpId, ctx: Context): Reply<bool> {
    if !Lockable(db, ctx.runId) then Reply(db, Err(RunNotFound))
    else if id !in db.ops then Reply(db, Err(OperationNotFound))
    else
      var op := db.ops[id];
      var run := db.runs[ctx.runId];
      if op.runId != ctx.runId || run.owner.None? || run.owner.value.token != ctx.ownershipToken
         || GenerationOf(db, ctx.runId) != ctx.generation then
        Reply(db, Err(OwnershipLost))
      else if op.execution != NotStarted then Reply(db, Ok(false))
      else if !Live(run) || op.generation != GenerationOf(db, ctx.runId) || op.approval != Approved
              || op.expiresAt <= now then
        Reply(db, Err(ProposalStale))
      else if RepositoryBusy(db, op.proposal.body.repositoryId) then Reply(db, Err(OperationUnknown))
      else Reply(db.(ops := db.ops[id := op.(execution := Executing)]), Ok(true))
  }

  /** Records an outcome. A terminal row never changes, nor one that left the expected state. */
  function Finish(db: Db, id: OpId, execution: Execution, receipt: Receipt, onlyNotStarted: bool): Reply<()> {
    if id !in db.ops then Reply(db, Err(OperationNotFound))
    else if !Lockable(db, db.ops[id].runId) then Reply(db, Err(RunNotFound))
    else
      var op := db.ops[id];
      if Terminal(op.execution) || (onlyNotStarted && op.execution != NotStarted) then Reply(db, Ok(()))
      else Reply(db.(ops := db.ops[id := op.(execution := execution, receipt := Some(receipt))]), Ok(()))
  }

  // ---- Questions -------------------------------------------------------------------------------

  /** The request of this run and tool call, if one was published before. */
  predicate Requested(db: Db, runId: RunId, toolCallId: string) {
    exists q :: q in db.questions && db.questions[q].runId == runId && db.questions[q].request.toolCallId == toolCallId
  }

  /** `current` is the run row as the surrounding transaction locked it. */
  function PublishQuestion(db: Db, current: Run, now: nat, runId: RunId, request: QuestionRequest): Reply<()>
    requires runId in db.runs
  {
    if !Live(current) then Reply(db, Err(QuestionStale))
    else if Requested(db, runId, request.toolCallId) then
      if request.id in db.questions && db.questions[request.id].runId == runId && db.questions[request.id].request == request
      then Reply(db, Ok(()))
      else Reply(db, Err(QuestionStale))
    else if current.questionWaitStartedAt.Some? then Reply(db, Err(QuestionPending))
    else if current.approvalWaitStartedAt.Some? then Reply(db, Err(ApprovalPending))
    else if request.id in db.questions then Reply(db, Err(QuestionStale)) // the primary key refuses a reused id
    else
      var question := Question(runId, current.threadId, current.userId, request, Asked, None);
      Reply(db.(questions := db.questions[request.id := question],
                runs := db.runs[runId := db.runs[runId].(questionWaitStartedAt := Some(now))]),
            Ok(()))
  }

  function WithdrawQuestions(db: Db, runId: RunId): Db {
    db.(questions := map q | q in db.questions ::
                       if db.questions[q].runId == runId && db.questions[q].state == Asked
                       then db.questions[q].(state := Withdrawn)
                       else db.questions[q])
  }

  /** Every part has one answer, and nothing else is answered. */
  predicate Fits(request: QuestionRequest, answers: Answers) {
    multiset(answers.Keys) == multiset(request.parts)
  }

  function AnswerQuestion(db: Db, userId: UserId, threadId: ThreadId, id: QuestionId, answers: Answers): Reply<()> {
    if id !in db.questions || db.questions[id].threadId != threadId || db.questions[id].userId != userId then
      Reply(db, Err(QuestionNotFound))
    else
      var question := db.questions[id];
      if !Fits(question.request, answers) then Reply(db, Err(InvalidAnswers))
      else if question.state == Answered then
        if question.answers == Some(answers) then Reply(db, Ok(())) else Reply(db, Err(AnswerConflict))
      else if question.state != Asked then Reply(db, Err(AnswerConflict))
      else if question.runId !in db.runs || !Live(db.runs[question.runId]) then Reply(db, Err(AnswerConflict))
      else
        Reply(db.(questions := db.questions[id := question.(state := Answered, answers := Some(answers))]), Ok(()))
  }

  predicate HasAskedQuestion(db: Db, runId: RunId) {
    exists q :: q in db.questions && db.questions[q].runId == runId && db.questions[q].state == Asked
  }

  function ResumeQuestions(db: Db, now: nat, runId: RunId): Reply<()> {
    if runId !in db.runs then Reply(db, Err(RunNotFound))
    else if HasAskedQuestion(db, runId) then Reply(db, Err(QuestionPending))
    else
      var run := db.runs[runId];
      match run.questionWaitStartedAt
      case None => Reply(db, Ok(()))
      case Some(since) =>
        Reply(db.(runs := db.runs[runId := run.(questionWaitMs := run.questionWaitMs + Elapsed(since, now),
                                                questionWaitStartedAt := None)]),
              Ok(()))
  }

  // ---- Runs ------------------------------------------------------------------------------------

  /** The owner of an active run, in the current generation. */
  function CheckOwner(db: Db, ctx: Context): Result<Run, StoreError> {
    if !Lockable(db, ctx.runId) then Err(RunNotFound)
    else
      var run := db.runs[ctx.runId];
      if !ActiveRun(run.status) then Err(RunTerminal)
      else if ctx.generation != GenerationOf(db, ctx.runId) then Err(GenerationMismatch)
      else if run.owner != Some(Owner(ctx.ownershipToken, ctx.generation)) then Err(OwnershipLost)
      else Ok(run)
  }

  /**
   The checkpoint transaction: ownership guards, then both publications, all or nothing. Both get the
   run row that was locked at the start, so the second does not see the wait that the first opened.
   */
  function SaveCheckpoint(db: Db, now: nat, ctx: Context, proposal: Option<Proposal>,
                          question: Option<QuestionRequest>): Reply<()>
  {
    var owned := CheckOwner(db, ctx);
    if owned.Err? then Reply(db, Err(owned.error)) else SaveOwned(db, owned.value, now, ctx, proposal, question)
  }

  function SaveOwned(db: Db, current: Run, now: nat, ctx: Context, proposal: Option<Proposal>,
                     question: Option<QuestionRequest>): Reply<()>
    requires Lockable(db, ctx.runId)
  {
    var published := if proposal.Some? then PublishProposal(db, now, ctx.runId, ctx.generation, proposal.value)
                     else Reply(db, Ok(()));
    if published.result.Err? then Reply(db, published.result)
    else if question.None? then published
    else
      var asked := PublishQuestion(published.db, current, now, ctx.runId, question.value);
      if asked.result.Err? then Reply(db, asked.result) else asked
  }

  /** Every approval of the run that has not been used is withdrawn with it. */
  function InvalidateApprovals(db: Db, now: nat, runId: RunId): Db {
    db.(ops := map id | id in db.ops ::
                 if db.ops[id].runId == runId && db.ops[id].execution == NotStarted
                    && (db.ops[id].approval == Pending || db.ops[id].approval == Approved)
                 then SettleApproval(db.ops[id], Invalidated, now)
                 else db.ops[id])
  }

  function RequestCancel(db: Db, now: nat, runId: RunId): Db {
    if runId !in db.runs || !Live(db.runs[runId]) then db
    else
      var cancelled := db.(runs := db.runs[runId := db.runs[runId].(cancelRequested := true)]);
      WithdrawQuestions(InvalidateApprovals(cancelled, now, runId), runId)
  }

  function EndRun(db: Db, now: nat, runId: RunId, failed: bool): Db {
    if runId !in db.runs || !ActiveRun(db.runs[runId].status) then db
    else
      var run := db.runs[runId];
      var status := if run.cancelRequested || !failed then RunCancelled else RunFailed;
      var ended := WithdrawQuestions(InvalidateApprovals(db, now, runId), runId);
      ended.(runs := ended.runs[runId := run.(status := status)])
  }

  /** Completion leaves approvals alone: an unused one is refused later because the run is over. */
  function CompleteRun(db: Db, ctx: Context): Db {
    if !Lockable(db, ctx.runId) || !ActiveRun(db.runs[ctx.runId].status)
       || db.runs[ctx.runId].owner != Some(Owner(ctx.ownershipToken, GenerationOf(db, ctx.runId))) then db
    else
      var run := db.runs[ctx.runId];
      db.(runs := db.runs[ctx.runId := run.(status := if run.cancelRequested then RunCancelled else RunCompleted)])
  }

  function ClaimOwnership(db: Db, runId: RunId, token: Token): Db {
    if !Lockable(db, runId) || !ActiveRun(db.runs[runId].status) then db
    else db.(runs := db.runs[runId := db.runs[runId].(owner := Some(Owner(token, GenerationOf(db, runId))))])
  }

  function BeginAgent(db: Db, now: nat, ctx: Context): Db {
    if !Lockable(db, ctx.runId) || !Live(db.runs[ctx.runId]) || db.runs[ctx.runId].agentStartedAt.Some?
       || db.runs[ctx.runId].owner != Some(Owner(ctx.ownershipToken, GenerationOf(db, ctx.runId))) then db
    else db.(runs := db.runs[ctx.runId := db.runs[ctx.runId].(agentStartedAt := Some(now))])
  }

  /** A replaced filesystem: everything bound to the older generation is stale from here on. */
  function BumpGeneration(db: Db, threadId: ThreadId): Db {
    if threadId !in db.threads then db
    else db.(threads := db.threads[threadId := db.threads[threadId].(generation := db.threads[threadId].generation + 1)])
  }

  /** The store transactions that are not steps of a broker call. */
  datatype Transaction =
    | Checkpoint(ctx: Context, proposal: Option<Proposal>, question: Option<QuestionRequest>)
    | Decide(userId: UserId, threadId: ThreadId, id: OpId, approve: bool, digest: Digest)
    | ExpireRun(runId: RunId)
    | ResumeRun(runId: RunId)
    | Answer(userId: UserId, threadId: ThreadId, questionId: QuestionId, answers: Answers)
    | ResumeQuestionWait(runId: RunId)
    | Cancel(runId: RunId)
    | End(runId: RunId, failed: bool)
    | Complete(ctx: Context)
    | TakeOwnership(runId: RunId, token: Token)
    | Begin(ctx: Context)
    | ReplaceWorkspace(threadId: ThreadId)

  function Perform(db: Db, now: nat, t: Transaction): Db {
    match t
    case Checkpoint(ctx, proposal, question) => SaveCheckpoint(db, now, ctx, proposal, question).db
    case Decide(userId, threadId, id, approve, digest) => Decision(db, now, userId, threadId, id, approve, digest).db
    case ExpireRun(runId) => Expire(db, now, runId).db
    case ResumeRun(runId) => Resume(db, now, runId).db
    case Answer(userId, threadId, questionId, answers) => AnswerQuestion(db, userId, threadId, questionId, answers).db
    case ResumeQuestionWait(runId) => ResumeQuestions(db, now, runId).db
    case Cancel(runId) => RequestCancel(db, now, runId)
    case End(runId, failed) => EndRun(db, now, runId, failed)
    case Complete(ctx) => CompleteRun(db, ctx)
    case TakeOwnership(runId, token) => ClaimOwnership(db, runId, token)
    case Begin(ctx) => BeginAgent(db, now, ctx)
    case ReplaceWorkspace(threadId) => BumpGeneration(db, threadId)
  }
}
