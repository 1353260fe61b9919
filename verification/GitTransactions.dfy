/**
 What the store's transactions do, told row by row: when a row changes, what it
 becomes, and when a transaction is refused. Every transaction is covered, so
 these are all the ways in which an approval, a question or a run ever moves.
 */
module GitTransactions {
  import opened Wrappers
  import opened GitRecords

  // ---- approvals -------------------------------------------------------------------------------

  /** The user who was asked decides on what they were shown, in time and while the run can still use it. */
  predicate Decides(db: Db, now: nat, t: Transaction, id: OpId) {
    && t.Decide? && t.id == id && id in db.ops
    && var op := db.ops[id];
       && op.userId == t.userId && op.threadId == t.threadId && op.proposal.digest == t.digest
       && op.approval == Pending && now < op.expiresAt
       && op.runId in db.runs && db.runs[op.runId].threadId in db.threads
       && !db.runs[op.runId].cancelRequested && (db.runs[op.runId].status == Queued || db.runs[op.runId].status == Running)
       && db.threads[db.runs[op.runId].threadId].generation == op.generation
  }

  /** Nothing has been dispatched for it, and it may still be. */
  predicate Usable(op: Operation) {
    (op.approval == Pending || op.approval == Approved) && op.execution == NotStarted
  }

  /** Its run can no longer use it. */
  predicate Useless(db: Db, op: Operation)
    requires Lockable(db, op.runId)
  {
    var run := db.runs[op.runId];
    run.cancelRequested || !(run.status == Queued || run.status == Running)
    || db.threads[run.threadId].generation != op.generation
  }

  predicate Invalidates(db: Db, t: Transaction, id: OpId) {
    && id in db.ops && Usable(db.ops[id])
    && ((t.ExpireRun? && t.runId == db.ops[id].runId && Lockable(db, t.runId) && Useless(db, db.ops[id]))
        || (t.Cancel? && t.runId == db.ops[id].runId && t.runId in db.runs && Live(db.runs[t.runId]))
        || (t.End? && t.runId == db.ops[id].runId && t.runId in db.runs && ActiveRun(db.runs[t.runId].status)))
  }

  predicate Expires(db: Db, now: nat, t: Transaction, id: OpId) {
    && id in db.ops && Usable(db.ops[id]) && t.ExpireRun? && t.runId == db.ops[id].runId && Lockable(db, t.runId)
    && !Useless(db, db.ops[id]) && db.ops[id].expiresAt <= now
  }

  /** The row after a decision of any kind: when, and for a refusal why nothing was written. */
  predicate BecomesSettled(op: Operation, next: Operation, approval: Approval, now: nat) {
    && next == op.(approval := approval, decidedAt := Some(now), receipt := next.receipt)
    && (if approval == Approved then next.receipt.None? else next.receipt == Some(NotWritten(approval)))
  }

  /**
   Main result: these are all the moves of an existing operation's row outside a broker call. Its
   approval changes exactly by its own user's decision, by invalidation or by expiry.
   */
  lemma ApprovalMoves(db: Db, now: nat, t: Transaction, id: OpId)
    requires id in db.ops
    ensures var next := Perform(db, now, t).ops;
            && id in next
            && (Decides(db, now, t, id) ==> BecomesSettled(db.ops[id], next[id], if t.approve then Approved else Rejected, now))
            && (Invalidates(db, t, id) ==> BecomesSettled(db.ops[id], next[id], Invalidated, now))
            && (Expires(db, now, t, id) ==> BecomesSettled(db.ops[id], next[id], Expired, now))
            && (!Decides(db, now, t, id) && !Invalidates(db, t, id) && !Expires(db, now, t, id) ==> next[id] == db.ops[id])
  {
    if t.Checkpoint? { CheckpointOps(db, now, t.ctx, t.proposal, t.question); }
  }

  /** Consequences for one decision: it takes effect once, and what it means does not depend on what came later. */
  lemma DecisionIsAnsweredHonestly(db: Db, now: nat, userId: UserId, threadId: ThreadId, id: OpId, approve: bool, digest: Digest)
    ensures var r := Decision(db, now, userId, threadId, id, approve, digest);
            var asked := id in db.ops && db.ops[id].userId == userId && db.ops[id].threadId == threadId;
            var wanted := if approve then Approved else Rejected;
            && (r.result.Ok? ==> asked && r.db.ops[id].approval == wanted && db.ops[id].proposal.digest == digest)
            && (r.result.Ok? <==> Decides(db, now, Decide(userId, threadId, id, approve, digest), id)
                                  || (asked && Lockable(db, db.ops[id].runId) && db.ops[id].proposal.digest == digest && db.ops[id].approval == wanted))
            && (!asked <==> r.result == Err(OperationNotFound))
            && (r.result == Err(DecisionConflict) <==>
                  asked && Lockable(db, db.ops[id].runId) && db.ops[id].proposal.digest == digest
                  && db.ops[id].approval != wanted && db.ops[id].approval != Pending)
            && (r.result == Err(RunNotFound) <==> asked && !Lockable(db, db.ops[id].runId))
            && (r.result.Err? ==> r.db == db && r.result.error in {OperationNotFound, DecisionConflict, RunNotFound, ProposalStale})
  {
  }

  // ---- publication -----------------------------------------------------------------------------

  /** A proposal that is accepted as a new one. */
  predicate Proposes(db: Db, ctx: Context, p: Proposal) {
    && Lockable(db, ctx.runId)
    && var run := db.runs[ctx.runId];
       && (run.status == Queued || run.status == Running) && run.owner == Some(Owner(ctx.ownershipToken, ctx.generation))
       && db.threads[run.threadId].generation == ctx.generation
       && p.digest == Digest(p.body) && !run.cancelRequested && p.body.id !in db.ops && run.approvalWaitStartedAt.None?
       && db.threads[run.threadId].repositoryUrl == p.body.repositoryUrl
  }

  lemma CheckpointOps(db: Db, now: nat, ctx: Context, proposal: Option<Proposal>, question: Option<QuestionRequest>)
    ensures var saved := SaveCheckpoint(db, now, ctx, proposal, question);
            && (saved.result.Err? ==> saved.db == db)
            && (saved.result.Ok? ==> CheckOwner(db, ctx).Ok?)
            && saved.db.threads == db.threads
            && saved.db.ops == (if saved.result.Ok? && proposal.Some? && proposal.value.body.id !in db.ops
                                then db.ops[proposal.value.body.id := NewRow(db, now, ctx, proposal.value)] else db.ops)
  {
  }

  function NewRow(db: Db, now: nat, ctx: Context, p: Proposal): Operation
    requires CheckOwner(db, ctx).Ok?
  {
    Operation(ctx.runId, db.runs[ctx.runId].threadId, db.runs[ctx.runId].userId, ctx.generation, p, Pending, NotStarted,
              now + 86_400_000, None, None)
  }

  /** Operations appear only as fresh proposals of a checkpoint, which belong to its run, its user and its generation. */
  lemma OperationsAppear(db: Db, now: nat, t: Transaction, id: OpId)
    requires id !in db.ops
    ensures id in Perform(db, now, t).ops ==>
              && t.Checkpoint? && t.proposal.Some? && t.proposal.value.body.id == id && Proposes(db, t.ctx, t.proposal.value)
              && Perform(db, now, t).ops[id] == NewRow(db, now, t.ctx, t.proposal.value)
              && Perform(db, now, t).runs[t.ctx.runId].approvalWaitStartedAt == Some(now)
    ensures t.Checkpoint? && t.proposal.Some? && t.proposal.value.body.id == id && Proposes(db, t.ctx, t.proposal.value)
            && (t.question.None? || Asks(db, t.ctx.runId, t.question.value) || Repeats(db, t.ctx.runId, t.question.value)) ==>
              id in Perform(db, now, t).ops
  {
  }

  // ---- questions -------------------------------------------------------------------------------

  /** A question that is accepted as a new one. */
  predicate Asks(db: Db, runId: RunId, request: QuestionRequest) {
    && runId in db.runs && Live(db.runs[runId])
    && db.runs[runId].questionWaitStartedAt.None? && db.runs[runId].approvalWaitStartedAt.None?
    && request.id !in db.questions
    && (forall q :: q in db.questions && db.questions[q].runId == runId ==> db.questions[q].request.toolCallId != request.toolCallId)
  }

  /** The same request once more. */
  predicate Repeats(db: Db, runId: RunId, request: QuestionRequest) {
    && runId in db.runs && Live(db.runs[runId])
    && request.id in db.questions && db.questions[request.id].runId == runId && db.questions[request.id].request == request
  }

  /** One answer for each part. */
  predicate IsAnsweredBy(db: Db, t: Transaction, q: QuestionId) {
    && t.Answer? && t.questionId == q && q in db.questions
    && var question := db.questions[q];
       && question.threadId == t.threadId && question.userId == t.userId && question.state == Asked
       && Fits(question.request, t.answers) && question.runId in db.runs && Live(db.runs[question.runId])
  }

  predicate Withdraws(db: Db, t: Transaction, q: QuestionId) {
    && q in db.questions && db.questions[q].state == Asked && (t.Cancel? || t.End?) && t.runId == db.questions[q].runId
    && t.runId in db.runs && (if t.Cancel? then Live(db.runs[t.runId]) else ActiveRun(db.runs[t.runId].status))
  }

  /** These are all the moves of an existing question. */
  lemma QuestionMoves(db: Db, now: nat, t: Transaction, q: QuestionId)
    requires q in db.questions
    ensures var next := Perform(db, now, t).questions;
            q in next && next[q] == if IsAnsweredBy(db, t, q) then db.questions[q].(state := Answered, answers := Some(t.answers))
                                    else if Withdraws(db, t, q) then db.questions[q].(state := Withdrawn)
                                    else db.questions[q]
  {
  }

  function NewQuestion(db: Db, runId: RunId, request: QuestionRequest): Question
    requires runId in db.runs
  {
    Question(runId, db.runs[runId].threadId, db.runs[runId].userId, request, Asked, None)
  }

  /** Questions appear only with a checkpoint of their run and open its wait. */
  lemma QuestionsAppear(db: Db, now: nat, t: Transaction, q: QuestionId)
    requires q !in db.questions
    ensures q in Perform(db, now, t).questions ==>
              && t.Checkpoint? && t.question.Some? && t.question.value.id == q && Asks(db, t.ctx.runId, t.question.value)
              && Perform(db, now, t).questions[q] == NewQuestion(db, t.ctx.runId, t.question.value)
              && Perform(db, now, t).runs[t.ctx.runId].questionWaitStartedAt == Some(now)
    ensures t.Checkpoint? && t.proposal.None? && t.question.Some? && t.question.value.id == q
            && CheckOwner(db, t.ctx).Ok? && Asks(db, t.ctx.runId, t.question.value) ==>
              q in Perform(db, now, t).questions
  {
  }

  /** An answer is accepted exactly when it takes effect or was given before. */
  lemma AnswersAreAccepted(db: Db, userId: UserId, threadId: ThreadId, q: QuestionId, answers: Answers)
    ensures var r := AnswerQuestion(db, userId, threadId, q, answers);
            var asked := q in db.questions && db.questions[q].threadId == threadId && db.questions[q].userId == userId;
            && (r.result.Ok? <==> IsAnsweredBy(db, Answer(userId, threadId, q, answers), q)
                                  || (asked && Fits(db.questions[q].request, answers) && db.questions[q].state == Answered
                                      && db.questions[q].answers == Some(answers)))
            && (r.result == Err(QuestionNotFound) <==> !asked)
            && (r.result == Err(InvalidAnswers) <==> asked && !Fits(db.questions[q].request, answers))
            && (r.result.Err? ==> r.db == db && r.result.error in {QuestionNotFound, InvalidAnswers, AnswerConflict})
  {
  }

  // ---- runs ------------------------------------------------------------------------------------

  predicate Owns(db: Db, ctx: Context, token: Token) {
    && Lockable(db, ctx.runId) && ActiveRun(db.runs[ctx.runId].status)
    && db.runs[ctx.runId].owner == Some(Owner(token, db.threads[db.runs[ctx.runId].threadId].generation))
  }

  /** What becomes of a run's status, its cancellation and its owner. */
  lemma RunMoves(db: Db, now: nat, t: Transaction, r: RunId)
    requires r in db.runs
    ensures var run := db.runs[r];
            var active := run.status == Queued || run.status == Running;
            var next := Perform(db, now, t).runs;
            && r in next
            && next[r].threadId == run.threadId && next[r].userId == run.userId
            && next[r].status == (if t.End? && t.runId == r && active then
                                    if run.cancelRequested || !t.failed then RunCancelled else RunFailed
                                  else if t.Complete? && t.ctx.runId == r && Owns(db, t.ctx, t.ctx.ownershipToken) then
                                    if run.cancelRequested then RunCancelled else RunCompleted
                                  else run.status)
            && (next[r].cancelRequested <==> run.cancelRequested || (t.Cancel? && t.runId == r && active))
            && next[r].owner == (if t.TakeOwnership? && t.runId == r && Lockable(db, r) && active
                                 then Some(Owner(t.token, db.threads[run.threadId].generation)) else run.owner)
            && next[r].agentStartedAt == (if t.Begin? && t.ctx.runId == r && Owns(db, t.ctx, t.ctx.ownershipToken) && !run.cancelRequested
                                             && run.agentStartedAt.None?
                                          then Some(now) else run.agentStartedAt)
  {
    if t.Checkpoint? { CheckpointRuns(db, now, t.ctx, t.proposal, t.question, r); }
  }

  lemma CheckpointRuns(db: Db, now: nat, ctx: Context, proposal: Option<Proposal>, question: Option<QuestionRequest>, r: RunId)
    requires r in db.runs
    ensures var saved := SaveCheckpoint(db, now, ctx, proposal, question).db;
            && r in saved.runs
            && saved.runs[r] == db.runs[r].(approvalWaitStartedAt := saved.runs[r].approvalWaitStartedAt,
                                            questionWaitStartedAt := saved.runs[r].questionWaitStartedAt)
            && (r != ctx.runId ==> saved.runs[r] == db.runs[r])
  {
  }

  function Waited(since: Option<nat>, now: nat): nat {
    if since.Some? && since.value <= now then now - since.value else 0
  }

  /** A resume closes its wait and adds its length, once nothing of its kind is pending any more. */
  lemma WaitsClose(db: Db, now: nat, t: Transaction, r: RunId)
    requires r in db.runs && !t.Checkpoint?
    ensures var run := db.runs[r];
            var next := Perform(db, now, t).runs;
            var resumes := t.ResumeRun? && t.runId == r && Lockable(db, r) && !HasPendingApproval(db, r);
            var continues := t.ResumeQuestionWait? && t.runId == r && !HasAskedQuestion(db, r);
            && r in next
            && next[r].approvalWaitStartedAt == (if resumes then None else run.approvalWaitStartedAt)
            && next[r].approvalWaitMs == run.approvalWaitMs + (if resumes then Waited(run.approvalWaitStartedAt, now) else 0)
            && next[r].questionWaitStartedAt == (if continues then None else run.questionWaitStartedAt)
            && next[r].questionWaitMs == run.questionWaitMs + (if continues then Waited(run.questionWaitStartedAt, now) else 0)
  {
  }

  /** A checkpoint opens a wait of its run exactly when the rows it left hold something new to wait for. */
  lemma WaitsOpen(db: Db, now: nat, ctx: Context, proposal: Option<Proposal>, question: Option<QuestionRequest>)
    requires ctx.runId in db.runs
    ensures var run := db.runs[ctx.runId];
            var next := SaveCheckpoint(db, now, ctx, proposal, question).db;
            && ctx.runId in next.runs
            && next.runs[ctx.runId].approvalWaitStartedAt == (if next.ops == db.ops then run.approvalWaitStartedAt else Some(now))
            && next.runs[ctx.runId].questionWaitStartedAt == (if next.questions == db.questions then run.questionWaitStartedAt else Some(now))
            && next.runs[ctx.runId].approvalWaitMs == run.approvalWaitMs && next.runs[ctx.runId].questionWaitMs == run.questionWaitMs
  {
  }

  /** A replaced filesystem gets the next generation; nothing else happens to a thread. */
  lemma ThreadMoves(db: Db, now: nat, t: Transaction, th: ThreadId)
    requires th in db.threads
    ensures var next := Perform(db, now, t).threads;
            th in next && next[th].repositoryUrl == db.threads[th].repositoryUrl
            && next[th].generation == db.threads[th].generation + if t.ReplaceWorkspace? && t.threadId == th then 1 else 0
  {
  }

  // ---- what a caller is told -------------------------------------------------------------------

  /** A claim tells its caller to dispatch exactly when it starts the operation, and says why it does not. */
  lemma ClaimsAreAnswered(db: Db, now: nat, id: OpId, ctx: Context)
    ensures var r := Claim(db, now, id, ctx);
            var known := Lockable(db, ctx.runId) && id in db.ops;
            var owned := known && db.ops[id].runId == ctx.runId && db.runs[ctx.runId].owner.Some?
                         && db.runs[ctx.runId].owner.value.token == ctx.ownershipToken
                         && db.threads[db.runs[ctx.runId].threadId].generation == ctx.generation;
            && (r.result == Ok(true) ==> owned && db.ops[id].execution == NotStarted && r.db == db.(ops := db.ops[id := db.ops[id].(execution := Executing)]))
            && (r.result == Ok(false) <==> owned && db.ops[id].execution != NotStarted)
            && (r.result != Ok(true) ==> r.db == db)
            && (r.result == Err(OwnershipLost) <==> known && !owned)
            && (r.result == Err(OperationUnknown) <==>
                  owned && db.ops[id].execution == NotStarted && Live(db.runs[ctx.runId]) && db.ops[id].generation == ctx.generation
                  && db.ops[id].approval == Approved && now < db.ops[id].expiresAt
                  && RepositoryBusy(db, db.ops[id].proposal.body.repositoryId))
            && (r.result == Err(ProposalStale) <==>
                  owned && db.ops[id].execution == NotStarted
                  && !(Live(db.runs[ctx.runId]) && db.ops[id].generation == ctx.generation && db.ops[id].approval == Approved
                       && now < db.ops[id].expiresAt))
  {
  }

  /** Why an owner is refused. */
  lemma OwnersAreAnswered(db: Db, ctx: Context)
    ensures var r := CheckOwner(db, ctx);
            var active := Lockable(db, ctx.runId) && (db.runs[ctx.runId].status == Queued || db.runs[ctx.runId].status == Running);
            && (r == Err(RunNotFound) <==> !Lockable(db, ctx.runId))
            && (r == Err(RunTerminal) <==> Lockable(db, ctx.runId) && !active)
            && (r == Err(GenerationMismatch) <==> active && ctx.generation != db.threads[db.runs[ctx.runId].threadId].generation)
            && (r.Ok? <==> Owns(db, ctx, ctx.ownershipToken) && ctx.generation == db.threads[db.runs[ctx.runId].threadId].generation)
            && (r.Ok? ==> r.value == db.runs[ctx.runId])
            && (r.Err? ==> r.error in {RunNotFound, RunTerminal, GenerationMismatch, OwnershipLost})
  {
  }

  /** Why a proposal is refused: a changed one, a second one, or one that its run or thread has left behind. */
  lemma ProposalsAreAnswered(db: Db, now: nat, runId: RunId, generation: nat, p: Proposal)
    requires Lockable(db, runId)
    ensures var r := PublishProposal(db, now, runId, generation, p);
            var run := db.runs[runId];
            var whole := p.digest == Digest(p.body) && !run.cancelRequested;
            && (r.result == Err(ApprovalPending) <==> whole && p.body.id !in db.ops && run.approvalWaitStartedAt.Some?)
            && (r.result == Err(ProposalStale) <==>
                  || !whole
                  || (p.body.id in db.ops && !(db.ops[p.body.id].runId == runId && db.ops[p.body.id].proposal.digest == p.digest))
                  || (p.body.id !in db.ops && run.approvalWaitStartedAt.None?
                      && db.threads[run.threadId].repositoryUrl != p.body.repositoryUrl))
            && (r.result.Err? ==> r.db == db && r.result.error in {ApprovalPending, ProposalStale})
  {
  }

  /** Why a question is refused. */
  lemma QuestionsAreAnswered(db: Db, current: Run, now: nat, runId: RunId, request: QuestionRequest)
    requires runId in db.runs
    ensures var r := PublishQuestion(db, current, now, runId, request);
            var first := Live(current) && forall q :: q in db.questions && db.questions[q].runId == runId ==>
                                                      db.questions[q].request.toolCallId != request.toolCallId;
            && (r.result == Err(QuestionPending) <==> first && current.questionWaitStartedAt.Some?)
            && (r.result == Err(ApprovalPending) <==> first && current.questionWaitStartedAt.None? && current.approvalWaitStartedAt.Some?)
            && (r.result.Err? ==> r.db == db && r.result.error in {QuestionPending, ApprovalPending, QuestionStale})
  {
  }

  /** A checkpoint is accepted exactly when its owner may write and all it carries is fresh or a repeat. */
  lemma CheckpointsAreAnswered(db: Db, now: nat, ctx: Context, proposal: Option<Proposal>, question: Option<QuestionRequest>)
    ensures var r := SaveCheckpoint(db, now, ctx, proposal, question);
            r.result.Ok? <==>
              && Owns(db, ctx, ctx.ownershipToken) && ctx.generation == db.threads[db.runs[ctx.runId].threadId].generation
              && (proposal.Some? ==>
                    Proposes(db, ctx, proposal.value)
                    || (proposal.value.digest == Digest(proposal.value.body) && !db.runs[ctx.runId].cancelRequested
                        && proposal.value.body.id in db.ops && db.ops[proposal.value.body.id].runId == ctx.runId
                        && db.ops[proposal.value.body.id].proposal.digest == proposal.value.digest))
              && (question.Some? ==>
                    Asks(db, ctx.runId, question.value) || Repeats(db, ctx.runId, question.value))
  {
  }
}
