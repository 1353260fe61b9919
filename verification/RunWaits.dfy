/**
 The two human waits of a run and the execution time they are subtracted from:
 runner attempts with their tool gate, the publishing checkpoint, the answers,
 the resumes and a clock.
 */
module RunWaits {
  import opened Wrappers
  import opened GitRecords

  // ---- Execution time --------------------------------------------------------------------------

  function EarlierOf(wait: Option<nat>, now: nat): nat {
    if wait.Some? then wait.value else now
  }

  function Smaller(a: int, b: int): int {
    if a <= b then a else b
  }

  /** Active execution time: frozen at the start of an open wait, without the closed waits. */
  function ExecutionElapsed(run: Run, now: nat): int {
    if run.agentStartedAt.None? then 0
    else
      var span := Smaller(EarlierOf(run.approvalWaitStartedAt, now), EarlierOf(run.questionWaitStartedAt, now))
                  - run.agentStartedAt.value - run.approvalWaitMs - run.questionWaitMs;
      if span < 0 then 0 else span
  }

  /** Elapsed time is never negative; it stands still while a wait is open, and waits that were closed are left out. */
  lemma ElapsedMeans(run: Run, now: nat)
    ensures ExecutionElapsed(run, now) >= 0 && (run.agentStartedAt.None? ==> ExecutionElapsed(run, now) == 0)
    ensures run.agentStartedAt.Some? ==>
              var until := match (run.approvalWaitStartedAt, run.questionWaitStartedAt)
                           case (None, None) => now
                           case (Some(a), None) => if a < now then a else now
                           case (None, Some(q)) => if q < now then q else now
                           case (Some(a), Some(q)) => if a < q then a else q;
              var charged := until - run.agentStartedAt.value - run.approvalWaitMs - run.questionWaitMs;
              ExecutionElapsed(run, now) == if charged > 0 then charged else 0
  {
  }

  predicate Waiting(run: Run) {
    run.approvalWaitStartedAt.Some? || run.questionWaitStartedAt.Some?
  }

  /** At most one of the two waits is open. */
  predicate Exclusive(run: Run) {
    run.approvalWaitStartedAt.None? || run.questionWaitStartedAt.None?
  }

  // ---- A pending decision keeps its wait open --------------------------------------------------

  /** Every pending approval and open question belongs to a run whose wait is open, alone of its kind. */
  ghost predicate WaitsCover(db: Db) {
    && (forall id :: id in db.ops && db.ops[id].approval == Pending ==>
          db.ops[id].runId in db.runs && db.runs[db.ops[id].runId].approvalWaitStartedAt.Some?)
    && (forall q :: q in db.questions && db.questions[q].state == Asked ==>
          db.questions[q].runId in db.runs && db.runs[db.questions[q].runId].questionWaitStartedAt.Some?)
  }

  ghost predicate OnePendingEach(db: Db) {
    && (forall i, j | i in db.ops && j in db.ops && db.ops[i].approval == Pending && db.ops[j].approval == Pending
                      && db.ops[i].runId == db.ops[j].runId :: i == j)
    && (forall i, j | i in db.questions && j in db.questions && db.questions[i].state == Asked
                      && db.questions[j].state == Asked && db.questions[i].runId == db.questions[j].runId :: i == j)
  }

  ghost predicate Covered(db: Db) {
    WaitsCover(db) && OnePendingEach(db)
  }

  lemma PublishKeepsCover(db: Db, now: nat, runId: RunId, generation: nat, p: Proposal)
    requires Lockable(db, runId) && Covered(db)
    ensures Covered(PublishProposal(db, now, runId, generation, p).db)
  {
  }

  lemma PublishQuestionKeepsCover(db: Db, current: Run, now: nat, runId: RunId, request: QuestionRequest)
    requires runId in db.runs && Covered(db) && current.questionWaitStartedAt == db.runs[runId].questionWaitStartedAt
    ensures Covered(PublishQuestion(db, current, now, runId, request).db)
  {
  }

  /** The row that a checkpoint's proposal leaves for its question. */
  function Published(db: Db, now: nat, ctx: Context, proposal: Option<Proposal>): Reply<()>
    requires Lockable(db, ctx.runId)
  {
    if proposal.Some? then PublishProposal(db, now, ctx.runId, ctx.generation, proposal.value) else Reply(db, Ok(()))
  }

  /** A checkpoint leaves the rows as they were, or as its publications leave them. */
  lemma CheckpointPublishes(db: Db, now: nat, ctx: Context, proposal: Option<Proposal>, question: Option<QuestionRequest>)
    requires Lockable(db, ctx.runId)
    ensures var published := Published(db, now, ctx, proposal).db;
            var saved := SaveCheckpoint(db, now, ctx, proposal, question).db;
            && ctx.runId in published.runs
            && published.runs[ctx.runId].questionWaitStartedAt == db.runs[ctx.runId].questionWaitStartedAt
            && (saved == db || saved == published
                || (question.Some? && saved == PublishQuestion(published, db.runs[ctx.runId], now, ctx.runId, question.value).db))
  {
  }

  lemma CheckpointKeepsCover(db: Db, now: nat, ctx: Context, proposal: Option<Proposal>, question: Option<QuestionRequest>)
    requires Covered(db)
    ensures Covered(SaveCheckpoint(db, now, ctx, proposal, question).db)
  {
    if Lockable(db, ctx.runId) {
      CheckpointPublishes(db, now, ctx, proposal, question);
      if proposal.Some? { PublishKeepsCover(db, now, ctx.runId, ctx.generation, proposal.value); }
      if question.Some? {
        PublishQuestionKeepsCover(Published(db, now, ctx, proposal).db, db.runs[ctx.runId], now, ctx.runId, question.value);
      }
    }
  }

  /** Nothing new waits, and every wait that something still needs stays open. */
  ghost predicate OnlySettles(db: Db, next: Db) {
    && (forall id :: id in next.ops && next.ops[id].approval == Pending ==>
          id in db.ops && db.ops[id].approval == Pending && next.ops[id].runId == db.ops[id].runId)
    && (forall q :: q in next.questions && next.questions[q].state == Asked ==>
          q in db.questions && db.questions[q].state == Asked && next.questions[q].runId == db.questions[q].runId)
    && (forall r | r in db.runs ::
          r in next.runs
          && (next.runs[r].approvalWaitStartedAt == db.runs[r].approvalWaitStartedAt || !HasPendingApproval(next, r))
          && (next.runs[r].questionWaitStartedAt == db.runs[r].questionWaitStartedAt || !HasAskedQuestion(next, r)))
  }

  lemma SettlingKeepsCover(db: Db, next: Db)
    requires Covered(db) && OnlySettles(db, next)
    ensures Covered(next)
  {
    forall id | id in next.ops && next.ops[id].approval == Pending
      ensures next.ops[id].runId in next.runs && next.runs[next.ops[id].runId].approvalWaitStartedAt.Some?
    {
      assert HasPendingApproval(next, next.ops[id].runId);
    }
    forall q | q in next.questions && next.questions[q].state == Asked
      ensures next.questions[q].runId in next.runs && next.runs[next.questions[q].runId].questionWaitStartedAt.Some?
    {
      assert HasAskedQuestion(next, next.questions[q].runId);
    }
  }

  lemma EndingOnlySettles(db: Db, now: nat, t: Transaction)
    requires t.Cancel? || t.End?
    ensures OnlySettles(db, Perform(db, now, t))
  {
  }

  lemma OwnershipOnlySettles(db: Db, now: nat, t: Transaction)
    requires t.Complete? || t.TakeOwnership? || t.Begin? || t.ReplaceWorkspace?
    ensures OnlySettles(db, Perform(db, now, t))
  {
  }

  lemma ResumingOnlySettles(db: Db, now: nat, t: Transaction)
    requires t.ResumeRun? || t.ResumeQuestionWait?
    ensures OnlySettles(db, Perform(db, now, t))
  {
    var next := Perform(db, now, t);
    assert next.ops == db.ops && next.questions == db.questions;
    forall r ensures HasPendingApproval(next, r) == HasPendingApproval(db, r) {}
    forall r ensures HasAskedQuestion(next, r) == HasAskedQuestion(db, r) {}
  }

  lemma DecidingOnlySettles(db: Db, now: nat, t: Transaction)
    requires t.Decide? || t.Answer?
    ensures OnlySettles(db, Perform(db, now, t))
  {
  }

  lemma ExpiringOnlySettles(db: Db, now: nat, runId: RunId)
    ensures OnlySettles(db, Expire(db, now, runId).db)
  {
  }

  lemma TransactionKeepsCover(db: Db, now: nat, t: Transaction)
    requires Covered(db)
    ensures Covered(Perform(db, now, t))
  {
    if t.Checkpoint? {
      CheckpointKeepsCover(db, now, t.ctx, t.proposal, t.question);
    } else {
      if t.Cancel? || t.End? { EndingOnlySettles(db, now, t); }
      else if t.ResumeRun? || t.ResumeQuestionWait? { ResumingOnlySettles(db, now, t); }
      else if t.Decide? || t.Answer? { DecidingOnlySettles(db, now, t); }
      else if t.ExpireRun? { ExpiringOnlySettles(db, now, t.runId); }
      else { OwnershipOnlySettles(db, now, t); }
      SettlingKeepsCover(db, Perform(db, now, t));
    }
  }

  // ---- Both waits at once ----------------------------------------------------------------------

  /** A proposal that its guards accept and that is not a repeat. */
  predicate FreshProposal(db: Db, run: Run, p: Proposal) {
    && ProposalDigest(p.body) == p.digest && !run.cancelRequested && p.body.id !in db.ops
    && run.approvalWaitStartedAt.None?
    && run.threadId in db.threads && db.threads[run.threadId].repositoryUrl == p.body.repositoryUrl
  }

  predicate FreshQuestion(db: Db, run: Run, runId: RunId, request: QuestionRequest) {
    Live(run) && !Requested(db, runId, request.toolCallId) && !Waiting(run) && request.id !in db.questions
  }

  /** The same request again, which changes nothing. */
  predicate RepeatedQuestion(db: Db, run: Run, runId: RunId, request: QuestionRequest) {
    Live(run) && request.id in db.questions && db.questions[request.id].runId == runId && db.questions[request.id].request == request
  }

  /**
   The checkpoints that open both waits: a fresh proposal while a question wait is open, with no
   question or a repeated one; and a fresh proposal together with a fresh question while none is open.
   */
  predicate OpensBoth(db: Db, ctx: Context, proposal: Option<Proposal>, question: Option<QuestionRequest>) {
    && CheckOwner(db, ctx).Ok? && proposal.Some?
    && var run := db.runs[ctx.runId];
       && FreshProposal(db, run, proposal.value)
       && (if run.questionWaitStartedAt.Some? then question.None? || RepeatedQuestion(db, run, ctx.runId, question.value)
           else question.Some? && FreshQuestion(db, run, ctx.runId, question.value))
  }

  predicate DoublesWaits(db: Db, t: Transaction, r: RunId) {
    t.Checkpoint? && t.ctx.runId == r && OpensBoth(db, t.ctx, t.proposal, t.question)
  }

  /** What a checkpoint does to the waits of its run. */
  lemma CheckpointWaits(db: Db, now: nat, ctx: Context, proposal: Option<Proposal>, question: Option<QuestionRequest>)
    requires Lockable(db, ctx.runId) && Exclusive(db.runs[ctx.runId])
    ensures var saved := SaveCheckpoint(db, now, ctx, proposal, question).db;
            && saved.runs.Keys == db.runs.Keys && (forall r :: r in db.runs && r != ctx.runId ==> saved.runs[r] == db.runs[r])
            && (!Exclusive(saved.runs[ctx.runId]) <==> OpensBoth(db, ctx, proposal, question))
  {
    var run := db.runs[ctx.runId];
    if question.Some? && Published(db, now, ctx, proposal).result.Ok? {
      var published := Published(db, now, ctx, proposal).db;
      assert published.questions == db.questions;
      assert Requested(published, ctx.runId, question.value.toolCallId) == Requested(db, ctx.runId, question.value.toolCallId);
      if RepeatedQuestion(db, run, ctx.runId, question.value) { assert Requested(db, ctx.runId, question.value.toolCallId); }
    }
  }

  lemma OthersKeepExclusion(db: Db, now: nat, t: Transaction, r: RunId)
    requires !t.Checkpoint? && r in db.runs && Exclusive(db.runs[r])
    ensures r in Perform(db, now, t).runs && Exclusive(Perform(db, now, t).runs[r])
  {
  }

  /**
   Of all transactions exactly these checkpoints open both waits of a run that had at most one open,
   whatever the run, and each of them does.
   */
  lemma ExclusionBreaksExactlyThere(db: Db, now: nat, t: Transaction, r: RunId)
    requires r in db.runs && Exclusive(db.runs[r])
    ensures r in Perform(db, now, t).runs
    ensures !Exclusive(Perform(db, now, t).runs[r]) <==> DoublesWaits(db, t, r)
  {
    if !t.Checkpoint? {
      OthersKeepExclusion(db, now, t, r);
    } else if Lockable(db, t.ctx.runId) && Exclusive(db.runs[t.ctx.runId]) {
      CheckpointWaits(db, now, t.ctx, t.proposal, t.question);
    } else {
      CheckpointTouchesItsRun(db, now, t.ctx, t.proposal, t.question, r);
    }
  }

  lemma CheckpointTouchesItsRun(db: Db, now: nat, ctx: Context, proposal: Option<Proposal>, question: Option<QuestionRequest>, r: RunId)
    requires r in db.runs
    ensures r in SaveCheckpoint(db, now, ctx, proposal, question).db.runs
    ensures r != ctx.runId || !Lockable(db, r) ==> SaveCheckpoint(db, now, ctx, proposal, question).db.runs[r] == db.runs[r]
  {
  }

  /** Only a proposal can do so when a checkpoint carries one thing at a time, and only over a question wait. */
  lemma OneAtATimeDoublesOverQuestions(db: Db, ctx: Context, proposal: Option<Proposal>, question: Option<QuestionRequest>)
    requires proposal.None? || question.None?
    ensures OpensBoth(db, ctx, proposal, question) <==>
              CheckOwner(db, ctx).Ok? && proposal.Some? && FreshProposal(db, db.runs[ctx.runId], proposal.value)
              && db.runs[ctx.runId].questionWaitStartedAt.Some?
  {
  }

  /** Active time before it is cut off at zero. */
  function Span(run: Run, now: nat): int
    requires run.agentStartedAt.Some?
  {
    Smaller(EarlierOf(run.approvalWaitStartedAt, now), EarlierOf(run.questionWaitStartedAt, now))
    - run.agentStartedAt.value - run.approvalWaitMs - run.questionWaitMs
  }

  function Larger(a: int, b: int): int {
    if a >= b then a else b
  }

  /** Resuming an approval over an open question wait takes away exactly the time in which both were open. */
  lemma OverlapIsSubtractedTwice(db: Db, now: nat, r: RunId)
    requires Lockable(db, r) && !HasPendingApproval(db, r) && db.runs[r].agentStartedAt.Some?
    requires db.runs[r].approvalWaitStartedAt.Some? && db.runs[r].questionWaitStartedAt.Some?
    requires db.runs[r].approvalWaitStartedAt.value <= now && db.runs[r].questionWaitStartedAt.value <= now
    ensures var run, next := db.runs[r], Resume(db, now, r).db.runs[r];
            Span(next, now) == Span(run, now) - (now - Larger(run.approvalWaitStartedAt.value, run.questionWaitStartedAt.value))
  {
  }

  /** Publishing the same question again is accepted and changes nothing, whatever has happened to the waits since. */
  lemma AskingAgainChangesNothing(db: Db, now: nat, later: nat, runId: RunId, current: Run, request: QuestionRequest)
    requires runId in db.runs && PublishQuestion(db, current, now, runId, request).result.Ok?
    ensures var next := PublishQuestion(db, current, now, runId, request).db;
            forall row: Run :: Live(row) ==> PublishQuestion(next, row, later, runId, request) == Reply(next, Ok(()))
  {
    var next := PublishQuestion(db, current, now, runId, request).db;
    assert request.id in next.questions && next.questions[request.id].runId == runId;
    assert Requested(next, runId, request.toolCallId);
  }

  lemma ProposingAgainChangesNothing(db: Db, now: nat, later: nat, runId: RunId, generation: nat, p: Proposal)
    requires Lockable(db, runId) && PublishProposal(db, now, runId, generation, p).result.Ok?
    ensures var next := PublishProposal(db, now, runId, generation, p).db;
            Lockable(next, runId) && PublishProposal(next, later, runId, generation, p) == Reply(next, Ok(()))
  {
  }
}
