/**
 The stores as they run: tables that each transaction updates step by step, the
 per-thread event log and the outbox. Every method is tied to the transaction
 function of `GitRecords`, and the log always replays to the rows.
 */
module GitStore {
  import opened Wrappers
  import opened GitRecords
  import opened RunWaits

  datatype Change = Requested | Decided(approval: Approval) | Updated(execution: Execution)

  datatype GitEvent = GitEvent(threadId: ThreadId, sequence: nat, operationId: OpId, change: Change)

  /** The approval that the log, read from its end, gives an operation. */
  function LoggedApproval(log: seq<GitEvent>, id: OpId): Option<Approval> {
    if log == [] then None
    else
      var last := log[|log| - 1];
      if last.operationId == id && last.change.Requested? then Some(Pending)
      else if last.operationId == id && last.change.Decided? then Some(last.change.approval)
      else LoggedApproval(log[..|log| - 1], id)
  }

  function LoggedExecution(log: seq<GitEvent>, id: OpId): Option<Execution> {
    if log == [] then None
    else
      var last := log[|log| - 1];
      if last.operationId == id && last.change.Requested? then Some(NotStarted)
      else if last.operationId == id && last.change.Updated? then Some(last.change.execution)
      else LoggedExecution(log[..|log| - 1], id)
  }

  lemma {:induction false} AppendedEventSpeaksForItsOperation(log: seq<GitEvent>, e: GitEvent, id: OpId)
    ensures LoggedApproval(log + [e], id)
         == if e.operationId == id && e.change.Requested? then Some(Pending)
            else if e.operationId == id && e.change.Decided? then Some(e.change.approval)
            else LoggedApproval(log, id)
    ensures LoggedExecution(log + [e], id)
         == if e.operationId == id && e.change.Requested? then Some(NotStarted)
            else if e.operationId == id && e.change.Updated? then Some(e.change.execution)
            else LoggedExecution(log, id)
  {
    assert (log + [e])[..|log|] == log;
  }

  /** Replaying the log gives exactly the rows. */
  ghost predicate Replays(log: seq<GitEvent>, ops: map<OpId, Operation>) {
    forall id :: if id in ops then LoggedApproval(log, id) == Some(ops[id].approval)
                                   && LoggedExecution(log, id) == Some(ops[id].execution)
                 else LoggedApproval(log, id) == None && LoggedExecution(log, id) == None
  }

  /** Writing a row together with the event that says so keeps the two in step. */
  lemma AppendKeepsReplay(log: seq<GitEvent>, ops: map<OpId, Operation>, e: GitEvent, row: Operation)
    requires Replays(log, ops)
    requires match e.change
             case Requested => e.operationId !in ops && row.approval == Pending && row.execution == NotStarted
             case Decided(approval) => e.operationId in ops && row.approval == approval
                                       && row.execution == ops[e.operationId].execution
             case Updated(execution) => e.operationId in ops && row.execution == execution
                                        && row.approval == ops[e.operationId].approval
    ensures Replays(log + [e], ops[e.operationId := row])
  {
    forall id { AppendedEventSpeaksForItsOperation(log, e, id); }
  }

  /** Events of one thread are numbered upwards, up to the thread's counter. */
  ghost predicate Numbered(log: seq<GitEvent>, counters: map<ThreadId, nat>) {
    && (forall i :: 0 <= i < |log| ==> log[i].threadId in counters && log[i].sequence <= counters[log[i].threadId])
    && (forall i, j :: 0 <= i < j < |log| && log[i].threadId == log[j].threadId ==> log[i].sequence < log[j].sequence)
  }

  /** The rows that expiry may touch. */
  function Expirable(db: Db, runId: RunId): set<OpId> {
    set id | id in db.ops && db.ops[id].runId == runId && (db.ops[id].approval == Pending || db.ops[id].approval == Approved)
  }

  /** The rows after the expiry loop has handled the identifiers in `done`. */
  ghost predicate Swept(before: map<OpId, Operation>, after: map<OpId, Operation>, done: set<OpId>,
                        current: Run, generation: nat, now: nat) {
    before.Keys == after.Keys
    && forall id :: id in after ==> after[id] == if id in done then ExpiredRow(before[id], current, generation, now) else before[id]
  }

  lemma SweepsOneMore(before: map<OpId, Operation>, after: map<OpId, Operation>, selected: set<OpId>, rows: set<OpId>,
                      id: OpId, current: Run, generation: nat, now: nat)
    requires Swept(before, after, selected - rows, current, generation, now) && id in after && id in rows && rows <= selected
    ensures Swept(before, after[id := ExpiredRow(after[id], current, generation, now)], selected - (rows - {id}),
                  current, generation, now)
  {
  }

  /** Settling the expirable rows one by one gives what settling all rows at once gives. */
  lemma ExpiryRowByRow(db: Db, now: nat, runId: RunId, done: set<OpId>, ops: map<OpId, Operation>)
    requires Lockable(db, runId) && done == Expirable(db, runId)
    requires Swept(db.ops, ops, done, db.runs[runId], GenerationOf(db, runId), now)
    ensures ops == Expire(db, now, runId).db.ops
  {
  }

  /** A resume charges the run for the same time as before it, if at most one of its waits was open. */
  predicate Charged(before: Run, after: Run, now: nat) {
    Exclusive(before) && EarlierOf(before.approvalWaitStartedAt, EarlierOf(before.questionWaitStartedAt, now)) <= now ==>
      ExecutionElapsed(after, now) == ExecutionElapsed(before, now)
  }

  lemma ApprovalResumeCharges(run: Run, since: nat, now: nat)
    requires run.approvalWaitStartedAt == Some(since)
    ensures Charged(run, run.(approvalWaitMs := run.approvalWaitMs + Elapsed(since, now), approvalWaitStartedAt := None), now)
  {
  }

  lemma QuestionResumeCharges(run: Run, since: nat, now: nat)
    requires run.questionWaitStartedAt == Some(since)
    ensures Charged(run, run.(questionWaitMs := run.questionWaitMs + Elapsed(since, now), questionWaitStartedAt := None), now)
  {
  }

  class Store {
    var threads: map<ThreadId, Thread>
    var runs: map<RunId, Run>
    var ops: map<OpId, Operation>
    var questions: map<QuestionId, Question>
    var counters: map<ThreadId, nat>
    var log: seq<GitEvent>
    var outbox: seq<RunId>

    function Rows(): Db
      reads this
    {
      Db(threads, runs, ops, questions)
    }

    ghost predicate Valid()
      reads this
    {
      Replays(log, ops) && Numbered(log, counters) && counters.Keys == threads.Keys
      && (forall r :: r in runs ==> runs[r].threadId in threads)
      && (forall id :: id in ops ==> ops[id].runId in runs)
    }

    constructor (threads: map<ThreadId, Thread>, runs: map<RunId, Run>)
      requires forall r :: r in runs ==> runs[r].threadId in threads
      ensures Valid() && Rows() == Db(threads, runs, map[], map[]) && log == [] && outbox == []
    {
      this.threads, this.runs, ops, questions := threads, runs, map[], map[];
      counters := map t | t in threads :: 0;
      log, outbox := [], [];
    }

    /** Takes the thread's next sequence number and appends. */
    method AppendEvent(threadId: ThreadId, id: OpId, change: Change)
      requires threadId in counters && Numbered(log, counters)
      modifies this`counters, this`log
      ensures counters == old(counters)[threadId := old(counters)[threadId] + 1]
      ensures log == old(log) + [GitEvent(threadId, counters[threadId], id, change)]
      ensures Numbered(log, counters)
    {
      counters := counters[threadId := counters[threadId] + 1];
      log := log + [GitEvent(threadId, counters[threadId], id, change)];
    }

    method Publish(now: nat, runId: RunId, generation: nat, p: Proposal) returns (r: Result<(), StoreError>)
      requires Valid() && runId in runs
      modifies this`ops, this`runs, this`counters, this`log
      ensures Valid() && Rows() == PublishProposal(old(Rows()), now, runId, generation, p).db
      ensures r == PublishProposal(old(Rows()), now, runId, generation, p).result
      ensures old(log) <= log && (r.Err? ==> Rows() == old(Rows()) && log == old(log) && counters == old(counters))
    {
      var current := runs[runId];
      if ProposalDigest(p.body) != p.digest || current.cancelRequested { return Err(ProposalStale); }
      if p.body.id in ops {
        var prior := ops[p.body.id];
        if prior.runId != runId || prior.proposal.digest != p.digest { return Err(ProposalStale); }
        return Ok(());
      }
      if current.approvalWaitStartedAt.Some? { return Err(ApprovalPending); }
      if threads[current.threadId].repositoryUrl != p.body.repositoryUrl { return Err(ProposalStale); }
      ops := ops[p.body.id := Operation(runId, current.threadId, current.userId, generation, p, Pending,
                                        NotStarted, now + APPROVAL_LIFETIME_MS, None, None)];
      runs := runs[runId := current.(approvalWaitStartedAt := Some(now))];
      AppendEvent(current.threadId, p.body.id, Requested);
      AppendKeepsReplay(old(log), old(ops), log[|log| - 1], ops[p.body.id]);
      return Ok(());
    }

    /** Writes a decision: the row, its event and the signal that wakes the waiting run. */
    method Settle(now: nat, id: OpId, approval: Approval)
      requires Valid() && id in ops
      modifies this`ops, this`counters, this`log, this`outbox
      ensures Valid() && ops == old(ops)[id := SettleApproval(old(ops)[id], approval, now)]
      ensures outbox == old(outbox) + [old(ops)[id].runId]
      ensures |log| == |old(log)| + 1
    {
      var op := ops[id];
      var row := op.(approval := approval, decidedAt := Some(now),
                     receipt := if approval == Approved then None else Some(NotWritten(approval)));
      ops := ops[id := row];
      AppendEvent(runs[op.runId].threadId, id, Decided(approval));
      outbox := outbox + [op.runId];
      AppendKeepsReplay(old(log), old(ops), log[|log| - 1], row);
    }

    method Decide(now: nat, userId: UserId, threadId: ThreadId, id: OpId, approve: bool, digest: Digest)
      returns (r: Result<(), StoreError>)
      requires Valid()
      modifies this
      ensures Valid() && Rows() == Decision(old(Rows()), now, userId, threadId, id, approve, digest).db
      ensures r == Decision(old(Rows()), now, userId, threadId, id, approve, digest).result
      ensures outbox == old(outbox) + if ops == old(ops) then [] else [ops[id].runId]
    {
      if id !in ops { return Err(OperationNotFound); }
      var op := ops[id];
      if op.userId != userId || op.threadId != threadId { return Err(OperationNotFound); }
      var current, generation := runs[op.runId], threads[runs[op.runId].threadId].generation;
      var approval := if approve then Approved else Rejected;
      if op.proposal.digest != digest { return Err(ProposalStale); }
      if op.approval == approval { return Ok(()); }
      if op.approval != Pending { return Err(DecisionConflict); }
      if op.expiresAt <= now || !Live(current) || generation != op.generation { return Err(ProposalStale); }
      Settle(now, id, approval);
      return Ok(());
    }

    /** One row of the expiry loop. */
    method ExpireRow(now: nat, id: OpId, current: Run, generation: nat)
      requires Valid() && id in ops && (ops[id].approval == Pending || ops[id].approval == Approved)
      modifies this`ops, this`counters, this`log, this`outbox
      ensures Valid() && ops == old(ops)[id := ExpiredRow(old(ops)[id], current, generation, now)]
      ensures |outbox| - |old(outbox)| == |log| - |old(log)|
    {
      var op := ops[id];
      if op.execution == NotStarted {
        if !Live(current) || op.generation != generation {
          Settle(now, id, Invalidated);
        } else if op.expiresAt <= now {
          Settle(now, id, Expired);
        }
      }
    }

    /** Settles the given rows one after another, in whatever order they come. */
    method ExpireRows(now: nat, selected: set<OpId>, current: Run, generation: nat)
      requires Valid() && selected <= ops.Keys
      requires forall id :: id in selected ==> ops[id].approval == Pending || ops[id].approval == Approved
      modifies this`ops, this`counters, this`log, this`outbox
      ensures Valid() && Swept(old(ops), ops, selected, current, generation, now)
      ensures |outbox| - |old(outbox)| == |log| - |old(log)|
    {
      var rows := selected;
      while rows != {}
        invariant Valid() && rows <= selected
        invariant Swept(old(ops), ops, selected - rows, current, generation, now)
        invariant |outbox| - |old(outbox)| == |log| - |old(log)|
        decreases rows
      {
        var id :| id in rows;
        SweepsOneMore(old(ops), ops, selected, rows, id, current, generation, now);
        ExpireRow(now, id, current, generation);
        rows := rows - {id};
      }
    }

    method ExpireRun(now: nat, runId: RunId) returns (r: Result<(), StoreError>)
      requires Valid()
      modifies this
      ensures Valid() && Rows() == Expire(old(Rows()), now, runId).db
      ensures r == Expire(old(Rows()), now, runId).result
      ensures |outbox| - |old(outbox)| == |log| - |old(log)|
    {
      if runId !in runs { return Err(RunNotFound); }
      var current, generation := runs[runId], threads[runs[runId].threadId].generation;
      var selected := Expirable(Rows(), runId);
      ExpireRows(now, selected, current, generation);
      ExpiryRowByRow(old(Rows()), now, runId, selected, ops);
      return Ok(());
    }

    method StoreRun(runId: RunId, row: Run)
      requires Valid() && runId in runs && row.threadId == runs[runId].threadId
      modifies this`runs
      ensures Valid() && runs == old(runs)[runId := row]
    {
      runs := runs[runId := row];
    }

    /**
     Succeeds exactly when nothing is pending; then the run no longer waits for an approval, and the
     time it is charged for does not jump unless its question wait is open too.
     */
    method ResumeRun(now: nat, runId: RunId) returns (r: Result<(), StoreError>)
      requires Valid()
      modifies this`runs
      ensures Valid() && Rows() == Resume(old(Rows()), now, runId).db
      ensures r.Ok? <==> runId in runs && !HasPendingApproval(Rows(), runId)
      ensures r.Err? ==> r.error == (if runId in runs then ApprovalPending else RunNotFound) && runs == old(runs)
      ensures r.Ok? ==> runs[runId].approvalWaitStartedAt.None? && Charged(old(runs)[runId], runs[runId], now)
    {
      if runId !in runs { return Err(RunNotFound); }
      var current := runs[runId];
      var waiting := exists id :: id in ops && ops[id].runId == runId && ops[id].approval == Pending;
      assert Lockable(Rows(), runId) && waiting == HasPendingApproval(Rows(), runId);
      if waiting { return Err(ApprovalPending); }
      if current.approvalWaitStartedAt.Some? {
        var since := current.approvalWaitStartedAt.value;
        ApprovalResumeCharges(current, since, now);
        StoreRun(runId, current.(approvalWaitMs := current.approvalWaitMs + (if since <= now then now - since else 0),
                                 approvalWaitStartedAt := None));
      }
      return Ok(());
    }

    /** Writes a new execution status: the row and its event. */
    method Record(id: OpId, row: Operation)
      requires Valid() && id in ops && row == ops[id].(execution := row.execution, receipt := row.receipt)
      modifies this`ops, this`counters, this`log
      ensures Valid() && ops == old(ops)[id := row] && |log| == |old(log)| + 1
    {
      ops := ops[id := row];
      AppendEvent(runs[row.runId].threadId, id, Updated(row.execution));
      AppendKeepsReplay(old(log), old(ops), log[|log| - 1], row);
    }

    method ClaimOperation(now: nat, id: OpId, ctx: Context) returns (r: Result<bool, StoreError>)
      requires Valid()
      modifies this
      ensures Valid() && Rows() == Claim(old(Rows()), now, id, ctx).db
      ensures r == Claim(old(Rows()), now, id, ctx).result
    {
      if ctx.runId !in runs { return Err(RunNotFound); }
      var current, generation := runs[ctx.runId], threads[runs[ctx.runId].threadId].generation;
      if id !in ops { return Err(OperationNotFound); }
      var op := ops[id];
      if op.runId != ctx.runId || current.owner.None? || current.owner.value.token != ctx.ownershipToken
         || generation != ctx.generation { return Err(OwnershipLost); }
      if op.execution != NotStarted { return Ok(false); }
      if !Live(current) || op.generation != generation || op.approval != Approved || op.expiresAt <= now {
        return Err(ProposalStale);
      }
      if exists other :: other in ops && ops[other].proposal.body.repositoryId == op.proposal.body.repositoryId
                         && (ops[other].execution == Executing || ops[other].execution == Unknown) {
        return Err(OperationUnknown);
      }
      Record(id, op.(execution := Executing));
      return Ok(true);
    }

    method FinishOperation(id: OpId, execution: Execution, receipt: Receipt, onlyNotStarted: bool)
      returns (r: Result<(), StoreError>)
      requires Valid()
      modifies this
      ensures Valid() && Rows() == Finish(old(Rows()), id, execution, receipt, onlyNotStarted).db
      ensures r == Finish(old(Rows()), id, execution, receipt, onlyNotStarted).result
    {
      if id !in ops { return Err(OperationNotFound); }
      var op := ops[id];
      if op.execution == Succeeded || op.execution == Failed { return Ok(()); }
      if onlyNotStarted && op.execution != NotStarted { return Ok(()); }
      Record(id, op.(execution := execution, receipt := Some(receipt)));
      return Ok(());
    }

    /**
     `current` is the run row as the transaction locked it. After a success the question is stored under
     its run, and it is either new, with its wait open, or was there before and nothing changed.
     */
    method AskQuestion(current: Run, now: nat, runId: RunId, request: QuestionRequest) returns (r: Result<(), StoreError>)
      requires Valid() && runId in runs && current.threadId == runs[runId].threadId
      modifies this`questions, this`runs
      ensures Valid() && Rows() == PublishQuestion(old(Rows()), current, now, runId, request).db
      ensures r == PublishQuestion(old(Rows()), current, now, runId, request).result
      ensures r.Err? ==> Rows() == old(Rows())
      ensures r.Ok? ==> request.id in questions && questions[request.id].runId == runId && questions[request.id].request == request
      ensures r.Ok? ==> if request.id in old(questions) then Rows() == old(Rows())
                        else runs[runId].questionWaitStartedAt == Some(now) && questions[request.id].state == Asked
                             && !Waiting(current)
    {
      if !Live(current) { return Err(QuestionStale); }
      if exists q :: q in questions && questions[q].runId == runId && questions[q].request.toolCallId == request.toolCallId {
        if request.id in questions && questions[request.id].runId == runId && questions[request.id].request == request {
          return Ok(());
        }
        return Err(QuestionStale);
      }
      if current.questionWaitStartedAt.Some? { return Err(QuestionPending); }
      if current.approvalWaitStartedAt.Some? { return Err(ApprovalPending); }
      if request.id in questions { return Err(QuestionStale); }
      questions := questions[request.id := Question(runId, current.threadId, current.userId, request, Asked, None)];
      runs := runs[runId := runs[runId].(questionWaitStartedAt := Some(now))];
      return Ok(());
    }

    /** The ownership guards of every write of a run's owner. */
    method LockOwned(ctx: Context) returns (r: Result<Run, StoreError>)
      requires Valid()
      ensures r == CheckOwner(Rows(), ctx)
    {
      if ctx.runId !in runs { return Err(RunNotFound); }
      var current := runs[ctx.runId];
      if current.status != Queued && current.status != Running { return Err(RunTerminal); }
      if ctx.generation != threads[current.threadId].generation { return Err(GenerationMismatch); }
      if current.owner != Some(Owner(ctx.ownershipToken, ctx.generation)) { return Err(OwnershipLost); }
      return Ok(current);
    }

    /** The checkpoint transaction: whatever fails in it, everything it wrote before is rolled back. */
    method SaveAll(now: nat, ctx: Context, proposal: Option<Proposal>, question: Option<QuestionRequest>)
      returns (r: Result<(), StoreError>)
      requires Valid()
      modifies this
      ensures Valid() && Rows() == SaveCheckpoint(old(Rows()), now, ctx, proposal, question).db
      ensures r == SaveCheckpoint(old(Rows()), now, ctx, proposal, question).result
      ensures outbox == old(outbox) && old(log) <= log
      ensures r.Err? ==> Rows() == old(Rows()) && log == old(log) && counters == old(counters)
    {
      var owned := LockOwned(ctx);
      if owned.Err? { return Err(owned.error); }
      r := SaveOwnedRows(owned.value, now, ctx, proposal, question);
    }

    method SaveOwnedRows(current: Run, now: nat, ctx: Context, proposal: Option<Proposal>, question: Option<QuestionRequest>)
      returns (r: Result<(), StoreError>)
      requires Valid() && ctx.runId in runs && current == runs[ctx.runId]
      modifies this`ops, this`runs, this`questions, this`counters, this`log
      ensures Valid() && Rows() == SaveOwned(old(Rows()), current, now, ctx, proposal, question).db
      ensures r == SaveOwned(old(Rows()), current, now, ctx, proposal, question).result
      ensures old(log) <= log && (r.Err? ==> Rows() == old(Rows()) && log == old(log) && counters == old(counters))
    {
      var before := (runs, ops, counters, log);
      r := Ok(());
      if proposal.Some? { r := Publish(now, ctx.runId, ctx.generation, proposal.value); }
      if r.Err? || question.None? { return; }
      r := AskQuestion(current, now, ctx.runId, question.value);
      if r.Err? {
        runs, ops, counters, log := before.0, before.1, before.2, before.3;
      }
    }

    /** The answers of all parts, in the order of the request. */
    method Normalize(request: QuestionRequest, answers: Answers) returns (r: Result<Answers, StoreError>)
      ensures r.Ok? <==> Fits(request, answers)
      ensures r == if Fits(request, answers) then Ok(answers) else Err(InvalidAnswers)
    {
      if multiset(answers.Keys) != multiset(request.parts) { return Err(InvalidAnswers); }
      var normalized: Answers := map[];
      for i := 0 to |request.parts|
        invariant normalized.Keys == set p | p in request.parts[..i]
        invariant forall p :: p in normalized ==> p in answers && normalized[p] == answers[p]
      {
        var part := request.parts[i];
        assert part in multiset(request.parts);
        assert request.parts[..i + 1] == request.parts[..i] + [part];
        normalized := normalized[part := answers[part]];
      }
      assert request.parts[..|request.parts|] == request.parts;
      forall p | p in answers ensures p in normalized { assert p in multiset(answers.Keys); }
      assert normalized == answers;
      return Ok(normalized);
    }

    /**
     Only the user whose thread asked may answer, and only all parts at once. The same answers again are
     accepted; other answers, and answers that come too late, are not.
     */
    method Answer(userId: UserId, threadId: ThreadId, id: QuestionId, answers: Answers) returns (r: Result<(), StoreError>)
      requires Valid()
      modifies this`questions, this`outbox
      ensures Valid() && Rows() == AnswerQuestion(old(Rows()), userId, threadId, id, answers).db
      ensures r == AnswerQuestion(old(Rows()), userId, threadId, id, answers).result
      ensures r.Ok? ==> id in questions && questions[id].userId == userId && questions[id].threadId == threadId
                        && questions[id].state == Answered && questions[id].answers == Some(answers)
                        && Fits(questions[id].request, answers)
      ensures outbox == old(outbox) + if questions == old(questions) then [] else [questions[id].runId]
    {
      if id !in questions || questions[id].threadId != threadId || questions[id].userId != userId { return Err(QuestionNotFound); }
      var question := questions[id];
      var normalized := Normalize(question.request, answers);
      if normalized.Err? { return Err(normalized.error); }
      if question.state == Answered {
        return if question.answers == Some(normalized.value) then Ok(()) else Err(AnswerConflict);
      }
      if question.state != Asked { return Err(AnswerConflict); }
      if question.runId !in runs || !Live(runs[question.runId]) { return Err(AnswerConflict); }
      questions := questions[id := question.(state := Answered, answers := Some(normalized.value))];
      assert questions[id] != old(questions)[id];
      outbox := outbox + [question.runId];
      return Ok(());
    }

    /** The same for questions: no jump unless the approval wait is open too. */
    method ResumeQuestionWait(now: nat, runId: RunId) returns (r: Result<(), StoreError>)
      requires Valid()
      modifies this`runs
      ensures Valid() && Rows() == ResumeQuestions(old(Rows()), now, runId).db
      ensures r.Ok? <==> runId in runs && !HasAskedQuestion(Rows(), runId)
      ensures r.Err? ==> r.error == (if runId in runs then QuestionPending else RunNotFound) && runs == old(runs)
      ensures r.Ok? ==> runs[runId].questionWaitStartedAt.None? && Charged(old(runs)[runId], runs[runId], now)
    {
      if runId !in runs { return Err(RunNotFound); }
      var current := runs[runId];
      var waiting := exists q :: q in questions && questions[q].runId == runId && questions[q].state == Asked;
      assert waiting == HasAskedQuestion(Rows(), runId);
      if waiting { return Err(QuestionPending); }
      if current.questionWaitStartedAt.Some? {
        var since := current.questionWaitStartedAt.value;
        QuestionResumeCharges(current, since, now);
        StoreRun(runId, current.(questionWaitMs := current.questionWaitMs + (if since <= now then now - since else 0),
                                 questionWaitStartedAt := None));
      }
      return Ok(());
    }

    /** Withdraws the run's open questions, however many there are. */
    method CancelPendingQuestions(runId: RunId) returns (cancelled: set<QuestionId>)
      requires Valid()
      modifies this`questions
      ensures Valid() && Rows() == WithdrawQuestions(old(Rows()), runId)
      ensures cancelled == set q | q in old(questions) && old(questions)[q].runId == runId && old(questions)[q].state == Asked
    {
      var rows := set q | q in questions && questions[q].runId == runId && questions[q].state == Asked;
      cancelled := {};
      while rows != {}
        invariant rows !! cancelled && questions.Keys == old(questions.Keys)
        invariant rows + cancelled == set q | q in old(questions) && old(questions)[q].runId == runId
                                              && old(questions)[q].state == Asked
        invariant forall q :: q in questions ==>
                    questions[q] == if q in cancelled then old(questions)[q].(state := Withdrawn) else old(questions)[q]
        decreases rows
      {
        var q :| q in rows;
        rows := rows - {q};
        questions := questions[q := questions[q].(state := Withdrawn)];
        cancelled := cancelled + {q};
      }
      assert questions == WithdrawQuestions(old(Rows()), runId).questions;
    }
  }
}
