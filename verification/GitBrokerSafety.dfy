/**
 What every reachable state of the Git write protocol satisfies, proved from the
 guards of the transactions alone (no unique index is assumed).
 */
module GitBrokerSafety {
  import opened Wrappers
  import opened GitRecords
  import opened GitBroker

  // ---- Rows ------------------------------------------------------------------------------------

  ghost predicate SameProposal(a: Operation, b: Operation) {
    a.runId == b.runId && a.threadId == b.threadId && a.userId == b.userId && a.generation == b.generation
    && a.proposal == b.proposal
  }

  /** A row's two statuses agree with each other and with the recorded history. */
  ghost predicate RowOk(id: OpId, op: Operation, s: System) {
    && op.proposal.body.id == id && op.proposal.digest == ProposalDigest(op.proposal.body)
    && (op.approval == Pending ==> op.execution == NotStarted)
    && (Unsettled(op.execution) || op.execution == Succeeded ==> op.approval == Approved)
    && (op.approval == Approved ==> (op.userId, op.proposal.digest) in s.consents)
    && (op.execution == NotStarted ==> id !in s.writes)
    && (id in s.writes ==> op.approval == Approved)
    && (op.execution == Failed && id in s.applied ==> id in s.misread)
    && (op.execution == Succeeded && Marked(op.proposal.body.kind) ==> id in s.applied)
  }

  ghost predicate RowsOk(s: System) {
    forall id :: id in s.db.ops ==> RowOk(id, s.db.ops[id], s)
  }

  ghost predicate Contend(s: System, i: OpId, j: OpId) {
    i in s.db.ops && j in s.db.ops && i != j
    && s.db.ops[i].proposal.body.repositoryId == s.db.ops[j].proposal.body.repositoryId
    && Unsettled(s.db.ops[i].execution) && Unsettled(s.db.ops[j].execution)
  }

  /** At most one operation per repository is executing or unknown. */
  ghost predicate OnePerRepository(s: System) {
    forall i, j :: !Contend(s, i, j)
  }

  ghost predicate NoDuplicates(xs: seq<OpId>) {
    forall i, j :: 0 <= i < j < |xs| ==> xs[i] != xs[j]
  }

  /** At most one write per operation was ever sent, and only sent writes were applied. */
  ghost predicate HistoryOk(s: System) {
    && NoDuplicates(s.writes)
    && (forall id :: id in s.applied ==> id in s.writes)
    && (forall id :: id in s.writes ==> id in s.db.ops)
  }

  // ---- Calls -----------------------------------------------------------------------------------

  /** The call that may write, or has written, the operation. */
  ghost predicate HoldsDispatch(b: Broker, id: OpId) {
    (b.Dispatching? && b.id == id) || (b.Verifying? && b.dispatch && b.id == id)
  }

  ghost predicate Earlier(existing: Operation, op: Operation) {
    && SameProposal(existing, op)
    && (existing.execution != NotStarted ==> op.execution != NotStarted)
    && (existing.approval != Pending ==> op.approval != Pending)
  }

  ghost predicate CallOk(b: Broker, s: System) {
    match b
    case Idle => true
    case Opened(id, ctx, existing) => id in s.db.ops && Earlier(existing, s.db.ops[id])
    case Refreshed(id, ctx, existing) => id in s.db.ops && Earlier(existing, s.db.ops[id])
    case Admitted(id, ctx, existing) =>
      id in s.db.ops && Earlier(existing, s.db.ops[id]) && existing.approval == Approved
      && (ctx.None? ==> Unsettled(existing.execution))
    case Cleared(id, ctx, existing) =>
      id in s.db.ops && Earlier(existing, s.db.ops[id]) && (ctx.None? ==> Unsettled(existing.execution))
    case Rejecting(id, code) => id in s.db.ops && s.db.ops[id].approval != Pending
    case Dispatching(id) =>
      id in s.db.ops && (Unsettled(s.db.ops[id].execution) || s.db.ops[id].execution == Succeeded) && id !in s.writes
    case Verifying(id, dispatch, w) =>
      id in s.db.ops && s.db.ops[id].execution != NotStarted
      && (dispatch ==> (Unsettled(s.db.ops[id].execution) || s.db.ops[id].execution == Succeeded)
                       && Possible(KindOf(s, id), w)
                       && (Applied(w) <==> id in s.applied) && (Sent(w) <==> id in s.writes))
    case Retrying(id) => id in s.db.ops && s.db.ops[id].execution != NotStarted
  }

  ghost predicate CallsOk(s: System) {
    forall b :: b in s.brokers ==> CallOk(s.brokers[b], s)
  }

  ghost predicate OneDispatcher(s: System) {
    forall a, b, id | a in s.brokers && b in s.brokers && HoldsDispatch(s.brokers[a], id)
                      && HoldsDispatch(s.brokers[b], id) :: a == b
  }

  ghost predicate Inv(s: System) {
    RowsOk(s) && OnePerRepository(s) && HistoryOk(s) && CallsOk(s) && OneDispatcher(s)
  }

  // ---- Store transactions ----------------------------------------------------------------------

  ghost predicate Settles(op: Operation, next: Operation, consents: set<(UserId, Digest)>) {
    op.execution == NotStarted && next.execution == NotStarted && SameProposal(op, next) && next.approval != Pending
    && (next.approval == Approved ==> (op.userId, op.proposal.digest) in consents)
  }

  ghost predicate Fresh(id: OpId, op: Operation) {
    op.proposal.body.id == id && op.proposal.digest == ProposalDigest(op.proposal.body)
    && op.approval == Pending && op.execution == NotStarted
  }

  /** Rows are only added fresh, or decided while nothing has been dispatched. */
  ghost predicate Benign(db: Db, next: Db, consents: set<(UserId, Digest)>) {
    && (forall id | id in db.ops :: id in next.ops
                                    && (next.ops[id] == db.ops[id] || Settles(db.ops[id], next.ops[id], consents)))
    && (forall id :: id in next.ops && id !in db.ops ==> Fresh(id, next.ops[id]))
  }

  lemma PublishIsBenign(db: Db, now: nat, runId: RunId, generation: nat, p: Proposal)
    requires Lockable(db, runId)
    ensures Benign(db, PublishProposal(db, now, runId, generation, p).db, {})
    ensures Lockable(PublishProposal(db, now, runId, generation, p).db, runId)
  {
  }

  ghost predicate PendingIsIdle(db: Db) {
    forall id :: id in db.ops && db.ops[id].approval == Pending ==> db.ops[id].execution == NotStarted
  }

  lemma CheckpointPublishesOrNot(db: Db, now: nat, ctx: Context, proposal: Option<Proposal>,
                                 question: Option<QuestionRequest>)
    ensures var saved := SaveCheckpoint(db, now, ctx, proposal, question).db;
            saved.ops == db.ops
            || (Lockable(db, ctx.runId) && proposal.Some?
                && saved.ops == PublishProposal(db, now, ctx.runId, ctx.generation, proposal.value).db.ops)
  {
  }

  lemma CheckpointIsBenign(db: Db, now: nat, ctx: Context, proposal: Option<Proposal>,
                           question: Option<QuestionRequest>)
    ensures Benign(db, SaveCheckpoint(db, now, ctx, proposal, question).db, {})
  {
    CheckpointPublishesOrNot(db, now, ctx, proposal, question);
    if Lockable(db, ctx.runId) && proposal.Some? {
      PublishIsBenign(db, now, ctx.runId, ctx.generation, proposal.value);
    }
  }

  lemma WithdrawalIsBenign(db: Db, now: nat, t: Transaction)
    requires PendingIsIdle(db) && (t.ExpireRun? || t.Cancel? || t.End?)
    ensures Benign(db, Perform(db, now, t), {})
  {
  }

  lemma DecisionIsBenign(db: Db, now: nat, t: Transaction)
    requires PendingIsIdle(db) && t.Decide?
    ensures Benign(db, Perform(db, now, t), Consents(t))
  {
  }

  lemma TransactionIsBenign(db: Db, now: nat, t: Transaction)
    requires PendingIsIdle(db)
    ensures Benign(db, Perform(db, now, t), Consents(t))
  {
    if t.Checkpoint? {
      CheckpointIsBenign(db, now, t.ctx, t.proposal, t.question);
    } else if t.ExpireRun? || t.Cancel? || t.End? {
      WithdrawalIsBenign(db, now, t);
    } else if t.Decide? {
      DecisionIsBenign(db, now, t);
    } else {
      assert Perform(db, now, t).ops == db.ops;
    }
  }

  lemma StoreIsBenign(s: System, t: Transaction)
    requires RowsOk(s)
    ensures Benign(s.db, Perform(s.db, s.now, t), Consents(t))
  {
    assert forall id :: id in s.db.ops ==> RowOk(id, s.db.ops[id], s);
    TransactionIsBenign(s.db, s.now, t);
  }

  lemma BenignKeepsRows(s: System, next: System, consents: set<(UserId, Digest)>)
    requires RowsOk(s) && HistoryOk(s) && Benign(s.db, next.db, consents)
    requires next == s.(db := next.db, consents := s.consents + consents)
    ensures RowsOk(next)
  {
    forall id | id in next.db.ops ensures RowOk(id, next.db.ops[id], next) {
      if id in s.db.ops { assert RowOk(id, s.db.ops[id], s); }
    }
  }

  lemma BenignKeepsCalls(s: System, next: System, consents: set<(UserId, Digest)>)
    requires CallsOk(s) && Benign(s.db, next.db, consents)
    requires next == s.(db := next.db, consents := s.consents + consents)
    ensures CallsOk(next)
  {
    forall c | c in next.brokers ensures CallOk(next.brokers[c], next) { assert CallOk(s.brokers[c], s); }
  }

  lemma BenignKeepsInv(s: System, next: System, consents: set<(UserId, Digest)>)
    requires Inv(s) && Benign(s.db, next.db, consents)
    requires next == s.(db := next.db, consents := s.consents + consents)
    ensures Inv(next)
  {
    BenignKeepsRows(s, next, consents);
    BenignKeepsCalls(s, next, consents);
    forall i, j ensures !Contend(next, i, j) {
      assert !Contend(s, i, j);
    }
  }

  // ---- Steps of a call -------------------------------------------------------------------------

  /** Moving one call without touching the store or the history. */
  lemma MoveKeepsInv(s: System, b: nat, to: Broker)
    requires Inv(s) && CallOk(to, s)
    requires forall id :: HoldsDispatch(to, id) ==> HoldsDispatch(At(s, b), id)
    ensures Inv(Move(s, b, to))
  {
    var next := Move(s, b, to);
    forall i, j ensures !Contend(next, i, j) {
      assert !Contend(s, i, j);
    }
  }

  /** The state after one call replaced one row and moved on. */
  function RowStep(s: System, b: nat, id: OpId, row: Operation, to: Broker): System {
    Move(s.(db := s.db.(ops := s.db.ops[id := row])), b, to)
  }

  /** What makes such a step safe. */
  ghost predicate RowStepOk(s: System, b: nat, id: OpId, row: Operation, to: Broker) {
    && id in s.db.ops && SameProposal(s.db.ops[id], row) && row.approval == s.db.ops[id].approval
    && !Terminal(s.db.ops[id].execution) && row.execution != NotStarted && RowOk(id, row, s)
    && (Unsettled(row.execution) ==> Unsettled(s.db.ops[id].execution)
                                     || !RepositoryBusy(s.db, row.proposal.body.repositoryId))
    && (row.execution == Failed ==> forall c :: c in s.brokers && c != b ==> !HoldsDispatch(s.brokers[c], id))
    && (to == Idle || to == Retrying(id)
        || (to == Dispatching(id) && s.db.ops[id].execution == NotStarted && row.execution == Executing
            && id !in s.writes))
  }

  lemma RowStepKeepsOne(s: System, b: nat, id: OpId, row: Operation, to: Broker)
    requires OnePerRepository(s) && RowStepOk(s, b, id, row, to)
    ensures OnePerRepository(RowStep(s, b, id, row, to))
  {
    var next := RowStep(s, b, id, row, to);
    forall i, j ensures !Contend(next, i, j) {
      assert !Contend(s, i, j);
    }
  }

  lemma RowStepKeepsCalls(s: System, b: nat, id: OpId, row: Operation, to: Broker)
    requires CallsOk(s) && OneDispatcher(s) && RowStepOk(s, b, id, row, to)
    ensures CallsOk(RowStep(s, b, id, row, to)) && OneDispatcher(RowStep(s, b, id, row, to))
  {
    var next := RowStep(s, b, id, row, to);
    forall c | c in next.brokers ensures CallOk(next.brokers[c], next) {
      if c != b { assert CallOk(s.brokers[c], s); }
    }
    forall c | c in s.brokers && to == Dispatching(id) ensures !HoldsDispatch(s.brokers[c], id) {
      assert CallOk(s.brokers[c], s);
    }
  }

  lemma RowStepKeepsInv(s: System, b: nat, id: OpId, row: Operation, to: Broker)
    requires Inv(s) && RowStepOk(s, b, id, row, to)
    ensures Inv(RowStep(s, b, id, row, to))
  {
    RowStepKeepsOne(s, b, id, row, to);
    RowStepKeepsCalls(s, b, id, row, to);
  }

  /** Recording an outcome for an operation that has been claimed. */
  ghost predicate MayRecord(s: System, id: OpId, execution: Execution) {
    id in s.db.ops && s.db.ops[id].execution != NotStarted && (Terminal(execution) || execution == Unknown)
    && (execution == Failed && !Terminal(s.db.ops[id].execution) && id in s.applied ==> id in s.misread)
    && (execution == Succeeded && Marked(KindOf(s, id)) && !Terminal(s.db.ops[id].execution) ==> id in s.applied)
  }

  lemma FinishKeepsInv(s: System, b: nat, id: OpId, execution: Execution, receipt: Receipt, to: Broker)
    requires Inv(s) && MayRecord(s, id, execution)
    requires to == Idle || to == Retrying(id)
    requires execution == Failed ==> forall c :: c in s.brokers && c != b ==> !HoldsDispatch(s.brokers[c], id)
    ensures Inv(Move(s.(db := Finish(s.db, id, execution, receipt, false).db), b, to))
  {
    var reply := Finish(s.db, id, execution, receipt, false);
    assert RowOk(id, s.db.ops[id], s);
    if reply.db == s.db {
      MoveKeepsInv(s, b, to);
      assert s.(db := reply.db) == s;
    } else {
      RowStepKeepsInv(s, b, id, s.db.ops[id].(execution := execution, receipt := Some(receipt)), to);
    }
  }

  lemma RejectionKeepsInv(s: System, b: nat)
    requires Inv(s) && At(s, b).Rejecting?
    ensures Inv(Next(s, RecordRejection(b)))
  {
    var id, code := At(s, b).id, At(s, b).code;
    assert CallOk(s.brokers[b], s) && RowOk(id, s.db.ops[id], s);
    var reply := Finish(s.db, id, Failed, Problem(code), true);
    if reply.db == s.db {
      MoveKeepsInv(s, b, Idle);
      assert s.(db := reply.db) == s;
    } else {
      forall c | c in s.brokers ensures !HoldsDispatch(s.brokers[c], id) {
        assert CallOk(s.brokers[c], s);
      }
      RowStepKeepsInv(s, b, id, s.db.ops[id].(execution := Failed, receipt := Some(Problem(code))), Idle);
    }
  }

  lemma ClaimKeepsInv(s: System, b: nat)
    requires Inv(s)
    ensures Inv(Next(s, ClaimStep(b)))
  {
    MoveKeepsInv(s, b, Idle);
    if At(s, b).Cleared? {
      var id, ctx := At(s, b).id, At(s, b).ctx;
      assert CallOk(s.brokers[b], s) && RowOk(id, s.db.ops[id], s);
      var reply := if ctx.Some? then Claim(s.db, s.now, id, ctx.value) else Reply(s.db, Ok(false));
      if reply.result == Ok(true) {
        RowStepKeepsInv(s, b, id, s.db.ops[id].(execution := Executing), Dispatching(id));
      } else if reply.result == Ok(false) {
        MoveKeepsInv(s, b, Verifying(id, false, HeadMoved));
      }
    }
  }

  lemma SendKeepsRows(s: System, b: nat, w: WriteOutcome)
    requires Inv(s) && At(s, b).Dispatching? && At(s, b).id in s.db.ops && Possible(KindOf(s, At(s, b).id), w)
    ensures RowsOk(Next(s, SendWrite(b, w))) && HistoryOk(Next(s, SendWrite(b, w)))
    ensures OnePerRepository(Next(s, SendWrite(b, w)))
  {
    var next := Next(s, SendWrite(b, w));
    assert CallOk(s.brokers[b], s);
    forall i, j ensures !Contend(next, i, j) {
      assert !Contend(s, i, j);
    }
    forall id | id in next.db.ops ensures RowOk(id, next.db.ops[id], next) {
      assert RowOk(id, s.db.ops[id], s);
    }
  }

  lemma SendKeepsCalls(s: System, b: nat, w: WriteOutcome)
    requires CallsOk(s) && OneDispatcher(s) && At(s, b).Dispatching? && At(s, b).id in s.db.ops
    requires Possible(KindOf(s, At(s, b).id), w) && (At(s, b).id in s.applied ==> At(s, b).id in s.writes)
    ensures CallsOk(Next(s, SendWrite(b, w)))
  {
    var next := Next(s, SendWrite(b, w));
    var id := At(s, b).id;
    assert CallOk(s.brokers[b], s) && HoldsDispatch(s.brokers[b], id);
    forall c | c in next.brokers ensures CallOk(next.brokers[c], next) {
      if c != b {
        assert CallOk(s.brokers[c], s);
        assert !HoldsDispatch(s.brokers[c], id);
      }
    }
  }

  lemma SendKeepsDispatcher(s: System, b: nat, w: WriteOutcome)
    requires OneDispatcher(s)
    ensures OneDispatcher(Next(s, SendWrite(b, w)))
  {
    var next := Next(s, SendWrite(b, w));
    forall c, id | c in next.brokers && HoldsDispatch(next.brokers[c], id)
      ensures c in s.brokers && HoldsDispatch(s.brokers[c], id)
    {
    }
  }

  lemma SendKeepsInv(s: System, b: nat, w: WriteOutcome)
    requires Inv(s)
    ensures Inv(Next(s, SendWrite(b, w)))
  {
    SendKeepsDispatcher(s, b, w);
    if At(s, b).Dispatching? {
      assert CallOk(s.brokers[b], s);
      if Possible(KindOf(s, At(s, b).id), w) {
        SendKeepsRows(s, b, w);
        SendKeepsCalls(s, b, w);
      }
    }
  }

  lemma ConcludeKeepsInv(s: System, b: nat, o: Observation, commits: bool, throws: bool)
    requires Inv(s)
    ensures Inv(ConcludeOf(s, b, o, commits, throws))
  {
    if At(s, b).Verifying? && PossibleObservation(KindOf(s, At(s, b).id), At(s, b).dispatch, o) {
      assert CallOk(s.brokers[b], s);
      var id, dispatch, w := At(s, b).id, At(s, b).dispatch, At(s, b).outcome;
      var seen := Seen(s, id, dispatch, o);
      var verdict := Judge(KindOf(s, id), dispatch, w, seen);
      var to := if throws && !verdict.caught then Retrying(id) else Idle;
      var noted := s.(misread := if Misread(KindOf(s, id), dispatch, w, seen) then s.misread + {id} else s.misread);
      assert Inv(noted) by {
        forall i, j ensures !Contend(noted, i, j) { assert !Contend(s, i, j); }
        forall c | c in noted.brokers ensures CallOk(noted.brokers[c], noted) { assert CallOk(s.brokers[c], s); }
      }
      if commits {
        if dispatch {
          assert HoldsDispatch(s.brokers[b], id);
          FailureIsHonestUnlessMisread(KindOf(s, id), dispatch, w, seen);
        }
        FinishKeepsInv(noted, b, id, verdict.execution, verdict.receipt, to);
      } else {
        MoveKeepsInv(noted, b, to);
      }
    }
  }

  lemma TickKeepsInv(s: System, ms: nat)
    requires Inv(s)
    ensures Inv(Next(s, Tick(ms)))
  {
    var next := Next(s, Tick(ms));
    forall i, j ensures !Contend(next, i, j) { assert !Contend(s, i, j); }
    forall c | c in next.brokers ensures CallOk(next.brokers[c], next) { assert CallOk(s.brokers[c], s); }
  }

  lemma ExpireFirstKeepsInv(s: System, b: nat)
    requires Inv(s)
    ensures Inv(Next(s, ExpireFirst(b)))
  {
    if At(s, b).Opened? && At(s, b).ctx.Some? {
      var call := At(s, b);
      StoreIsBenign(s, ExpireRun(call.ctx.value.runId));
      var expired := s.(db := Expire(s.db, s.now, call.ctx.value.runId).db);
      BenignKeepsInv(s, expired, {});
      MoveKeepsInv(expired, b, Idle);
      assert CallOk(expired.brokers[b], expired);
      MoveKeepsInv(expired, b, Refreshed(call.id, call.ctx, call.existing));
    }
  }

  lemma AdmissionKeepsInv(s: System, b: nat)
    requires Inv(s)
    ensures Inv(Next(s, Admit(b)))
  {
    MoveKeepsInv(s, b, Idle);
    var to := At(Next(s, Admit(b)), b);
    if to.Admitted? && !At(s, b).Admitted? {
      assert CallOk(s.brokers[b], s);
      MoveKeepsInv(s, b, to);
    }
  }

  lemma RepositoryCheckKeepsInv(s: System, b: nat, problem: Option<FailureCode>)
    requires Inv(s)
    ensures Inv(Next(s, CheckRepository(b, problem)))
  {
    MoveKeepsInv(s, b, Idle);
    if At(s, b).Admitted? {
      assert CallOk(s.brokers[b], s);
      MoveKeepsInv(s, b, Cleared(At(s, b).id, At(s, b).ctx, At(s, b).existing));
      if problem.Some? { MoveKeepsInv(s, b, Rejecting(At(s, b).id, problem.value)); }
    }
  }

  lemma StoreKeepsInv(s: System, t: Transaction)
    requires Inv(s)
    ensures Inv(Next(s, Store(t)))
  {
    StoreIsBenign(s, t);
    BenignKeepsInv(s, Next(s, Store(t)), Consents(t));
  }

  lemma StepKeepsInv(s: System, a: Action)
    requires Inv(s)
    ensures Inv(Next(s, a))
  {
    match a
    case Store(t) => StoreKeepsInv(s, t);
    case Tick(ms) => TickKeepsInv(s, ms);
    case BeginExecute(b, id, ctx) =>
      if At(s, b).Idle? && id in s.db.ops { MoveKeepsInv(s, b, Opened(id, ctx, s.db.ops[id])); }
    case ExpireFirst(b) => ExpireFirstKeepsInv(s, b);
    case Admit(b) => AdmissionKeepsInv(s, b);
    case CheckRepository(b, problem) => RepositoryCheckKeepsInv(s, b, problem);
    case RecordRejection(b) => if At(s, b).Rejecting? { RejectionKeepsInv(s, b); }
    case ClaimStep(b) => ClaimKeepsInv(s, b);
    case SendWrite(b, w) => SendKeepsInv(s, b, w);
    case Conclude(b, o) => ConcludeKeepsInv(s, b, o, true, false);
    case FinishThrows(b, o, committed) => ConcludeKeepsInv(s, b, o, committed, true);
    case RecordUnknown(b) =>
      if At(s, b).Retrying? {
        assert CallOk(s.brokers[b], s);
        FinishKeepsInv(s, b, At(s, b).id, Unknown, Problem(InternalError), Idle);
      }
    case Crash(b) => MoveKeepsInv(s, b, Idle);
  }

  lemma {:induction false} ReachableIsSafe(s: System, schedule: seq<Action>)
    requires Initial(s)
    ensures Inv(Execute(s, schedule))
  {
    if schedule != [] {
      ReachableIsSafe(s, schedule[..|schedule| - 1]);
      StepKeepsInv(Execute(s, schedule[..|schedule| - 1]), schedule[|schedule| - 1]);
    }
  }

  // ---- Results ---------------------------------------------------------------------------------

  /** At most one operation of a repository is executing or unknown, under every schedule. */
  lemma {:induction false} RepositoryExclusion(s: System, schedule: seq<Action>, i: OpId, j: OpId)
    requires Initial(s)
    requires i in Execute(s, schedule).db.ops && j in Execute(s, schedule).db.ops && i != j
    requires Execute(s, schedule).db.ops[i].proposal.body.repositoryId
          == Execute(s, schedule).db.ops[j].proposal.body.repositoryId
    ensures !(Unsettled(Execute(s, schedule).db.ops[i].execution) && Unsettled(Execute(s, schedule).db.ops[j].execution))
  {
    ReachableIsSafe(s, schedule);
    assert !Contend(Execute(s, schedule), i, j);
  }

  /** No operation is sent to the remote twice, whatever crashes, retries and recoveries happen. */
  lemma {:induction false} DispatchedAtMostOnce(s: System, schedule: seq<Action>)
    requires Initial(s)
    ensures NoDuplicates(Execute(s, schedule).writes)
    ensures Execute(s, schedule).applied <= (set id | id in Execute(s, schedule).writes)
  {
    ReachableIsSafe(s, schedule);
  }

  /** Whatever was sent, or counts as executing or done, had its own user's consent to exactly that content. */
  lemma {:induction false} OnlyConsentedContentIsWritten(s: System, schedule: seq<Action>, id: OpId)
    requires Initial(s) && id in Execute(s, schedule).db.ops
    ensures var op := Execute(s, schedule).db.ops[id];
            id in Execute(s, schedule).writes || Unsettled(op.execution) || op.execution == Succeeded ==>
            op.approval == Approved && (op.userId, ProposalDigest(op.proposal.body)) in Execute(s, schedule).consents
  {
    ReachableIsSafe(s, schedule);
    assert RowOk(id, Execute(s, schedule).db.ops[id], Execute(s, schedule));
  }

  /** What a settled row says about the remote. */
  lemma {:induction false} SettledRowsAreHonest(s: System, schedule: seq<Action>, id: OpId)
    requires Initial(s) && id in Execute(s, schedule).db.ops
    ensures var f := Execute(s, schedule);
            && (f.db.ops[id].execution == Failed && id in f.applied ==> id in f.misread)
            && (f.db.ops[id].execution == Succeeded && Marked(KindOf(f, id)) ==> id in f.applied)
            && (f.db.ops[id].execution == NotStarted ==> id !in f.writes)
  {
    ReachableIsSafe(s, schedule);
    assert RowOk(id, Execute(s, schedule).db.ops[id], Execute(s, schedule));
  }

  /** A call's own recording step leaves every terminal row alone. */
  lemma CallStepSettlesAtMostItsRow(s: System, a: Action, id: OpId)
    requires id in s.db.ops && Terminal(s.db.ops[id].execution)
    requires a.ClaimStep? || a.RecordRejection? || a.Conclude? || a.FinishThrows? || a.RecordUnknown?
    ensures id in Next(s, a).db.ops && Next(s, a).db.ops[id] == s.db.ops[id]
  {
  }

  /** A succeeded or failed row is final: no action changes any of its fields. */
  lemma TerminalRowsNeverChange(s: System, a: Action, id: OpId)
    requires RowsOk(s) && id in s.db.ops && Terminal(s.db.ops[id].execution)
    ensures id in Next(s, a).db.ops && Next(s, a).db.ops[id] == s.db.ops[id]
  {
    assert RowOk(id, s.db.ops[id], s);
    if a.Store? {
      StoreIsBenign(s, a.t);
    } else if a.ExpireFirst? {
      if At(s, a.b).Opened? && At(s, a.b).ctx.Some? { StoreIsBenign(s, ExpireRun(At(s, a.b).ctx.value.runId)); }
    } else if a.ClaimStep? || a.RecordRejection? || a.Conclude? || a.FinishThrows? || a.RecordUnknown? {
      CallStepSettlesAtMostItsRow(s, a, id);
    }
  }

  ghost predicate ClaimsLive(s: System, a: Action, id: OpId)
    requires id in s.db.ops
  {
    a.ClaimStep? && At(s, a.b).Cleared? && At(s, a.b).id == id && At(s, a.b).ctx.Some?
    && var op, ctx := s.db.ops[id], At(s, a.b).ctx.value;
       && Lockable(s.db, ctx.runId) && op.runId == ctx.runId && Live(s.db.runs[ctx.runId])
       && s.db.runs[ctx.runId].owner.Some? && s.db.runs[ctx.runId].owner.value.token == ctx.ownershipToken
       && op.generation == GenerationOf(s.db, ctx.runId) == ctx.generation
       && op.approval == Approved && s.now < op.expiresAt
       && !RepositoryBusy(s.db, op.proposal.body.repositoryId)
  }

  lemma CallStepStartsOnlyByClaim(s: System, a: Action, id: OpId)
    requires id in s.db.ops && s.db.ops[id].execution == NotStarted
    requires a.ClaimStep? || a.RecordRejection? || a.Conclude? || a.FinishThrows? || a.RecordUnknown?
    requires CallOk(At(s, a.b), s)
    ensures id in Next(s, a).db.ops && Next(s, a).db.ops[id].execution != Succeeded
    ensures Unsettled(Next(s, a).db.ops[id].execution) ==> ClaimsLive(s, a, id)
  {
  }

  lemma OtherStepsStartNothing(s: System, a: Action, id: OpId)
    requires RowsOk(s) && id in s.db.ops && s.db.ops[id].execution == NotStarted
    requires !(a.ClaimStep? || a.RecordRejection? || a.Conclude? || a.FinishThrows? || a.RecordUnknown?)
    ensures id in Next(s, a).db.ops && Next(s, a).db.ops[id].execution == NotStarted
  {
    if a.Store? {
      StoreIsBenign(s, a.t);
    } else if a.ExpireFirst? {
      if At(s, a.b).Opened? && At(s, a.b).ctx.Some? { StoreIsBenign(s, ExpireRun(At(s, a.b).ctx.value.runId)); }
    }
  }

  /**
   A row starts executing only through the claim of a call that holds the run's current ownership,
   while the run is live, the approval unexpired and the generation current. Recovery without a
   context therefore never starts a write.
   */
  lemma ExecutionStartsOnlyByLiveClaim(s: System, a: Action, id: OpId)
    requires RowsOk(s) && CallsOk(s) && id in s.db.ops && s.db.ops[id].execution == NotStarted
    ensures id in Next(s, a).db.ops && Next(s, a).db.ops[id].execution != Succeeded
    ensures Unsettled(Next(s, a).db.ops[id].execution) ==> ClaimsLive(s, a, id)
  {
    if a.ClaimStep? || a.RecordRejection? || a.Conclude? || a.FinishThrows? || a.RecordUnknown? {
      if At(s, a.b) != Idle { assert CallOk(At(s, a.b), s); }
      CallStepStartsOnlyByClaim(s, a, id);
    } else {
      OtherStepsStartNothing(s, a, id);
    }
  }

  /**
   Exclusion covers rows, not calls: two calls may both be about to write to one repository, but
   then one of the two operations has already been settled as succeeded by another call.
   */
  lemma OverlappingWritesMeanAnEarlySettlement(s: System, a: nat, b: nat)
    requires Inv(s) && a in s.brokers && b in s.brokers && a != b
    requires s.brokers[a].Dispatching? && s.brokers[b].Dispatching?
    requires s.brokers[a].id in s.db.ops && s.brokers[b].id in s.db.ops
    requires s.db.ops[s.brokers[a].id].proposal.body.repositoryId == s.db.ops[s.brokers[b].id].proposal.body.repositoryId
    ensures s.db.ops[s.brokers[a].id].execution == Succeeded || s.db.ops[s.brokers[b].id].execution == Succeeded
  {
    var i, j := s.brokers[a].id, s.brokers[b].id;
    assert CallOk(s.brokers[a], s) && CallOk(s.brokers[b], s);
    assert HoldsDispatch(s.brokers[a], i) && HoldsDispatch(s.brokers[b], j);
    assert i != j;
    assert !Contend(s, i, j);
  }

  /** Two calls are about to write to one repository. */
  ghost predicate Overlap(s: System, x: nat, y: nat) {
    && x != y && At(s, x).Dispatching? && At(s, y).Dispatching?
    && At(s, x).id in s.db.ops && At(s, y).id in s.db.ops
    && s.db.ops[At(s, x).id].proposal.body.repositoryId == s.db.ops[At(s, y).id].proposal.body.repositoryId
  }

  /**
   Call `x` is about to claim an operation whose guards hold, while call `y` is about to write an
   operation of the same repository whose row has already been settled as succeeded.
   */
  ghost predicate ClaimsBeside(s: System, a: Action, x: nat, y: nat) {
    && x != y && a == ClaimStep(x) && At(s, x).Cleared? && At(s, y).Dispatching?
    && At(s, x).id in s.db.ops && s.db.ops[At(s, x).id].execution == NotStarted && ClaimsLive(s, a, At(s, x).id)
    && At(s, y).id in s.db.ops && s.db.ops[At(s, y).id].execution == Succeeded
    && s.db.ops[At(s, x).id].proposal.body.repositoryId == s.db.ops[At(s, y).id].proposal.body.repositoryId
  }

  /** A call becomes a dispatcher exactly by a claim whose guards hold. */
  lemma DispatchingBeginsAtAClaim(s: System, a: Action, x: nat)
    requires CallsOk(s) && !At(s, x).Dispatching?
    ensures At(Next(s, a), x).Dispatching? <==>
              a == ClaimStep(x) && At(s, x).Cleared? && At(s, x).id in s.db.ops
              && s.db.ops[At(s, x).id].execution == NotStarted && ClaimsLive(s, a, At(s, x).id)
    ensures At(Next(s, a), x).Dispatching? ==> At(Next(s, a), x).id == At(s, x).id
  {
    if x in s.brokers { assert CallOk(s.brokers[x], s); }
  }

  /** What a dispatching call is about to write, and for which repository, is settled until it has written. */
  lemma DispatchingKeepsItsOperation(s: System, a: Action, x: nat, id: OpId)
    requires RowsOk(s) && id in s.db.ops && At(s, x).Dispatching?
    ensures At(Next(s, a), x).Dispatching? ==> At(Next(s, a), x).id == At(s, x).id
    ensures id in Next(s, a).db.ops
         && Next(s, a).db.ops[id].proposal.body.repositoryId == s.db.ops[id].proposal.body.repositoryId
  {
    RepositoryIsFixed(s, a, id);
    DispatchingStays(s, a, x);
  }

  lemma DispatchingStays(s: System, a: Action, x: nat)
    requires At(s, x).Dispatching?
    ensures At(Next(s, a), x).Dispatching? ==> At(Next(s, a), x).id == At(s, x).id
  {
  }

  lemma RepositoryIsFixed(s: System, a: Action, id: OpId)
    requires RowsOk(s) && id in s.db.ops
    ensures id in Next(s, a).db.ops
         && Next(s, a).db.ops[id].proposal.body.repositoryId == s.db.ops[id].proposal.body.repositoryId
  {
    if a.Store? {
      StoreIsBenign(s, a.t);
    } else if a.ExpireFirst? {
      if At(s, a.b).Opened? && At(s, a.b).ctx.Some? { StoreIsBenign(s, ExpireRun(At(s, a.b).ctx.value.runId)); }
    } else {
      CallStepKeepsRepository(s, a, id);
    }
  }

  lemma CallStepKeepsRepository(s: System, a: Action, id: OpId)
    requires id in s.db.ops && !a.Store? && !a.ExpireFirst?
    ensures id in Next(s, a).db.ops
         && Next(s, a).db.ops[id].proposal.body.repositoryId == s.db.ops[id].proposal.body.repositoryId
  {
  }

  /** The claim of `x` succeeds beside the dispatching `y` exactly when the row of `y` has succeeded. */
  lemma ClaimNeedsASettledNeighbour(s: System, a: Action, x: nat, y: nat)
    requires Inv(s) && x != y && a == ClaimStep(x) && At(s, x).Cleared? && At(s, y).Dispatching?
    requires At(s, x).id in s.db.ops && s.db.ops[At(s, x).id].execution == NotStarted && ClaimsLive(s, a, At(s, x).id)
    requires At(s, y).id in s.db.ops
    requires s.db.ops[At(s, x).id].proposal.body.repositoryId == s.db.ops[At(s, y).id].proposal.body.repositoryId
    ensures s.db.ops[At(s, y).id].execution == Succeeded
  {
    assert CallOk(s.brokers[y], s);
  }

  /**
   From any state that satisfies the invariant, a step makes two calls write to one repository at once
   exactly when it is the claim of one of them and the other one's row has already succeeded.
   */
  lemma OverlapBeginsExactlyThere(s: System, a: Action, x: nat, y: nat)
    requires Inv(s) && !Overlap(s, x, y)
    ensures Overlap(Next(s, a), x, y) <==> ClaimsBeside(s, a, x, y) || ClaimsBeside(s, a, y, x)
  {
    if x != y {
      OverlapByClaim(s, a, x, y);
      OverlapByClaim(s, a, y, x);
      if Overlap(Next(s, a), x, y) { OneOfThemClaims(s, a, x, y); }
    }
  }

  lemma OneOfThemClaims(s: System, a: Action, x: nat, y: nat)
    requires Inv(s) && !Overlap(s, x, y) && Overlap(Next(s, a), x, y)
    ensures (a == ClaimStep(x) && At(s, y).Dispatching?) || (a == ClaimStep(y) && At(s, x).Dispatching?)
  {
    if !At(s, x).Dispatching? { DispatchingBeginsAtAClaim(s, a, x); }
    if !At(s, y).Dispatching? { DispatchingBeginsAtAClaim(s, a, y); }
    if At(s, x).Dispatching? && At(s, y).Dispatching? {
      assert CallOk(s.brokers[x], s) && CallOk(s.brokers[y], s);
      DispatchingKeepsItsOperation(s, a, x, At(s, x).id);
      DispatchingKeepsItsOperation(s, a, y, At(s, y).id);
      assert false;
    }
  }

  lemma OverlapByClaim(s: System, a: Action, x: nat, y: nat)
    requires Inv(s) && x != y && !Overlap(s, x, y)
    ensures a == ClaimStep(x) && At(s, y).Dispatching? ==> (Overlap(Next(s, a), x, y) <==> ClaimsBeside(s, a, x, y))
    ensures ClaimsBeside(s, a, x, y) ==> a == ClaimStep(x) && At(s, y).Dispatching?
  {
    if a == ClaimStep(x) && At(s, y).Dispatching? {
      var next := Next(s, a);
      assert CallOk(s.brokers[y], s);
      DispatchingKeepsItsOperation(s, a, y, At(s, y).id);
      assert At(next, y) == At(s, y);
      if At(s, x).Dispatching? {
        assert next == s;
      } else {
        DispatchingBeginsAtAClaim(s, a, x);
        if At(s, x).Cleared? && At(s, x).id in s.db.ops { DispatchingClaim(s, a, x, y); }
      }
    }
  }

  lemma DispatchingClaim(s: System, a: Action, x: nat, y: nat)
    requires Inv(s) && x != y && a == ClaimStep(x) && At(s, x).Cleared? && At(s, y).Dispatching? && At(s, x).id in s.db.ops
    requires At(s, y).id in s.db.ops
    ensures At(Next(s, a), x).Dispatching? ==> (Overlap(Next(s, a), x, y) <==> ClaimsBeside(s, a, x, y))
  {
    RepositoryIsFixed(s, a, At(s, x).id);
    RepositoryIsFixed(s, a, At(s, y).id);
    DispatchingBeginsAtAClaim(s, a, x);
    if At(Next(s, a), x).Dispatching?
       && s.db.ops[At(s, x).id].proposal.body.repositoryId == s.db.ops[At(s, y).id].proposal.body.repositoryId {
      ClaimNeedsASettledNeighbour(s, a, x, y);
    }
  }
}
