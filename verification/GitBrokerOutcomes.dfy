/**
 What one broker call does from beginning to end: when it gets to write, and what it
 records for every answer of the remote. Everything is said about the row before and
 after a step of the system.
 */
module GitBrokerOutcomes {
  import opened Wrappers
  import opened GitRecords
  import opened GitBroker
  import opened GitBrokerSafety

  // ---- what is recorded ------------------------------------------------------------------------

  /** Call `b` has written, or may only look, and its row is still open. */
  ghost predicate AboutToRecord(s: System, b: nat, o: Observation) {
    && Inv(s) && At(s, b).Verifying? && !Terminal(s.db.ops[At(s, b).id].execution)
    && Lockable(s.db, s.db.ops[At(s, b).id].runId)
    && PossibleObservation(KindOf(s, At(s, b).id), At(s, b).dispatch, o)
  }

  /**
   A write can fail, be refused or lose its answer in every way. A comment and a push compare no head
   before, and only a push and a merge are answered without a confirmation, the latter if it did not merge.
   */
  lemma PossibleOutcomes(kind: RequestKind, w: WriteOutcome)
    ensures !Possible(kind, w) <==>
              || (w.HeadMoved? && kind in {Push, PrComment})
              || (w.Unconfirmed? && (kind !in {Push, PrMerge} || (kind == PrMerge && w.applied)))
  {
  }

  /** The remote acknowledged the write in a way that is taken as its proof. */
  predicate Acknowledged(kind: RequestKind, w: WriteOutcome) {
    w.Accepted? && (kind == PrCreate || kind == PrComment || kind == PrMerge)
  }

  /** The call goes on to compare the remote with what was approved. */
  predicate LooksBack(kind: RequestKind, dispatch: bool, w: WriteOutcome) {
    !dispatch || w.Unconfirmed? || (w.Accepted? && (kind == Push || kind == PrUpdate || kind == PrClose || kind == PrReopen))
  }

  /** A look that finds what was approved; a marker is found only where the write left it. */
  predicate Finds(s: System, id: OpId, dispatch: bool, o: Observation)
    requires id in s.db.ops
  {
    o == Read(true) && (!dispatch && (KindOf(s, id) == PrCreate || KindOf(s, id) == PrComment) ==> id in s.applied)
  }

  /** The step recorded exactly this in the row of the call and left every other field and row alone. */
  predicate Records(s: System, next: System, id: OpId, execution: Execution, receipt: Receipt) {
    && id in s.db.ops
    && next.db == s.db.(ops := s.db.ops[id := s.db.ops[id].(execution := execution, receipt := Some(receipt))])
    && next.writes == s.writes && next.applied == s.applied && next.now == s.now
  }

  /** The rejections that settle a dispatched write as failed. */
  const REJECTIONS := {Stale, NonFastForward, BundleInvalid}

  /** Nothing was read back: the write itself, or the look after it, was answered with this code. */
  function ProblemOf(kind: RequestKind, dispatch: bool, w: WriteOutcome, o: Observation): Option<FailureCode> {
    if dispatch && (w.NothingSent? || w.Refused?) then Some(w.code)
    else if dispatch && w.HeadMoved? then Some(Stale)
    else if dispatch && w.AnswerLost? then Some(UpstreamFailed)
    else if LooksBack(kind, dispatch, w) && o.Unread? then Some(o.code)
    else None
  }

  /**
   Main result: a call records success exactly when the remote acknowledged a creation, a comment or a
   merge, or when it looked and found what was approved.
   */
  lemma SuccessIsRecordedExactlyWhenShown(s: System, b: nat, o: Observation)
    requires AboutToRecord(s, b, o)
    ensures var id, dispatch, w := At(s, b).id, At(s, b).dispatch, At(s, b).outcome;
            var next := Next(s, Conclude(b, o));
            var shown := (dispatch && Acknowledged(KindOf(s, id), w)) || (LooksBack(KindOf(s, id), dispatch, w) && Finds(s, id, dispatch, o));
            && id in next.db.ops && (next.db.ops[id].execution == Succeeded <==> shown)
            && (next.db.ops[id].receipt == Some(Written) <==> shown)
            && (shown ==> Records(s, next, id, Succeeded, Written))
  {
    assert CallOk(s.brokers[b], s);
  }

  /** A problem is recorded with its code: as failed if a dispatched write was rejected, as unknown otherwise. */
  lemma ProblemsAreRecorded(s: System, b: nat, o: Observation)
    requires AboutToRecord(s, b, o)
    ensures var id, dispatch, w := At(s, b).id, At(s, b).dispatch, At(s, b).outcome;
            var problem := ProblemOf(KindOf(s, id), dispatch, w, o);
            problem.Some? ==>
              Records(s, Next(s, Conclude(b, o)), id, if dispatch && problem.value in REJECTIONS then Failed else Unknown,
                      Problem(problem.value))
  {
    assert CallOk(s.brokers[b], s);
  }

  /** A look that finds nothing settles nothing. */
  lemma EmptyLooksAreRecorded(s: System, b: nat, o: Observation)
    requires AboutToRecord(s, b, o)
    ensures var id, dispatch, w := At(s, b).id, At(s, b).dispatch, At(s, b).outcome;
            LooksBack(KindOf(s, id), dispatch, w) && o.Read? && !Finds(s, id, dispatch, o) ==>
              Records(s, Next(s, Conclude(b, o)), id, Unknown, Problem(OutcomeUnknown))
  {
    assert CallOk(s.brokers[b], s);
  }

  /** So failure is recorded exactly for a rejection of a dispatched write. */
  lemma FailureIsRecordedExactlyForRejections(s: System, b: nat, o: Observation)
    requires AboutToRecord(s, b, o)
    ensures var id, dispatch, w := At(s, b).id, At(s, b).dispatch, At(s, b).outcome;
            var problem := ProblemOf(KindOf(s, id), dispatch, w, o);
            var next := Next(s, Conclude(b, o));
            id in next.db.ops && (next.db.ops[id].execution == Failed <==> dispatch && problem.Some? && problem.value in REJECTIONS)
  {
    assert CallOk(s.brokers[b], s);
    ProblemsAreRecorded(s, b, o);
    EmptyLooksAreRecorded(s, b, o);
    SuccessIsRecordedExactlyWhenShown(s, b, o);
  }

  /**
   A recording that throws may have been committed. The call ends if it was already handling a problem;
   otherwise it goes on to record an unknown outcome, which a settled row ignores.
   */
  lemma ThrowingRecordings(s: System, b: nat, o: Observation, committed: bool)
    requires AboutToRecord(s, b, o)
    ensures var id, dispatch, w := At(s, b).id, At(s, b).dispatch, At(s, b).outcome;
            var thrown := Next(s, FinishThrows(b, o, committed));
            var problem := ProblemOf(KindOf(s, id), dispatch, w, o);
            && thrown.db == (if committed then Next(s, Conclude(b, o)).db else s.db)
            && At(thrown, b) == (if problem.Some? && (!dispatch || !w.HeadMoved?) then Idle else Retrying(id))
            && At(Next(s, Conclude(b, o)), b) == Idle
  {
    assert CallOk(s.brokers[b], s);
  }

  lemma RetryRecordsUnknown(s: System, b: nat)
    requires Inv(s) && At(s, b).Retrying? && Lockable(s.db, s.db.ops[At(s, b).id].runId)
    ensures var id, next := At(s, b).id, Next(s, RecordUnknown(b));
            At(next, b) == Idle
            && (if Terminal(s.db.ops[id].execution) then next.db == s.db else Records(s, next, id, Unknown, Problem(InternalError)))
  {
    assert CallOk(s.brokers[b], s);
  }

  /** A write that is sent is part of the history, whatever is heard of it. */
  lemma SentWritesAreHistory(s: System, b: nat, w: WriteOutcome)
    requires Inv(s) && At(s, b).Dispatching? && Possible(KindOf(s, At(s, b).id), w)
    ensures var id, next := At(s, b).id, Next(s, SendWrite(b, w));
            && At(next, b) == Verifying(id, true, w) && next.db == s.db
            && next.writes == (if w.NothingSent? || w.HeadMoved? then s.writes else s.writes + [id])
            && next.applied == (if w.Accepted? || (w.AnswerLost? && w.applied) || (w.Unconfirmed? && w.applied)
                                then s.applied + {id} else s.applied)
  {
    assert CallOk(s.brokers[b], s);
  }

  // ---- from the beginning of a call to its write -----------------------------------------------

  /** The call acts for the run that proposed the operation, and for its user and repository. */
  predicate ActsFor(db: Db, id: OpId, ctx: Context) {
    && Lockable(db, ctx.runId) && id in db.ops && Live(db.runs[ctx.runId])
    && db.runs[ctx.runId].owner == Some(Owner(ctx.ownershipToken, ctx.generation))
    && db.threads[db.runs[ctx.runId].threadId].generation == ctx.generation
    && db.ops[id].runId == ctx.runId && db.ops[id].userId == db.runs[ctx.runId].userId
    && db.ops[id].proposal.body.repositoryUrl == db.threads[db.runs[ctx.runId].threadId].repositoryUrl
  }

  predicate MayWrite(s: System, id: OpId, ctx: Context) {
    && ActsFor(s.db, id, ctx)
    && s.db.ops[id].approval == Approved && s.db.ops[id].execution == NotStarted
    && s.db.ops[id].generation == ctx.generation && s.now < s.db.ops[id].expiresAt
    && !RepositoryBusy(s.db, s.db.ops[id].proposal.body.repositoryId)
  }

  /** A call that nothing disturbs up to its claim. */
  function Undisturbed(s: System, b: nat, id: OpId, ctx: Context): System {
    Next(Next(Admission(s, b, id, ctx), CheckRepository(b, None)), ClaimStep(b))
  }

  function Admission(s: System, b: nat, id: OpId, ctx: Context): System {
    Next(Next(Next(s, BeginExecute(b, id, Some(ctx))), ExpireFirst(b)), Admit(b))
  }

  /** The first steps admit a call exactly when it acts for the run and the row was approved and open when it was read. */
  lemma AdmittedExactlyWhenOwned(s: System, b: nat, id: OpId, ctx: Context)
    requires At(s, b).Idle? && id in s.db.ops
    ensures var t := Admission(s, b, id, ctx);
            && (At(t, b) == Admitted(id, Some(ctx), s.db.ops[id]) <==>
                  ActsFor(s.db, id, ctx) && s.db.ops[id].approval == Approved && !Terminal(s.db.ops[id].execution))
            && (At(t, b) != Admitted(id, Some(ctx), s.db.ops[id]) ==> At(t, b) == Idle)
            && t.db == Expire(s.db, s.now, ctx.runId).db && t.now == s.now
  {
  }

  /**
   Main result: an undisturbed call gets to write exactly when its run is live and owned, the operation is
   that run's, approved, unexpired, of the current generation and not started, and its repository is free.
   */
  lemma GetsToWriteExactlyWhen(s: System, b: nat, id: OpId, ctx: Context)
    requires At(s, b).Idle? && id in s.db.ops
    ensures At(Undisturbed(s, b, id, ctx), b) == Dispatching(id) <==> MayWrite(s, id, ctx)
  {
    AdmittedExactlyWhenOwned(s, b, id, ctx);
    var t := Admission(s, b, id, ctx);
    if At(t, b).Admitted? { ClaimsExactlyWhen(s, t, b, id, ctx); }
  }

  lemma ClaimsExactlyWhen(s: System, t: System, b: nat, id: OpId, ctx: Context)
    requires id in s.db.ops && t.now == s.now && t.db == Expire(s.db, s.now, ctx.runId).db && ActsFor(s.db, id, ctx)
    requires At(t, b) == Admitted(id, Some(ctx), s.db.ops[id]) && s.db.ops[id].approval == Approved
    ensures At(Next(Next(t, CheckRepository(b, None)), ClaimStep(b)), b) == Dispatching(id) <==> MayWrite(s, id, ctx)
  {
    ExpiryKeepsExecution(s.db, s.now, ctx.runId);
  }

  lemma ExpiryKeepsExecution(db: Db, now: nat, runId: RunId)
    ensures var next := Expire(db, now, runId).db;
            && next.ops.Keys == db.ops.Keys && next.runs == db.runs && next.threads == db.threads
            && (forall id :: id in db.ops ==> next.ops[id].execution == db.ops[id].execution && next.ops[id].proposal == db.ops[id].proposal)
            && (forall r :: RepositoryBusy(next, r) <==> RepositoryBusy(db, r))
  {
    var next := Expire(db, now, runId).db;
    forall r ensures RepositoryBusy(next, r) <==> RepositoryBusy(db, r) {
      if RepositoryBusy(db, r) {
        var id :| id in db.ops && db.ops[id].proposal.body.repositoryId == r && Unsettled(db.ops[id].execution);
        assert id in next.ops && next.ops[id].execution == db.ops[id].execution;
      }
    }
  }

  /** Recovery looks at an operation exactly when a write of it may be under way. */
  lemma RecoveryLooksExactlyWhenUnsettled(s: System, b: nat, id: OpId)
    requires At(s, b).Idle? && id in s.db.ops
    ensures var t := Next(Next(Next(Next(s, BeginExecute(b, id, None)), Admit(b)), CheckRepository(b, None)), ClaimStep(b));
            && (At(t, b).Verifying? <==> Unsettled(s.db.ops[id].execution) && s.db.ops[id].approval == Approved)
            && (At(t, b).Verifying? ==> At(t, b).id == id && !At(t, b).dispatch) && !At(t, b).Dispatching? && t.db == s.db
  {
  }

  /**
   A repository that is gone or has another id settles an operation that was not started when it was read,
   and still is not; every other problem leaves the row as it is.
   */
  lemma RepositoryProblems(s: System, b: nat, code: FailureCode)
    requires Inv(s) && At(s, b).Admitted? && Lockable(s.db, s.db.ops[At(s, b).id].runId)
    ensures var id, existing := At(s, b).id, At(s, b).existing;
            var t := Next(Next(s, CheckRepository(b, Some(code))), RecordRejection(b));
            && At(t, b) == Idle
            && if existing.execution == NotStarted && (code == AccessDenied || code == Stale) && s.db.ops[id].execution == NotStarted
               then Records(s, t, id, Failed, Problem(code))
               else t.db == s.db
  {
    assert CallOk(s.brokers[b], s);
  }
}
