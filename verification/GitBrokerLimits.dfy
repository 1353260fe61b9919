/** Two runs of the Git write protocol that show where its guarantees stop. */
module GitBrokerLimits {
  import opened Wrappers
  import opened GitRecords
  import opened GitBroker

  lemma {:induction false} Extend(s: System, schedule: seq<Action>, a: Action)
    ensures Execute(s, schedule + [a]) == Next(Execute(s, schedule), a)
  {
    assert (schedule + [a])[..|schedule|] == schedule;
  }

  const REPOSITORY: string := "https://github.com/acme/widgets"

  function SampleRun(threadId: ThreadId): Run {
    Run(threadId, 0, Running, false, Some(Owner(threadId, 1)), Some(0), 0, None, 0, None)
  }

  /** Two threads on one repository, each with a running run that owns its workspace. */
  function Start(): System {
    System(Db(map[0 := Thread(REPOSITORY, 1), 1 := Thread(REPOSITORY, 1)],
              map[0 := SampleRun(0), 1 := SampleRun(1)], map[], map[]),
           0, map[], [], {}, {}, {})
  }

  function Sample(id: OpId, kind: RequestKind): Proposal {
    var body := ProposalBody(id, "call", REPOSITORY, 7, kind, "payload");
    Proposal(body, ProposalDigest(body))
  }

  function ContextOf(run: RunId): Context {
    Context(run, 1, run)
  }

  /** Publishes and approves an operation of the run with the same number. */
  function Approve(s: System, id: OpId, kind: RequestKind): System {
    Next(Next(s, Store(Checkpoint(ContextOf(id), Some(Sample(id, kind)), None))),
         Store(Decide(0, id, id, true, Sample(id, kind).digest)))
  }

  lemma ApproveRuns(s: System, schedule: seq<Action>, id: OpId, kind: RequestKind) returns (next: seq<Action>)
    ensures Execute(s, next) == Approve(Execute(s, schedule), id, kind)
  {
    var a := Store(Checkpoint(ContextOf(id), Some(Sample(id, kind)), None));
    var d := Store(Decide(0, id, id, true, Sample(id, kind).digest));
    Extend(s, schedule, a);
    Extend(s, schedule + [a], d);
    next := schedule + [a] + [d];
  }

  /** One uninterrupted call up to and including its claim. */
  function CallUpToClaim(s: System, b: nat, id: OpId, ctx: Option<Context>): System {
    var begun := Next(s, BeginExecute(b, id, ctx));
    Next(Next(Next(if ctx.Some? then Next(begun, ExpireFirst(b)) else begun, Admit(b)), CheckRepository(b, None)),
         ClaimStep(b))
  }

  lemma CallRuns(s: System, schedule: seq<Action>, b: nat, id: OpId, ctx: Option<Context>) returns (next: seq<Action>)
    ensures Execute(s, next) == CallUpToClaim(Execute(s, schedule), b, id, ctx)
  {
    Extend(s, schedule, BeginExecute(b, id, ctx));
    next := schedule + [BeginExecute(b, id, ctx)];
    if ctx.Some? {
      Extend(s, next, ExpireFirst(b));
      next := next + [ExpireFirst(b)];
    }
    Extend(s, next, Admit(b));
    next := next + [Admit(b)];
    Extend(s, next, CheckRepository(b, None));
    next := next + [CheckRepository(b, None)];
    Extend(s, next, ClaimStep(b));
    next := next + [ClaimStep(b)];
  }

  /** The row that publishing and approving at time zero leave behind. */
  function SampleRow(id: OpId, kind: RequestKind): Operation {
    Operation(id, id, 0, 1, Sample(id, kind), Approved, NotStarted, APPROVAL_LIFETIME_MS, Some(0), None)
  }

  function WaitingRun(id: RunId): Run {
    SampleRun(id).(approvalWaitStartedAt := Some(0))
  }

  ghost predicate Unused(db: Db, id: OpId) {
    id < 2 && db.threads == Start().db.threads && id in db.runs && db.runs[id] == SampleRun(id) && id !in db.ops
  }

  lemma PublishesSample(db: Db, id: OpId, kind: RequestKind)
    requires Unused(db, id)
    ensures var row := SampleRow(id, kind).(approval := Pending, decidedAt := None);
            SaveCheckpoint(db, 0, ContextOf(id), Some(Sample(id, kind)), None)
            == Reply(db.(ops := db.ops[id := row], runs := db.runs[id := WaitingRun(id)]), Ok(()))
  {
    assert Lockable(db, id) && GenerationOf(db, id) == 1;
    var reply := PublishProposal(db, 0, id, 1, Sample(id, kind));
    assert reply.result == Ok(());
  }

  lemma DecidesSample(db: Db, id: OpId, kind: RequestKind)
    requires id < 2 && db.threads == Start().db.threads && id in db.runs && db.runs[id] == WaitingRun(id)
    requires id in db.ops && db.ops[id] == SampleRow(id, kind).(approval := Pending, decidedAt := None)
    ensures Decision(db, 0, 0, id, id, true, Sample(id, kind).digest)
         == Reply(db.(ops := db.ops[id := SampleRow(id, kind)]), Ok(()))
  {
    assert Lockable(db, id) && GenerationOf(db, id) == 1;
  }

  lemma ApprovedSample(s: System, id: OpId, kind: RequestKind)
    requires Unused(s.db, id) && s.now == 0
    ensures Approve(s, id, kind).db == s.db.(ops := s.db.ops[id := SampleRow(id, kind)], runs := s.db.runs[id := WaitingRun(id)])
    ensures Approve(s, id, kind) == s.(db := Approve(s, id, kind).db, consents := Approve(s, id, kind).consents)
  {
    PublishesSample(s.db, id, kind);
    var first := Next(s, Store(Checkpoint(ContextOf(id), Some(Sample(id, kind)), None)));
    DecidesSample(first.db, id, kind);
    var pending := SampleRow(id, kind).(approval := Pending, decidedAt := None);
    assert s.db.ops[id := pending][id := SampleRow(id, kind)] == s.db.ops[id := SampleRow(id, kind)];
  }

  /** A published and approved sample whose call has not begun. */
  ghost predicate Ready(s: System, id: OpId, kind: RequestKind) {
    id < 2 && s.now == 0 && s.db.threads == Start().db.threads && id in s.db.runs && s.db.runs[id] == WaitingRun(id)
    && id in s.db.ops && s.db.ops[id] == SampleRow(id, kind)
    && forall o :: o in s.db.ops && s.db.ops[o].runId == id ==> o == id
  }

  lemma ExpireSkips(s: System, id: OpId, kind: RequestKind)
    requires Ready(s, id, kind)
    ensures Expire(s.db, 0, id) == Reply(s.db, Ok(()))
  {
    assert Lockable(s.db, id) && GenerationOf(s.db, id) == 1;
    assert Expire(s.db, 0, id).db.ops == s.db.ops;
  }

  lemma AdmissionSucceeds(s: System, b: nat, id: OpId, kind: RequestKind)
    requires Ready(s, id, kind) && At(s, b) == Refreshed(id, Some(ContextOf(id)), SampleRow(id, kind))
    ensures Next(s, Admit(b)) == Move(s, b, Admitted(id, Some(ContextOf(id)), SampleRow(id, kind)))
  {
    assert Lockable(s.db, id) && GenerationOf(s.db, id) == 1;
    assert CheckContext(s.db, ContextOf(id)) == Ok(WaitingRun(id));
  }

  lemma ClaimSucceeds(s: System, id: OpId, kind: RequestKind)
    requires Ready(s, id, kind) && !RepositoryBusy(s.db, 7)
    ensures Claim(s.db, 0, id, ContextOf(id))
         == Reply(s.db.(ops := s.db.ops[id := SampleRow(id, kind).(execution := Executing)]), Ok(true))
  {
    assert Lockable(s.db, id) && GenerationOf(s.db, id) == 1;
  }

  lemma ReadyCallAdmits(s: System, b: nat, id: OpId, kind: RequestKind)
    requires Ready(s, id, kind) && At(s, b).Idle?
    ensures var ctx := Some(ContextOf(id));
            Next(Next(Next(s, BeginExecute(b, id, ctx)), ExpireFirst(b)), Admit(b))
            == Move(s, b, Admitted(id, ctx, SampleRow(id, kind)))
  {
    var ctx := Some(ContextOf(id));
    var s1 := Move(s, b, Opened(id, ctx, SampleRow(id, kind)));
    ExpireSkips(s1, id, kind);
    var s2 := Move(s1, b, Refreshed(id, ctx, SampleRow(id, kind)));
    AdmissionSucceeds(s2, b, id, kind);
    assert Next(s, BeginExecute(b, id, ctx)) == s1;
    assert Next(s1, ExpireFirst(b)) == s2;
    assert Move(s2, b, Admitted(id, ctx, SampleRow(id, kind))) == Move(s, b, Admitted(id, ctx, SampleRow(id, kind)));
  }

  lemma AdmittedCallDispatches(s: System, b: nat, id: OpId, kind: RequestKind)
    requires Ready(s, id, kind) && At(s, b) == Admitted(id, Some(ContextOf(id)), SampleRow(id, kind)) && !RepositoryBusy(s.db, 7)
    ensures Next(Next(s, CheckRepository(b, None)), ClaimStep(b))
         == Move(s.(db := s.db.(ops := s.db.ops[id := SampleRow(id, kind).(execution := Executing)])), b, Dispatching(id))
  {
    var s4 := Move(s, b, Cleared(id, Some(ContextOf(id)), SampleRow(id, kind)));
    assert Next(s, CheckRepository(b, None)) == s4;
    ClaimSucceeds(s4, id, kind);
    assert s4.brokers[b := Dispatching(id)] == s.brokers[b := Dispatching(id)];
  }

  lemma ReadyCallDispatches(s: System, b: nat, id: OpId, kind: RequestKind)
    requires Ready(s, id, kind) && At(s, b).Idle? && !RepositoryBusy(s.db, 7)
    ensures CallUpToClaim(s, b, id, Some(ContextOf(id)))
         == Move(s.(db := s.db.(ops := s.db.ops[id := SampleRow(id, kind).(execution := Executing)])), b, Dispatching(id))
  {
    var admitted := Move(s, b, Admitted(id, Some(ContextOf(id)), SampleRow(id, kind)));
    ReadyCallAdmits(s, b, id, kind);
    AdmittedCallDispatches(admitted, b, id, kind);
    assert admitted.brokers[b := Dispatching(id)] == s.brokers[b := Dispatching(id)];
  }

  lemma RecoveryCallVerifies(s: System, b: nat, id: OpId)
    requires id in s.db.ops && s.db.ops[id].execution == Executing && s.db.ops[id].approval == Approved && At(s, b).Idle?
    ensures CallUpToClaim(s, b, id, None) == Move(s, b, Verifying(id, false, HeadMoved))
  {
    var s1 := Move(s, b, Opened(id, None, s.db.ops[id]));
    var s2 := Move(s1, b, Admitted(id, None, s.db.ops[id]));
    var s3 := Move(s2, b, Cleared(id, None, s.db.ops[id]));
    assert Next(s, BeginExecute(b, id, None)) == s1;
    assert Next(s1, Admit(b)) == s2;
    assert Next(s2, CheckRepository(b, None)) == s3;
    assert Next(s3, ClaimStep(b)).brokers == s.brokers[b := Verifying(id, false, HeadMoved)];
  }

  lemma ConcludeRecords(s: System, b: nat, id: OpId, dispatch: bool, w: WriteOutcome, o: Observation)
    requires At(s, b) == Verifying(id, dispatch, w) && id in s.db.ops && !Terminal(s.db.ops[id].execution)
    requires Lockable(s.db, s.db.ops[id].runId) && !Marked(KindOf(s, id)) && PossibleObservation(KindOf(s, id), dispatch, o)
    ensures var v, next := Judge(KindOf(s, id), dispatch, w, o), Next(s, Conclude(b, o));
            && next.db == s.db.(ops := s.db.ops[id := s.db.ops[id].(execution := v.execution, receipt := Some(v.receipt))])
            && next.brokers == s.brokers[b := Idle] && next.now == s.now && next.applied == s.applied
  {
  }

  /** Two approved closings of one repository's pull requests. */
  function TwoApproved(): System {
    Approve(Approve(Start(), 0, PrClose), 1, PrClose)
  }

  lemma TwoApprovedAreReady()
    ensures TwoApproved().brokers == map[] && !RepositoryBusy(TwoApproved().db, 7)
    ensures Ready(TwoApproved(), 0, PrClose) && Ready(TwoApproved(), 1, PrClose)
  {
    ApprovedSample(Start(), 0, PrClose);
    ApprovedSample(Approve(Start(), 0, PrClose), 1, PrClose);
    assert TwoApproved().db.ops == map[0 := SampleRow(0, PrClose), 1 := SampleRow(1, PrClose)];
  }

  /** The first call claims; recovery finds the pull request closed and settles the first operation. */
  function SettledEarly(s: System): System {
    Next(CallUpToClaim(CallUpToClaim(s, 0, 0, Some(ContextOf(0))), 1, 0, None), Conclude(1, Read(true)))
  }

  lemma SettledEarlyLeavesTheFirstCallWriting(s: System)
    requires Ready(s, 0, PrClose) && Ready(s, 1, PrClose) && s.brokers == map[] && !RepositoryBusy(s.db, 7)
    ensures var f := SettledEarly(s);
            At(f, 0) == Dispatching(0) && At(f, 2) == Idle && f.now == 0 && f.db.threads == s.db.threads
            && f.db.runs == s.db.runs && f.db.ops.Keys == s.db.ops.Keys
            && f.db.ops[0] == SampleRow(0, PrClose).(execution := Succeeded, receipt := Some(Written))
            && forall o :: o in s.db.ops && o != 0 ==> f.db.ops[o] == s.db.ops[o]
  {
    ReadyCallDispatches(s, 0, 0, PrClose);
    var claimed := CallUpToClaim(s, 0, 0, Some(ContextOf(0)));
    RecoveryCallVerifies(claimed, 1, 0);
    ConcludeRecords(Move(claimed, 1, Verifying(0, false, HeadMoved)), 1, 0, false, HeadMoved, Read(true));
  }

  function Overlapping(): System {
    CallUpToClaim(SettledEarly(TwoApproved()), 2, 1, Some(ContextOf(1)))
  }

  lemma OverlappingIsReached() returns (schedule: seq<Action>)
    ensures Execute(Start(), schedule) == Overlapping()
  {
    schedule := ApproveRuns(Start(), [], 0, PrClose);
    schedule := ApproveRuns(Start(), schedule, 1, PrClose);
    schedule := CallRuns(Start(), schedule, 0, 0, Some(ContextOf(0)));
    schedule := CallRuns(Start(), schedule, 1, 0, None);
    Extend(Start(), schedule, Conclude(1, Read(true)));
    schedule := schedule + [Conclude(1, Read(true))];
    schedule := CallRuns(Start(), schedule, 2, 1, Some(ContextOf(1)));
  }

  /**
   Row exclusion does not serialise the remote writes. A pull request is closed by hand while the
   first call is about to close it; recovery sees it closed and settles the first operation; the
   repository is free again and a second call is cleared to write beside the first.
   */
  lemma WritesToOneRepositoryCanOverlap()
    ensures Initial(Start())
    ensures exists schedule :: var f := Execute(Start(), schedule);
              0 in f.db.ops && 1 in f.db.ops
              && f.db.ops[0].proposal.body.repositoryId == f.db.ops[1].proposal.body.repositoryId
              && At(f, 0) == Dispatching(0) && At(f, 2) == Dispatching(1)
  {
    OverlappingCalls();
    var schedule := OverlappingIsReached();
  }

  lemma SecondStaysReady(s: System)
    requires Ready(s, 0, PrClose) && Ready(s, 1, PrClose) && s.brokers == map[] && !RepositoryBusy(s.db, 7)
    ensures Ready(SettledEarly(s), 1, PrClose) && !RepositoryBusy(SettledEarly(s).db, 7)
    ensures At(SettledEarly(s), 0) == Dispatching(0) && At(SettledEarly(s), 2) == Idle
    ensures 0 in SettledEarly(s).db.ops && SettledEarly(s).db.ops[0].proposal == Sample(0, PrClose)
  {
    SettledEarlyLeavesTheFirstCallWriting(s);
  }

  lemma OverlappingCalls()
    ensures var f := Overlapping();
            && 0 in f.db.ops && 1 in f.db.ops
            && f.db.ops[0].proposal.body.repositoryId == f.db.ops[1].proposal.body.repositoryId
            && At(f, 0) == Dispatching(0) && At(f, 2) == Dispatching(1)
  {
    TwoApprovedAreReady();
    SecondStaysReady(TwoApproved());
    ReadyCallDispatches(SettledEarly(TwoApproved()), 2, 1, PrClose);
  }

  function MisreadPush(): System {
    var claimed := CallUpToClaim(Approve(Start(), 0, Push), 0, 0, Some(ContextOf(0)));
    Next(Next(claimed, SendWrite(0, Accepted)), Conclude(0, Unread(Stale)))
  }

  lemma MisreadPushIsReached() returns (schedule: seq<Action>)
    ensures Execute(Start(), schedule) == MisreadPush()
  {
    schedule := ApproveRuns(Start(), [], 0, Push);
    schedule := CallRuns(Start(), schedule, 0, 0, Some(ContextOf(0)));
    Extend(Start(), schedule, SendWrite(0, Accepted));
    schedule := schedule + [SendWrite(0, Accepted)];
    Extend(Start(), schedule, Conclude(0, Unread(Stale)));
    schedule := schedule + [Conclude(0, Unread(Stale))];
  }

  lemma AppliedThenMisread(claimed: System)
    requires At(claimed, 0) == Dispatching(0) && 0 in claimed.db.ops && Lockable(claimed.db, claimed.db.ops[0].runId)
    requires KindOf(claimed, 0) == Push && claimed.db.ops[0].execution == Executing
    ensures var f := Next(Next(claimed, SendWrite(0, Accepted)), Conclude(0, Unread(Stale)));
            0 in f.db.ops && f.db.ops[0].execution == Failed && 0 in f.applied
  {
    var sent := Next(claimed, SendWrite(0, Accepted));
    assert sent.db == claimed.db;
    ConcludeRecords(sent, 0, 0, true, Accepted, Unread(Stale));
  }

  lemma MisreadPushFails()
    ensures 0 in MisreadPush().db.ops && MisreadPush().db.ops[0].execution == Failed && 0 in MisreadPush().applied
  {
    var s := Approve(Start(), 0, Push);
    ApprovedSample(Start(), 0, Push);
    assert Ready(s, 0, Push) && !RepositoryBusy(s.db, 7);
    ReadyCallDispatches(s, 0, 0, Push);
    AppliedThenMisread(CallUpToClaim(s, 0, 0, Some(ContextOf(0))));
  }

  /**
   A push that reached the remote can be recorded as failed: its read-back is answered with a
   conflict, which the call takes for a rejection of the push.
   */
  lemma AnAppliedPushCanBeRecordedAsFailed()
    ensures exists schedule :: var f := Execute(Start(), schedule);
              0 in f.db.ops && f.db.ops[0].execution == Failed && 0 in f.applied
  {
    MisreadPushFails();
    var schedule := MisreadPushIsReached();
  }
}
