/**
 The Git write protocol as one system: the store's transactions, any number of
 broker calls interleaving with them and with each other, crashes, a clock and a
 remote that may lose answers. Proved for every schedule from an empty store.
 */
module GitBroker {
  import opened Wrappers
  import opened GitRecords

  // ---- The remote ------------------------------------------------------------------------------

  /** How the dispatching call's write went, up to the point where it reads the result back. */
  datatype WriteOutcome =
    | NothingSent(code: FailureCode) // a step before the write threw
    | HeadMoved                      // the checked head or base is no longer the approved one
    | Refused(code: FailureCode)     // the remote answered with a refusal
    | AnswerLost(applied: bool)      // sent, but no usable answer came back
    | Unconfirmed(applied: bool)     // answered without confirming: push exit code, merge not merged
    | Accepted                       // applied and acknowledged

  datatype Observation = Unread(code: FailureCode) | Read(matches: bool)

  /** The request kinds whose body carries the operation's own marker. */
  predicate Marked(kind: RequestKind) {
    kind == PrCreate || kind == PrComment
  }

  predicate Sent(w: WriteOutcome) {
    !w.NothingSent? && !w.HeadMoved?
  }

  predicate Applied(w: WriteOutcome) {
    w.Accepted? || (w.AnswerLost? && w.applied) || (w.Unconfirmed? && w.applied)
  }

  predicate Possible(kind: RequestKind, w: WriteOutcome) {
    match w
    case HeadMoved => kind != Push && kind != PrComment
    case Unconfirmed(applied) => kind == Push || (kind == PrMerge && !applied)
    case _ => true
  }

  /** After its own write only a push asks the remote again; the others use the write's answer. */
  predicate PossibleObservation(kind: RequestKind, dispatch: bool, o: Observation) {
    o.Unread? ==> !dispatch || kind == Push
  }

  predicate ConfirmedRefusal(code: FailureCode) {
    code == Stale || code == NonFastForward || code == BundleInvalid
  }

  /** What to record; `caught` says that an exception led there, outside the inner `try`. */
  datatype Verdict = Verdict(execution: Execution, receipt: Receipt, caught: bool)

  function Thrown(dispatch: bool, code: FailureCode): Verdict {
    Verdict(if dispatch && ConfirmedRefusal(code) then Failed else Unknown, Problem(code), true)
  }

  /** What a broker call records once it has written (if it may) and looked. */
  function Judge(kind: RequestKind, dispatch: bool, w: WriteOutcome, o: Observation): Verdict {
    if dispatch && (w.NothingSent? || w.Refused?) then Thrown(dispatch, w.code)
    else if dispatch && w.HeadMoved? then Verdict(Failed, Problem(Stale), false)
    else if dispatch && w.AnswerLost? then Thrown(dispatch, UpstreamFailed)
    else if dispatch && w.Accepted? && (Marked(kind) || kind == PrMerge) then Verdict(Succeeded, Written, false)
    else match o
      case Unread(code) => Thrown(dispatch, code)
      case Read(true) => Verdict(Succeeded, Written, false)
      case Read(false) => Verdict(Unknown, Problem(OutcomeUnknown), false)
  }

  /** The one way a call can record failure for a write that was applied. */
  predicate Misread(kind: RequestKind, dispatch: bool, w: WriteOutcome, o: Observation) {
    dispatch && kind == Push && Applied(w) && !w.AnswerLost? && o.Unread? && ConfirmedRefusal(o.code)
  }

  /**
   Failure is meant to be recorded only for a confirmed rejection. It is recorded for an applied
   write exactly when a push's own read-back is answered with one of the rejection codes.
   */
  lemma FailureIsHonestUnlessMisread(kind: RequestKind, dispatch: bool, w: WriteOutcome, o: Observation)
    requires Possible(kind, w) && PossibleObservation(kind, dispatch, o)
    ensures dispatch && Judge(kind, dispatch, w, o).execution == Failed && Applied(w)
            <==> Misread(kind, dispatch, w, o)
    ensures !dispatch ==> Judge(kind, dispatch, w, o).execution != Failed
  {
    if dispatch && Applied(w) {
      assert w.Accepted? || w.AnswerLost? || w.Unconfirmed?;
    }
  }

  // ---- The system ------------------------------------------------------------------------------

  /** Where one call of `execute` stands. `existing` is the row it read at the start. */
  datatype Broker =
    | Idle
    | Opened(id: OpId, ctx: Option<Context>, existing: Operation)
    | Refreshed(id: OpId, ctx: Option<Context>, existing: Operation)
    | Admitted(id: OpId, ctx: Option<Context>, existing: Operation)
    | Cleared(id: OpId, ctx: Option<Context>, existing: Operation)
    | Rejecting(id: OpId, code: FailureCode)
    | Dispatching(id: OpId)
    | Verifying(id: OpId, dispatch: bool, outcome: WriteOutcome)
    | Retrying(id: OpId)

  /** `writes`, `applied`, `consents` and `misread` record history; the code keeps none of them. */
  datatype System = System(db: Db, now: nat, brokers: map<nat, Broker>, writes: seq<OpId>,
                           applied: set<OpId>, consents: set<(UserId, Digest)>, misread: set<OpId>)

  /** An approving decision is the user's consent to the digest they were shown. */
  function Consents(t: Transaction): set<(UserId, Digest)> {
    if t.Decide? && t.approve then {(t.userId, t.digest)} else {}
  }

  datatype Action =
    | Store(t: Transaction)
    | Tick(ms: nat)
    | BeginExecute(b: nat, target: OpId, ctx: Option<Context>)
    | ExpireFirst(b: nat)
    | Admit(b: nat)
    | CheckRepository(b: nat, problem: Option<FailureCode>)
    | RecordRejection(b: nat)
    | ClaimStep(b: nat)
    | SendWrite(b: nat, outcome: WriteOutcome)
    | Conclude(b: nat, observation: Observation)
    | FinishThrows(b: nat, observation: Observation, committed: bool)
    | RecordUnknown(b: nat)
    | Crash(b: nat)

  function At(s: System, b: nat): Broker {
    if b in s.brokers then s.brokers[b] else Idle
  }

  function Move(s: System, b: nat, to: Broker): System {
    s.(brokers := s.brokers[b := to])
  }

  function KindOf(s: System, id: OpId): RequestKind
    requires id in s.db.ops
  {
    s.db.ops[id].proposal.body.kind
  }

  /** What the remote can show: a marked item exists only if this operation's write created it. */
  function Seen(s: System, id: OpId, dispatch: bool, o: Observation): Observation
    requires id in s.db.ops
  {
    if !dispatch && Marked(KindOf(s, id)) && o.Read? then Read(o.matches && id in s.applied) else o
  }

  function AdmitStep(s: System, b: nat): System {
    match At(s, b)
    case Opened(id, None, existing) =>
      // Without a context a call may only look at writes that were already dispatched.
      if !Unsettled(existing.execution) || existing.approval != Approved then Move(s, b, Idle)
      else Move(s, b, Admitted(id, None, existing))
    case Refreshed(id, Some(ctx), existing) =>
      var owned := CheckContext(s.db, ctx);
      if owned.Err? || existing.runId != ctx.runId || existing.userId != owned.value.userId
         || existing.proposal.body.repositoryUrl != s.db.threads[owned.value.threadId].repositoryUrl
         || Terminal(existing.execution) || existing.approval != Approved
      then Move(s, b, Idle)
      else Move(s, b, Admitted(id, Some(ctx), existing))
    case _ => s
  }

  function ClaimOf(s: System, b: nat): System {
    match At(s, b)
    case Cleared(id, None, existing) => Move(s, b, Verifying(id, false, HeadMoved))
    case Cleared(id, Some(ctx), existing) =>
      var reply := Claim(s.db, s.now, id, ctx);
      if reply.result.Err? then Move(s, b, Idle)
      else if reply.result.value then Move(s.(db := reply.db), b, Dispatching(id))
      else Move(s, b, Verifying(id, false, HeadMoved))
    case _ => s
  }

  function SendOf(s: System, b: nat, w: WriteOutcome): System {
    match At(s, b)
    case Dispatching(id) =>
      if id !in s.db.ops || !Possible(KindOf(s, id), w) then s
      else
        Move(s.(writes := if Sent(w) then s.writes + [id] else s.writes,
                applied := if Applied(w) then s.applied + {id} else s.applied),
             b, Verifying(id, true, w))
    case _ => s
  }

  /**
   Looks, judges and records. The recording transaction may throw, whether or not it committed;
   inside the inner `try` the call then goes on to record an unknown outcome.
   */
  function ConcludeOf(s: System, b: nat, o: Observation, commits: bool, throws: bool): System {
    match At(s, b)
    case Verifying(id, dispatch, w) =>
      if id !in s.db.ops || !PossibleObservation(KindOf(s, id), dispatch, o) then s
      else
        var seen := Seen(s, id, dispatch, o);
        var verdict := Judge(KindOf(s, id), dispatch, w, seen);
        var db := if commits then Finish(s.db, id, verdict.execution, verdict.receipt, false).db else s.db;
        Move(s.(db := db,
                misread := if Misread(KindOf(s, id), dispatch, w, seen) then s.misread + {id} else s.misread),
             b, if throws && !verdict.caught then Retrying(id) else Idle)
    case _ => s
  }

  function Next(s: System, a: Action): System {
    match a
    case Store(t) => s.(db := Perform(s.db, s.now, t), consents := s.consents + Consents(t))
    case Tick(ms) => s.(now := s.now + ms)
    case BeginExecute(b, id, ctx) =>
      if At(s, b).Idle? && id in s.db.ops then Move(s, b, Opened(id, ctx, s.db.ops[id])) else s
    case ExpireFirst(b) =>
      (match At(s, b)
       case Opened(id, Some(ctx), existing) =>
         var reply := Expire(s.db, s.now, ctx.runId);
         if reply.result.Err? then Move(s, b, Idle)
         else Move(s.(db := reply.db), b, Refreshed(id, Some(ctx), existing))
       case _ => s)
    case Admit(b) => AdmitStep(s, b)
    case CheckRepository(b, problem) =>
      (match At(s, b)
       case Admitted(id, ctx, existing) =>
         if problem.None? then Move(s, b, Cleared(id, ctx, existing))
         else if existing.execution == NotStarted && (problem.value == AccessDenied || problem.value == Stale)
         then Move(s, b, Rejecting(id, problem.value))
         else Move(s, b, Idle)
       case _ => s)
    case RecordRejection(b) =>
      (match At(s, b)
       case Rejecting(id, code) => Move(s.(db := Finish(s.db, id, Failed, Problem(code), true).db), b, Idle)
       case _ => s)
    case ClaimStep(b) => ClaimOf(s, b)
    case SendWrite(b, w) => SendOf(s, b, w)
    case Conclude(b, o) => ConcludeOf(s, b, o, true, false)
    case FinishThrows(b, o, committed) => ConcludeOf(s, b, o, committed, true)
    case RecordUnknown(b) =>
      (match At(s, b)
       case Retrying(id) => Move(s.(db := Finish(s.db, id, Unknown, Problem(InternalError), false).db), b, Idle)
       case _ => s)
    case Crash(b) => Move(s, b, Idle)
  }

  function Execute(s: System, schedule: seq<Action>): System {
    if schedule == [] then s else Next(Execute(s, schedule[..|schedule| - 1]), schedule[|schedule| - 1])
  }

  /** Any threads and runs, but no operation, question or broker call yet. */
  predicate Initial(s: System) {
    s.db.ops == map[] && s.brokers == map[] && s.writes == [] && s.applied == {} && s.misread == {}
  }
}
