/**
 Runner attempts over the run rows: an attempt starts behind the runner's guards,
 remembers at most one thing it waits for, and publishes it with its checkpoint.
 Shows when execution time is exactly the time spent outside the waits, and the
 schedule on which it is not.
 */
module RunnerAttempts {
  import opened Wrappers
  import opened GitRecords
  import opened RunWaits

  datatype Attempt = Attempt(ctx: Context, proposal: Option<Proposal>, question: Option<QuestionRequest>)

  /**
   `spent` counts the time in which a started run had no wait open; `early` holds the runs on
   which an attempt began before their question wait was resumed, and `doubled` those on which a
   checkpoint then opened the second wait. All three are history only.
   */
  datatype World = World(db: Db, now: nat, attempts: map<nat, Attempt>, nextToken: Token,
                         spent: map<RunId, nat>, early: set<RunId>, doubled: set<RunId>)

  datatype Action =
    | StartAttempt(attempt: nat, run: RunId)
    | Propose(attempt: nat, body: Proposal)
    | Ask(attempt: nat, request: QuestionRequest)
    | Save(attempt: nat)
    | Other(t: Transaction)
    | Broker(id: OpId, execution: Execution)
    | Tick(ms: nat)

  /** A run still waiting for a decision, or for an answer that is not in, starts no attempt. */
  predicate MayStart(db: Db, r: RunId) {
    Lockable(db, r) && Live(db.runs[r]) && db.runs[r].approvalWaitStartedAt.None?
    && (db.runs[r].questionWaitStartedAt.None? || !HasAskedQuestion(db, r))
  }

  /** A tool runs only while nothing is pending in this attempt. */
  predicate GateOpen(a: Attempt) {
    a.proposal.None? && a.question.None?
  }

  function Start(w: World, a: nat, r: RunId): World {
    if !MayStart(w.db, r) || a in w.attempts then w
    else
      var ctx := Context(r, GenerationOf(w.db, r), w.nextToken);
      w.(db := BeginAgent(ClaimOwnership(w.db, r, w.nextToken), w.now, ctx),
         attempts := w.attempts[a := Attempt(ctx, None, None)],
         nextToken := w.nextToken + 1,
         early := if w.db.runs[r].questionWaitStartedAt.Some? then w.early + {r} else w.early)
  }

  /**
   An attempt starts exactly on a live run without an approval wait and without an open question that its
   wait stands for; it takes the run over and starts its clock, unless that was started before.
   */
  lemma AttemptsStartExactlyWhen(w: World, a: nat, r: RunId)
    ensures var t := Next(w, StartAttempt(a, r));
            var starts := a !in w.attempts && Lockable(w.db, r) && Live(w.db.runs[r]) && w.db.runs[r].approvalWaitStartedAt.None?
                          && (w.db.runs[r].questionWaitStartedAt.Some? ==> !HasAskedQuestion(w.db, r));
            && (!starts ==> t == w)
            && (starts ==>
                  && a in t.attempts && GateOpen(t.attempts[a])
                  && t.attempts[a].ctx == Context(r, w.db.threads[w.db.runs[r].threadId].generation, w.nextToken)
                  && t.db.runs[r] == w.db.runs[r].(owner := Some(Owner(w.nextToken, w.db.threads[w.db.runs[r].threadId].generation)),
                                                   agentStartedAt := if w.db.runs[r].agentStartedAt.Some? then w.db.runs[r].agentStartedAt
                                                                     else Some(w.now)))
  {
  }

  /** What happens beside the attempts: another owner, or the broker's progress on an operation. */
  lemma OthersAct(w: World, r: RunId, token: Token, id: OpId, execution: Execution)
    ensures var t := Next(w, Other(TakeOwnership(r, token)));
            t.attempts == w.attempts && t.nextToken == w.nextToken + 1
            && t.db == Perform(w.db, w.now, TakeOwnership(r, w.nextToken))
    ensures id in w.db.ops ==> Next(w, Broker(id, execution)).db == w.db.(ops := w.db.ops[id := w.db.ops[id].(execution := execution)])
  {
  }

  function Pass(w: World, ms: nat): World {
    w.(now := w.now + ms,
       spent := map r | r in w.db.runs ::
                  Count(w, r) + if w.db.runs[r].agentStartedAt.Some? && !Waiting(w.db.runs[r]) then ms else 0)
  }

  function Count(w: World, r: RunId): nat {
    if r in w.spent then w.spent[r] else 0
  }

  function Saved(w: World, at: Attempt): World {
    w.(db := SaveCheckpoint(w.db, w.now, at.ctx, at.proposal, at.question).db,
       doubled := if OpensBoth(w.db, at.ctx, at.proposal, at.question) then w.doubled + {at.ctx.runId} else w.doubled)
  }

  function Next(w: World, a: Action): World {
    match a
    case StartAttempt(attempt, r) => Start(w, attempt, r)
    case Propose(attempt, proposal) =>
      if attempt in w.attempts && GateOpen(w.attempts[attempt])
      then w.(attempts := w.attempts[attempt := w.attempts[attempt].(proposal := Some(proposal))]) else w
    case Ask(attempt, question) =>
      if attempt in w.attempts && GateOpen(w.attempts[attempt])
      then w.(attempts := w.attempts[attempt := w.attempts[attempt].(question := Some(question))]) else w
    case Save(attempt) =>
      if attempt in w.attempts
      then Saved(w, w.attempts[attempt])
      else w
    case Other(t) =>
      // Checkpoints and agent starts belong to attempts; workspace preparation also takes ownership.
      if t.Checkpoint? || t.Begin? then w
      else if t.TakeOwnership? then
        w.(db := ClaimOwnership(w.db, t.runId, w.nextToken), nextToken := w.nextToken + 1)
      else w.(db := Perform(w.db, w.now, t))
    case Broker(id, execution) =>
      if id in w.db.ops then w.(db := w.db.(ops := w.db.ops[id := w.db.ops[id].(execution := execution)])) else w
    case Tick(ms) => Pass(w, ms)
  }

  function Execute(w: World, schedule: seq<Action>): World {
    if schedule == [] then w else Next(Execute(w, schedule[..|schedule| - 1]), schedule[|schedule| - 1])
  }

  /** Runs that have not begun, and nothing else. */
  ghost predicate Initial(w: World) {
    && w.attempts == map[] && w.spent == map[] && w.early == {} && w.doubled == {} && w.db.ops == map[] && w.db.questions == map[]
    && forall r :: r in w.db.runs ==> w.db.runs[r].owner == None && Untouched(w.db.runs[r])
  }

  predicate Untouched(run: Run) {
    run.agentStartedAt.None? && run.approvalWaitMs == 0 && run.questionWaitMs == 0
    && run.approvalWaitStartedAt.None? && run.questionWaitStartedAt.None?
  }

  // ---- Invariants ------------------------------------------------------------------------------

  ghost predicate TokensOk(w: World) {
    && (forall a :: a in w.attempts ==> w.attempts[a].ctx.ownershipToken < w.nextToken)
    && (forall a, b | a in w.attempts && b in w.attempts
                      && w.attempts[a].ctx.ownershipToken == w.attempts[b].ctx.ownershipToken :: a == b)
    && (forall r :: r in w.db.runs && w.db.runs[r].owner.Some? ==> w.db.runs[r].owner.value.token < w.nextToken)
  }

  predicate Holds(w: World, a: nat, r: RunId) {
    a in w.attempts && r in w.db.runs && w.attempts[a].ctx.runId == r
    && w.db.runs[r].owner == Some(Owner(w.attempts[a].ctx.ownershipToken, w.attempts[a].ctx.generation))
  }

  ghost predicate GatesOk(w: World) {
    && (forall a :: a in w.attempts ==> w.attempts[a].proposal.None? || w.attempts[a].question.None?)
    && (forall a :: a in w.attempts ==> w.attempts[a].ctx.runId in w.db.runs
                                        && w.db.runs[w.attempts[a].ctx.runId].agentStartedAt.Some?)
    && (forall a, r :: Holds(w, a, r) && r !in w.early && w.db.runs[r].questionWaitStartedAt.Some?
                       ==> w.attempts[a].question.Some?)
  }

  /** The stored waits and the clock account for exactly the time that was not counted as spent. */
  predicate TimeOk(w: World, r: RunId)
    requires r in w.db.runs
  {
    var run := w.db.runs[r];
    if run.agentStartedAt.None? then Untouched(run) && Count(w, r) == 0
    else
      var stop := EarlierOf(run.approvalWaitStartedAt, EarlierOf(run.questionWaitStartedAt, w.now));
      Exclusive(run) && run.agentStartedAt.value <= stop <= w.now
      && stop - run.agentStartedAt.value - run.approvalWaitMs - run.questionWaitMs == Count(w, r)
  }

  ghost predicate TimesOk(w: World) {
    forall r :: r in w.db.runs && r !in w.doubled ==> TimeOk(w, r)
  }

  ghost predicate Inv(w: World) {
    TokensOk(w) && GatesOk(w) && TimesOk(w) && w.doubled <= w.early
  }

  // ---- Preservation ----------------------------------------------------------------------------

  /** The transactions outside attempts leave owners and starts alone and never open a wait. */
  ghost predicate Quiet(db: Db, next: Db, now: nat) {
    db.runs.Keys == next.runs.Keys
    && forall r | r in db.runs :: QuietRun(db.runs[r], next.runs[r], now)
  }

  predicate QuietRun(run: Run, next: Run, now: nat) {
    run.owner == next.owner && run.agentStartedAt == next.agentStartedAt
    && ((run.approvalWaitStartedAt == next.approvalWaitStartedAt && run.approvalWaitMs == next.approvalWaitMs)
        || (run.approvalWaitStartedAt.Some? && next.approvalWaitStartedAt.None?
            && next.approvalWaitMs == run.approvalWaitMs + Elapsed(run.approvalWaitStartedAt.value, now)
            && next.questionWaitStartedAt == run.questionWaitStartedAt))
    && ((run.questionWaitStartedAt == next.questionWaitStartedAt && run.questionWaitMs == next.questionWaitMs)
        || (run.questionWaitStartedAt.Some? && next.questionWaitStartedAt.None?
            && next.questionWaitMs == run.questionWaitMs + Elapsed(run.questionWaitStartedAt.value, now)
            && next.approvalWaitStartedAt == run.approvalWaitStartedAt))
  }

  lemma OtherIsQuiet(db: Db, now: nat, t: Transaction)
    requires !t.Checkpoint? && !t.Begin? && !t.TakeOwnership?
    ensures Quiet(db, Perform(db, now, t), now)
  {
  }

  lemma QuietKeepsInv(w: World, next: World)
    requires Inv(w) && Quiet(w.db, next.db, w.now) && next == w.(db := next.db)
    ensures Inv(next)
  {
    forall a, r | Holds(next, a, r) && r !in next.early && next.db.runs[r].questionWaitStartedAt.Some?
      ensures next.attempts[a].question.Some?
    {
      assert Holds(w, a, r) && QuietRun(w.db.runs[r], next.db.runs[r], w.now);
    }
    forall r | r in next.db.runs && r !in next.doubled ensures TimeOk(next, r) {
      assert TimeOk(w, r) && QuietRun(w.db.runs[r], next.db.runs[r], w.now);
    }
  }

  lemma PassKeepsInv(w: World, ms: nat)
    requires Inv(w)
    ensures Inv(Pass(w, ms))
  {
    var next := Pass(w, ms);
    forall a, r | Holds(next, a, r) && r !in next.early && next.db.runs[r].questionWaitStartedAt.Some?
      ensures next.attempts[a].question.Some?
    {
      assert Holds(w, a, r);
    }
    forall r | r in next.db.runs && r !in next.doubled ensures TimeOk(next, r) {
      assert TimeOk(w, r);
    }
  }

  lemma OwnershipKeepsInv(w: World, r: RunId)
    requires Inv(w)
    ensures Inv(w.(db := ClaimOwnership(w.db, r, w.nextToken), nextToken := w.nextToken + 1))
  {
    var next := w.(db := ClaimOwnership(w.db, r, w.nextToken), nextToken := w.nextToken + 1);
    forall a, s | Holds(next, a, s) && s !in next.early && next.db.runs[s].questionWaitStartedAt.Some?
      ensures next.attempts[a].question.Some?
    {
      if s != r { assert Holds(w, a, s); }
    }
    forall s | s in next.db.runs && s !in next.doubled ensures TimeOk(next, s) {
      assert TimeOk(w, s);
    }
  }

  lemma StartKeepsTokens(w: World, a: nat, r: RunId)
    requires TokensOk(w) && MayStart(w.db, r) && a !in w.attempts
    ensures TokensOk(Start(w, a, r))
  {
  }

  lemma StartKeepsGates(w: World, a: nat, r: RunId)
    requires TokensOk(w) && GatesOk(w) && MayStart(w.db, r) && a !in w.attempts
    ensures GatesOk(Start(w, a, r))
  {
    var next := Start(w, a, r);
    assert next.db.runs[r].agentStartedAt.Some?;
    forall b, s | Holds(next, b, s) && s !in next.early && next.db.runs[s].questionWaitStartedAt.Some?
      ensures next.attempts[b].question.Some?
    {
      if s != r && b != a { assert Holds(w, b, s); }
    }
  }

  lemma StartKeepsTimes(w: World, a: nat, r: RunId)
    requires TimesOk(w) && MayStart(w.db, r) && a !in w.attempts
    ensures TimesOk(Start(w, a, r))
  {
    var next := Start(w, a, r);
    forall s | s in next.db.runs && s !in next.doubled ensures TimeOk(next, s) {
      assert TimeOk(w, s);
    }
  }

  lemma StartKeepsInv(w: World, a: nat, r: RunId)
    requires Inv(w) && MayStart(w.db, r) && a !in w.attempts
    ensures Inv(Start(w, a, r))
  {
    StartKeepsTokens(w, a, r);
    StartKeepsGates(w, a, r);
    StartKeepsTimes(w, a, r);
  }

  /** A checkpoint opens waits only of its own run, under its ownership, and each only while it is closed. */
  lemma SaveEffect(db: Db, now: nat, ctx: Context, proposal: Option<Proposal>, question: Option<QuestionRequest>)
    ensures var next := SaveCheckpoint(db, now, ctx, proposal, question).db;
            next.runs == db.runs
            || (CheckOwner(db, ctx).Ok?
                && exists approval, asked | approval || asked ::
                     && (approval ==> proposal.Some? && FreshProposal(db, db.runs[ctx.runId], proposal.value))
                     && (asked ==> question.Some? && FreshQuestion(db, db.runs[ctx.runId], ctx.runId, question.value))
                     && next.runs == db.runs[ctx.runId := Opened(db.runs[ctx.runId], now, approval, asked)])
  {
    if CheckOwner(db, ctx).Ok? {
      var published := Published(db, now, ctx, proposal);
      var approval := published.result.Ok? && published.db.runs != db.runs;
      if question.Some? { assert Requested(published.db, ctx.runId, question.value.toolCallId) == Requested(db, ctx.runId, question.value.toolCallId); }
      var next := SaveCheckpoint(db, now, ctx, proposal, question).db;
      var asked := question.Some? && next.questions != db.questions;
      if next.runs != db.runs {
        assert next.runs == db.runs[ctx.runId := Opened(db.runs[ctx.runId], now, approval, asked)];
      }
    }
  }

  function Opened(run: Run, now: nat, approval: bool, asked: bool): Run {
    run.(approvalWaitStartedAt := if approval then Some(now) else run.approvalWaitStartedAt,
         questionWaitStartedAt := if asked then Some(now) else run.questionWaitStartedAt)
  }

  /** An attempt that remembers one thing at a time opens both waits only over an early start. */
  lemma DoublingIsEarly(w: World, a: nat)
    requires Inv(w) && a in w.attempts
    requires OpensBoth(w.db, w.attempts[a].ctx, w.attempts[a].proposal, w.attempts[a].question)
    ensures w.attempts[a].ctx.runId in w.early && w.db.runs[w.attempts[a].ctx.runId].questionWaitStartedAt.Some?
  {
    var at := w.attempts[a];
    OneAtATimeDoublesOverQuestions(w.db, at.ctx, at.proposal, at.question);
    assert Holds(w, a, at.ctx.runId);
  }

  lemma SaveKeepsGates(w: World, a: nat)
    requires Inv(w) && a in w.attempts
    ensures TokensOk(Saved(w, w.attempts[a])) && GatesOk(Saved(w, w.attempts[a]))
  {
    var at := w.attempts[a];
    var r := at.ctx.runId;
    var next := Saved(w, at);
    SaveEffect(w.db, w.now, at.ctx, at.proposal, at.question);
    if next.db.runs != w.db.runs { assert Holds(w, a, r); }
    forall b, s | Holds(next, b, s) && s !in next.early && next.db.runs[s].questionWaitStartedAt.Some?
      ensures next.attempts[b].question.Some?
    {
      assert Holds(w, b, s);
    }
  }

  lemma SaveKeepsTimes(w: World, a: nat)
    requires Inv(w) && a in w.attempts
    ensures TimesOk(Saved(w, w.attempts[a]))
  {
    var at := w.attempts[a];
    var next := Saved(w, at);
    SaveEffect(w.db, w.now, at.ctx, at.proposal, at.question);
    forall s | s in next.db.runs && s !in next.doubled ensures TimeOk(next, s) {
      assert TimeOk(w, s);
      if s == at.ctx.runId && Lockable(w.db, s) { CheckpointWaits(w.db, w.now, at.ctx, at.proposal, at.question); }
    }
  }

  lemma SaveKeepsInv(w: World, a: nat)
    requires Inv(w) && a in w.attempts
    ensures Inv(Next(w, Save(a)))
  {
    SaveKeepsGates(w, a);
    SaveKeepsTimes(w, a);
    if OpensBoth(w.db, w.attempts[a].ctx, w.attempts[a].proposal, w.attempts[a].question) { DoublingIsEarly(w, a); }
  }

  lemma ToolKeepsInv(w: World, a: nat, at: Attempt)
    requires Inv(w) && a in w.attempts && GateOpen(w.attempts[a]) && at.ctx == w.attempts[a].ctx
    requires at.proposal.None? || at.question.None?
    ensures Inv(w.(attempts := w.attempts[a := at]))
  {
    var next := w.(attempts := w.attempts[a := at]);
    forall b, s | Holds(next, b, s) && s !in next.early && next.db.runs[s].questionWaitStartedAt.Some?
      ensures next.attempts[b].question.Some?
    {
      assert Holds(w, b, s);
    }
    forall s | s in next.db.runs && s !in next.doubled ensures TimeOk(next, s) {
      assert TimeOk(w, s);
    }
  }

  lemma StepKeepsInv(w: World, action: Action)
    requires Inv(w)
    ensures Inv(Next(w, action))
  {
    match action
    case StartAttempt(a, r) => if MayStart(w.db, r) && a !in w.attempts { StartKeepsInv(w, a, r); }
    case Propose(a, proposal) =>
      if a in w.attempts && GateOpen(w.attempts[a]) { ToolKeepsInv(w, a, w.attempts[a].(proposal := Some(proposal))); }
    case Ask(a, question) =>
      if a in w.attempts && GateOpen(w.attempts[a]) { ToolKeepsInv(w, a, w.attempts[a].(question := Some(question))); }
    case Save(a) => if a in w.attempts { SaveKeepsInv(w, a); }
    case Other(t) =>
      if t.TakeOwnership? { OwnershipKeepsInv(w, t.runId); }
      else if !t.Checkpoint? && !t.Begin? {
        OtherIsQuiet(w.db, w.now, t);
        QuietKeepsInv(w, Next(w, action));
      }
    case Broker(id, execution) => QuietKeepsInv(w, Next(w, action));
    case Tick(ms) => PassKeepsInv(w, ms);
  }

  lemma {:induction false} ReachableKeepsTime(w: World, schedule: seq<Action>)
    requires Initial(w)
    ensures Inv(Execute(w, schedule))
  {
    if schedule != [] {
      ReachableKeepsTime(w, schedule[..|schedule| - 1]);
      StepKeepsInv(Execute(w, schedule[..|schedule| - 1]), schedule[|schedule| - 1]);
    }
  }

  // ---- Results ---------------------------------------------------------------------------------

  /**
   Until a checkpoint opens the second wait of a run, at most one is open and elapsed time is the time
   since the start outside the waits.
   */
  lemma {:induction false} ElapsedIsTimeOutsideTheWaits(w: World, schedule: seq<Action>, r: RunId)
    requires Initial(w) && r in Execute(w, schedule).db.runs && r !in Execute(w, schedule).doubled
    ensures var f := Execute(w, schedule);
            Exclusive(f.db.runs[r]) && ExecutionElapsed(f.db.runs[r], f.now) == Count(f, r)
  {
    ReachableKeepsTime(w, schedule);
    assert TimeOk(Execute(w, schedule), r);
  }

  /** That step needs an attempt that began over an unresumed question wait. */
  lemma {:induction false} OnlyEarlyAttemptsDoubleWaits(w: World, schedule: seq<Action>)
    requires Initial(w)
    ensures Execute(w, schedule).doubled <= Execute(w, schedule).early
  {
    ReachableKeepsTime(w, schedule);
  }

  /** Elapsed time never decreases, stands still while waiting and does not jump when a wait opens or is resumed. */
  lemma {:induction false} ElapsedMovesOnlyWithTheClock(w: World, schedule: seq<Action>, a: Action, r: RunId)
    requires Initial(w)
    requires r in Execute(w, schedule).db.runs && r in Execute(w, schedule + [a]).db.runs
    requires r !in Execute(w, schedule + [a]).doubled
    ensures var before, after := Execute(w, schedule), Execute(w, schedule + [a]);
            ExecutionElapsed(after.db.runs[r], after.now) - ExecutionElapsed(before.db.runs[r], before.now)
            == if a.Tick? && before.db.runs[r].agentStartedAt.Some? && !Waiting(before.db.runs[r]) then a.ms else 0
  {
    assert (schedule + [a])[..|schedule|] == schedule;
    var before := Execute(w, schedule);
    assert Execute(w, schedule + [a]) == Next(before, a);
    assert before.doubled <= Next(before, a).doubled;
    ElapsedIsTimeOutsideTheWaits(w, schedule, r);
    ElapsedIsTimeOutsideTheWaits(w, schedule + [a], r);
  }

  lemma StartKeepsCover(w: World, a: nat, r: RunId)
    requires Covered(w.db) && MayStart(w.db, r) && a !in w.attempts
    ensures Covered(Start(w, a, r).db)
  {
    TransactionKeepsCover(w.db, w.now, TakeOwnership(r, w.nextToken));
    TransactionKeepsCover(Perform(w.db, w.now, TakeOwnership(r, w.nextToken)), w.now,
                          Begin(Context(r, GenerationOf(w.db, r), w.nextToken)));
  }

  lemma StepKeepsCover(w: World, action: Action)
    requires Covered(w.db)
    ensures Covered(Next(w, action).db)
  {
    match action
    case StartAttempt(a, r) => if MayStart(w.db, r) && a !in w.attempts { StartKeepsCover(w, a, r); }
    case Save(a) =>
      if a in w.attempts {
        TransactionKeepsCover(w.db, w.now, Checkpoint(w.attempts[a].ctx, w.attempts[a].proposal, w.attempts[a].question));
      }
    case Other(t) => TransactionKeepsCover(w.db, w.now, if t.TakeOwnership? then t.(token := w.nextToken) else t);
    case Broker(id, execution) => SettlingKeepsCover(w.db, Next(w, action).db);
    case _ =>
  }

  /** A pending approval or open question always has its wait open, and a run has at most one of each. */
  lemma {:induction false} PendingAlwaysWaits(w: World, schedule: seq<Action>)
    requires Initial(w)
    ensures WaitsCover(Execute(w, schedule).db) && OnePendingEach(Execute(w, schedule).db)
  {
    if schedule != [] {
      PendingAlwaysWaits(w, schedule[..|schedule| - 1]);
      StepKeepsCover(Execute(w, schedule[..|schedule| - 1]), schedule[|schedule| - 1]);
    }
  }

  // ---- Where it stops --------------------------------------------------------------------------

  const SAMPLE := QuestionRequest(3, "ask", [0], "Which branch?")
  const ANSWERS: Answers := map[0 := "main"]
  const REPOSITORY: string := "https://github.com/acme/widgets"

  function SampleWorld(): World {
    World(Db(map[0 := Thread(REPOSITORY, 1)],
             map[0 := Run(0, 0, Running, false, None, None, 0, None, 0, None)], map[], map[]),
          0, map[], 1, map[], {}, {})
  }

  function SampleProposal(): Proposal {
    var body := ProposalBody(5, "call", REPOSITORY, 7, Push, "payload");
    Proposal(body, ProposalDigest(body))
  }

  /**
   A question is asked at 10 and answered, but the workspace has to be prepared again, so the next
   attempt starts without the resume. It proposes a Git write at 20. Both waits are open.
   */
  function BothWaiting(): seq<Action> {
    [StartAttempt(0, 0), Tick(10), Ask(0, SAMPLE), Save(0), Other(Answer(0, 0, 3, ANSWERS)),
     StartAttempt(1, 0), Tick(10), Propose(1, SampleProposal()), Save(1), Tick(10),
     Other(Decide(0, 0, 5, false, SampleProposal().digest))]
  }

  lemma {:induction false} Extend(w: World, schedule: seq<Action>, a: Action)
    ensures Execute(w, schedule + [a]) == Next(Execute(w, schedule), a)
  {
    assert (schedule + [a])[..|schedule|] == schedule;
  }

  function SampleRun(token: Token): Run {
    Run(0, 0, Running, false, Some(Owner(token, 1)), Some(0), 0, None, 0, None)
  }

  function SampleDb(run: Run, ops: map<OpId, Operation>, questions: map<QuestionId, Question>): Db {
    Db(map[0 := Thread(REPOSITORY, 1)], map[0 := run], ops, questions)
  }

  function Asking(state: QuestionState, answers: Option<Answers>): map<QuestionId, Question> {
    map[3 := Question(0, 0, 0, SAMPLE, state, answers)]
  }

  const Proposing: Operation :=
    Operation(0, 0, 0, 1, SampleProposal(), Pending, NotStarted, 20 + APPROVAL_LIFETIME_MS, None, None)

  lemma SavesQuestion()
    ensures SaveCheckpoint(SampleDb(SampleRun(1), map[], map[]), 10, Context(0, 1, 1), None, Some(SAMPLE))
         == Reply(SampleDb(SampleRun(1).(questionWaitStartedAt := Some(10)), map[], Asking(Asked, None)), Ok(()))
  {
    var db := SampleDb(SampleRun(1), map[], map[]);
    assert PublishQuestion(db, SampleRun(1), 10, 0, SAMPLE).result == Ok(());
  }

  lemma SavesProposal()
    ensures SaveCheckpoint(SampleDb(SampleRun(2).(questionWaitStartedAt := Some(10)), map[], Asking(GitRecords.Answered, Some(ANSWERS))),
                           20, Context(0, 1, 2), Some(SampleProposal()), None)
         == Reply(SampleDb(SampleRun(2).(questionWaitStartedAt := Some(10), approvalWaitStartedAt := Some(20)),
                           map[5 := Proposing], Asking(GitRecords.Answered, Some(ANSWERS))), Ok(()))
  {
    var db := SampleDb(SampleRun(2).(questionWaitStartedAt := Some(10)), map[], Asking(GitRecords.Answered, Some(ANSWERS)));
    assert PublishProposal(db, 20, 0, 1, SampleProposal()).result == Ok(());
  }

  lemma AnswersQuestion(run: Run)
    requires Live(run)
    ensures AnswerQuestion(SampleDb(run, map[], Asking(Asked, None)), 0, 0, 3, ANSWERS).db
         == SampleDb(run, map[], Asking(GitRecords.Answered, Some(ANSWERS)))
  {
    assert multiset(ANSWERS.Keys) == multiset{0} == multiset(SAMPLE.parts);
    assert Asking(Asked, None)[3 := Question(0, 0, 0, SAMPLE, GitRecords.Answered, Some(ANSWERS))]
        == Asking(GitRecords.Answered, Some(ANSWERS));
  }

  lemma FirstAttemptStarts()
    ensures Next(SampleWorld(), StartAttempt(0, 0))
         == World(SampleDb(SampleRun(1), map[], map[]), 0, map[0 := Attempt(Context(0, 1, 1), None, None)], 2, map[], {}, {})
  {
    assert MayStart(SampleWorld().db, 0);
  }

  lemma QuestionPrepared()
    ensures var f := Execute(SampleWorld(), BothWaiting()[..3]);
            && f.db == SampleDb(SampleRun(1), map[], map[]) && f.now == 10 && f.nextToken == 2
            && f.attempts == map[0 := Attempt(Context(0, 1, 1), None, Some(SAMPLE))]
  {
    var w0, q := SampleWorld(), BothWaiting();
    assert q[..1] == [] + [q[0]] && q[..2] == q[..1] + [q[1]] && q[..3] == q[..2] + [q[2]];
    FirstAttemptStarts();
    Extend(w0, [], q[0]);
    Extend(w0, q[..1], q[1]);
    Extend(w0, q[..2], q[2]);
  }

  lemma QuestionAsked()
    ensures var f := Execute(SampleWorld(), BothWaiting()[..4]);
            && f.db == SampleDb(SampleRun(1).(questionWaitStartedAt := Some(10)), map[], Asking(Asked, None))
            && f.now == 10 && f.nextToken == 2 && f.attempts.Keys == {0}
  {
    var q := BothWaiting();
    assert q[..4] == q[..3] + [q[3]];
    QuestionPrepared();
    SavesQuestion();
    Extend(SampleWorld(), q[..3], Save(0));
  }

  lemma QuestionAskedAndAnswered()
    ensures var f := Execute(SampleWorld(), BothWaiting()[..5]);
            && f.db == SampleDb(SampleRun(1).(questionWaitStartedAt := Some(10)), map[],
                                Asking(GitRecords.Answered, Some(ANSWERS)))
            && f.now == 10 && f.nextToken == 2 && f.attempts.Keys == {0}
  {
    var q := BothWaiting();
    assert q[..5] == q[..4] + [q[4]];
    QuestionAsked();
    AnswersQuestion(SampleRun(1).(questionWaitStartedAt := Some(10)));
    Extend(SampleWorld(), q[..4], Other(Answer(0, 0, 3, ANSWERS)));
  }

  lemma ProposalPrepared()
    ensures var f := Execute(SampleWorld(), BothWaiting()[..8]);
            f.now == 20 && 1 in f.attempts
            && f.attempts[1] == Attempt(Context(0, 1, 2), Some(SampleProposal()), None)
            && f.db == SampleDb(SampleRun(2).(questionWaitStartedAt := Some(10)), map[],
                                Asking(GitRecords.Answered, Some(ANSWERS)))
  {
    var w0, q := SampleWorld(), BothWaiting();
    QuestionAskedAndAnswered();
    assert q[..6] == q[..5] + [q[5]] && q[..7] == q[..6] + [q[6]] && q[..8] == q[..7] + [q[7]];
    var w5 := Execute(w0, q[..5]);
    Extend(w0, q[..5], q[5]);
    var w6 := Execute(w0, q[..6]);
    assert MayStart(w5.db, 0);
    assert w6.db == w5.db.(runs := map[0 := SampleRun(2).(questionWaitStartedAt := Some(10))]) && w6.now == 10;
    assert w6.attempts[1] == Attempt(Context(0, 1, 2), None, None);
    Extend(w0, q[..6], q[6]);
    Extend(w0, q[..7], q[7]);
  }

  lemma ProposedOverTheQuestion()
    ensures var f := Execute(SampleWorld(), BothWaiting()[..10]);
            f.now == 30
            && f.db == SampleDb(SampleRun(2).(questionWaitStartedAt := Some(10), approvalWaitStartedAt := Some(20)),
                                map[5 := Proposing], Asking(GitRecords.Answered, Some(ANSWERS)))
  {
    var w0, q := SampleWorld(), BothWaiting();
    assert q[..9] == q[..8] + [q[8]] && q[..10] == q[..9] + [q[9]];
    ProposalPrepared();
    SavesProposal();
    Extend(w0, q[..8], q[8]);
    Extend(w0, q[..9], q[9]);
  }

  lemma RejectedOverTheQuestion()
    ensures var f := Execute(SampleWorld(), BothWaiting());
            && 0 in f.db.runs && f.now == 30 && Lockable(f.db, 0) && !HasPendingApproval(f.db, 0)
            && f.db.runs[0] == SampleRun(2).(questionWaitStartedAt := Some(10), approvalWaitStartedAt := Some(20))
  {
    var w0, q := SampleWorld(), BothWaiting();
    ProposedOverTheQuestion();
    assert q == q[..10] + [q[10]];
    Extend(w0, q[..10], q[10]);
    var db := Execute(w0, q[..10]).db;
    assert Decision(db, 30, 0, 0, 5, false, SampleProposal().digest).db
        == db.(ops := map[5 := SettleApproval(Proposing, Rejected, 30)]);
  }

  /** Then resuming the approval takes ten units away, and the question wait stays open for good. */
  lemma OverlappingWaitsLoseTime()
    ensures Initial(SampleWorld())
    ensures var before, after := Execute(SampleWorld(), BothWaiting()), Execute(SampleWorld(), BothWaiting() + [Other(ResumeRun(0))]);
            && 0 in before.db.runs && 0 in after.db.runs && !Exclusive(before.db.runs[0])
            && ExecutionElapsed(before.db.runs[0], before.now) == 10
            && ExecutionElapsed(after.db.runs[0], after.now) == 0
            && Waiting(after.db.runs[0])
  {
    RejectedOverTheQuestion();
    Extend(SampleWorld(), BothWaiting(), Other(ResumeRun(0)));
  }
}
