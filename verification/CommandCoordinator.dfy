/**
 One guest command as its coordinators see it: the executor that queues, admits,
 dispatches and settles it, and any number of reconcilers that act on the same
 stored row at the same time. The guest journal settles at most once and is only
 observed; transport may be lost and workers may die between any two steps.
 */
module CommandCoordinator {
  import opened Wrappers

  datatype Kind = Completed | Failed

  /** What the guest journal recorded. */
  datatype Record = Record(kind: Kind, code: int, timedOut: bool, stdout: string, stderr: string)

  datatype RowState = Queued | Pending | Running | Unknown | Settled(kind: Kind)

  datatype Stored =
    | Process(record: Record, truncated: bool)
    | Unresolved
    | CancelledBeforeDispatch
    | SupersededBeforeDispatch
    | AbandonedBeforeDispatch

  datatype Row = Row(state: RowState, result: Option<Stored>)

  datatype Pc =
    | Queueing | Admitted | Starting | Cancelling
    | Abandoning
    | Observing | Settling(record: Record, truncated: bool) | GivingUp
    | Returned(record: Record) | Threw

  const EXECUTOR := 0

  /** `written` is every result the row ever got; `abandonedFrom` the state the first abandonment found. */
  datatype World = World(row: Option<Row>, actors: map<nat, Pc>, sent: bool, journal: Option<Record>,
                         written: seq<Stored>, abandonedFrom: Option<RowState>)

  datatype Action =
    | Begin
    | Admit(granted: bool, lost: bool)
    | Abort
    | Cancel
    | StartRunning
    | Send
    | GuestSettles(record: Record)
    | Observe(actor: nat, truncated: bool)
    | GiveUp(actor: nat)
    | PersistUnknown(actor: nat)
    | Settle(actor: nat)
    | Reconcile(actor: nat)
    | ListUnsettled(actor: nat)
    | Abandon(actor: nat)
    | RunEnds
    | OwnerReplaced
    | Crash(actor: nat)

  predicate Undispatched(state: RowState) {
    state.Queued? || state.Pending?
  }

  /** The store's update rule: a terminal row may be rewritten but keeps its state. */
  predicate MayUpdate(row: Row, state: RowState) {
    row.state.Settled? ==> state == row.state
  }

  function Go(w: World, actor: nat, pc: Pc): World {
    w.(actors := w.actors[actor := pc])
  }

  predicate At(w: World, actor: nat, pc: Pc) {
    actor in w.actors && w.actors[actor] == pc
  }

  /** `updateCommand` with a result, and where the caller goes: onwards, or up with the store's error. */
  function Update(w: World, actor: nat, state: RowState, result: Stored, next: Pc): World {
    if w.row.None? || !MayUpdate(w.row.value, state) then Go(w, actor, Threw)
    else Go(w.(row := Some(Row(state, Some(result))), written := w.written + [result]), actor, next)
  }

  /** The run's end and a new owner settle what is still queued, in their own transactions. */
  function Withdraw(w: World, result: Stored): World {
    if w.row.None? || !w.row.value.state.Queued? then w
    else w.(row := Some(Row(Settled(Failed), Some(result))), written := w.written + [result])
  }

  function Next(w: World, action: Action): World {
    match action
    case Begin =>
      if w.row.Some? || EXECUTOR in w.actors then w else Go(w.(row := Some(Row(Queued, None))), EXECUTOR, Queueing)
    case Admit(granted, lost) =>
      if !At(w, EXECUTOR, Queueing) || w.row.None? then w
      else if !w.row.value.state.Queued? then Go(w, EXECUTOR, Cancelling)
      else if !granted then w
      else Go(w.(row := Some(w.row.value.(state := Pending))), EXECUTOR, if lost then Cancelling else Admitted)
    case Abort =>
      if At(w, EXECUTOR, Queueing) || At(w, EXECUTOR, Admitted) || At(w, EXECUTOR, Starting)
      then Go(w, EXECUTOR, Cancelling) else w
    case Cancel =>
      if At(w, EXECUTOR, Cancelling) then Update(w, EXECUTOR, Settled(Failed), CancelledBeforeDispatch, Threw) else w
    case StartRunning =>
      if !At(w, EXECUTOR, Admitted) || w.row.None? then w
      else if !MayUpdate(w.row.value, Running) then Go(w, EXECUTOR, Threw)
      else Go(w.(row := Some(w.row.value.(state := Running))), EXECUTOR, Starting)
    case Send => if At(w, EXECUTOR, Starting) then Go(w.(sent := true), EXECUTOR, Observing) else w
    case GuestSettles(record) => if w.sent && w.journal.None? then w.(journal := Some(record)) else w
    case Observe(actor, truncated) =>
      if At(w, actor, Observing) && w.journal.Some? then Go(w, actor, Settling(w.journal.value, truncated)) else w
    case GiveUp(actor) => if At(w, actor, Observing) then Go(w, actor, GivingUp) else w
    case PersistUnknown(actor) => if At(w, actor, GivingUp) then Update(w, actor, Unknown, Unresolved, Threw) else w
    case Settle(actor) =>
      if actor in w.actors && w.actors[actor].Settling? then
        var pc := w.actors[actor];
        Update(w, actor, Settled(pc.record.kind), Process(pc.record, pc.truncated), Returned(pc.record))
      else w
    case Reconcile(actor) =>
      if actor in w.actors || actor == EXECUTOR || w.row.None? then w
      else if w.row.value.state.Settled? && w.row.value.result.Some? && w.row.value.result.value.Process?
      then Go(w, actor, Returned(w.row.value.result.value.record))
      else Go(w, actor, Observing)
    case ListUnsettled(actor) =>
      if actor in w.actors || actor == EXECUTOR || w.row.None? then w
      else if w.row.value.state.Queued? then Go(w, actor, Abandoning) else w
    case Abandon(actor) =>
      if !At(w, actor, Abandoning) || w.row.None? then w
      else
        var next := Update(w, actor, Settled(Failed), AbandonedBeforeDispatch, Threw);
        if MayUpdate(w.row.value, Settled(Failed)) && w.abandonedFrom.None?
        then next.(abandonedFrom := Some(w.row.value.state)) else next
    case RunEnds => Withdraw(w, CancelledBeforeDispatch)
    case OwnerReplaced => Withdraw(w, SupersededBeforeDispatch)
    case Crash(actor) => if actor in w.actors then Go(w, actor, Threw) else w
  }

  const START := World(None, map[], false, None, [], None)

  function Execute(schedule: seq<Action>): World {
    if schedule == [] then START else Next(Execute(schedule[..|schedule| - 1]), schedule[|schedule| - 1])
  }

  // ---- the invariant -------------------------------------------------------------------

  predicate BeforeDispatch(pc: Pc) {
    pc.Queueing? || pc.Admitted? || pc.Starting? || pc.Cancelling?
  }

  /** Every process result that was ever observed, stored or returned is the journal's record. */
  predicate ActorOk(w: World, actor: nat, pc: Pc) {
    && (BeforeDispatch(pc) ==> actor == EXECUTOR && !w.sent)
    && (actor == EXECUTOR ==> BeforeDispatch(pc) || w.sent || pc.Threw?)
    && (pc.Admitted? ==> w.row.Some? && !w.row.value.state.Queued?)
    && (pc.Starting? ==> w.row.Some? && !Undispatched(w.row.value.state))
    && (pc.Settling? ==> w.journal == Some(pc.record))
    && (pc.Returned? ==>
          w.journal == Some(pc.record)
          && (Process(pc.record, false) in w.written || Process(pc.record, true) in w.written))
  }

  ghost predicate ActorsOk(w: World) {
    forall actor :: actor in w.actors ==> ActorOk(w, actor, w.actors[actor])
  }

  /** An executor that will not dispatch: a settled row sends it on to its own cancellation. */
  predicate StaysBack(pc: Pc) {
    pc.Queueing? || pc.Cancelling? || pc.Threw?
  }

  /** Has the executor nothing left that could dispatch? */
  predicate NeverDispatches(w: World) {
    !w.sent && w.row.Some? && w.row.value.state == Settled(Failed)
    && (EXECUTOR in w.actors ==> !w.actors[EXECUTOR].Starting?)
  }

  /** Some writer settled the row as cancelled or superseded before its dispatch. */
  predicate Withheld(w: World) {
    CancelledBeforeDispatch in w.written || SupersededBeforeDispatch in w.written
  }

  /** A process result stands beside the state it settled; the others say that there was none. */
  predicate StateFits(row: Row) {
    match row.result
    case Some(Process(record, _)) => row.state == Settled(record.kind)
    case Some(Unresolved) => row.state == Unknown || row.state == Running
    case Some(_) => row.state == Settled(Failed)
    case None => true
  }

  predicate RowOk(w: World) {
    && (w.sent ==> w.row.Some? && !Undispatched(w.row.value.state))
    && (w.journal.Some? ==> w.sent)
    && (w.row.None? ==> w.actors == map[] && w.written == [])
    && (w.row.Some? && w.row.value.result.Some? ==> w.row.value.result.value in w.written && StateFits(w.row.value))
    && (Withheld(w) ==> NeverDispatches(w) && EXECUTOR in w.actors && StaysBack(w.actors[EXECUTOR]))
    && (w.abandonedFrom.Some? && Undispatched(w.abandonedFrom.value) ==> NeverDispatches(w))
  }

  ghost predicate WrittenOk(w: World) {
    forall i :: 0 <= i < |w.written| && w.written[i].Process? ==> w.journal == Some(w.written[i].record)
  }

  ghost predicate Inv(w: World) {
    ActorsOk(w) && RowOk(w) && WrittenOk(w) && (w.row.Some? ==> EXECUTOR in w.actors)
  }

  lemma UpdateKeepsInv(w: World, actor: nat, state: RowState, result: Stored, next: Pc)
    requires Inv(w) && actor in w.actors && !Undispatched(state) && w.row.Some?
    requires result.Process? ==> w.journal == Some(result.record)
    requires result == CancelledBeforeDispatch ==> actor == EXECUTOR && !w.sent && state == Settled(Failed)
    requires result != SupersededBeforeDispatch && StateFits(Row(state, Some(result)))
    requires next == Threw || (result.Process? && next == Returned(result.record))
    requires actor == EXECUTOR && Withheld(w) ==> next == Threw
    ensures Inv(Update(w, actor, state, result, next))
  {
    var t := Update(w, actor, state, result, next);
    if MayUpdate(w.row.value, state) {
      assert t.written[|w.written|] == result;
      forall other | other in t.actors ensures ActorOk(t, other, t.actors[other]) {
        if other != actor { assert ActorOk(w, other, w.actors[other]); }
      }
    }
  }

  lemma WithdrawKeepsInv(w: World, result: Stored)
    requires Inv(w) && (result == CancelledBeforeDispatch || result == SupersededBeforeDispatch)
    ensures Inv(Withdraw(w, result))
  {
    var t := Withdraw(w, result);
    if t != w {
      assert t.written[|w.written|] == result;
      assert StaysBack(w.actors[EXECUTOR]) by { assert ActorOk(w, EXECUTOR, w.actors[EXECUTOR]); }
      forall actor | actor in t.actors ensures ActorOk(t, actor, t.actors[actor]) {
        assert ActorOk(w, actor, w.actors[actor]);
      }
    }
  }

  lemma DispatchKeepsInv(w: World, action: Action)
    requires Inv(w) && (action.Begin? || action.Admit? || action.Abort? || action.Cancel? || action.StartRunning? || action.Send?)
    ensures Inv(Next(w, action))
  {
    match action
    case Cancel =>
      if At(w, EXECUTOR, Cancelling) { UpdateKeepsInv(w, EXECUTOR, Settled(Failed), CancelledBeforeDispatch, Threw); }
    case _ =>
  }

  lemma SettlementKeepsInv(w: World, action: Action)
    requires Inv(w) && (action.GuestSettles? || action.Observe? || action.GiveUp? || action.PersistUnknown? || action.Settle?)
    ensures Inv(Next(w, action))
  {
    match action
    case PersistUnknown(actor) =>
      if At(w, actor, GivingUp) { UpdateKeepsInv(w, actor, Unknown, Unresolved, Threw); }
    case Settle(actor) =>
      if actor in w.actors && w.actors[actor].Settling? {
        var pc := w.actors[actor];
        UpdateKeepsInv(w, actor, Settled(pc.record.kind), Process(pc.record, pc.truncated), Returned(pc.record));
      }
    case _ =>
  }

  lemma ReconcilerKeepsInv(w: World, action: Action)
    requires Inv(w)
    requires action.Reconcile? || action.ListUnsettled? || action.Abandon? || action.RunEnds? || action.OwnerReplaced? || action.Crash?
    ensures Inv(Next(w, action))
  {
    match action
    case Abandon(actor) =>
      if At(w, actor, Abandoning) && w.row.Some? {
        UpdateKeepsInv(w, actor, Settled(Failed), AbandonedBeforeDispatch, Threw);
      }
    case RunEnds => WithdrawKeepsInv(w, CancelledBeforeDispatch);
    case OwnerReplaced => WithdrawKeepsInv(w, SupersededBeforeDispatch);
    case _ =>
  }

  lemma StepKeepsInv(w: World, action: Action)
    requires Inv(w)
    ensures Inv(Next(w, action))
  {
    if action.Begin? || action.Admit? || action.Abort? || action.Cancel? || action.StartRunning? || action.Send? {
      DispatchKeepsInv(w, action);
    } else if action.GuestSettles? || action.Observe? || action.GiveUp? || action.PersistUnknown? || action.Settle? {
      SettlementKeepsInv(w, action);
    } else {
      ReconcilerKeepsInv(w, action);
    }
  }

  lemma {:induction false} ReachableInv(schedule: seq<Action>)
    ensures Inv(Execute(schedule))
  {
    if schedule != [] {
      ReachableInv(schedule[..|schedule| - 1]);
      StepKeepsInv(Execute(schedule[..|schedule| - 1]), schedule[|schedule| - 1]);
    }
  }

  // ---- results ---------------------------------------------------------------------------

  /** A result that any coordinator returns is the journal's record, and was stored before it was returned. */
  lemma {:induction false} ReturnedResultsAreTheJournals(schedule: seq<Action>, actor: nat)
    ensures var w := Execute(schedule);
            actor in w.actors && w.actors[actor].Returned? ==>
              var r := w.actors[actor].record;
              w.sent && w.journal == Some(r) && (Process(r, false) in w.written || Process(r, true) in w.written)
  {
    ReachableInv(schedule);
    var w := Execute(schedule);
    if actor in w.actors { assert ActorOk(w, actor, w.actors[actor]); }
  }

  /** Whatever process result the row shows, it is the journal's record, and the row has the state of that record. */
  lemma {:induction false} StoredResultsAreTheJournals(schedule: seq<Action>)
    ensures var w := Execute(schedule);
            w.row.Some? && w.row.value.result.Some? && w.row.value.result.value.Process? ==>
              var r := w.row.value.result.value.record;
              w.sent && w.journal == Some(r) && w.row.value.state == (if r.kind == Completed then Settled(Completed) else Settled(Failed))
  {
    ReachableInv(schedule);
  }

  /** The other results stand for a command that did not run to a record: unknown, or failed without one. */
  lemma {:induction false} OtherResultsSettleNothingElse(schedule: seq<Action>)
    ensures var w := Execute(schedule);
            w.row.Some? && w.row.value.result.Some? && !w.row.value.result.value.Process? ==>
              if w.row.value.result.value.Unresolved? then !w.row.value.state.Settled? else w.row.value.state == Settled(Failed)
  {
    ReachableInv(schedule);
  }

  // ---- what each writer stores -----------------------------------------------------------

  /** The row takes this state and result, unless it was settled otherwise: then it stays and the writer is refused. */
  predicate Stores(w: World, t: World, actor: nat, state: RowState, result: Stored, pc: Pc) {
    if w.row.None? || (w.row.value.state.Settled? && w.row.value.state != state) then t.row == w.row && At(t, actor, Threw)
    else t.row == Some(Row(state, Some(result))) && At(t, actor, pc)
  }

  /** Whoever observed the record stores it under its own state and returns it. */
  lemma SettlingStoresTheRecord(w: World, actor: nat)
    requires Inv(w) && actor in w.actors && w.actors[actor].Settling?
    ensures var pc := w.actors[actor];
            Stores(w, Next(w, Settle(actor)), actor, if pc.record.kind == Completed then Settled(Completed) else Settled(Failed),
                   Process(pc.record, pc.truncated), Returned(pc.record))
            && w.journal == Some(pc.record)
  {
    assert ActorOk(w, actor, w.actors[actor]);
  }

  /** What is observed is the journal's record, and only once there is one. */
  lemma ObservationsAreTheJournals(w: World, actor: nat, truncated: bool)
    requires At(w, actor, Observing)
    ensures var t := Next(w, Observe(actor, truncated));
            t.row == w.row && (if w.journal.Some? then At(t, actor, Settling(w.journal.value, truncated)) else t == w)
  {
  }

  /** An observer that gives up leaves the row unknown, a cancelled executor and a stale reconciler leave it failed. */
  lemma OtherWritersStore(w: World, actor: nat)
    ensures At(w, actor, Observing) ==> Stores(w, Next(Next(w, GiveUp(actor)), PersistUnknown(actor)), actor, Unknown, Unresolved, Threw)
    ensures At(w, EXECUTOR, Cancelling) ==> Stores(w, Next(w, Cancel), EXECUTOR, Settled(Failed), CancelledBeforeDispatch, Threw)
    ensures At(w, actor, Abandoning) && w.row.Some? ==>
              Stores(w, Next(w, Abandon(actor)), actor, Settled(Failed), AbandonedBeforeDispatch, Threw)
  {
  }

  /** The end of a run and a new owner settle a queued row, each with its own reason, and no other. */
  lemma QueuedRowsAreWithdrawn(w: World)
    requires w.row.Some?
    ensures Next(w, RunEnds).row == if w.row.value.state == Queued then Some(Row(Settled(Failed), Some(CancelledBeforeDispatch))) else w.row
    ensures Next(w, OwnerReplaced).row == if w.row.value.state == Queued then Some(Row(Settled(Failed), Some(SupersededBeforeDispatch))) else w.row
  {
  }

  /** A reconciler returns a stored record at once; otherwise it observes, whatever the row says. */
  lemma ReconcilersStart(w: World, actor: nat)
    requires actor !in w.actors && actor != EXECUTOR && w.row.Some?
    ensures var t, row := Next(w, Reconcile(actor)), w.row.value;
            t.row == w.row
            && At(t, actor, if row.state.Settled? && row.result.Some? && row.result.value.Process? then Returned(row.result.value.record)
                            else Observing)
    ensures var t := Next(w, ListUnsettled(actor));
            t.row == w.row && (if w.row.value.state == Queued then At(t, actor, Abandoning) else t == w)
  {
  }

  // ---- a command that nothing disturbs ---------------------------------------------------

  /** The executor's steps as far as its dispatch. */
  function Dispatched(w: World): World {
    Next(Next(Next(Next(w, Begin), Admit(true, false)), StartRunning), Send)
  }

  function Reported(w: World, record: Record, truncated: bool): World {
    Next(Next(Next(w, GuestSettles(record)), Observe(EXECUTOR, truncated)), Settle(EXECUTOR))
  }

  lemma UndisturbedCommandsAreSent()
    ensures var d := Dispatched(START);
            d.sent && d.row == Some(Row(Running, None)) && d.journal.None? && d.actors == map[EXECUTOR := Observing]
  {
    var b := Next(START, Begin);
    assert b == START.(row := Some(Row(Queued, None)), actors := map[EXECUTOR := Queueing]);
    var a := Next(b, Admit(true, false));
    assert a.actors == map[EXECUTOR := Admitted] && a.row == Some(Row(Pending, None));
    var r := Next(a, StartRunning);
    assert r.actors == map[EXECUTOR := Starting] && r.row == Some(Row(Running, None));
  }

  lemma RecordsAreReported(w: World, record: Record, truncated: bool)
    requires At(w, EXECUTOR, Observing) && w.sent && w.journal.None? && w.row.Some? && !w.row.value.state.Settled?
    ensures var t := Reported(w, record, truncated);
            && t.journal == Some(record) && At(t, EXECUTOR, Returned(record))
            && t.row == Some(Row(if record.kind == Completed then Settled(Completed) else Settled(Failed), Some(Process(record, truncated))))
  {
    var o := Next(Next(w, GuestSettles(record)), Observe(EXECUTOR, truncated));
    assert At(o, EXECUTOR, Settling(record, truncated)) && o.row == w.row && o.journal == Some(record);
  }

  /** Main result: an undisturbed command is sent once, and its record is stored and returned as the guest left it. */
  lemma UndisturbedCommandsReturnTheirRecord(record: Record, truncated: bool)
    ensures var d, t := Dispatched(START), Reported(Dispatched(START), record, truncated);
            && d.sent && d.row == Some(Row(Running, None))
            && t.journal == Some(record) && At(t, EXECUTOR, Returned(record))
            && t.row == Some(Row(if record.kind == Completed then Settled(Completed) else Settled(Failed), Some(Process(record, truncated))))
  {
    UndisturbedCommandsAreSent();
    RecordsAreReported(Dispatched(START), record, truncated);
  }

  /** An executor that aborts before its dispatch cancels the row and sends nothing, now or later. */
  lemma AbortedCommandsAreCancelled(w: World)
    requires Inv(w) && w.row.Some? && !w.row.value.state.Settled?
    requires At(w, EXECUTOR, Queueing) || At(w, EXECUTOR, Admitted) || At(w, EXECUTOR, Starting)
    ensures var t := Next(Next(w, Abort), Cancel);
            t.row == Some(Row(Settled(Failed), Some(CancelledBeforeDispatch))) && At(t, EXECUTOR, Threw) && !t.sent
  {
    assert ActorOk(w, EXECUTOR, w.actors[EXECUTOR]);
  }

  /** Admission: a full guest keeps the command queued; a row that is no longer queued sends its executor to its cancellation. */
  lemma AdmissionMoves(w: World, granted: bool, lost: bool)
    requires At(w, EXECUTOR, Queueing) && w.row.Some?
    ensures var t := Next(w, Admit(granted, lost));
            if w.row.value.state != Queued then t.row == w.row && At(t, EXECUTOR, Cancelling)
            else if !granted then t == w
            else t.row == Some(Row(Pending, w.row.value.result)) && At(t, EXECUTOR, if lost then Cancelling else Admitted)
  {
  }

  /** A coordinator that dies stops where it is; nothing that is stored, sent or recorded changes. */
  lemma CrashesOnlyStop(w: World, actor: nat)
    requires actor in w.actors
    ensures var t := Next(w, Crash(actor)); At(t, actor, Threw) && t == w.(actors := t.actors) && t.actors.Keys == w.actors.Keys
    ensures forall other :: other in w.actors && other != actor ==> Next(w, Crash(actor)).actors[other] == w.actors[other]
  {
  }

  /** A row that was settled in the meantime stops its executor before the dispatch. */
  lemma SettledRowsAreNotStarted(w: World)
    requires At(w, EXECUTOR, Admitted) && w.row.Some?
    ensures var t := Next(w, StartRunning);
            if w.row.value.state.Settled? then t.row == w.row && At(t, EXECUTOR, Threw)
            else t.row == Some(Row(Running, w.row.value.result)) && At(t, EXECUTOR, Starting)
  {
  }

  /**
   A command that any writer ever recorded as cancelled or superseded before its dispatch was not sent,
   and no later step sends it.
   */
  lemma {:induction false} CancelledWasNeverSent(schedule: seq<Action>, more: seq<Action>)
    requires CancelledBeforeDispatch in Execute(schedule).written || SupersededBeforeDispatch in Execute(schedule).written
    ensures !Execute(schedule).sent && !Execute(schedule + more).sent
  {
    ReachableInv(schedule);
    ReachableInv(schedule + more);
    WrittenGrows(schedule, more);
  }

  lemma StepGrows(w: World, action: Action)
    ensures var t := Next(w, action);
            && w.written <= t.written
            && (w.abandonedFrom.Some? ==> t.abandonedFrom == w.abandonedFrom)
            && (w.row.Some? && w.row.value.state.Settled? ==> t.row.Some? && t.row.value.state == w.row.value.state)
  {
  }

  lemma {:induction false} WrittenGrows(schedule: seq<Action>, more: seq<Action>)
    ensures Execute(schedule).written <= Execute(schedule + more).written
    ensures Execute(schedule).abandonedFrom.Some? ==> Execute(schedule + more).abandonedFrom == Execute(schedule).abandonedFrom
    ensures Execute(schedule).row.Some? && Execute(schedule).row.value.state.Settled? ==>
              Execute(schedule + more).row.Some? && Execute(schedule + more).row.value.state == Execute(schedule).row.value.state
  {
    if more == [] {
      assert schedule + more == schedule;
    } else {
      var init := more[..|more| - 1];
      WrittenGrows(schedule, init);
      assert schedule + more == (schedule + init) + [more[|more| - 1]];
      Extend(schedule + init, more[|more| - 1]);
      StepGrows(Execute(schedule + init), more[|more| - 1]);
    }
  }

  lemma {:induction false} Extend(schedule: seq<Action>, action: Action)
    ensures Execute(schedule + [action]) == Next(Execute(schedule), action)
  {
    assert (schedule + [action])[..|schedule|] == schedule;
  }

  /** A settled row never changes its state. */
  lemma {:induction false} SettledStateIsFixed(schedule: seq<Action>, more: seq<Action>)
    requires Execute(schedule).row.Some? && Execute(schedule).row.value.state.Settled?
    ensures Execute(schedule + more).row.Some? && Execute(schedule + more).row.value.state == Execute(schedule).row.value.state
  {
    WrittenGrows(schedule, more);
  }

  // ---- abandonment -----------------------------------------------------------------------

  /**
   "Abandoned before dispatch" is written from a list read earlier. It is true, and stays true, if the
   row was still queued or pending when it was written.
   */
  lemma {:induction false} AbandonedWhileUndispatchedWasNeverSent(schedule: seq<Action>, more: seq<Action>)
    requires Execute(schedule).abandonedFrom.Some? && Undispatched(Execute(schedule).abandonedFrom.value)
    ensures !Execute(schedule + more).sent
  {
    WrittenGrows(schedule, more);
    ReachableInv(schedule + more);
  }

  /** The reconciler listed the row while it was queued; then the executor dispatched it. */
  function Raced(): seq<Action> {
    [Begin] + [ListUnsettled(1)] + [Admit(true, false)] + [StartRunning] + [Send]
  }

  const RACED := World(Some(Row(Running, None)), map[EXECUTOR := Observing, 1 := Abandoning], true, None, [], None)

  lemma RacedState()
    ensures Execute(Raced()) == RACED
  {
    Extend([], Begin);
    assert [] + [Begin] == [Begin];
    Extend([Begin], ListUnsettled(1));
    Extend([Begin] + [ListUnsettled(1)], Admit(true, false));
    Extend([Begin] + [ListUnsettled(1)] + [Admit(true, false)], StartRunning);
    Extend([Begin] + [ListUnsettled(1)] + [Admit(true, false)] + [StartRunning], Send);
  }

  /** In every other state that the update accepts, a dispatched command can be recorded as never dispatched. */
  lemma AbandonedThoughSent(found: RowState)
    requires found == Running || found == Unknown || found == Settled(Failed)
    ensures exists schedule: seq<Action> ::
              var w := Execute(schedule);
              w.sent && w.abandonedFrom == Some(found) && w.row == Some(Row(Settled(Failed), Some(AbandonedBeforeDispatch)))
  {
    var schedule := Raced();
    RacedState();
    if found == Unknown {
      schedule := UnknownButRaced(schedule);
    } else if found == Settled(Failed) {
      schedule := FailedButRaced(schedule);
    }
    Extend(schedule, Abandon(1));
    AbandonStep(Execute(schedule));
    assert Execute(schedule + [Abandon(1)]).sent;
  }

  /** A reconciler is about to abandon a command that was sent. */
  predicate AboutToAbandon(w: World, found: RowState) {
    w.sent && w.row.Some? && w.row.value.state == found && w.abandonedFrom.None? && At(w, 1, Abandoning)
  }

  lemma AbandonStep(w: World)
    requires w.row.Some? && MayUpdate(w.row.value, Settled(Failed)) && AboutToAbandon(w, w.row.value.state)
    ensures var t := Next(w, Abandon(1));
            && t.sent && t.abandonedFrom == Some(w.row.value.state)
            && t.row == Some(Row(Settled(Failed), Some(AbandonedBeforeDispatch)))
  {
  }

  lemma UnknownButRaced(raced: seq<Action>) returns (schedule: seq<Action>)
    requires Execute(raced) == RACED
    ensures AboutToAbandon(Execute(schedule), Unknown)
  {
    Extend(raced, GiveUp(EXECUTOR));
    Extend(raced + [GiveUp(EXECUTOR)], PersistUnknown(EXECUTOR));
    schedule := raced + [GiveUp(EXECUTOR)] + [PersistUnknown(EXECUTOR)];
  }

  /** The executor stored and returned the failure it observed; the stale reconciler then replaces the stored result. */
  lemma FailedButRaced(raced: seq<Action>) returns (schedule: seq<Action>)
    requires Execute(raced) == RACED
    ensures AboutToAbandon(Execute(schedule), Settled(Failed))
    ensures Execute(schedule).row.value.result.Some? && Execute(schedule).row.value.result.value.Process?
  {
    var record := Record(Failed, 1, false, "", "");
    Extend(raced, GuestSettles(record));
    var settled := raced + [GuestSettles(record)];
    Extend(settled, Observe(EXECUTOR, false));
    var observed := settled + [Observe(EXECUTOR, false)];
    Extend(observed, Settle(EXECUTOR));
    schedule := observed + [Settle(EXECUTOR)];
  }
}
