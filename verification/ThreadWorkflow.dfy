/**
 The per-thread workflow loop and its signal handlers. Signals may arrive between
 any two turns, and after many runs the loop continues as a new execution. Runs
 are taken in the order of their arrival and none is dropped; a wake is never
 dropped either.
 */
module ThreadWorkflow {
  import opened Wrappers

  type RunId = nat

  datatype Turn = Deleted | ContinuedAsNew | Execute(run: RunId) | WakeUp | Idle

  const RUNS_PER_EXECUTION := 100

  predicate Distinct(runs: seq<RunId>) {
    forall i, j :: 0 <= i < j < |runs| ==> runs[i] != runs[j]
  }

  class Workflow {
    var pending: seq<RunId>
    var active: Option<RunId>
    var wakeRequested: bool
    var deleteRequested: bool
    var ended: bool
    var runCount: nat
    var executions: nat
    /**
     History: the runs that were accepted and those that were started; how many wakes were signalled,
     and how many of them came before the last workspace wake. A new execution inherits all of it.
     */
    ghost var accepted: seq<RunId>
    ghost var started: seq<RunId>
    ghost var signalled: nat
    ghost var covered: nat

    ghost predicate Valid()
      reads this
    {
      && accepted == started + pending
      && Distinct(pending) && (active.Some? ==> active.value !in pending)
      && (active.Some? ==> started != [] && started[|started| - 1] == active.value)
      && covered <= signalled && (wakeRequested <==> covered < signalled)
    }

    constructor (carried: seq<RunId>)
      requires Distinct(carried)
      ensures Valid() && pending == carried && accepted == carried && started == [] && active.None?
      ensures signalled == 0 && !deleteRequested && !ended && runCount == 0 && executions == 1
    {
      pending, active := carried, None;
      wakeRequested, deleteRequested, ended := false, false, false;
      runCount, executions := 0, 1;
      accepted, started, signalled, covered := carried, [], 0, 0;
    }

    /** A run is queued once; the active one is not queued again. */
    method OnStartRun(run: RunId)
      requires Valid()
      modifies `pending, `accepted
      ensures Valid() && started == old(started)
      ensures accepted == if run in old(pending) || old(active) == Some(run) then old(accepted) else old(accepted) + [run]
    {
      if run !in pending && active != Some(run) {
        pending := pending + [run];
        accepted := accepted + [run];
      }
    }

    method OnWake()
      requires Valid()
      modifies `wakeRequested, `signalled
      ensures Valid() && signalled == old(signalled) + 1
    {
      wakeRequested, signalled := true, signalled + 1;
    }

    method OnDelete()
      requires Valid()
      modifies `deleteRequested
      ensures Valid() && deleteRequested
    {
      deleteRequested := true;
    }

    /** The head of the loop; `suggested` is the server's advice to continue as new. */
    method NextTurn(suggested: bool) returns (turn: Turn)
      requires Valid() && active.None? && !ended
      modifies this
      ensures Valid() && accepted == old(accepted) && signalled == old(signalled)
      ensures turn.Deleted? <==> old(deleteRequested)
      ensures turn.Deleted? ==> ended && pending == old(pending)
      ensures turn.ContinuedAsNew? <==>
                !old(deleteRequested) && old(covered) == signalled && (suggested || old(runCount) >= RUNS_PER_EXECUTION)
      ensures turn.ContinuedAsNew? ==>
                pending == old(pending) && runCount == 0 && executions == old(executions) + 1 && !deleteRequested
      ensures turn.Execute? ==>
                old(pending) == [turn.run] + pending && active == Some(turn.run) && started == old(started) + [turn.run]
      ensures turn.Idle? ==> old(pending) == [] && covered == signalled
      ensures turn.WakeUp? ==> old(pending) == [] && old(covered) < signalled
      ensures covered == if turn.WakeUp? then signalled else old(covered)
      ensures !turn.Execute? ==> started == old(started) && active.None?
    {
      if deleteRequested {
        ended := true;
        return Deleted;
      }
      if (runCount >= RUNS_PER_EXECUTION || suggested) && !wakeRequested {
        ContinueAsNew();
        return ContinuedAsNew;
      }
      if pending != [] {
        var run := pending[0];
        Shift(run);
        return Execute(run);
      }
      if wakeRequested {
        wakeRequested, covered := false, signalled;
        return WakeUp;
      }
      return Idle;
    }

    method Shift(run: RunId)
      requires Valid() && active.None? && pending != [] && run == pending[0]
      modifies `pending, `active, `started
      ensures Valid() && active == Some(run) && old(pending) == [run] + pending && started == old(started) + [run]
    {
      assert pending == [run] + pending[1..];
      pending := pending[1..];
      active := Some(run);
      started := started + [run];
    }

    /** A new execution starts with nothing but the pending runs: every flag and counter is fresh. */
    method ContinueAsNew()
      requires Valid() && active.None? && !wakeRequested && !deleteRequested
      modifies `wakeRequested, `deleteRequested, `runCount, `executions
      ensures Valid() && runCount == 0 && executions == old(executions) + 1 && !deleteRequested
    {
      wakeRequested, deleteRequested := false, false;
      runCount := 0;
      executions := executions + 1;
    }

    method RunFinished()
      requires Valid() && active.Some?
      modifies `active, `runCount
      ensures Valid() && active.None? && runCount == old(runCount) + 1
    {
      active := None;
      runCount := runCount + 1;
    }

    /** A wait for answers serves a wake itself, by preparing the workspace for the run in hand. */
    method ServeWakeWhileWaiting()
      requires Valid() && active.Some? && wakeRequested
      modifies `wakeRequested, `covered
      ensures Valid() && covered == signalled
    {
      wakeRequested, covered := false, signalled;
    }
  }
}
