/**
 Waiting for a person's answer or decision. The decision is committed first and
 signalled afterwards; the wait reads a version, then the status, and sleeps only
 if nothing changed since. It returns only on a status that is no longer pending,
 and it cannot sleep through a decision.
 */
module PersonWait {
  import opened Wrappers

  datatype Phase =
    | Observe
    | Read(observed: nat)
    | Decide(observed: nat)
    | Sleep(observed: nat, deadline: Option<nat>)
    | Waking
    | Pausing
    | Done

  /** `inFlight` counts signals that were sent and not yet delivered. */
  datatype Wait = Wait(phase: Phase, version: nat, inFlight: nat, pending: bool, expiresAt: Option<nat>, now: nat,
                       pauseAt: Option<nat>, wakeRequested: bool, canWake: bool, idle: nat)

  datatype Action =
    | Step(deferred: Option<nat>)
    | Answer
    | Deliver
    | Expire
    | Tick(ms: nat)
    | WakeSignal

  function Earliest(a: Option<nat>, b: Option<nat>): Option<nat> {
    if a.None? then b else if b.None? then a else Some(if a.value <= b.value then a.value else b.value)
  }

  /** Is the sleeping condition true? */
  predicate Changed(w: Wait, observed: nat) {
    w.version != observed || (w.canWake && w.wakeRequested)
  }

  /** One step of the workflow; `deferred` is what a pause answers if it is put off. */
  function Worked(w: Wait, deferred: Option<nat>): Wait {
    match w.phase
    case Observe => w.(phase := Read(w.version))
    case Read(observed) => w.(phase := if w.pending then Decide(observed) else Done)
    case Decide(observed) =>
      if w.canWake && w.wakeRequested then w.(wakeRequested := false, phase := Waking)
      else w.(phase := Sleep(observed, Earliest(w.expiresAt, w.pauseAt)))
    case Sleep(observed, deadline) =>
      if Changed(w, observed) then w.(phase := Observe)
      else if deadline.None? || w.now < deadline.value then w
      else if w.pauseAt.None? || w.now < w.pauseAt.value then w.(phase := Observe)
      else w.(phase := Pausing)
    case Waking => w.(phase := Observe, pauseAt := Some(w.now + w.idle))
    case Pausing => w.(phase := Observe, pauseAt := if deferred.Some? then Some(w.now + deferred.value) else None)
    case Done => w
  }

  function Next(w: Wait, action: Action): Wait {
    match action
    case Step(deferred) => Worked(w, deferred)
    case Answer => if w.pending then w.(pending := false, inFlight := w.inFlight + 1) else w
    case Deliver => if w.inFlight > 0 then w.(inFlight := w.inFlight - 1, version := w.version + 1) else w
    case Expire =>
      if w.pending && w.expiresAt.Some? && w.expiresAt.value <= w.now then w.(pending := false) else w
    case Tick(ms) => w.(now := w.now + ms)
    case WakeSignal => w.(wakeRequested := true)
  }

  /** The start of a wait. The decision may be made already, and signals may still be on their way. */
  predicate Starts(w: Wait) {
    w.phase == Observe
  }

  function Execute(w: Wait, schedule: seq<Action>): Wait {
    if schedule == [] then w else Next(Execute(w, schedule[..|schedule| - 1]), schedule[|schedule| - 1])
  }

  /** After a pending read, a decision is still on its way or has changed the version. */
  predicate Inv(w: Wait) {
    && (w.phase.Done? ==> !w.pending)
    && ((w.phase.Decide? || w.phase.Sleep?) && !w.pending ==>
          w.inFlight > 0 || w.version != w.phase.observed || (w.expiresAt.Some? && w.expiresAt.value <= w.now))
    && ((w.phase.Decide? || w.phase.Sleep?) ==> w.phase.observed <= w.version)
    && (w.phase.Read? ==> w.phase.observed <= w.version)
    && (w.phase.Sleep? && w.expiresAt.Some? ==> w.phase.deadline.Some? && w.phase.deadline.value <= w.expiresAt.value)
  }

  lemma StepKeepsInv(w: Wait, action: Action)
    requires Inv(w)
    ensures Inv(Next(w, action))
  {
  }

  lemma {:induction false} ReachableInv(w: Wait, schedule: seq<Action>)
    requires Starts(w)
    ensures Inv(Execute(w, schedule))
  {
    if schedule != [] {
      ReachableInv(w, schedule[..|schedule| - 1]);
      StepKeepsInv(Execute(w, schedule[..|schedule| - 1]), schedule[|schedule| - 1]);
    }
  }

  /** The wait returns only when the status is no longer pending. */
  lemma {:induction false} ReturnsOnlyWhenDecided(w: Wait, schedule: seq<Action>)
    requires Starts(w)
    ensures Execute(w, schedule).phase.Done? ==> !Execute(w, schedule).pending
  {
    ReachableInv(w, schedule);
  }

  /** Asleep after a decision: its signal is on the way, or has arrived, or the timer is due. */
  lemma {:induction false} NeverSleepsThroughADecision(w: Wait, schedule: seq<Action>)
    requires Starts(w)
    ensures var t := Execute(w, schedule);
            t.phase.Sleep? && !t.pending ==>
              t.inFlight > 0 || t.version != t.phase.observed || (t.phase.deadline.Some? && t.phase.deadline.value <= t.now)
  {
    ReachableInv(w, schedule);
  }

  function Working(w: Wait, steps: nat, deferred: Option<nat>): Wait
    decreases steps
  {
    if steps == 0 then w else Working(Worked(w, deferred), steps - 1, deferred)
  }

  /** How many steps a decided wait is away from returning. */
  function Distance(phase: Phase): nat {
    match phase
    case Done => 0
    case Read(_) => 1
    case Observe => 2
    case Waking => 3
    case Pausing => 3
    case Sleep(_, _) => 4
    case Decide(_) => 5
  }

  lemma {:induction false} DecidedWaitReturnsFrom(w: Wait, steps: nat, deferred: Option<nat>)
    requires Inv(w) && !w.pending && w.inFlight == 0 && Distance(w.phase) <= steps
    ensures Working(w, steps, deferred).phase == Done
    decreases steps
  {
    if steps > 0 {
      StepKeepsInv(w, Step(deferred));
      DecidedWaitReturnsFrom(Worked(w, deferred), steps - 1, deferred);
    }
  }

  /** Once every signal is delivered, a decided wait that only keeps working returns within five steps. */
  lemma {:induction false} DecidedWaitReturns(w: Wait, schedule: seq<Action>, deferred: Option<nat>)
    requires Starts(w) && !Execute(w, schedule).pending && Execute(w, schedule).inFlight == 0
    ensures Working(Execute(w, schedule), 5, deferred).phase == Done
  {
    ReachableInv(w, schedule);
    DecidedWaitReturnsFrom(Execute(w, schedule), 5, deferred);
  }

  // ---- what happens around a wait --------------------------------------------------------

  /** A decision is committed once and sends one signal; a signal that arrives changes the version; an expiry is silent. */
  lemma DecisionsAreSignalled(w: Wait)
    ensures var t := Next(w, Answer);
            if w.pending then t == w.(pending := false, inFlight := w.inFlight + 1) else t == w
    ensures var t := Next(w, Deliver);
            if w.inFlight > 0 then t == w.(inFlight := w.inFlight - 1, version := w.version + 1) else t == w
    ensures var t := Next(w, Expire);
            t == w.(pending := t.pending) && (t.pending <==> w.pending && (w.expiresAt.None? || w.now < w.expiresAt.value))
    ensures forall ms :: Next(w, Tick(ms)) == w.(now := w.now + ms)
    ensures Next(w, WakeSignal) == w.(wakeRequested := true)
  {
  }

  // ---- pausing and waking ----------------------------------------------------------------

  /** A wait that the workflow begins: the workspace stays awake for one idle period. */
  predicate Begins(w: Wait) {
    Starts(w) && w.pauseAt == Some(w.now + w.idle)
  }

  /** No pause is due before the idle period has passed. */
  predicate AwakeUntil(w: Wait, time: nat, idle: nat) {
    w.idle == idle && time <= w.now + idle && (w.pauseAt.Some? ==> time <= w.pauseAt.value) && (w.phase.Pausing? ==> time <= w.now)
  }

  lemma StepStaysAwake(w: Wait, action: Action, time: nat, idle: nat)
    requires AwakeUntil(w, time, idle)
    ensures AwakeUntil(Next(w, action), time, idle)
  {
  }

  /** Whatever happens, a wait pauses the workspace only after one idle period. */
  lemma {:induction false} NeverPausesEarly(w: Wait, schedule: seq<Action>)
    requires Begins(w)
    ensures AwakeUntil(Execute(w, schedule), w.now + w.idle, w.idle)
    ensures Execute(w, schedule).phase.Pausing? ==> w.now + w.idle <= Execute(w, schedule).now
  {
    if schedule != [] {
      NeverPausesEarly(w, schedule[..|schedule| - 1]);
      StepStaysAwake(Execute(w, schedule[..|schedule| - 1]), schedule[|schedule| - 1], w.now + w.idle, w.idle);
    }
  }

  /** And it does pause then, if nothing has changed: exactly from a sleep whose pause is due. */
  lemma PausesExactlyWhenDue(w: Wait, deferred: Option<nat>)
    requires w.phase.Sleep?
    ensures var due := w.phase.deadline.Some? && w.phase.deadline.value <= w.now;
            Worked(w, deferred).phase.Pausing? <==>
              w.version == w.phase.observed && !(w.canWake && w.wakeRequested) && due && w.pauseAt.Some? && w.pauseAt.value <= w.now
    ensures Worked(w, deferred).phase == w.phase <==>
              w.version == w.phase.observed && !(w.canWake && w.wakeRequested)
              && (w.phase.deadline.None? || w.now < w.phase.deadline.value)
    ensures !Worked(w, deferred).phase.Pausing? && Worked(w, deferred).phase != w.phase ==> Worked(w, deferred).phase == Observe
  {
  }

  /** A pause that is put off is tried again after that time, one that succeeds is not. */
  lemma PausesAreRetried(w: Wait, deferred: Option<nat>)
    requires w.phase.Pausing?
    ensures Worked(w, deferred) == w.(phase := Observe, pauseAt := match deferred case None => None case Some(ms) => Some(w.now + ms))
  {
  }

  /** Left alone, a pending wait reads, and then sleeps until the earlier of its expiry and its pause. */
  lemma {:induction false} PendingWaitSleeps(w: Wait, deferred: Option<nat>)
    requires w.phase.Observe? && w.pending && !(w.canWake && w.wakeRequested)
    ensures var t := Working(w, 3, deferred);
            && t.phase.Sleep? && t.phase.observed == w.version && t == w.(phase := t.phase)
            && (t.phase.deadline.None? <==> w.expiresAt.None? && w.pauseAt.None?)
            && (t.phase.deadline.Some? ==>
                  && (w.expiresAt.Some? ==> t.phase.deadline.value <= w.expiresAt.value)
                  && (w.pauseAt.Some? ==> t.phase.deadline.value <= w.pauseAt.value)
                  && (t.phase.deadline == w.expiresAt || t.phase.deadline == w.pauseAt))
  {
    ThreeSteps(w, deferred);
  }

  lemma {:induction false} ThreeSteps(w: Wait, deferred: Option<nat>)
    ensures Working(w, 3, deferred) == Worked(Worked(Worked(w, deferred), deferred), deferred)
  {
    var one := Worked(w, deferred);
    var two := Worked(one, deferred);
    assert Working(one, 2, deferred) == Working(two, 1, deferred) == Working(Worked(two, deferred), 0, deferred);
  }

  /** A wake that is asked for is served before the wait sleeps again, and the idle period starts anew. */
  lemma {:induction false} WakesAreServed(w: Wait, deferred: Option<nat>)
    requires w.phase.Observe? && w.pending && w.canWake && w.wakeRequested
    ensures Working(w, 3, deferred) == w.(phase := Waking, wakeRequested := false)
    ensures Worked(w.(phase := Waking, wakeRequested := false), deferred)
         == w.(phase := Observe, wakeRequested := false, pauseAt := Some(w.now + w.idle))
  {
    ThreeSteps(w, deferred);
  }

  /** A wait that cannot wake leaves the request to others. */
  lemma {:induction false} OtherWakesAreKept(w: Wait, schedule: seq<Action>)
    requires !w.canWake && w.wakeRequested && !w.phase.Waking?
    ensures !Execute(w, schedule).canWake && Execute(w, schedule).wakeRequested && !Execute(w, schedule).phase.Waking?
  {
    if schedule != [] { OtherWakesAreKept(w, schedule[..|schedule| - 1]); }
  }
}
