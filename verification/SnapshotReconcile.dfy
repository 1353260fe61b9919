/**
 Snapshots are read over REST and may arrive late or out of order; the event
 stream arrives on its own. A snapshot at watermark w that is truthful about the
 log at w, reconciled with a projection at cursor c, shows the title and the run
 statuses of the log at the later of the two.
 */
module SnapshotReconcile {
  import opened Wrappers
  import opened ThreadProjection

  datatype RunSummary = RunSummary(id: nat, status: Status, error: Option<string>)

  datatype Snapshot = Snapshot(thread: nat, watermark: nat, title: Option<string>, runs: seq<RunSummary>)

  function Max(a: nat, b: nat): nat {
    if a >= b then a else b
  }

  /** REST can finish out of order; a newer committed snapshot of the thread is never replaced. */
  function RetainNewest(previous: Option<Snapshot>, incoming: Snapshot): Snapshot {
    if previous.Some? && previous.value.thread == incoming.thread && previous.value.watermark > incoming.watermark
    then previous.value else incoming
  }

  /** A read replaces every retained one that is not newer, or that belongs to another thread. */
  lemma ReadsReplaceOlderOnes(previous: Snapshot, incoming: Snapshot)
    ensures incoming.watermark >= previous.watermark || incoming.thread != previous.thread ==>
              RetainNewest(Some(previous), incoming) == incoming
    ensures incoming.watermark < previous.watermark && incoming.thread == previous.thread ==>
              RetainNewest(Some(previous), incoming) == previous
    ensures RetainNewest(None, incoming) == incoming
  {
  }

  function ReconcileRun(watermark: nat, run: RunSummary, p: Projection): RunSummary {
    var i := FindRun(p.runs, run.id);
    if i < |p.runs| && p.runs[i].statusSequence > watermark && p.runs[i].status.Some?
    then RunSummary(run.id, p.runs[i].status.value, p.runs[i].error) else run
  }

  function ReconcileRuns(watermark: nat, runs: seq<RunSummary>, p: Projection): (r: seq<RunSummary>)
    ensures |r| == |runs| && forall i :: 0 <= i < |runs| ==> r[i] == ReconcileRun(watermark, runs[i], p)
  {
    if runs == [] then [] else [ReconcileRun(watermark, runs[0], p)] + ReconcileRuns(watermark, runs[1..], p)
  }

  /** `thread` is the thread the projection belongs to. */
  function Reconcile(s: Snapshot, thread: nat, p: Projection): Snapshot {
    if s.thread != thread then s
    else s.(title := if p.titleVersion > s.watermark then p.title else s.title,
            runs := ReconcileRuns(s.watermark, s.runs, p))
  }

  // ---- what the log says --------------------------------------------------

  function TitleAfter(initial: Option<string>, log: seq<Event>): Option<string> {
    if log == [] then initial
    else
      var last := log[|log| - 1].payload;
      if last.TitleUpdated? then Some(last.title) else TitleAfter(initial, log[..|log| - 1])
  }

  predicate SetsStatus(payload: Payload, run: nat) {
    payload.RunChanged? && payload.run == run && payload.status.Some?
  }

  function StatusAfter(initial: Status, log: seq<Event>, run: nat): Status {
    if log == [] then initial
    else
      var last := log[|log| - 1].payload;
      if SetsStatus(last, run) then last.status.value else StatusAfter(initial, log[..|log| - 1], run)
  }

  /** The snapshot is a committed view of the log at its watermark. */
  ghost predicate Truthful(s: Snapshot, log: seq<Event>, title: Option<string>, status: nat -> Status) {
    && s.watermark <= |log|
    && s.title == TitleAfter(title, log[..s.watermark])
    && forall i :: 0 <= i < |s.runs| ==>
         s.runs[i].status == StatusAfter(status(s.runs[i].id), log[..s.watermark], s.runs[i].id)
  }

  // ---- what the projection knows -------------------------------------------

  /** The position of the last title event, or zero. */
  function LastTitle(log: seq<Event>): (k: nat)
    ensures k <= |log| && (k > 0 ==> log[k - 1].payload.TitleUpdated?)
  {
    if log == [] then 0
    else if log[|log| - 1].payload.TitleUpdated? then |log| else LastTitle(log[..|log| - 1])
  }

  function LastStatus(log: seq<Event>, run: nat): (k: nat)
    ensures k <= |log| && (k > 0 ==> SetsStatus(log[k - 1].payload, run))
  {
    if log == [] then 0
    else if SetsStatus(log[|log| - 1].payload, run) then |log| else LastStatus(log[..|log| - 1], run)
  }

  lemma {:induction false} TitleSincePrefix(initial: Option<string>, log: seq<Event>, k: nat)
    requires k <= |log|
    ensures LastTitle(log) > k ==> TitleAfter(initial, log) == Some(log[LastTitle(log) - 1].payload.title)
    ensures LastTitle(log) <= k ==> TitleAfter(initial, log) == TitleAfter(initial, log[..k])
  {
    if k == |log| {
      assert log[..k] == log;
    } else if !log[|log| - 1].payload.TitleUpdated? {
      TitleSincePrefix(initial, log[..|log| - 1], k);
      assert log[..|log| - 1][..k] == log[..k];
    }
  }

  lemma {:induction false} StatusSincePrefix(initial: Status, log: seq<Event>, run: nat, k: nat)
    requires k <= |log|
    ensures LastStatus(log, run) > k ==> StatusAfter(initial, log, run) == log[LastStatus(log, run) - 1].payload.status.value
    ensures LastStatus(log, run) <= k ==> StatusAfter(initial, log, run) == StatusAfter(initial, log[..k], run)
  {
    if k == |log| {
      assert log[..k] == log;
    } else if !SetsStatus(log[|log| - 1].payload, run) {
      StatusSincePrefix(initial, log[..|log| - 1], run, k);
      assert log[..|log| - 1][..k] == log[..k];
    }
  }

  lemma RunStepStatus(run: Run, event: Event)
    requires NamesRun(event.payload) && RunStep(run, event).Ok?
    ensures var r := RunStep(run, event).value;
            && r.id == run.id
            && (SetsStatus(event.payload, event.payload.run) ==>
                  r.status == event.payload.status && r.statusSequence == event.sequence)
            && (!SetsStatus(event.payload, event.payload.run) ==>
                  r.status == run.status && r.statusSequence == run.statusSequence)
  {
  }

  lemma {:induction false} FindAfterUpdate(runs: seq<Run>, i: nat, run: Run, other: nat)
    requires i == FindRun(runs, run.id)
    ensures var next := if i < |runs| then runs[i := run] else runs + [run];
            var j := FindRun(next, other);
            if other == run.id then j == i else
              if FindRun(runs, other) < |runs| then j == FindRun(runs, other) && next[j] == runs[j] else j == |next|
  {
    var next := if i < |runs| then runs[i := run] else runs + [run];
    if runs == [] {
    } else if i == 0 {
      assert next[1..] == runs[1..];
    } else {
      FindAfterUpdate(runs[1..], i - 1, run, other);
      assert next[1..] == if i < |runs| then runs[1..][i - 1 := run] else runs[1..] + [run];
    }
  }

  lemma {:induction false} UpdateRunStatus(runs: seq<Run>, event: Event, id: nat)
    requires NamesRun(event.payload) && UpdateRun(runs, event).Ok?
    ensures var next := UpdateRun(runs, event).value;
            var i, j := FindRun(runs, id), FindRun(next, id);
            var before := if i < |runs| then runs[i] else FreshRun(id);
            var after := if j < |next| then next[j] else FreshRun(id);
            if SetsStatus(event.payload, id)
            then after.status == event.payload.status && after.statusSequence == event.sequence
            else after.status == before.status && after.statusSequence == before.statusSequence
  {
    var named := event.payload.run;
    var i := FindRun(runs, named);
    var base := if i < |runs| then runs[i] else FreshRun(named);
    RunStepStatus(base, event);
    FindAfterUpdate(runs, i, RunStep(base, event).value, id);
  }

  lemma ApplyFacts(p: Projection, event: Event, id: nat)
    requires event.sequence == p.cursor + 1 && Apply(p, event).Ok?
    ensures var q := Apply(p, event).value;
            && q.cursor == event.sequence
            && (if event.payload.TitleUpdated?
                then q.titleVersion == event.sequence && q.title == Some(event.payload.title)
                else q.titleVersion == p.titleVersion && q.title == p.title)
            && (if SetsStatus(event.payload, id)
                then RunOf(q, id).status == event.payload.status && RunOf(q, id).statusSequence == event.sequence
                else RunOf(q, id).status == RunOf(p, id).status
                     && RunOf(q, id).statusSequence == RunOf(p, id).statusSequence)
  {
    if NamesRun(event.payload) { UpdateRunStatus(p.runs, event, id); }
  }

  /** The projection remembers where the last title and the last status of a run came from. */
  lemma {:induction false} ProjectionRemembers(log: seq<Event>, run: nat)
    requires Numbered(log) && ApplyAll(Empty(), log).Ok?
    ensures var p := ApplyAll(Empty(), log).value;
            && p.cursor == |log| && p.titleVersion == LastTitle(log)
            && (p.titleVersion > 0 ==> p.title == Some(log[p.titleVersion - 1].payload.title))
            && RunOf(p, run).statusSequence == LastStatus(log, run)
            && (LastStatus(log, run) > 0 ==> RunOf(p, run).status == log[LastStatus(log, run) - 1].payload.status)
  {
    if log != [] {
      var init, e := log[..|log| - 1], log[|log| - 1];
      ProjectionRemembers(init, run);
      ApplyFacts(ApplyAll(Empty(), init).value, e, run);
    }
  }

  /** Main result: a truthful snapshot reconciled with the replay shows the facts of the later of the two. */
  lemma {:induction false} ReconciledShowsTheLaterFacts(log: seq<Event>, s: Snapshot, p: Projection, title: Option<string>, status: nat -> Status)
    requires Numbered(log) && FoldsTo(log, p) && Truthful(s, log, title, status)
    ensures var at := log[..Max(s.watermark, p.cursor)];
            var r := Reconcile(s, s.thread, p);
            && r.title == TitleAfter(title, at)
            && |r.runs| == |s.runs|
            && forall i :: 0 <= i < |r.runs| ==>
                 r.runs[i].id == s.runs[i].id && r.runs[i].status == StatusAfter(status(r.runs[i].id), at, r.runs[i].id)
  {
    ReconciledTitle(log, s, p, title, status);
    forall i | 0 <= i < |s.runs|
      ensures ReconcileRun(s.watermark, s.runs[i], p).status
           == StatusAfter(status(s.runs[i].id), log[..Max(s.watermark, p.cursor)], s.runs[i].id)
    {
      ReconciledRun(log, s, p, title, status, i);
    }
  }

  lemma {:induction false} ReconciledTitle(log: seq<Event>, s: Snapshot, p: Projection, title: Option<string>, status: nat -> Status)
    requires Numbered(log) && FoldsTo(log, p) && Truthful(s, log, title, status)
    ensures Reconcile(s, s.thread, p).title == TitleAfter(title, log[..Max(s.watermark, p.cursor)])
  {
    var w, c := s.watermark, p.cursor;
    ProjectionRemembers(log[..c], 0);
    if c > w {
      TitleSincePrefix(title, log[..c], w);
      assert log[..c][..w] == log[..w];
    }
  }

  lemma ReconciledRun(log: seq<Event>, s: Snapshot, p: Projection, title: Option<string>, status: nat -> Status, i: nat)
    requires Numbered(log) && FoldsTo(log, p) && Truthful(s, log, title, status) && i < |s.runs|
    ensures ReconcileRun(s.watermark, s.runs[i], p).status
         == StatusAfter(status(s.runs[i].id), log[..Max(s.watermark, p.cursor)], s.runs[i].id)
  {
    var w, c, id := s.watermark, p.cursor, s.runs[i].id;
    ProjectionRemembers(log[..c], id);
    if c > w {
      StatusSincePrefix(status(id), log[..c], id, w);
      assert log[..c][..w] == log[..w];
    }
  }

  // ---- any order of arrival -------------------------------------------------

  function Retained(snapshots: seq<Snapshot>): Snapshot
    requires snapshots != []
  {
    if |snapshots| == 1 then RetainNewest(None, snapshots[0])
    else RetainNewest(Some(Retained(snapshots[..|snapshots| - 1])), snapshots[|snapshots| - 1])
  }

  function Newest(snapshots: seq<Snapshot>): nat {
    if snapshots == [] then 0 else Max(Newest(snapshots[..|snapshots| - 1]), snapshots[|snapshots| - 1].watermark)
  }

  lemma {:induction false} RetainedIsNewest(snapshots: seq<Snapshot>, thread: nat)
    requires snapshots != [] && forall i :: 0 <= i < |snapshots| ==> snapshots[i].thread == thread
    ensures Retained(snapshots) in snapshots && Retained(snapshots).watermark == Newest(snapshots)
  {
    var init := snapshots[..|snapshots| - 1];
    if init != [] { RetainedIsNewest(init, thread); } else { assert Newest(init) == 0; }
  }

  /**
   Whatever snapshots were read, in whatever order, and wherever the replay stands: the view is a
   function of the newest watermark and the cursor alone.
   */
  lemma {:induction false} ViewDoesNotDependOnArrival(log: seq<Event>, snapshots: seq<Snapshot>, thread: nat, p: Projection,
                                   title: Option<string>, status: nat -> Status)
    requires Numbered(log) && FoldsTo(log, p) && snapshots != []
    requires forall i :: 0 <= i < |snapshots| ==>
               snapshots[i].thread == thread && Truthful(snapshots[i], log, title, status)
    ensures Newest(snapshots) <= |log|
    ensures var at := log[..Max(Newest(snapshots), p.cursor)];
            var r := Reconcile(Retained(snapshots), thread, p);
            && r.title == TitleAfter(title, at)
            && forall i :: 0 <= i < |r.runs| ==> r.runs[i].status == StatusAfter(status(r.runs[i].id), at, r.runs[i].id)
  {
    RetainedIsNewest(snapshots, thread);
    var kept := Retained(snapshots);
    var k :| 0 <= k < |snapshots| && snapshots[k] == kept;
    ReconciledShowsTheLaterFacts(log, kept, p, title, status);
  }
}
