/**
 The fenced guest command as a journal protocol. Wrapper processes of any number
 of commands, duplicate invocations and read-only reconciliations interleave at
 the granularity of single file operations; any of them may die at any point,
 which releases its locks but not its script.
 */
module GuestJournal {
  import opened Wrappers

  datatype State = Pending | Running | Completed | Failed

  /** The identity written to the journal's metadata file. */
  datatype Owner = Owner(id: nat, shared: bool)

  /**
   The files of one command's directory. The limits are those its readers were started with; `starts`
   counts launches of its script, and `cut` says that the record holds less than had been captured. The
   last two are history.
   */
  /** `ended` and `seen` are history: what had been captured when the script ended and when it was copied. */
  datatype Journal = Journal(metadata: Option<Owner>, state: Option<State>, exitCode: Option<int>, timedOut: bool,
                             truncated: bool, innerExit: Option<int>, limits: Limits, captured: Streams, output: Streams,
                             cut: bool, scriptAlive: bool, starts: nat, ended: Streams, seen: Streams)

  datatype Limits = Limits(stdout: nat, stderr: nat)

  datatype Streams = Streams(stdout: string, stderr: string)

  const SILENT := Streams("", "")

  const EMPTY := Journal(None, None, None, false, false, None, Limits(0, 0), SILENT, SILENT, false, false, 0, SILENT, SILENT)

  datatype Pc =
    | Begin | Check | WriteMetadata | WritePending | TakeWorkspace | Recheck | WriteRunning | Launch | Wait
    | SnapshotStdout | SnapshotStderr | WriteTimedOut | WriteExitCode | WriteState | Release
    | ReconcileCheck | ReadState | ReadCode | ReadFlags | TestLock | ReadStdout | ReadStderr | Done

  /** What a printed response says; no state means "unknown". */
  datatype Report = Report(state: Option<State>, code: Option<int>, truncated: bool, timedOut: bool, output: Streams)

  const UNKNOWN := Report(None, None, false, false, SILENT)

  datatype Proc = Proc(command: nat, owner: Owner, limits: Limits, pc: Pc, code: int, timedOut: bool, report: Report)

  /** `orphans` is history: the commands whose wrapper died while their script was running. */
  datatype Guest = Guest(journals: map<nat, Journal>, procs: map<nat, Proc>, orphans: set<nat>)

  datatype Action =
    | Invoke(pid: nat, command: nat, owner: Owner, limits: Limits)
    | Reconcile(pid: nat, command: nat, owner: Owner)
    | Advance(pid: nat, contended: bool)
    | Crash(pid: nat)
    | ScriptWrites(command: nat, text: Streams)
    | ScriptExits(command: nat, code: int)
    | ScriptKilled(command: nat)
    | CaptureOverflows(command: nat)

  predicate Terminal(state: Option<State>) {
    state == Some(Completed) || state == Some(Failed)
  }

  function JournalOf(s: Guest, command: nat): Journal {
    if command in s.journals then s.journals[command] else EMPTY
  }

  /** The command's own lock, held from its acquisition until the wrapper emits or dies. */
  predicate HoldsCommand(pc: Pc) {
    pc.Check? || pc.WriteMetadata? || pc.WritePending? || pc.TakeWorkspace? || HoldsWorkspace(pc)
  }

  /** After the script, until the record is settled. */
  predicate Settles(pc: Pc) {
    pc.SnapshotStdout? || pc.SnapshotStderr? || pc.WriteTimedOut? || pc.WriteExitCode? || pc.WriteState?
  }

  predicate HoldsWorkspace(pc: Pc) {
    pc.Recheck? || pc.WriteRunning? || pc.Launch? || pc.Wait? || Settles(pc) || pc.Release?
  }

  predicate CommandLockFree(s: Guest, command: nat) {
    forall pid :: pid in s.procs && s.procs[pid].command == command ==> !HoldsCommand(s.procs[pid].pc)
  }

  /** Readers share the workspace; everyone else has it alone. */
  predicate WorkspaceLockFree(s: Guest, shared: bool) {
    forall pid :: pid in s.procs && HoldsWorkspace(s.procs[pid].pc) ==> shared && s.procs[pid].owner.shared
  }

  predicate NobodyHoldsWorkspace(s: Guest) {
    forall pid :: pid in s.procs ==> !HoldsWorkspace(s.procs[pid].pc)
  }

  /** One file operation of a wrapper on its way to the launch; a lock that is taken leaves it where it is. */
  function StepUp(j: Journal, p: Proc, commandFree: bool, workspaceFree: bool): (Journal, Proc) {
    match p.pc
    case Begin => (j, if commandFree then p.(pc := Check) else p)
    case Check =>
      if j.state.None? then (j, p.(pc := WriteMetadata))
      else if j.metadata != Some(p.owner) then (j, p.(pc := Done, report := UNKNOWN))
      else (j, p.(pc := ReadState))
    case WriteMetadata =>
      (j.(metadata := Some(p.owner), innerExit := None, output := SILENT, captured := SILENT, truncated := false,
          timedOut := false, cut := false),
       p.(pc := WritePending))
    case WritePending => (j.(state := Some(Pending)), p.(pc := TakeWorkspace))
    case TakeWorkspace => (j, if workspaceFree then p.(pc := Recheck) else p)
    case Recheck =>
      (j, p.(pc := if Terminal(j.state) || j.state == Some(Running) then ReadState else WriteRunning))
    case WriteRunning => (j.(state := Some(Running)), p.(pc := Launch))
    case Launch => (j.(limits := p.limits, scriptAlive := true, starts := j.starts + 1), p.(pc := Wait))
    case _ => (j, p)
  }

  function Head(text: string, limit: nat): string {
    if |text| <= limit then text else text[..limit]
  }

  /** A reader keeps one character more than its limit, which shows that there was more. */
  function Captured(captured: Streams, text: Streams, limits: Limits): Streams {
    Streams(Head(captured.stdout + text.stdout, limits.stdout + 1), Head(captured.stderr + text.stderr, limits.stderr + 1))
  }

  /** From the end of the script to the settled record. */
  function StepDown(j: Journal, p: Proc): (Journal, Proc) {
    match p.pc
    case Wait =>
      if j.scriptAlive then (j, p)
      else (j, p.(pc := SnapshotStdout, timedOut := j.innerExit.None?,
                  code := if j.innerExit.Some? then j.innerExit.value else 124))
    case SnapshotStdout =>
      var more := |j.captured.stdout| > p.limits.stdout;
      (j.(output := j.output.(stdout := Head(j.captured.stdout, p.limits.stdout)), truncated := j.truncated || more,
          cut := j.cut || more, seen := j.seen.(stdout := j.captured.stdout)),
       p.(pc := SnapshotStderr))
    case SnapshotStderr =>
      var more := |j.captured.stderr| > p.limits.stderr;
      (j.(output := j.output.(stderr := Head(j.captured.stderr, p.limits.stderr)), truncated := j.truncated || more,
          cut := j.cut || more, seen := j.seen.(stderr := j.captured.stderr)),
       p.(pc := WriteTimedOut))
    case WriteTimedOut => (j.(timedOut := p.timedOut), p.(pc := WriteExitCode))
    case WriteExitCode => (j.(exitCode := Some(if p.timedOut then 124 else p.code)), p.(pc := WriteState))
    case WriteState =>
      (j.(state := Some(if !p.timedOut && p.code == 0 then Completed else Failed)), p.(pc := Release))
    case Release => (j, p.(pc := ReadState))
    case _ => (j, p)
  }

  /** A response is printed file by file; `idle` says whether the lock it tests is free. */
  function StepReading(j: Journal, p: Proc, idle: bool): Proc {
    match p.pc
    case ReconcileCheck =>
      if j.metadata != Some(p.owner) then p.(pc := Done, report := UNKNOWN) else p.(pc := ReadState)
    case ReadState => p.(pc := ReadCode, report := UNKNOWN.(state := j.state))
    case ReadCode => p.(pc := ReadFlags, report := p.report.(code := j.exitCode))
    case ReadFlags =>
      p.(pc := if Terminal(p.report.state) then TestLock else Done,
         report := p.report.(truncated := j.truncated, timedOut := j.timedOut))
    case TestLock =>
      if idle then p.(pc := ReadStdout)
      else p.(pc := Done, report := Report(Some(Running), None, p.report.truncated, false, SILENT))
    case ReadStdout => p.(pc := ReadStderr, report := p.report.(output := p.report.output.(stdout := j.output.stdout)))
    case ReadStderr => p.(pc := Done, report := p.report.(output := p.report.output.(stderr := j.output.stderr)))
    case _ => p
  }

  predicate GoesUp(pc: Pc) {
    pc.Begin? || pc.Check? || pc.WriteMetadata? || pc.WritePending? || pc.TakeWorkspace? || pc.Recheck? || pc.WriteRunning?
    || pc.Launch?
  }

  function Step(j: Journal, p: Proc, commandFree: bool, workspaceFree: bool, idle: bool): (Journal, Proc) {
    if GoesUp(p.pc) then StepUp(j, p, commandFree, workspaceFree)
    else if HoldsCommand(p.pc) then StepDown(j, p)
    else (j, StepReading(j, p, idle))
  }

  /** Whether the lock that a response tests before it reports a settled state is free. */
  predicate Idle(s: Guest, p: Proc) {
    if p.owner.shared then CommandLockFree(s, p.command) else NobodyHoldsWorkspace(s)
  }

  function Advanced(s: Guest, pid: nat, contended: bool): Guest
    requires pid in s.procs
  {
    var p := s.procs[pid];
    var stepped := Step(JournalOf(s, p.command), p, CommandLockFree(s, p.command), WorkspaceLockFree(s, p.owner.shared),
                        !contended && Idle(s, p));
    Placed(s, pid, stepped.0, stepped.1)
  }

  function Placed(s: Guest, pid: nat, j: Journal, p: Proc): Guest {
    Guest(s.journals[p.command := j], s.procs[pid := p], s.orphans)
  }

  function WithJournal(s: Guest, command: nat, j: Journal): Guest {
    s.(journals := s.journals[command := j])
  }

  /** Does the death of this process leave its script running? */
  predicate Orphans(s: Guest, pid: nat) {
    pid in s.procs && s.procs[pid].pc.Wait? && JournalOf(s, s.procs[pid].command).scriptAlive
  }

  function Next(s: Guest, action: Action): Guest {
    match action
    case Invoke(pid, command, owner, limits) =>
      if pid in s.procs then s else s.(procs := s.procs[pid := Proc(command, owner, limits, Begin, 0, false, UNKNOWN)])
    case Reconcile(pid, command, owner) =>
      if pid in s.procs then s else s.(procs := s.procs[pid := Proc(command, owner, Limits(0, 0), ReconcileCheck, 0, false, UNKNOWN)])
    case Advance(pid, contended) =>
      if pid in s.procs then Advanced(s, pid, contended) else s
    case Crash(pid) => s.(procs := s.procs - {pid}, orphans := if Orphans(s, pid) then s.orphans + {s.procs[pid].command} else s.orphans)
    case ScriptWrites(command, text) =>
      var j := JournalOf(s, command);
      if j.starts > 0 then WithJournal(s, command, j.(captured := Captured(j.captured, text, j.limits))) else s
    case ScriptExits(command, code) =>
      var j := JournalOf(s, command);
      if j.scriptAlive then WithJournal(s, command, j.(scriptAlive := false, innerExit := Some(code), ended := j.captured)) else s
    case ScriptKilled(command) =>
      var j := JournalOf(s, command);
      if j.scriptAlive then WithJournal(s, command, j.(scriptAlive := false, ended := j.captured)) else s
    case CaptureOverflows(command) =>
      var j := JournalOf(s, command);
      if j.starts > 0 && Overflows(j) then WithJournal(s, command, j.(truncated := true)) else s
  }

  predicate Overflows(j: Journal) {
    |j.captured.stdout| > j.limits.stdout || |j.captured.stderr| > j.limits.stderr
  }

  const START := Guest(map[], map[], {})

  function Execute(schedule: seq<Action>): Guest {
    if schedule == [] then START else Next(Execute(schedule[..|schedule| - 1]), schedule[|schedule| - 1])
  }

  // ---- the invariant ------------------------------------------------------------------

  predicate JournalOk(j: Journal) {
    && j.starts <= 1 && (j.state.Some? ==> j.metadata.Some?)
    && (j.state.None? || j.state == Some(Pending) ==> j.starts == 0)
    && (j.scriptAlive ==> j.starts == 1 && j.state == Some(Running) && j.innerExit.None?)
    && (j.starts == 1 && !j.scriptAlive ==> j.ended.stdout <= j.captured.stdout && j.ended.stderr <= j.captured.stderr)
    && (j.starts == 0 ==> j.innerExit == None && j.captured == SILENT) && (j.cut ==> j.truncated) && (j.truncated ==> Overflows(j))
    && (j.starts == 1 ==> |j.captured.stdout| <= j.limits.stdout + 1 && |j.captured.stderr| <= j.limits.stderr + 1)
    && (Terminal(j.state) ==>
          j.starts == 1 && !j.scriptAlive && j.exitCode == Some(CodeOf(j.innerExit)) && j.timedOut == j.innerExit.None?
          && (j.state == Some(Completed) <==> j.innerExit == Some(0)) && Copied(j))
  }

  /** A script that left no exit code counts as stopped by its time limit. */
  function CodeOf(innerExit: Option<int>): int {
    if innerExit.Some? then innerExit.value else 124
  }

  /** The head of what was captured when it was copied, and that was all there was when the script ended. */
  predicate CopiedStdout(j: Journal) {
    && j.output.stdout == (if |j.seen.stdout| <= j.limits.stdout then j.seen.stdout else j.seen.stdout[..j.limits.stdout])
    && j.ended.stdout <= j.seen.stdout <= j.captured.stdout && (|j.seen.stdout| > j.limits.stdout ==> j.cut)
  }

  predicate CopiedStderr(j: Journal) {
    && j.output.stderr == (if |j.seen.stderr| <= j.limits.stderr then j.seen.stderr else j.seen.stderr[..j.limits.stderr])
    && j.ended.stderr <= j.seen.stderr <= j.captured.stderr && (|j.seen.stderr| > j.limits.stderr ==> j.cut)
  }

  predicate Copied(j: Journal) {
    CopiedStdout(j) && CopiedStderr(j) && (j.cut ==> |j.seen.stdout| > j.limits.stdout || |j.seen.stderr| > j.limits.stderr)
  }

  /** What a process knows while it holds the command's lock. */
  predicate WriterOk(j: Journal, p: Proc) {
    && (p.pc.WriteMetadata? ==> j.state.None?)
    && (p.pc.WritePending? ==> j.state.None? && j.metadata == Some(p.owner))
    && (p.pc.TakeWorkspace? || p.pc.Recheck? || p.pc.WriteRunning? ==> j.state == Some(Pending) && j.metadata == Some(p.owner))
    && (p.pc.Launch? ==> j.state == Some(Running) && j.starts == 0 && j.metadata == Some(p.owner))
    && (p.pc.Wait? || Settles(p.pc) ==>
          j.state == Some(Running) && j.starts == 1 && j.metadata == Some(p.owner) && j.limits == p.limits)
    && ((p.pc.WritePending? || p.pc.TakeWorkspace? || p.pc.Recheck? || p.pc.WriteRunning? || p.pc.Launch? || p.pc.Wait?
         || p.pc.SnapshotStdout?) ==> !j.cut)
    && (Settles(p.pc) ==> !j.scriptAlive && p.timedOut == j.innerExit.None? && p.code == CodeOf(j.innerExit))
    && (p.pc.SnapshotStderr? ==> CopiedStdout(j) && (j.cut ==> |j.seen.stdout| > j.limits.stdout))
    && (Settles(p.pc) && !p.pc.SnapshotStdout? && !p.pc.SnapshotStderr? ==> Copied(j))
    && (p.pc.WriteExitCode? || p.pc.WriteState? ==> j.timedOut == p.timedOut)
    && (p.pc.WriteState? ==> j.exitCode == Some(p.code))
    && (p.pc.Release? ==> Terminal(j.state) && j.metadata == Some(p.owner))
  }

  predicate ReadsOutput(pc: Pc) {
    pc.TestLock? || pc.ReadStdout? || pc.ReadStderr?
  }

  /** What a process that read the journal knows: a terminal state it read is there to stay. */
  predicate ReaderOk(j: Journal, p: Proc) {
    && (Terminal(p.report.state) ==>
          && j.state == p.report.state
          && (p.pc.ReadFlags? || ReadsOutput(p.pc) || p.pc.Done? ==> p.report.code == j.exitCode)
          && (ReadsOutput(p.pc) || p.pc.Done? ==>
                p.report.timedOut == j.timedOut && (j.cut ==> p.report.truncated) && (p.report.truncated ==> j.truncated))
          && (p.pc.ReadStderr? || p.pc.Done? ==> p.report.output.stdout == j.output.stdout)
          && (p.pc.Done? ==> p.report.output.stderr == j.output.stderr))
    && (Terminal(p.report.state) ==> !HoldsCommand(p.pc) && !p.pc.Begin? && !p.pc.ReconcileCheck? && !p.pc.ReadState?)
  }

  ghost predicate JournalsOk(s: Guest) {
    forall c :: c in s.journals ==> JournalOk(s.journals[c])
  }

  predicate ProcOk(j: Journal, p: Proc) {
    WriterOk(j, p) && ReaderOk(j, p)
  }

  ghost predicate ProcsOk(s: Guest) {
    forall pid :: pid in s.procs ==> ProcOk(JournalOf(s, s.procs[pid].command), s.procs[pid])
  }

  ghost predicate CommandExclusive(s: Guest) {
    forall a, b :: a in s.procs && b in s.procs && a != b && s.procs[a].command == s.procs[b].command ==>
      !(HoldsCommand(s.procs[a].pc) && HoldsCommand(s.procs[b].pc))
  }

  ghost predicate WorkspaceExclusive(s: Guest) {
    forall a, b :: a in s.procs && b in s.procs && a != b && HoldsWorkspace(s.procs[a].pc) && HoldsWorkspace(s.procs[b].pc) ==>
      s.procs[a].owner.shared && s.procs[b].owner.shared
  }

  predicate Waits(s: Guest, pid: nat, command: nat) {
    pid in s.procs && s.procs[pid].command == command && s.procs[pid].pc.Wait?
  }

  /** A running script has its wrapper waiting for it, unless that wrapper died. */
  ghost predicate ScriptsHeld(s: Guest) {
    forall c :: c in s.journals && s.journals[c].scriptAlive && c !in s.orphans ==> exists pid :: Waits(s, pid, c)
  }

  ghost predicate Inv(s: Guest) {
    JournalsOk(s) && ProcsOk(s) && CommandExclusive(s) && WorkspaceExclusive(s) && ScriptsHeld(s)
  }

  /** How a journal may change: a terminal record is final, an owner is fixed once there is a state. */
  predicate Follows(j: Journal, next: Journal) {
    && (Terminal(j.state) ==>
          next.state == j.state && next.exitCode == j.exitCode && next.timedOut == j.timedOut && next.output == j.output
          && next.cut == j.cut && next.innerExit == j.innerExit && next.seen == j.seen && next.limits == j.limits
          && next.ended == j.ended && (j.truncated ==> next.truncated))
    && (j.state.Some? ==> next.state.Some? && next.metadata == j.metadata)
    && j.starts <= next.starts
  }

  /** What one step of a process may do to its journal and itself. */
  predicate Local(j: Journal, p: Proc, j2: Journal, p2: Proc, commandFree: bool, workspaceFree: bool) {
    && JournalOk(j2) && ProcOk(j2, p2) && Follows(j, j2)
    && p2.command == p.command && p2.owner == p.owner
    && (!HoldsCommand(p.pc) ==> j2 == j)
    && (HoldsCommand(p2.pc) ==> HoldsCommand(p.pc) || commandFree)
    && (HoldsWorkspace(p2.pc) ==> HoldsWorkspace(p.pc) || workspaceFree)
    && (j2.scriptAlive ==> if j.scriptAlive then p.pc.Wait? ==> p2.pc.Wait? else p.pc.Launch? && p2.pc.Wait?)
  }

  lemma StepUpKeepsKnowledge(j: Journal, p: Proc, commandFree: bool, workspaceFree: bool)
    requires JournalOk(j) && ProcOk(j, p) && GoesUp(p.pc)
    ensures var (j2, p2) := StepUp(j, p, commandFree, workspaceFree); ProcOk(j2, p2)
  {
  }

  lemma StepUpIsLocal(j: Journal, p: Proc, commandFree: bool, workspaceFree: bool)
    requires JournalOk(j) && ProcOk(j, p) && GoesUp(p.pc)
    ensures var (j2, p2) := StepUp(j, p, commandFree, workspaceFree); Local(j, p, j2, p2, commandFree, workspaceFree)
  {
    StepUpKeepsKnowledge(j, p, commandFree, workspaceFree);
  }

  lemma SnapshotIsLocal(j: Journal, p: Proc, commandFree: bool, workspaceFree: bool)
    requires JournalOk(j) && ProcOk(j, p) && (p.pc.SnapshotStdout? || p.pc.SnapshotStderr?)
    ensures var (j2, p2) := StepDown(j, p); Local(j, p, j2, p2, commandFree, workspaceFree)
  {
  }

  lemma WritingIsLocal(j: Journal, p: Proc, commandFree: bool, workspaceFree: bool)
    requires JournalOk(j) && ProcOk(j, p) && (p.pc.WriteTimedOut? || p.pc.WriteExitCode?)
    ensures var (j2, p2) := StepDown(j, p); Local(j, p, j2, p2, commandFree, workspaceFree)
  {
  }

  lemma SettlingIsLocal(j: Journal, p: Proc, commandFree: bool, workspaceFree: bool)
    requires JournalOk(j) && ProcOk(j, p) && p.pc.WriteState?
    ensures var (j2, p2) := StepDown(j, p); Local(j, p, j2, p2, commandFree, workspaceFree)
  {
  }

  lemma StepDownIsLocal(j: Journal, p: Proc, commandFree: bool, workspaceFree: bool)
    requires JournalOk(j) && ProcOk(j, p) && HoldsCommand(p.pc) && !GoesUp(p.pc)
    ensures var (j2, p2) := StepDown(j, p); Local(j, p, j2, p2, commandFree, workspaceFree)
  {
    if p.pc.SnapshotStdout? || p.pc.SnapshotStderr? {
      SnapshotIsLocal(j, p, commandFree, workspaceFree);
    } else if p.pc.WriteTimedOut? || p.pc.WriteExitCode? {
      WritingIsLocal(j, p, commandFree, workspaceFree);
    } else if p.pc.WriteState? {
      SettlingIsLocal(j, p, commandFree, workspaceFree);
    } else {
      WaitingIsLocal(j, p, commandFree, workspaceFree);
    }
  }

  lemma WaitingIsLocal(j: Journal, p: Proc, commandFree: bool, workspaceFree: bool)
    requires JournalOk(j) && ProcOk(j, p) && (p.pc.Wait? || p.pc.Release?)
    ensures var (j2, p2) := StepDown(j, p); Local(j, p, j2, p2, commandFree, workspaceFree)
  {
  }

  predicate StillReading(j: Journal, p: Proc, q: Proc) {
    ReaderOk(j, q) && !HoldsCommand(q.pc) && q.command == p.command && q.owner == p.owner
  }

  lemma ReadingStaysTrue(j: Journal, p: Proc, idle: bool)
    requires JournalOk(j) && ReaderOk(j, p) && !GoesUp(p.pc) && !HoldsCommand(p.pc)
    ensures StillReading(j, p, StepReading(j, p, idle))
  {
    if ReadsOutput(p.pc) {
      ReadingOutputStaysTrue(j, p, idle);
    } else {
      ReadingStatusStaysTrue(j, p, idle);
    }
  }

  lemma ReadingOutputStaysTrue(j: Journal, p: Proc, idle: bool)
    requires JournalOk(j) && ReaderOk(j, p) && ReadsOutput(p.pc)
    ensures StillReading(j, p, StepReading(j, p, idle))
  {
  }

  lemma ReadingStatusStaysTrue(j: Journal, p: Proc, idle: bool)
    requires JournalOk(j) && ReaderOk(j, p) && !GoesUp(p.pc) && !HoldsCommand(p.pc) && !ReadsOutput(p.pc)
    ensures StillReading(j, p, StepReading(j, p, idle))
  {
  }

  lemma StepReadingIsLocal(j: Journal, p: Proc, commandFree: bool, workspaceFree: bool, idle: bool)
    requires JournalOk(j) && ProcOk(j, p) && !GoesUp(p.pc) && !HoldsCommand(p.pc)
    ensures Local(j, p, j, StepReading(j, p, idle), commandFree, workspaceFree)
  {
    ReadingStaysTrue(j, p, idle);
    NotHolding(j, StepReading(j, p, idle));
  }

  lemma NotHolding(j: Journal, p: Proc)
    requires !HoldsCommand(p.pc)
    ensures WriterOk(j, p)
  {
  }

  lemma StepIsLocal(j: Journal, p: Proc, commandFree: bool, workspaceFree: bool, idle: bool)
    requires JournalOk(j) && ProcOk(j, p)
    ensures var r := Step(j, p, commandFree, workspaceFree, idle); Local(j, p, r.0, r.1, commandFree, workspaceFree)
  {
    if GoesUp(p.pc) {
      StepUpIsLocal(j, p, commandFree, workspaceFree);
    } else if HoldsCommand(p.pc) {
      StepDownIsLocal(j, p, commandFree, workspaceFree);
    } else {
      StepReadingIsLocal(j, p, commandFree, workspaceFree, idle);
    }
  }

  lemma ReadersAreUndisturbed(j: Journal, next: Journal, q: Proc)
    requires Follows(j, next) && ReaderOk(j, q)
    ensures ReaderOk(next, q)
  {
  }

  /** What the script and its leftovers do to their journal. */
  predicate FromOutside(j: Journal, next: Journal) {
    && next.state == j.state && next.metadata == j.metadata && next.exitCode == j.exitCode && next.timedOut == j.timedOut
    && |next.captured.stdout| <= j.limits.stdout + 1 && |next.captured.stderr| <= j.limits.stderr + 1
    && next.output == j.output && next.starts == j.starts && next.limits == j.limits && next.cut == j.cut
    && (j.truncated ==> next.truncated) && (next.truncated ==> Overflows(next))
    && j.captured.stdout <= next.captured.stdout && j.captured.stderr <= next.captured.stderr
    && (next.scriptAlive ==> j.scriptAlive) && next.seen == j.seen
    && (next.scriptAlive == j.scriptAlive ==> next.innerExit == j.innerExit && next.ended == j.ended)
    && (next.scriptAlive != j.scriptAlive ==> next.ended == j.captured)
  }

  lemma OutsideKeepsInv(s: Guest, command: nat, next: Journal)
    requires Inv(s) && FromOutside(JournalOf(s, command), next) && JournalOf(s, command).starts > 0
    ensures Inv(WithJournal(s, command, next))
  {
    var t := WithJournal(s, command, next);
    forall pid | pid in t.procs ensures ProcOk(JournalOf(t, t.procs[pid].command), t.procs[pid]) {
      if s.procs[pid].command == command { ReadersAreUndisturbed(JournalOf(s, command), next, s.procs[pid]); }
    }
    forall c | c in t.journals && t.journals[c].scriptAlive && c !in t.orphans ensures exists q :: Waits(t, q, c) {
      var q :| Waits(s, q, c);
      assert Waits(t, q, c);
    }
  }

  lemma PlacedKeepsRecords(s: Guest, pid: nat, j: Journal, p: Proc)
    requires JournalsOk(s) && ProcsOk(s) && CommandExclusive(s) && pid in s.procs
    requires Local(JournalOf(s, p.command), s.procs[pid], j, p, CommandLockFree(s, p.command), WorkspaceLockFree(s, p.owner.shared))
    ensures JournalsOk(Placed(s, pid, j, p)) && ProcsOk(Placed(s, pid, j, p))
  {
    var t := Placed(s, pid, j, p);
    forall other | other in t.procs ensures ProcOk(JournalOf(t, t.procs[other].command), t.procs[other]) {
      var q := t.procs[other];
      if other != pid && q.command == p.command {
        assert q == s.procs[other];
        ReadersAreUndisturbed(JournalOf(s, p.command), j, q);
      }
    }
  }

  lemma PlacedKeepsExclusion(s: Guest, pid: nat, j: Journal, p: Proc)
    requires CommandExclusive(s) && WorkspaceExclusive(s) && pid in s.procs
    requires Local(JournalOf(s, p.command), s.procs[pid], j, p, CommandLockFree(s, p.command), WorkspaceLockFree(s, p.owner.shared))
    ensures CommandExclusive(Placed(s, pid, j, p)) && WorkspaceExclusive(Placed(s, pid, j, p))
  {
  }

  lemma PlacedKeepsHeld(s: Guest, pid: nat, j: Journal, p: Proc)
    requires ScriptsHeld(s) && pid in s.procs
    requires Local(JournalOf(s, p.command), s.procs[pid], j, p, CommandLockFree(s, p.command), WorkspaceLockFree(s, p.owner.shared))
    ensures ScriptsHeld(Placed(s, pid, j, p))
  {
    var t := Placed(s, pid, j, p);
    forall c | c in t.journals && t.journals[c].scriptAlive && c !in t.orphans ensures exists q :: Waits(t, q, c) {
      if c == p.command && !JournalOf(s, c).scriptAlive {
        assert Waits(t, pid, c);
      } else {
        var q :| Waits(s, q, c);
        assert Waits(t, q, c);
      }
    }
  }

  lemma AdvanceKeepsInv(s: Guest, pid: nat, contended: bool)
    requires Inv(s) && pid in s.procs
    ensures Inv(Advanced(s, pid, contended))
  {
    var p := s.procs[pid];
    var commandFree, workspaceFree := CommandLockFree(s, p.command), WorkspaceLockFree(s, p.owner.shared);
    var idle := !contended && Idle(s, p);
    StepIsLocal(JournalOf(s, p.command), p, commandFree, workspaceFree, idle);
    var r := Step(JournalOf(s, p.command), p, commandFree, workspaceFree, idle);
    PlacedKeepsRecords(s, pid, r.0, r.1);
    PlacedKeepsExclusion(s, pid, r.0, r.1);
    PlacedKeepsHeld(s, pid, r.0, r.1);
  }

  lemma ArrivalKeepsInv(s: Guest, pid: nat, p: Proc)
    requires Inv(s) && pid !in s.procs && !HoldsCommand(p.pc) && p.report == UNKNOWN
    ensures Inv(s.(procs := s.procs[pid := p]))
  {
    NotHolding(JournalOf(s, p.command), p);
    var t := s.(procs := s.procs[pid := p]);
    forall c | c in t.journals && t.journals[c].scriptAlive && c !in t.orphans ensures exists q :: Waits(t, q, c) {
      var q :| Waits(s, q, c);
      assert Waits(t, q, c);
    }
  }

  lemma CrashKeepsInv(s: Guest, pid: nat)
    requires Inv(s)
    ensures Inv(Next(s, Crash(pid)))
  {
    var t := Next(s, Crash(pid));
    forall c | c in t.journals && t.journals[c].scriptAlive && c !in t.orphans ensures exists q :: Waits(t, q, c) {
      var q :| Waits(s, q, c);
      assert q != pid;
      assert Waits(t, q, c);
    }
  }

  lemma ScriptKeepsInv(s: Guest, action: Action)
    requires Inv(s) && (action.ScriptWrites? || action.ScriptExits? || action.ScriptKilled? || action.CaptureOverflows?)
    ensures Inv(Next(s, action))
  {
    var j := JournalOf(s, action.command);
    if j.starts > 0 {
      match action
      case ScriptWrites(command, text) => OutsideKeepsInv(s, command, j.(captured := Captured(j.captured, text, j.limits)));
      case ScriptExits(command, code) => if j.scriptAlive { OutsideKeepsInv(s, command, j.(scriptAlive := false, innerExit := Some(code), ended := j.captured)); }
      case ScriptKilled(command) => if j.scriptAlive { OutsideKeepsInv(s, command, j.(scriptAlive := false, ended := j.captured)); }
      case CaptureOverflows(command) => if Overflows(j) { OutsideKeepsInv(s, command, j.(truncated := true)); }
    }
  }

  lemma StepKeepsInv(s: Guest, action: Action)
    requires Inv(s)
    ensures Inv(Next(s, action))
  {
    match action
    case Invoke(pid, command, owner, limits) =>
      if pid !in s.procs { ArrivalKeepsInv(s, pid, Proc(command, owner, limits, Begin, 0, false, UNKNOWN)); }
    case Reconcile(pid, command, owner) =>
      if pid !in s.procs { ArrivalKeepsInv(s, pid, Proc(command, owner, Limits(0, 0), ReconcileCheck, 0, false, UNKNOWN)); }
    case Advance(pid, contended) => if pid in s.procs { AdvanceKeepsInv(s, pid, contended); }
    case Crash(pid) => CrashKeepsInv(s, pid);
    case _ => ScriptKeepsInv(s, action);
  }

  lemma {:induction false} ReachableInv(schedule: seq<Action>)
    ensures Inv(Execute(schedule))
  {
    if schedule != [] {
      ReachableInv(schedule[..|schedule| - 1]);
      StepKeepsInv(Execute(schedule[..|schedule| - 1]), schedule[|schedule| - 1]);
    }
  }

  // ---- results --------------------------------------------------------------------------

  /** Whatever is invoked, duplicated, reconciled or killed: a command's script starts at most once. */
  lemma {:induction false} ScriptStartsAtMostOnce(schedule: seq<Action>, command: nat)
    ensures JournalOf(Execute(schedule), command).starts <= 1
  {
    ReachableInv(schedule);
  }

  /**
   Every settled response is the journal's record, whichever process printed it and when: the script's own
   exit code and whether it succeeded, "timed out" if it left none, and of both outputs the head of what
   had been captured, which is all there was when the script ended. A response that does not say
   "truncated" holds all of that, and one that does had a capture over its limit.
   */
  lemma {:induction false} SettledResponsesAreTheRecord(schedule: seq<Action>, pid: nat)
    ensures var s := Execute(schedule);
            pid in s.procs && s.procs[pid].pc.Done? && Terminal(s.procs[pid].report.state) ==>
              var j, r := JournalOf(s, s.procs[pid].command), s.procs[pid].report;
              && j.starts == 1 && !j.scriptAlive && r.state == j.state && r.output == j.output
              && r.timedOut == j.innerExit.None? && r.code == (if j.innerExit.Some? then j.innerExit else Some(124))
              && (r.state == Some(Completed) <==> j.innerExit == Some(0)) && Copied(j)
              && (!r.truncated ==> j.ended.stdout <= r.output.stdout && j.ended.stderr <= r.output.stderr)
              && (j.cut ==> r.truncated) && (r.truncated ==> Overflows(j))
  {
    ReachableInv(schedule);
  }

  // ---- what the script did --------------------------------------------------------------

  lemma AdvanceKeepsWhatTheScriptDid(s: Guest, pid: nat, contended: bool, c: nat)
    requires Inv(s) && pid in s.procs
    ensures var j, t := JournalOf(s, c), JournalOf(Advanced(s, pid, contended), c);
            && t.innerExit == j.innerExit && t.captured == j.captured && (j.starts > 0 ==> t.limits == j.limits)
            && j.starts <= t.starts
  {
    var p := s.procs[pid];
    assert ProcOk(JournalOf(s, p.command), p) && (p.command in s.journals ==> JournalOk(s.journals[p.command]));
    var commandFree, workspaceFree, idle := CommandLockFree(s, p.command), WorkspaceLockFree(s, p.owner.shared), !contended && Idle(s, p);
    StepKeepsWhatTheScriptDid(JournalOf(s, p.command), p, commandFree, workspaceFree, idle);
    var r := Step(JournalOf(s, p.command), p, commandFree, workspaceFree, idle);
    PlacedShows(s, pid, r.0, r.1);
    StepKeepsTheCommand(JournalOf(s, p.command), p, commandFree, workspaceFree, idle);
  }

  lemma StepKeepsTheCommand(j: Journal, p: Proc, commandFree: bool, workspaceFree: bool, idle: bool)
    ensures Step(j, p, commandFree, workspaceFree, idle).1.command == p.command
  {
  }

  lemma StepKeepsWhatTheScriptDid(j: Journal, p: Proc, commandFree: bool, workspaceFree: bool, idle: bool)
    requires JournalOk(j) && ProcOk(j, p)
    ensures var t := Step(j, p, commandFree, workspaceFree, idle).0;
            && t.innerExit == j.innerExit && t.captured == j.captured && (j.starts > 0 ==> t.limits == j.limits)
            && j.starts <= t.starts
  {
  }

  /** The action ends the running script of the command with this code. */
  predicate EndsWith(s: Guest, action: Action, c: nat, code: int) {
    action == ScriptExits(c, code) && JournalOf(s, c).scriptAlive
  }

  lemma OnlyTheEndLeavesACode(s: Guest, action: Action, c: nat, code: int)
    requires Inv(s)
    ensures JournalOf(Next(s, action), c).innerExit == Some(code) <==>
              EndsWith(s, action, c, code) || JournalOf(s, c).innerExit == Some(code)
    ensures EndsWith(s, action, c, code) ==> JournalOf(s, c).innerExit.None?
  {
    if c in s.journals { assert JournalOk(s.journals[c]); }
    if action.Advance? && action.pid in s.procs { AdvanceKeepsWhatTheScriptDid(s, action.pid, action.contended, c); }
  }

  predicate EndedWith(schedule: seq<Action>, c: nat, code: int) {
    exists k :: 0 <= k < |schedule| && EndsWith(Execute(schedule[..k]), schedule[k], c, code)
  }

  /** On every schedule the code in the journal is that of the step which ended the running script, and no other. */
  lemma {:induction false} TheExitIsTheScripts(schedule: seq<Action>, c: nat, code: int)
    ensures JournalOf(Execute(schedule), c).innerExit == Some(code) <==> EndedWith(schedule, c, code)
  {
    if schedule != [] {
      var init, last := schedule[..|schedule| - 1], schedule[|schedule| - 1];
      TheExitIsTheScripts(init, c, code);
      ReachableInv(init);
      OnlyTheEndLeavesACode(Execute(init), last, c, code);
      EndedEarlier(schedule, c, code);
    }
  }

  lemma {:induction false} EndedEarlier(schedule: seq<Action>, c: nat, code: int)
    requires schedule != []
    ensures var init, last := schedule[..|schedule| - 1], schedule[|schedule| - 1];
            EndedWith(schedule, c, code) <==> EndedWith(init, c, code) || EndsWith(Execute(init), last, c, code)
  {
    var init := schedule[..|schedule| - 1];
    forall k | 0 <= k < |init| ensures init[..k] == schedule[..k] && init[k] == schedule[k] {
    }
    if EndedWith(init, c, code) {
      var k :| 0 <= k < |init| && EndsWith(Execute(init[..k]), init[k], c, code);
      assert EndsWith(Execute(schedule[..k]), schedule[k], c, code);
    }
    if EndedWith(schedule, c, code) {
      var k :| 0 <= k < |schedule| && EndsWith(Execute(schedule[..k]), schedule[k], c, code);
      if k < |init| { assert EndsWith(Execute(init[..k]), init[k], c, code); }
    }
  }

  /** Everything that the script of a command, once started, has written so far. */
  function Written(schedule: seq<Action>, c: nat): Streams {
    if schedule == [] then SILENT
    else
      var init, last := schedule[..|schedule| - 1], schedule[|schedule| - 1];
      var before := Written(init, c);
      if last.ScriptWrites? && last.command == c && JournalOf(Execute(init), c).starts > 0
      then Streams(before.stdout + last.text.stdout, before.stderr + last.text.stderr)
      else before
  }

  lemma HeadOfMore(a: string, b: string, n: nat)
    ensures Head(Head(a, n) + b, n) == Head(a + b, n)
  {
  }

  /** Only what a started script writes reaches its capture. */
  lemma CapturesOnlyGrowByWriting(s: Guest, action: Action, c: nat)
    requires Inv(s)
    ensures var j, t := JournalOf(s, c), JournalOf(Next(s, action), c);
            && t.captured == (if action.ScriptWrites? && action.command == c && j.starts > 0 then Captured(j.captured, action.text, j.limits)
                              else j.captured)
            && (j.starts > 0 ==> t.limits == j.limits) && j.starts <= t.starts
  {
    if action.Advance? && action.pid in s.procs { AdvanceKeepsWhatTheScriptDid(s, action.pid, action.contended, c); }
  }

  /** A capture is the beginning of what was written, one character beyond its limit at most. */
  predicate CapturesWritten(j: Journal, written: Streams) {
    && (j.starts > 0 ==> j.captured.stdout == Head(written.stdout, j.limits.stdout + 1)
                         && j.captured.stderr == Head(written.stderr, j.limits.stderr + 1))
    && (j.starts == 0 ==> written == SILENT && j.captured == SILENT)
  }

  lemma {:induction false} CapturesAreWhatWasWritten(schedule: seq<Action>, c: nat)
    ensures CapturesWritten(JournalOf(Execute(schedule), c), Written(schedule, c))
  {
    if schedule != [] {
      var init, last := schedule[..|schedule| - 1], schedule[|schedule| - 1];
      CapturesAreWhatWasWritten(init, c);
      ReachableInv(init);
      CapturesOnlyGrowByWriting(Execute(init), last, c);
      var j, written := JournalOf(Execute(init), c), Written(init, c);
      if last.ScriptWrites? {
        HeadOfMore(written.stdout, last.text.stdout, j.limits.stdout + 1);
        HeadOfMore(written.stderr, last.text.stderr, j.limits.stderr + 1);
      }
    }
  }

  // ---- a command that nothing disturbs ---------------------------------------------------

  /** A step of a process that finds every lock free. */
  function FreeStep(j: Journal, p: Proc): (Journal, Proc) {
    Step(j, p, true, true, true)
  }

  function Steps(j: Journal, p: Proc, n: nat): (Journal, Proc)
    decreases n
  {
    if n == 0 then (j, p) else Steps(FreeStep(j, p).0, FreeStep(j, p).1, n - 1)
  }

  function Advances(s: Guest, pid: nat, n: nat): Guest
    decreases n
  {
    if n == 0 then s else Advances(Next(s, Advance(pid, false)), pid, n - 1)
  }

  /** No other process is there. */
  ghost predicate Alone(s: Guest, pid: nat, j: Journal, p: Proc) {
    s.procs == map[pid := p] && JournalOf(s, p.command) == j
  }

  ghost predicate ElsewhereTheSame(s: Guest, t: Guest, command: nat) {
    t.orphans == s.orphans && forall c :: c != command ==> (c in t.journals <==> c in s.journals) && JournalOf(t, c) == JournalOf(s, c)
  }

  lemma {:induction false} AloneItSteps(s: Guest, pid: nat, j: Journal, p: Proc, n: nat)
    requires Alone(s, pid, j, p)
    ensures var (k, q) := Steps(j, p, n); Alone(Advances(s, pid, n), pid, k, q) && q.command == p.command
    ensures ElsewhereTheSame(s, Advances(s, pid, n), p.command)
    decreases n
  {
    if n > 0 {
      AloneStep(s, pid, j, p);
      AloneItSteps(Next(s, Advance(pid, false)), pid, FreeStep(j, p).0, FreeStep(j, p).1, n - 1);
    }
  }

  lemma AloneStep(s: Guest, pid: nat, j: Journal, p: Proc)
    requires Alone(s, pid, j, p)
    ensures var (k, q) := FreeStep(j, p); Alone(Next(s, Advance(pid, false)), pid, k, q) && q.command == p.command
    ensures ElsewhereTheSame(s, Next(s, Advance(pid, false)), p.command)
  {
    var commandFree, workspaceFree, idle := CommandLockFree(s, p.command), WorkspaceLockFree(s, p.owner.shared), Idle(s, p);
    OnlyOwnLocks(s, pid, j, p);
    StepIgnoresOwnLocks(j, p, commandFree, workspaceFree, idle);
    StepKeepsTheCommand(j, p, true, true, true);
    PlacedShows(s, pid, FreeStep(j, p).0, FreeStep(j, p).1);
  }

  lemma OnlyOwnLocks(s: Guest, pid: nat, j: Journal, p: Proc)
    requires Alone(s, pid, j, p)
    ensures !HoldsCommand(p.pc) ==> CommandLockFree(s, p.command) && Idle(s, p)
    ensures !HoldsWorkspace(p.pc) ==> WorkspaceLockFree(s, p.owner.shared)
  {
  }

  /** A lock that the process holds itself makes no difference to it. */
  lemma StepIgnoresOwnLocks(j: Journal, p: Proc, commandFree: bool, workspaceFree: bool, idle: bool)
    requires !HoldsCommand(p.pc) ==> commandFree && idle
    requires !HoldsWorkspace(p.pc) ==> workspaceFree
    ensures Step(j, p, commandFree, workspaceFree, idle) == FreeStep(j, p)
  {
  }

  lemma {:induction false} StepsAdd(j: Journal, p: Proc, n: nat, m: nat)
    ensures Steps(j, p, n + m) == Steps(Steps(j, p, n).0, Steps(j, p, n).1, m)
    decreases n
  {
    if n > 0 { StepsAdd(FreeStep(j, p).0, FreeStep(j, p).1, n - 1, m); }
  }

  lemma {:induction false} TwoSteps(j: Journal, p: Proc)
    ensures Steps(j, p, 2) == FreeStep(FreeStep(j, p).0, FreeStep(j, p).1)
    ensures Steps(j, p, 1) == FreeStep(j, p)
  {
    var (k, q) := FreeStep(j, p);
    assert Steps(k, q, 1) == Steps(FreeStep(k, q).0, FreeStep(k, q).1, 0);
    assert Steps(j, p, 1) == Steps(k, q, 0);
  }

  lemma {:induction false} FourSteps(j: Journal, p: Proc)
    ensures var (k, q) := FreeStep(FreeStep(j, p).0, FreeStep(j, p).1);
            Steps(j, p, 4) == FreeStep(FreeStep(k, q).0, FreeStep(k, q).1)
  {
    TwoSteps(j, p);
    StepsAdd(j, p, 2, 2);
    TwoSteps(Steps(j, p, 2).0, Steps(j, p, 2).1);
  }

  lemma {:induction false} NewCommandLaunches(command: nat, owner: Owner, limits: Limits)
    ensures Steps(EMPTY, Proc(command, owner, limits, Begin, 0, false, UNKNOWN), 8)
         == (Journal(Some(owner), Some(Running), None, false, false, None, limits, SILENT, SILENT, false, true, 1, SILENT, SILENT),
             Proc(command, owner, limits, Wait, 0, false, UNKNOWN))
  {
    var p := Proc(command, owner, limits, Begin, 0, false, UNKNOWN);
    FourSteps(EMPTY, p);
    assert Steps(EMPTY, p, 4) == (EMPTY.(metadata := Some(owner), state := Some(Pending)), p.(pc := TakeWorkspace));
    FourSteps(Steps(EMPTY, p, 4).0, Steps(EMPTY, p, 4).1);
    StepsAdd(EMPTY, p, 4, 4);
  }

  /** What the record of an ended script has to be. */
  predicate RecordsTheEnd(j: Journal, exit: Option<int>, text: Streams) {
    && j.state == Some(if exit == Some(0) then Completed else Failed)
    && j.exitCode == Some(if exit.Some? then exit.value else 124) && j.timedOut == exit.None?
    && j.output == Streams(Head(text.stdout, j.limits.stdout), Head(text.stderr, j.limits.stderr))
    && (j.truncated <==> |text.stdout| > j.limits.stdout || |text.stderr| > j.limits.stderr)
  }

  lemma {:induction false} EndedScriptIsCopied(j: Journal, p: Proc, text: Streams)
    requires p.pc.Wait? && !j.scriptAlive && j.limits == p.limits && !j.truncated && j.captured == Captured(SILENT, text, j.limits)
    ensures var (k, q) := Steps(j, p, 4);
            && q == p.(pc := WriteExitCode, timedOut := j.innerExit.None?, code := CodeOf(j.innerExit))
            && k.timedOut == j.innerExit.None? && k.limits == j.limits && k.metadata == j.metadata && k.starts == j.starts
            && k.innerExit == j.innerExit
            && k.output == Streams(Head(text.stdout, j.limits.stdout), Head(text.stderr, j.limits.stderr))
            && (k.truncated <==> |text.stdout| > j.limits.stdout || |text.stderr| > j.limits.stderr)
  {
    FourSteps(j, p);
  }

  lemma {:induction false} CopiedScriptSettles(j: Journal, p: Proc)
    requires p.pc.WriteExitCode? && (p.timedOut ==> p.code == 124)
    ensures Steps(j, p, 3) == (j.(exitCode := Some(p.code), state := Some(if !p.timedOut && p.code == 0 then Completed else Failed)),
                               p.(pc := ReadState))
  {
    StateIsWritten(j, p);
    StepsAdd(j, p, 2, 1);
    TwoSteps(Steps(j, p, 2).0, Steps(j, p, 2).1);
  }

  lemma {:induction false} StateIsWritten(j: Journal, p: Proc)
    requires p.pc.WriteExitCode? && (p.timedOut ==> p.code == 124)
    ensures Steps(j, p, 2) == (j.(exitCode := Some(p.code), state := Some(if !p.timedOut && p.code == 0 then Completed else Failed)),
                               p.(pc := Release))
  {
    TwoSteps(j, p);
  }

  lemma {:induction false} EndedScriptSettles(j: Journal, p: Proc, text: Streams)
    requires p.pc.Wait? && !j.scriptAlive && j.limits == p.limits && !j.truncated && j.captured == Captured(SILENT, text, j.limits)
    ensures var (k, q) := Steps(j, p, 7);
            RecordsTheEnd(k, j.innerExit, text) && k.metadata == j.metadata && k.limits == j.limits && k.starts == j.starts
            && q.pc == ReadState && q.owner == p.owner && q.command == p.command
  {
    EndedScriptIsCopied(j, p, text);
    CopiedScriptSettles(Steps(j, p, 4).0, Steps(j, p, 4).1);
    StepsAdd(j, p, 4, 3);
  }

  /** What a response prints of a settled record. */
  predicate Prints(j: Journal, r: Report) {
    r == Report(j.state, j.exitCode, j.truncated, j.timedOut, j.output)
  }

  lemma {:induction false} StatusIsRead(j: Journal, p: Proc)
    requires p.pc.ReadState? && Terminal(j.state)
    ensures Steps(j, p, 4) == (j, p.(pc := ReadStdout, report := Report(j.state, j.exitCode, j.truncated, j.timedOut, SILENT)))
  {
    FourSteps(j, p);
    var one := p.(pc := ReadCode, report := UNKNOWN.(state := j.state));
    assert FreeStep(j, p) == (j, one);
    assert FreeStep(j, one) == (j, one.(pc := ReadFlags, report := one.report.(code := j.exitCode)));
  }

  lemma {:induction false} SettledRecordIsPrinted(j: Journal, p: Proc)
    requires p.pc.ReadState? && Terminal(j.state)
    ensures var (k, q) := Steps(j, p, 6); k == j && q.pc == Done && Prints(j, q.report)
  {
    StatusIsRead(j, p);
    OutputIsRead(j, Steps(j, p, 4).1);
    StepsAdd(j, p, 4, 2);
  }

  lemma {:induction false} OutputIsRead(j: Journal, p: Proc)
    requires p.pc.ReadStdout?
    ensures Steps(j, p, 2) == (j, p.(pc := Done, report := p.report.(output := j.output)))
  {
    TwoSteps(j, p);
  }

  /** The guest after an invocation, the output and the end of its script, and its response. */
  function Undisturbed(s: Guest, pid: nat, command: nat, owner: Owner, limits: Limits, text: Streams, exit: Option<int>): Guest {
    var launched := Advances(Next(s, Invoke(pid, command, owner, limits)), pid, 8);
    Advances(Ended(launched, command, text, exit), pid, 13)
  }

  /** The script writes and ends, by itself or by the time limit. */
  function Ended(s: Guest, command: nat, text: Streams, exit: Option<int>): Guest {
    Next(Next(s, ScriptWrites(command, text)), if exit.Some? then ScriptExits(command, exit.value) else ScriptKilled(command))
  }

  /**
   Main result: a new command that nothing disturbs runs, and its response says how its script ended and
   what it wrote, within the limits.
   */
  lemma UndisturbedCommandsAreReported(s: Guest, pid: nat, command: nat, owner: Owner, limits: Limits, text: Streams, exit: Option<int>)
    requires s.procs == map[] && command !in s.journals
    ensures var t := Undisturbed(s, pid, command, owner, limits, text, exit);
            && pid in t.procs && t.procs[pid].pc == Done && JournalOf(t, command).starts == 1
            && RecordsTheEnd(JournalOf(t, command), exit, text) && JournalOf(t, command).limits == limits
            && Prints(JournalOf(t, command), t.procs[pid].report)
  {
    var p := Proc(command, owner, limits, Begin, 0, false, UNKNOWN);
    AloneItSteps(Next(s, Invoke(pid, command, owner, limits)), pid, EMPTY, p, 8);
    NewCommandLaunches(command, owner, limits);
    var launched := Advances(Next(s, Invoke(pid, command, owner, limits)), pid, 8);
    EndsAlone(launched, pid, Steps(EMPTY, p, 8).0, Steps(EMPTY, p, 8).1, text, exit);
  }

  lemma {:induction false} EndsAlone(launched: Guest, pid: nat, j: Journal, p: Proc, text: Streams, exit: Option<int>)
    requires Alone(launched, pid, j, p) && p.pc.Wait? && j.scriptAlive && j.limits == p.limits && !j.truncated && j.starts == 1
    requires j.captured == SILENT && j.innerExit.None?
    ensures var t := Advances(Ended(launched, p.command, text, exit), pid, 13);
            && pid in t.procs && t.procs[pid].pc == Done && JournalOf(t, p.command).starts == 1
            && RecordsTheEnd(JournalOf(t, p.command), exit, text) && JournalOf(t, p.command).limits == j.limits
            && Prints(JournalOf(t, p.command), t.procs[pid].report)
  {
    var captured := Captured(SILENT, text, j.limits);
    var ended := j.(captured := captured, scriptAlive := false, innerExit := exit, ended := captured);
    assert Alone(Ended(launched, p.command, text, exit), pid, ended, p);
    AloneItSteps(Ended(launched, p.command, text, exit), pid, ended, p, 13);
    EndedScriptSettles(ended, p, text);
    var (k, reader) := Steps(ended, p, 7);
    SettledRecordIsPrinted(k, reader);
    StepsAdd(ended, p, 7, 6);
  }

  /** An unsettled record is printed as far as it goes, without output. */
  lemma {:induction false} UnsettledRecordsArePrinted(j: Journal, p: Proc)
    requires p.pc.ReadState? && !Terminal(j.state)
    ensures Steps(j, p, 3) == (j, p.(pc := Done, report := Report(j.state, j.exitCode, j.truncated, j.timedOut, SILENT)))
  {
    TwoSteps(j, p);
    StepsAdd(j, p, 2, 1);
    TwoSteps(Steps(j, p, 2).0, Steps(j, p, 2).1);
  }

  /**
   A settled state is reported only when the lock is free: the workspace for a command that has it alone,
   the command's own for one that only reads. Otherwise, or if the test itself is contended, it is "running".
   */
  lemma SettledStatesWaitForTheLock(s: Guest, pid: nat, contended: bool)
    requires pid in s.procs && s.procs[pid].pc == TestLock
    ensures var p, t := s.procs[pid], Next(s, Advance(pid, contended));
            var held := exists other :: other in s.procs && (if p.owner.shared then s.procs[other].command == p.command && HoldsCommand(s.procs[other].pc)
                                                             else HoldsWorkspace(s.procs[other].pc));
            && pid in t.procs && JournalOf(t, p.command) == JournalOf(s, p.command)
            && t.procs[pid] == if held || contended then p.(pc := Done, report := Report(Some(Running), None, p.report.truncated, false, SILENT))
                               else p.(pc := ReadStdout)
  {
    var p := s.procs[pid];
    var idle := !contended && Idle(s, p);
    PlacedShows(s, pid, JournalOf(s, p.command), StepReading(JournalOf(s, p.command), p, idle));
  }

  /** A reader that sees more than its limit says so at any time after the start. */
  lemma OverflowsAreFlagged(s: Guest, command: nat)
    ensures var j, t := JournalOf(s, command), JournalOf(Next(s, CaptureOverflows(command)), command);
            t == j.(truncated := j.truncated || (j.starts > 0 && (|j.captured.stdout| > j.limits.stdout || |j.captured.stderr| > j.limits.stderr)))
  {
  }

  /** A later look at a settled record prints it to its owner, and tells anyone else nothing. */
  lemma {:induction false} LooksPrintTheRecord(s: Guest, pid: nat, command: nat, owner: Owner)
    requires s.procs == map[] && Terminal(JournalOf(s, command).state)
    ensures var t := Advances(Next(s, Reconcile(pid, command, owner)), pid, 7);
            && pid in t.procs && t.procs[pid].pc == Done && JournalOf(t, command) == JournalOf(s, command)
            && if JournalOf(s, command).metadata == Some(owner) then Prints(JournalOf(s, command), t.procs[pid].report)
               else t.procs[pid].report == UNKNOWN
  {
    var j, p := JournalOf(s, command), Proc(command, owner, Limits(0, 0), ReconcileCheck, 0, false, UNKNOWN);
    AloneItSteps(Next(s, Reconcile(pid, command, owner)), pid, j, p, 7);
    LookStarts(j, p);
    StepsAdd(j, p, 1, 6);
    var q := Steps(j, p, 1).1;
    if j.metadata == Some(owner) { SettledRecordIsPrinted(j, q); } else { DoneStaysDone(j, q, 6); }
  }

  lemma {:induction false} LookStarts(j: Journal, p: Proc)
    requires p.pc.ReconcileCheck?
    ensures Steps(j, p, 1) == (j, if j.metadata == Some(p.owner) then p.(pc := ReadState) else p.(pc := Done, report := UNKNOWN))
  {
    TwoSteps(j, p);
  }

  lemma {:induction false} DoneStaysDone(j: Journal, p: Proc, n: nat)
    requires p.pc == Done
    ensures Steps(j, p, n) == (j, p)
    decreases n
  {
    if n > 0 { DoneStaysDone(j, p, n - 1); }
  }

  /** A repeated invocation of a settled command prints the record too, and starts nothing. */
  lemma {:induction false} RepeatsPrintTheRecord(s: Guest, pid: nat, command: nat, owner: Owner, limits: Limits)
    requires s.procs == map[] && Terminal(JournalOf(s, command).state)
    ensures var t := Advances(Next(s, Invoke(pid, command, owner, limits)), pid, 8);
            && pid in t.procs && t.procs[pid].pc == Done && JournalOf(t, command) == JournalOf(s, command)
            && if JournalOf(s, command).metadata == Some(owner) then Prints(JournalOf(s, command), t.procs[pid].report)
               else t.procs[pid].report == UNKNOWN
  {
    var j, p := JournalOf(s, command), Proc(command, owner, limits, Begin, 0, false, UNKNOWN);
    AloneItSteps(Next(s, Invoke(pid, command, owner, limits)), pid, j, p, 8);
    TwoSteps(j, p);
    StepsAdd(j, p, 2, 6);
    var (k, q) := Steps(j, p, 2);
    if j.metadata == Some(owner) { SettledRecordIsPrinted(k, q); } else { DoneStaysDone(k, q, 6); }
  }

  lemma PlacedFollows(s: Guest, pid: nat, j: Journal, p: Proc, command: nat)
    requires pid in s.procs && Follows(JournalOf(s, p.command), j)
    ensures Follows(JournalOf(s, command), JournalOf(Placed(s, pid, j, p), command))
  {
  }

  lemma AdvanceFollows(s: Guest, pid: nat, contended: bool, command: nat)
    requires Inv(s) && pid in s.procs
    ensures Follows(JournalOf(s, command), JournalOf(Advanced(s, pid, contended), command))
  {
    var p := s.procs[pid];
    var commandFree, workspaceFree := CommandLockFree(s, p.command), WorkspaceLockFree(s, p.owner.shared);
    var idle := !contended && Idle(s, p);
    StepIsLocal(JournalOf(s, p.command), p, commandFree, workspaceFree, idle);
    var r := Step(JournalOf(s, p.command), p, commandFree, workspaceFree, idle);
    PlacedFollows(s, pid, r.0, r.1, command);
  }

  lemma NextFollows(s: Guest, action: Action, command: nat)
    requires Inv(s)
    ensures Follows(JournalOf(s, command), JournalOf(Next(s, action), command))
  {
    if command in s.journals { assert JournalOk(s.journals[command]); }
    if action.Advance? {
      if action.pid in s.procs { AdvanceFollows(s, action.pid, action.contended, command); }
    } else {
      OthersFollow(s, action, command);
    }
  }

  lemma OthersFollow(s: Guest, action: Action, command: nat)
    requires !action.Advance? && JournalOk(JournalOf(s, command))
    ensures Follows(JournalOf(s, command), JournalOf(Next(s, action), command))
  {
  }

  /** A settled record never changes again, and a started script stays started. */
  lemma {:induction false} SettledRecordsAreFinal(schedule: seq<Action>, more: seq<Action>, command: nat)
    ensures Follows(JournalOf(Execute(schedule), command), JournalOf(Execute(schedule + more), command))
  {
    if more == [] {
      assert schedule + more == schedule;
    } else {
      var front := schedule + more[..|more| - 1];
      assert (schedule + more)[..|schedule + more| - 1] == front;
      SettledRecordsAreFinal(schedule, more[..|more| - 1], command);
      ReachableInv(front);
      NextFollows(Execute(front), more[|more| - 1], command);
    }
  }

  /** Two live wrappers run in one workspace at the same time only if both only read. */
  lemma {:induction false} LiveWrappersExclude(schedule: seq<Action>, a: nat, b: nat)
    ensures var s := Execute(schedule);
            a in s.procs && b in s.procs && a != b && HoldsWorkspace(s.procs[a].pc) && HoldsWorkspace(s.procs[b].pc) ==>
              s.procs[a].owner.shared && s.procs[b].owner.shared
  {
    ReachableInv(schedule);
  }

  // ---- scripts beside each other --------------------------------------------------------

  /** Both commands only read. */
  predicate BothRead(s: Guest, a: nat, b: nat) {
    var one, two := JournalOf(s, a).metadata, JournalOf(s, b).metadata;
    one.Some? && one.value.shared && two.Some? && two.value.shared
  }

  /** Two scripts run in the workspace at once, and not both of them only read. */
  predicate Overlap(s: Guest, a: nat, b: nat) {
    a != b && JournalOf(s, a).scriptAlive && JournalOf(s, b).scriptAlive && !BothRead(s, a, b)
  }

  lemma HeldScriptsExclude(s: Guest, a: nat, b: nat)
    requires Inv(s) && a != b && JournalOf(s, a).scriptAlive && JournalOf(s, b).scriptAlive
    ensures a in s.orphans || b in s.orphans || BothRead(s, a, b)
  {
    if a !in s.orphans && b !in s.orphans {
      var p :| Waits(s, p, a);
      var q :| Waits(s, q, b);
      assert ProcOk(JournalOf(s, a), s.procs[p]) && ProcOk(JournalOf(s, b), s.procs[q]);
      assert HoldsWorkspace(s.procs[p].pc) && HoldsWorkspace(s.procs[q].pc);
    }
  }

  /** On every schedule: two scripts that do not both only read overlap only if the wrapper of one of them died. */
  lemma {:induction false} OnlyOrphansOverlap(schedule: seq<Action>, a: nat, b: nat)
    ensures var s := Execute(schedule); Overlap(s, a, b) ==> a in s.orphans || b in s.orphans
  {
    ReachableInv(schedule);
    if Overlap(Execute(schedule), a, b) { HeldScriptsExclude(Execute(schedule), a, b); }
  }

  /** A wrapper is about to launch `a` beside the running script of `b`, whose wrapper died. */
  predicate LaunchesBeside(s: Guest, action: Action, a: nat, b: nat) {
    && action.Advance? && action.pid in s.procs && s.procs[action.pid].command == a && s.procs[action.pid].pc.Launch?
    && a != b && JournalOf(s, b).scriptAlive && b in s.orphans && !BothRead(s, a, b)
  }

  /** Only a launch brings a script to life. */
  lemma AliveByLaunch(s: Guest, action: Action, c: nat)
    requires Inv(s) && !JournalOf(s, c).scriptAlive
    ensures JournalOf(Next(s, action), c).scriptAlive <==>
              action.Advance? && action.pid in s.procs && s.procs[action.pid].command == c && s.procs[action.pid].pc.Launch?
  {
    if action.Advance? && action.pid in s.procs { AdvanceIsLocal(s, action.pid, action.contended); }
  }

  lemma AdvanceIsLocal(s: Guest, pid: nat, contended: bool)
    requires pid in s.procs
    ensures var p, t := s.procs[pid], Advanced(s, pid, contended);
            && StartsOnlyAtLaunch(JournalOf(s, p.command), p, JournalOf(t, p.command))
            && (forall c :: c != p.command ==> JournalOf(t, c) == JournalOf(s, c))
  {
    var p := s.procs[pid];
    var commandFree, workspaceFree, idle := CommandLockFree(s, p.command), WorkspaceLockFree(s, p.owner.shared), !contended && Idle(s, p);
    StepStartsOnlyAtLaunch(JournalOf(s, p.command), p, commandFree, workspaceFree, idle);
    var r := Step(JournalOf(s, p.command), p, commandFree, workspaceFree, idle);
    PlacedShows(s, pid, r.0, r.1);
  }

  lemma PlacedShows(s: Guest, pid: nat, j: Journal, p: Proc)
    ensures JournalOf(Placed(s, pid, j, p), p.command) == j
    ensures forall c :: c != p.command ==> JournalOf(Placed(s, pid, j, p), c) == JournalOf(s, c)
  {
  }

  /** A launch brings the script to life under its owner, and no other step does. */
  predicate StartsOnlyAtLaunch(j: Journal, p: Proc, next: Journal) {
    if p.pc.Launch? then next.scriptAlive && next.metadata == j.metadata else next.scriptAlive == j.scriptAlive
  }

  lemma StepStartsOnlyAtLaunch(j: Journal, p: Proc, commandFree: bool, workspaceFree: bool, idle: bool)
    ensures StartsOnlyAtLaunch(j, p, Step(j, p, commandFree, workspaceFree, idle).0)
    ensures Step(j, p, commandFree, workspaceFree, idle).1.command == p.command
  {
  }

  /** An orphan cannot be excluded: while it runs, a wrapper at the launch has a neighbour without one. */
  lemma LaunchMeetsOrphans(s: Guest, pid: nat, b: nat)
    requires Inv(s) && pid in s.procs && s.procs[pid].pc.Launch? && s.procs[pid].command != b
    requires JournalOf(s, b).scriptAlive
    ensures b in s.orphans || BothRead(s, s.procs[pid].command, b)
  {
    if b !in s.orphans {
      var q :| Waits(s, q, b);
      assert ProcOk(JournalOf(s, b), s.procs[q]) && ProcOk(JournalOf(s, s.procs[pid].command), s.procs[pid]);
      assert HoldsWorkspace(s.procs[q].pc) && HoldsWorkspace(s.procs[pid].pc);
    }
  }

  /** What is alive keeps its owner. */
  lemma AliveKeepsOwner(s: Guest, action: Action, c: nat)
    requires Inv(s) && JournalOf(s, c).scriptAlive
    ensures JournalOf(Next(s, action), c).metadata == JournalOf(s, c).metadata
  {
    assert c in s.journals && JournalOk(s.journals[c]);
    NextFollows(s, action, c);
  }

  lemma LaunchOverlaps(s: Guest, action: Action, a: nat, b: nat)
    requires Inv(s) && a != b && !JournalOf(s, a).scriptAlive && JournalOf(s, b).scriptAlive
    ensures Overlap(Next(s, action), a, b) <==> LaunchesBeside(s, action, a, b)
  {
    AliveByLaunch(s, action, a);
    AliveKeepsOwner(s, action, b);
    if JournalOf(Next(s, action), a).scriptAlive {
      AdvanceIsLocal(s, action.pid, action.contended);
      LaunchMeetsOrphans(s, action.pid, b);
    }
  }

  /**
   A step makes two scripts overlap exactly when it launches one of them while the other one is running
   without its wrapper.
   */
  lemma OverlapBeginsExactlyThere(s: Guest, action: Action, a: nat, b: nat)
    requires Inv(s) && !Overlap(s, a, b)
    ensures Overlap(Next(s, action), a, b) <==> LaunchesBeside(s, action, a, b) || LaunchesBeside(s, action, b, a)
  {
    if a != b {
      LaunchedIsDead(s, action, a, b);
      LaunchedIsDead(s, action, b, a);
      if JournalOf(s, a).scriptAlive && JournalOf(s, b).scriptAlive {
        AliveKeepsOwner(s, action, a);
        AliveKeepsOwner(s, action, b);
      } else if JournalOf(s, b).scriptAlive {
        LaunchOverlaps(s, action, a, b);
      } else if JournalOf(s, a).scriptAlive {
        LaunchOverlaps(s, action, b, a);
      } else {
        AliveByLaunch(s, action, a);
        AliveByLaunch(s, action, b);
      }
    }
  }

  lemma LaunchedIsDead(s: Guest, action: Action, a: nat, b: nat)
    requires Inv(s)
    ensures LaunchesBeside(s, action, a, b) ==> !JournalOf(s, a).scriptAlive && JournalOf(s, b).scriptAlive
  {
    if LaunchesBeside(s, action, a, b) {
      assert ProcOk(JournalOf(s, a), s.procs[action.pid]);
      if a in s.journals { assert JournalOk(s.journals[a]); }
    }
  }

  lemma {:induction false} Extend(schedule: seq<Action>, action: Action)
    ensures Execute(schedule + [action]) == Next(Execute(schedule), action)
  {
    assert (schedule + [action])[..|schedule|] == schedule;
  }

  lemma {:induction false} AdvancesOn(schedule: seq<Action>, pid: nat, n: nat) returns (after: seq<Action>)
    ensures Execute(after) == Advances(Execute(schedule), pid, n)
    decreases n
  {
    after := schedule;
    if n > 0 {
      Extend(schedule, Advance(pid, false));
      after := AdvancesOn(schedule + [Advance(pid, false)], pid, n - 1);
    }
  }

  /** Left alone, the invocation of a new command launches its script. */
  lemma LaunchesAlone(schedule: seq<Action>, pid: nat, command: nat, owner: Owner) returns (after: seq<Action>)
    requires Execute(schedule).procs == map[] && command !in Execute(schedule).journals
    ensures var s, t := Execute(schedule), Execute(after);
            && JournalOf(t, command).scriptAlive && JournalOf(t, command).metadata == Some(owner)
            && pid in t.procs && Waits(t, pid, command) && t.procs.Keys == {pid}
            && ElsewhereTheSame(s, t, command)
  {
    var limits := Limits(1, 1);
    Extend(schedule, Invoke(pid, command, owner, limits));
    after := AdvancesOn(schedule + [Invoke(pid, command, owner, limits)], pid, 8);
    AloneItSteps(Execute(schedule + [Invoke(pid, command, owner, limits)]), pid, EMPTY, Proc(command, owner, limits, Begin, 0, false, UNKNOWN), 8);
    NewCommandLaunches(command, owner, limits);
  }

  /**
   The exclusion is one of wrappers, not of scripts: a script outlives its wrapper, whose death
   releases the workspace, and the next exclusive command starts beside it.
   */
  lemma ScriptsOverlapAfterAWrapperDies(one: Owner, two: Owner)
    requires !one.shared || !two.shared
    ensures exists schedule: seq<Action> :: Overlap(Execute(schedule), 0, 1)
  {
    var first := LaunchesAlone([], 0, 0, one);
    Extend(first, Crash(0));
    var crashed := first + [Crash(0)];
    assert Execute(crashed).procs == map[];
    var second := LaunchesAlone(crashed, 1, 1, two);
    assert Overlap(Execute(second), 0, 1);
  }
}
