/**
 The browser's replay projection: a copy-on-write reducer over committed thread
 events, and its reconciliation with snapshots read separately. `ApplyAll` from
 `Empty()` over the whole log is the reference; the lemmas say that batches with
 duplicates, overlaps and gaps never lead anywhere else, and that a reconciled
 snapshot shows the facts of the later of the two cursors.
 */
module ThreadProjection {
  import opened Wrappers
  import Utf8 = Text

  datatype Identity = Identity(attempt: nat, turn: nat, message: nat)

  datatype TextState = Streaming | Partial | Final

  datatype ToolState = Running | Completed | Failed

  datatype Channel = Stdout | Stderr

  datatype Live = Live(stdout: string, stderr: string, truncated: bool)

  datatype Part =
    | Text(id: Identity, text: string, reasoning: Option<string>, state: TextState, truncated: bool)
    | Tool(attempt: nat, call: nat, name: nat, tool: ToolState, live: Live, outOffset: nat, errOffset: nat,
           finalOutput: Option<string>, diagnostic: Option<string>)
    | Note(key: nat)

  datatype Status = Queued | Active | Succeeded | Broken | Cancelled

  datatype Run = Run(id: nat, status: Option<Status>, statusSequence: nat, error: Option<string>,
                     attempt: Option<nat>, parts: seq<Part>)

  datatype Workspace = Workspace(state: string, generation: Option<nat>)

  datatype Projection = Projection(cursor: nat, title: Option<string>, titleVersion: nat, runs: seq<Run>,
                                   workspace: Option<Workspace>, workspaceSequence: nat, unsupported: nat)

  datatype Payload =
    | TitleUpdated(title: string)
    | Steered(run: nat, message: nat)
    | Compacted(run: nat, entry: nat)
    | AssistantStarted(run: nat, id: Identity)
    | TextDelta(run: nat, id: Identity, deltaIndex: nat, delta: Option<string>)
    | ReasoningDelta(run: nat, id: Identity, deltaIndex: nat, reasoningDelta: string)
    | AssistantMessage(run: nat, id: Identity, content: string, contentTruncated: bool,
                       reasoning: Option<string>, reasoningTruncated: bool, stoppedEarly: bool)
    | ToolStarted(run: nat, attempt: nat, call: nat, name: nat)
    | LiveOutput(run: nat, attempt: nat, call: nat, channel: Channel, text: string, offset: nat, next: Option<nat>)
    | ToolOutput(run: nat, attempt: nat, call: nat, output: Option<string>, partial: bool,
                 diagnostic: Option<string>, truncated: bool)
    | ToolCompleted(run: nat, attempt: nat, call: nat, toolName: Option<nat>, failed: bool,
                    output: Option<string>, diagnostic: Option<string>, truncated: bool)
    | RunChanged(run: nat, status: Option<Status>, error: Option<string>)
    | Marked(run: nat)
    | WorkspaceReset(newGeneration: nat)
    | WorkspaceChanged(state: string, generation: Option<nat>)
    | Ignored
    | Unsupported

  datatype Event = Event(sequence: nat, payload: Payload)

  datatype Fault = EventGap | DeltaWithoutText | InvalidByteRange

  const MAX_LIVE_TEXT := 64000
  const MAX_UNSUPPORTED_MARKERS := 8
  const GAP_DIAGNOSTIC := "Live output has a gap; final output will replace it."

  function Empty(): Projection {
    Projection(0, None, 0, [], None, 0, 0)
  }

  // ---- parts of one run --------------------------------------------------

  function Or<T>(value: Option<T>, fallback: Option<T>): Option<T> {
    if value.Some? then value else fallback
  }

  /** The index of the text part with this identity, or the number of parts. */
  function FindText(parts: seq<Part>, id: Identity): (i: nat)
    ensures i <= |parts|
    ensures i < |parts| ==> parts[i].Text? && parts[i].id == id
    ensures forall j :: 0 <= j < i && parts[j].Text? ==> parts[j].id != id
  {
    if parts == [] || (parts[0].Text? && parts[0].id == id) then 0 else 1 + FindText(parts[1..], id)
  }

  function FindTool(parts: seq<Part>, attempt: nat, call: nat): (i: nat)
    ensures i <= |parts|
    ensures i < |parts| ==> parts[i].Tool? && parts[i].call == call && parts[i].attempt == attempt
    ensures forall j :: 0 <= j < i && parts[j].Tool? ==> parts[j].call != call || parts[j].attempt != attempt
  {
    if parts == [] || (parts[0].Tool? && parts[0].call == call && parts[0].attempt == attempt) then 0
    else 1 + FindTool(parts[1..], attempt, call)
  }

  type TextPart = p: Part | p.Text? witness Text(Identity(0, 0, 0), "", None, Streaming, false)

  type ToolPart = p: Part | p.Tool? witness Tool(0, 0, 0, Running, Live("", "", false), 0, 0, None, None)

  function FreshText(id: Identity): TextPart {
    Text(id, "", None, Streaming, false)
  }

  function FreshTool(attempt: nat, call: nat, name: nat): ToolPart {
    Tool(attempt, call, name, Running, Live("", "", false), 0, 0, None, None)
  }

  /** What an assistant event makes of the text part with its identity. */
  function ChangedText(part: TextPart, payload: Payload): (r: TextPart)
    requires payload.TextDelta? ==> payload.delta.Some?
    ensures r.id == part.id
  {
    match payload
    case AssistantStarted(_, _) => part.(state := Streaming)
    case TextDelta(_, _, _, delta) => part.(text := part.text + delta.value, state := Streaming)
    case ReasoningDelta(_, _, _, delta) =>
      part.(reasoning := Some((if part.reasoning.Some? then part.reasoning.value else "") + delta))
    case AssistantMessage(_, _, content, contentTruncated, reasoning, reasoningTruncated, stoppedEarly) =>
      part.(text := if contentTruncated && content <= part.text then part.text else content,
            reasoning := if reasoningTruncated && part.reasoning.Some?
                            && (if reasoning.Some? then reasoning.value else "") <= part.reasoning.value
                         then part.reasoning else Or(reasoning, part.reasoning),
            state := if stoppedEarly then Partial else Final,
            truncated := contentTruncated)
    case _ => part
  }

  function UpsertText(parts: seq<Part>, id: Identity, payload: Payload): seq<Part>
    requires payload.TextDelta? ==> payload.delta.Some?
  {
    var i := FindText(parts, id);
    if i < |parts| then parts[i := ChangedText(parts[i], payload)] else parts + [ChangedText(FreshText(id), payload)]
  }

  function AppendLive(part: ToolPart, channel: Channel, text: string, offset: nat, next: Option<nat>): Result<ToolPart, Fault> {
    var cursor := if channel == Stdout then part.outOffset else part.errOffset;
    if offset < cursor then Ok(part)
    else if offset > cursor then
      Ok(part.(live := part.live.(truncated := true), diagnostic := Some(GAP_DIAGNOSTIC)))
    else if next.Some? && next.value < offset then Err(InvalidByteRange)
    else
      var combined := (if channel == Stdout then part.live.stdout else part.live.stderr) + text;
      var bounded := |combined| > MAX_LIVE_TEXT;
      var shown := if bounded then combined[|combined| - MAX_LIVE_TEXT..] else combined;
      var end := if next.Some? then next.value else offset + Utf8.Utf8Length(text);
      var live := part.live.(truncated := part.live.truncated || bounded);
      Ok(if channel == Stdout then part.(live := live.(stdout := shown), outOffset := end)
         else part.(live := live.(stderr := shown), errOffset := end))
  }

  /** What a tool event makes of the tool part with its identity. */
  function ChangedTool(part: ToolPart, payload: Payload): Result<ToolPart, Fault> {
    match payload
    case LiveOutput(_, _, _, channel, text, offset, next) => AppendLive(part, channel, text, offset, next)
    case ToolOutput(_, _, _, output, partial, diagnostic, truncated) =>
      Ok(part.(finalOutput := if partial then part.finalOutput else Or(output, part.finalOutput),
               diagnostic := diagnostic,
               live := part.live.(truncated := part.live.truncated || truncated)))
    case ToolCompleted(_, _, _, name, failed, output, diagnostic, truncated) =>
      Ok(part.(name := if name.Some? then name.value else part.name,
               tool := if failed then Failed else Completed,
               finalOutput := Or(output, part.finalOutput),
               diagnostic := Or(diagnostic, part.diagnostic),
               live := Live("", "", truncated)))
    case _ => Ok(part)
  }

  function UpsertTool(parts: seq<Part>, blank: ToolPart, payload: Payload): Result<seq<Part>, Fault> {
    var i := FindTool(parts, blank.attempt, blank.call);
    var changed := ChangedTool(if i < |parts| then parts[i] else blank, payload);
    if changed.Err? then Err(changed.error)
    else Ok(if i < |parts| then parts[i := changed.value] else parts + [changed.value])
  }

  /** What survives when a new attempt or turn replaces what an earlier one left unfinished. */
  predicate Settled(part: Part) {
    part.Note? || (part.Text? && part.state == Final) || (part.Tool? && part.tool != Running)
  }

  function KeepSettled(parts: seq<Part>): seq<Part> {
    if parts == [] then []
    else (if Settled(parts[0]) then [parts[0]] else []) + KeepSettled(parts[1..])
  }

  predicate Replaces(run: Run, id: Identity) {
    || (run.attempt.Some? && run.attempt.value != id.attempt)
    || exists i :: 0 <= i < |run.parts| && run.parts[i].Text? && run.parts[i].state != Final
                   && run.parts[i].id.turn != id.turn
  }

  function EndStreams(parts: seq<Part>): (r: seq<Part>)
    ensures |r| == |parts|
    ensures forall i :: 0 <= i < |parts| ==>
              r[i] == if parts[i].Text? && parts[i].state == Streaming then parts[i].(state := Partial) else parts[i]
  {
    if parts == [] then []
    else [if parts[0].Text? && parts[0].state == Streaming then parts[0].(state := Partial) else parts[0]]
         + EndStreams(parts[1..])
  }

  /** The event's effect on the run it names. */
  function RunStep(run: Run, event: Event): Result<Run, Fault> {
    match event.payload
    case AssistantStarted(_, id) =>
      var kept := if Replaces(run, id) then KeepSettled(run.parts) else run.parts;
      Ok(run.(attempt := Some(id.attempt), parts := UpsertText(kept, id, event.payload)))
    case TextDelta(_, id, _, delta) =>
      if delta.None? then Err(DeltaWithoutText)
      else Ok(run.(attempt := Some(id.attempt), parts := UpsertText(run.parts, id, event.payload)))
    case ReasoningDelta(_, id, _, _) =>
      Ok(run.(attempt := Some(id.attempt), parts := UpsertText(run.parts, id, event.payload)))
    case AssistantMessage(_, id, _, _, _, _, _) =>
      Ok(run.(attempt := Some(id.attempt), parts := UpsertText(run.parts, id, event.payload)))
    case ToolStarted(_, attempt, call, name) =>
      var parts := UpsertTool(run.parts, FreshTool(attempt, call, name), event.payload);
      if parts.Err? then Err(parts.error) else Ok(run.(attempt := Some(attempt), parts := parts.value))
    case LiveOutput(_, attempt, call, _, _, _, _) =>
      var parts := UpsertTool(run.parts, FreshTool(attempt, call, call), event.payload);
      if parts.Err? then Err(parts.error) else Ok(run.(parts := parts.value))
    case ToolOutput(_, attempt, call, _, _, _, _) =>
      var parts := UpsertTool(run.parts, FreshTool(attempt, call, call), event.payload);
      if parts.Err? then Err(parts.error) else Ok(run.(parts := parts.value))
    case ToolCompleted(_, attempt, call, name, _, _, _, _) =>
      var blank := FreshTool(attempt, call, if name.Some? then name.value else call);
      var parts := UpsertTool(run.parts, blank, event.payload);
      if parts.Err? then Err(parts.error) else Ok(run.(attempt := Some(attempt), parts := parts.value))
    case RunChanged(_, status, error) =>
      Ok(run.(status := Or(status, run.status),
              statusSequence := if status.Some? then event.sequence else run.statusSequence,
              parts := if status == Some(Broken) || status == Some(Cancelled) then EndStreams(run.parts) else run.parts,
              error := Or(error, run.error)))
    case Steered(_, message) => Ok(run.(parts := run.parts + [Note(message)]))
    case Compacted(_, entry) => Ok(run.(parts := run.parts + [Note(entry)]))
    case Marked(_) => Ok(run.(parts := run.parts + [Note(event.sequence)]))
    case _ => Ok(run)
  }

  // ---- the whole projection ----------------------------------------------

  predicate NamesRun(payload: Payload) {
    !(payload.TitleUpdated? || payload.WorkspaceReset? || payload.WorkspaceChanged? || payload.Ignored?
      || payload.Unsupported?)
  }

  function FindRun(runs: seq<Run>, id: nat): (i: nat)
    ensures i <= |runs|
    ensures i < |runs| ==> runs[i].id == id
    ensures forall j :: 0 <= j < i ==> runs[j].id != id
  {
    if runs == [] || runs[0].id == id then 0 else 1 + FindRun(runs[1..], id)
  }

  function FreshRun(id: nat): Run {
    Run(id, None, 0, None, None, [])
  }

  /** The run as projected so far; one that no event named yet is blank. */
  function RunOf(p: Projection, id: nat): Run {
    var i := FindRun(p.runs, id);
    if i < |p.runs| then p.runs[i] else FreshRun(id)
  }

  function UpdateRun(runs: seq<Run>, event: Event): Result<seq<Run>, Fault>
    requires NamesRun(event.payload)
  {
    var i := FindRun(runs, event.payload.run);
    var next := RunStep(if i < |runs| then runs[i] else FreshRun(event.payload.run), event);
    if next.Err? then Err(next.error)
    else Ok(if i < |runs| then runs[i := next.value] else runs + [next.value])
  }

  /** One committed event: ignored at or before the cursor, refused after a gap. */
  function Apply(p: Projection, event: Event): Result<Projection, Fault> {
    if event.sequence <= p.cursor then Ok(p)
    else if event.sequence != p.cursor + 1 then Err(EventGap)
    else
      var next := p.(cursor := event.sequence);
      if NamesRun(event.payload) then
        var runs := UpdateRun(p.runs, event);
        if runs.Err? then Err(runs.error) else Ok(next.(runs := runs.value))
      else match event.payload
        case TitleUpdated(title) => Ok(next.(title := Some(title), titleVersion := event.sequence))
        case WorkspaceReset(generation) =>
          Ok(next.(workspace := Some(Workspace("recovery", Some(generation))), workspaceSequence := event.sequence))
        case WorkspaceChanged(state, generation) =>
          var known := if p.workspace.Some? then p.workspace.value.generation else None;
          Ok(next.(workspace := Some(Workspace(state, Or(generation, known))), workspaceSequence := event.sequence))
        case Unsupported => Ok(if p.unsupported >= MAX_UNSUPPORTED_MARKERS then next else next.(unsupported := p.unsupported + 1))
        case _ => Ok(next)
  }

  function ApplyAll(p: Projection, events: seq<Event>): Result<Projection, Fault> {
    if events == [] then Ok(p)
    else
      var before := ApplyAll(p, events[..|events| - 1]);
      if before.Err? then before else Apply(before.value, events[|events| - 1])
  }

  /** A committed log: the k-th event, counting from one, has sequence k. */
  predicate Numbered(log: seq<Event>) {
    forall i :: 0 <= i < |log| ==> log[i].sequence == i + 1
  }

  /** `p` is the plain fold of the log up to its cursor. */
  predicate FoldsTo(log: seq<Event>, p: Projection) {
    p.cursor <= |log| && ApplyAll(Empty(), log[..p.cursor]) == Ok(p)
  }

  predicate Drawn(events: seq<Event>, log: seq<Event>) {
    forall i :: 0 <= i < |events| ==> 1 <= events[i].sequence <= |log| && events[i] == log[events[i].sequence - 1]
  }

  lemma ApplyMovesCursor(p: Projection, event: Event)
    requires Apply(p, event).Ok?
    ensures Apply(p, event).value.cursor == if event.sequence <= p.cursor then p.cursor else event.sequence
    ensures if event.sequence <= p.cursor then Apply(p, event).value == p else event.sequence == p.cursor + 1
  {
  }

  lemma {:induction false} ApplyLast(p: Projection, events: seq<Event>, event: Event)
    ensures var before := ApplyAll(p, events);
            ApplyAll(p, events + [event]) == if before.Err? then before else Apply(before.value, event)
  {
    assert (events + [event])[..|events|] == events;
  }

  lemma {:induction false} OneEventAgreesWithTheLog(log: seq<Event>, q: Projection, e: Event)
    requires FoldsTo(log, q) && Numbered(log) && 1 <= e.sequence <= |log| && e == log[e.sequence - 1]
    ensures Apply(q, e).Ok? ==> FoldsTo(log, Apply(q, e).value) && q.cursor <= Apply(q, e).value.cursor
  {
    if Apply(q, e).Ok? {
      ApplyMovesCursor(q, e);
      if e.sequence > q.cursor {
        assert log[..q.cursor + 1] == log[..q.cursor] + [e];
        ApplyLast(Empty(), log[..q.cursor], e);
      }
    }
  }

  /**
   Whatever selection of the log's events arrives, in whatever order and however often, the
   projection either refuses it or is the plain fold of a longer prefix of the log.
   */
  lemma {:induction false} EveryBatchAgreesWithTheLog(log: seq<Event>, p: Projection, events: seq<Event>)
    requires FoldsTo(log, p) && Drawn(events, log) && Numbered(log)
    ensures var q := ApplyAll(p, events); q.Ok? ==> FoldsTo(log, q.value) && p.cursor <= q.value.cursor
  {
    if events != [] {
      var init := events[..|events| - 1];
      EveryBatchAgreesWithTheLog(log, p, init);
      var before, e := ApplyAll(p, init), events[|events| - 1];
      assert events == init + [e];
      ApplyLast(p, init, e);
      if before.Ok? { OneEventAgreesWithTheLog(log, before.value, e); }
    }
  }

  lemma {:induction false} StaleEventAfter(p: Projection, events: seq<Event>, e: Event)
    requires ApplyAll(p, events) == Ok(p) && e.sequence <= p.cursor
    ensures ApplyAll(p, events + [e]) == Ok(p)
  {
    ApplyLast(p, events, e);
  }

  lemma {:induction false} FoldsStayEqual(p: Projection, events: seq<Event>, q: Projection, others: seq<Event>, e: Event)
    requires ApplyAll(p, events) == ApplyAll(q, others)
    ensures ApplyAll(p, events + [e]) == ApplyAll(q, others + [e])
  {
    ApplyLast(p, events, e);
    ApplyLast(q, others, e);
  }

  /** A contiguous slice that starts at or before the cursor is never a gap: it extends the fold to its end. */
  lemma {:induction false} SliceExtendsTheFold(log: seq<Event>, p: Projection, from: nat, end: nat)
    requires FoldsTo(log, p) && Numbered(log) && from <= p.cursor && from <= end <= |log|
    ensures ApplyAll(p, log[from..end]) == (if end <= p.cursor then Ok(p) else ApplyAll(Empty(), log[..end]))
    decreases end
  {
    if from < end {
      SliceExtendsTheFold(log, p, from, end - 1);
      assert log[from..end] == log[from..end - 1] + [log[end - 1]];
      assert log[..end] == log[..end - 1] + [log[end - 1]];
      if end <= p.cursor {
        StaleEventAfter(p, log[from..end - 1], log[end - 1]);
      } else {
        FoldsStayEqual(p, log[from..end - 1], Empty(), log[..end - 1], log[end - 1]);
      }
    }
  }

  // ---- identities stay unique ------------------------------------------------

  predicate SameKey(a: Part, b: Part) {
    || (a.Text? && b.Text? && a.id == b.id)
    || (a.Tool? && b.Tool? && a.attempt == b.attempt && a.call == b.call)
  }

  /** No two text parts share a message identity and no two tool parts a call. */
  predicate Keyed(parts: seq<Part>) {
    forall i, j :: 0 <= i < j < |parts| ==> !SameKey(parts[i], parts[j])
  }

  predicate WellKeyed(runs: seq<Run>) {
    && (forall i, j :: 0 <= i < j < |runs| ==> runs[i].id != runs[j].id)
    && (forall i :: 0 <= i < |runs| ==> Keyed(runs[i].parts))
  }

  lemma {:induction false} KeepSettledSelects(parts: seq<Part>)
    ensures forall p :: p in KeepSettled(parts) ==> p in parts && Settled(p)
    ensures Keyed(parts) ==> Keyed(KeepSettled(parts))
  {
    if parts != [] {
      KeepSettledSelects(parts[1..]);
      var rest := KeepSettled(parts[1..]);
      assert KeepSettled(parts) == if Settled(parts[0]) then [parts[0]] + rest else rest;
      if Keyed(parts) {
        forall j | 0 <= j < |rest| ensures !SameKey(parts[0], rest[j]) {
          assert rest[j] in parts[1..];
        }
      }
    }
  }

  lemma UpsertsKeepKeys(parts: seq<Part>, id: Identity, blank: ToolPart, payload: Payload)
    requires Keyed(parts) && (payload.TextDelta? ==> payload.delta.Some?)
    ensures Keyed(UpsertText(parts, id, payload))
    ensures UpsertTool(parts, blank, payload).Ok? ==> Keyed(UpsertTool(parts, blank, payload).value)
  {
  }

  lemma RunStepKeepsKeys(run: Run, event: Event)
    requires Keyed(run.parts) && RunStep(run, event).Ok?
    ensures Keyed(RunStep(run, event).value.parts)
  {
    var blank, id := FreshTool(0, 0, 0), Identity(0, 0, 0);
    match event.payload
    case AssistantStarted(_, named) =>
      KeepSettledSelects(run.parts);
      UpsertsKeepKeys(if Replaces(run, named) then KeepSettled(run.parts) else run.parts, named, blank, event.payload);
    case TextDelta(_, named, _, _) => UpsertsKeepKeys(run.parts, named, blank, event.payload);
    case ReasoningDelta(_, named, _, _) => UpsertsKeepKeys(run.parts, named, blank, event.payload);
    case AssistantMessage(_, named, _, _, _, _, _) => UpsertsKeepKeys(run.parts, named, blank, event.payload);
    case ToolStarted(_, attempt, call, name) =>
      UpsertsKeepKeys(run.parts, id, FreshTool(attempt, call, name), event.payload);
    case LiveOutput(_, attempt, call, _, _, _, _) =>
      UpsertsKeepKeys(run.parts, id, FreshTool(attempt, call, call), event.payload);
    case ToolOutput(_, attempt, call, _, _, _, _) =>
      UpsertsKeepKeys(run.parts, id, FreshTool(attempt, call, call), event.payload);
    case ToolCompleted(_, attempt, call, name, _, _, _, _) =>
      UpsertsKeepKeys(run.parts, id, FreshTool(attempt, call, if name.Some? then name.value else call), event.payload);
    case _ =>
  }

  /** In every projection of every log, run ids, message identities and tool calls are each unique. */
  lemma {:induction false} EveryProjectionIsWellKeyed(log: seq<Event>)
    requires ApplyAll(Empty(), log).Ok?
    ensures WellKeyed(ApplyAll(Empty(), log).value.runs)
  {
    if log != [] {
      EveryProjectionIsWellKeyed(log[..|log| - 1]);
      var p, e := ApplyAll(Empty(), log[..|log| - 1]).value, log[|log| - 1];
      if NamesRun(e.payload) && e.sequence == p.cursor + 1 {
        RunStepKeepsKeys(RunOf(p, e.payload.run), e);
        RunStepKeepsId(RunOf(p, e.payload.run), e);
      }
    }
  }

  lemma RunStepKeepsId(run: Run, event: Event)
    requires RunStep(run, event).Ok?
    ensures RunStep(run, event).value.id == run.id
  {
  }

  /**
   The completed message is authoritative for its boundary: afterwards the part shows its content,
   or, if that copy was cut, at least everything it had streamed before; and it is no longer streaming.
   */
  lemma MessageIsAuthoritative(run: Run, event: Event)
    requires event.payload.AssistantMessage?
    ensures var m := event.payload;
            var parts := RunStep(run, event).value.parts;
            var i := FindText(parts, m.id);
            && i < |parts| && parts[i].state == (if m.stoppedEarly then Partial else Final)
            && (if m.contentTruncated then m.content <= parts[i].text else parts[i].text == m.content)
            && (FindText(run.parts, m.id) < |run.parts| ==> i == FindText(run.parts, m.id))
  {
    var m := event.payload;
    var parts := RunStep(run, event).value.parts;
    var i := FindText(run.parts, m.id);
    FindTextIs(parts, m.id, i);
  }

  lemma {:induction false} FindTextIs(parts: seq<Part>, id: Identity, i: nat)
    requires i < |parts| && parts[i].Text? && parts[i].id == id
    requires forall j :: 0 <= j < i && parts[j].Text? ==> parts[j].id != id
    ensures FindText(parts, id) == i
  {
    if i > 0 { FindTextIs(parts[1..], id, i - 1); }
  }
}
