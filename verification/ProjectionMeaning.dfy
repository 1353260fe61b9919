/**
 What each event of the log means for the projection that a reader sees: which
 part of which run it changes and what that part shows afterwards, said about the
 projections before and after it; and what a whole log makes of a tool call and of
 streamed text.
 */
module ProjectionMeaning {
  import opened Wrappers
  import opened ThreadProjection

  /** The event is the next one and the projection takes it. */
  predicate Takes(p: Projection, e: Event) {
    e.sequence == p.cursor + 1 && Apply(p, e).Ok?
  }

  function After(p: Projection, e: Event): Projection
    requires Takes(p, e)
  {
    Apply(p, e).value
  }

  /** Nothing but the cursor and this run is different. */
  ghost predicate OnlyRunChanges(p: Projection, q: Projection, r: nat) {
    && q == p.(cursor := p.cursor + 1, runs := q.runs)
    && (forall k :: k != r ==> RunOf(q, k) == RunOf(p, k))
    && RunOf(q, r).id == r
  }

  lemma {:induction false} FoundRun(runs: seq<Run>, id: nat, i: nat)
    requires i < |runs| && runs[i].id == id && forall j :: 0 <= j < i ==> runs[j].id != id
    ensures FindRun(runs, id) == i
  {
    if i > 0 { FoundRun(runs[1..], id, i - 1); }
  }

  lemma {:induction false} NoRun(runs: seq<Run>, id: nat)
    requires forall j :: 0 <= j < |runs| ==> runs[j].id != id
    ensures FindRun(runs, id) == |runs|
  {
    if runs != [] { NoRun(runs[1..], id); }
  }

  /** An event changes the run it names and no other. */
  lemma EventsChangeTheirRun(p: Projection, e: Event)
    requires Takes(p, e) && NamesRun(e.payload)
    ensures RunStep(RunOf(p, e.payload.run), e) == Ok(RunOf(After(p, e), e.payload.run))
    ensures OnlyRunChanges(p, After(p, e), e.payload.run)
  {
    var r, q := e.payload.run, After(p, e);
    var i := FindRun(p.runs, r);
    RunStepKeepsId(RunOf(p, r), e);
    FoundRun(q.runs, r, i);
    forall k | k != r ensures RunOf(q, k) == RunOf(p, k) {
      var j := FindRun(p.runs, k);
      if j < |p.runs| { FoundRun(q.runs, k, j); } else { NoRun(q.runs, k); }
    }
  }

  // ---- tool calls ------------------------------------------------------------------------

  /** The place of a call's part: the first one with its attempt and call, or the end. */
  predicate ToolStands(parts: seq<Part>, attempt: nat, call: nat, i: nat) {
    && i <= |parts|
    && (i < |parts| ==> parts[i].Tool? && parts[i].attempt == attempt && parts[i].call == call)
    && (forall j :: 0 <= j < i ==> !(parts[j].Tool? && parts[j].attempt == attempt && parts[j].call == call))
  }

  /** Exactly this part was replaced or added. */
  predicate Shows(before: seq<Part>, after: seq<Part>, i: nat, part: Part) {
    i <= |before| && after == if i < |before| then before[i := part] else before + [part]
  }

  /** The part as it was, or a blank one. */
  function Previous(parts: seq<Part>, i: nat, attempt: nat, call: nat, name: nat): Part {
    if i < |parts| then parts[i] else Tool(attempt, call, name, Running, Live("", "", false), 0, 0, None, None)
  }

  /** A call that starts has a running part; one that is already there stays as it is. */
  lemma StartedCallsAreShown(p: Projection, e: Event, i: nat)
    requires Takes(p, e) && e.payload.ToolStarted?
    requires ToolStands(RunOf(p, e.payload.run).parts, e.payload.attempt, e.payload.call, i)
    ensures var m, run, after := e.payload, RunOf(p, e.payload.run), RunOf(After(p, e), e.payload.run);
            && OnlyRunChanges(p, After(p, e), m.run) && after == run.(attempt := Some(m.attempt), parts := after.parts)
            && Shows(run.parts, after.parts, i, Previous(run.parts, i, m.attempt, m.call, m.name))
  {
    EventsChangeTheirRun(p, e);
    FoundTool(RunOf(p, e.payload.run).parts, e.payload.attempt, e.payload.call, i);
  }

  lemma {:induction false} FoundTool(parts: seq<Part>, attempt: nat, call: nat, i: nat)
    requires ToolStands(parts, attempt, call, i)
    ensures FindTool(parts, attempt, call) == i
  {
    if i > 0 {
      forall j | 0 <= j < i - 1 ensures parts[1..][j] == parts[j + 1] {
      }
      FoundTool(parts[1..], attempt, call, i - 1);
    }
  }

  /**
   A completed call shows failed exactly when the event says so, the event's output and diagnostic or
   else the earlier ones, and no live preview any more.
   */
  lemma CompletedCallsAreShown(p: Projection, e: Event, i: nat)
    requires Takes(p, e) && e.payload.ToolCompleted?
    requires ToolStands(RunOf(p, e.payload.run).parts, e.payload.attempt, e.payload.call, i)
    ensures var m, run, after := e.payload, RunOf(p, e.payload.run), RunOf(After(p, e), e.payload.run);
            var prior := Previous(run.parts, i, m.attempt, m.call, m.call);
            && OnlyRunChanges(p, After(p, e), m.run) && after == run.(attempt := Some(m.attempt), parts := after.parts)
            && Shows(run.parts, after.parts, i,
                     Tool(m.attempt, m.call, if m.toolName.Some? then m.toolName.value else prior.name,
                          if m.failed then Failed else Completed, Live("", "", m.truncated), prior.outOffset, prior.errOffset,
                          if m.output.Some? then m.output else prior.finalOutput,
                          if m.diagnostic.Some? then m.diagnostic else prior.diagnostic))
  {
    EventsChangeTheirRun(p, e);
    FoundTool(RunOf(p, e.payload.run).parts, e.payload.attempt, e.payload.call, i);
  }

  /** A reported output: a partial one never replaces the final one, a diagnostic is that of the event. */
  lemma OutputsAreShown(p: Projection, e: Event, i: nat)
    requires Takes(p, e) && e.payload.ToolOutput?
    requires ToolStands(RunOf(p, e.payload.run).parts, e.payload.attempt, e.payload.call, i)
    ensures var m, run, after := e.payload, RunOf(p, e.payload.run), RunOf(After(p, e), e.payload.run);
            var prior := Previous(run.parts, i, m.attempt, m.call, m.call);
            && OnlyRunChanges(p, After(p, e), m.run) && after == run.(parts := after.parts)
            && Shows(run.parts, after.parts, i,
                     prior.(finalOutput := if !m.partial && m.output.Some? then m.output else prior.finalOutput,
                          diagnostic := m.diagnostic,
                          live := Live(prior.live.stdout, prior.live.stderr, prior.live.truncated || m.truncated)))
  {
    EventsChangeTheirRun(p, e);
    FoundTool(RunOf(p, e.payload.run).parts, e.payload.attempt, e.payload.call, i);
  }

  function Preview(part: Part, stream: Channel): string
    requires part.Tool?
  {
    if stream == Stdout then part.live.stdout else part.live.stderr
  }

  function ShownTo(part: Part, stream: Channel): nat
    requires part.Tool?
  {
    if stream == Stdout then part.outOffset else part.errOffset
  }

  function Opposite(stream: Channel): Channel {
    if stream == Stdout then Stderr else Stdout
  }

  /** A range that continues its stream is appended and the preview cut to its end; the other stream stays. */
  predicate Continues(prior: Part, after: Part, stream: Channel, text: string, end: nat)
    requires prior.Tool?
  {
    && after.Tool? && after == prior.(live := after.live, outOffset := after.outOffset, errOffset := after.errOffset)
    && ShownTo(after, stream) == end && ShownTo(after, Opposite(stream)) == ShownTo(prior, Opposite(stream))
    && Preview(after, Opposite(stream)) == Preview(prior, Opposite(stream))
    && var all := Preview(prior, stream) + text;
       && Preview(after, stream) == (if |all| <= 64000 then all else all[|all| - 64000..])
       && (after.live.truncated <==> prior.live.truncated || |all| > 64000)
  }

  lemma {:induction false} RangesContinue(prior: Part, stream: Channel, text: string, offset: nat, next: Option<nat>)
    requires prior.Tool? && offset == ShownTo(prior, stream) && (next.Some? ==> offset <= next.value)
    ensures var after := AppendLive(prior, stream, text, offset, next);
            after.Ok? && Continues(prior, after.value, stream, text, if next.Some? then next.value else offset + Utf8.Utf8Length(text))
  {
  }

  /** A live range that continues its stream is shown; one that repeats is ignored, one that skips leaves a mark. */
  lemma LiveRangesAreShown(p: Projection, e: Event, i: nat)
    requires Takes(p, e) && e.payload.LiveOutput?
    requires ToolStands(RunOf(p, e.payload.run).parts, e.payload.attempt, e.payload.call, i)
    ensures var m, run, after := e.payload, RunOf(p, e.payload.run), RunOf(After(p, e), e.payload.run);
            var prior := Previous(run.parts, i, m.attempt, m.call, m.call);
            && OnlyRunChanges(p, After(p, e), m.run) && after == run.(parts := after.parts)
            && i < |after.parts| && Shows(run.parts, after.parts, i, after.parts[i])
            && if m.offset < ShownTo(prior, m.channel) then after.parts[i] == prior
               else if m.offset > ShownTo(prior, m.channel)
               then after.parts[i] == prior.(live := prior.live.(truncated := true), diagnostic := Some(GAP_DIAGNOSTIC))
               else Continues(prior, after.parts[i], m.channel, m.text,
                              if m.next.Some? then m.next.value else m.offset + Utf8.Utf8Length(m.text))
  {
    var m, run := e.payload, RunOf(p, e.payload.run);
    EventsChangeTheirRun(p, e);
    FoundTool(run.parts, m.attempt, m.call, i);
    var prior := Previous(run.parts, i, m.attempt, m.call, m.call);
    if m.offset == ShownTo(prior, m.channel) {
      EventsAreRefused(p, e);
      RangesContinue(prior, m.channel, m.text, m.offset, m.next);
    }
  }

  /** Only a next event that ends before it begins, or a delta without text, is malformed. */
  lemma EventsAreRefused(p: Projection, e: Event)
    requires e.sequence == p.cursor + 1
    ensures Apply(p, e) == Err(DeltaWithoutText) <==> e.payload.TextDelta? && e.payload.delta.None?
    ensures e.payload.LiveOutput? ==>
              var run := RunOf(p, e.payload.run);
              var i := FindTool(run.parts, e.payload.attempt, e.payload.call);
              var prior := Previous(run.parts, i, e.payload.attempt, e.payload.call, e.payload.call);
              Apply(p, e) == Err(InvalidByteRange) <==>
                e.payload.offset == (if e.payload.channel == Stdout then prior.outOffset else prior.errOffset)
                && e.payload.next.Some? && e.payload.next.value < e.payload.offset
    ensures !e.payload.LiveOutput? && !(e.payload.TextDelta? && e.payload.delta.None?) ==> Apply(p, e).Ok?
  {
  }

  // ---- text ------------------------------------------------------------------------------

  /** The place of a message's part. */
  predicate TextStands(parts: seq<Part>, id: Identity, i: nat) {
    && i <= |parts| && (i < |parts| ==> parts[i].Text? && parts[i].id == id)
    && (forall j :: 0 <= j < i ==> !(parts[j].Text? && parts[j].id == id))
  }

  function PreviousText(parts: seq<Part>, i: nat, id: Identity): Part {
    if i < |parts| then parts[i] else Text(id, "", None, Streaming, false)
  }

  lemma {:induction false} FoundText(parts: seq<Part>, id: Identity, i: nat)
    requires TextStands(parts, id, i)
    ensures FindText(parts, id) == i
  {
    if i > 0 {
      forall j | 0 <= j < i - 1 ensures parts[1..][j] == parts[j + 1] {
      }
      FoundText(parts[1..], id, i - 1);
    }
  }

  /** A delta is appended to its message's text, which streams. */
  lemma DeltasAreShown(p: Projection, e: Event, i: nat)
    requires Takes(p, e) && e.payload.TextDelta? && TextStands(RunOf(p, e.payload.run).parts, e.payload.id, i)
    ensures e.payload.delta.Some?
    ensures var m, run, after := e.payload, RunOf(p, e.payload.run), RunOf(After(p, e), e.payload.run);
            var prior := PreviousText(run.parts, i, m.id);
            && prior.Text? && OnlyRunChanges(p, After(p, e), m.run) && after == run.(attempt := Some(m.id.attempt), parts := after.parts)
            && Shows(run.parts, after.parts, i, Text(m.id, prior.text + m.delta.value, prior.reasoning, Streaming, prior.truncated))
  {
    EventsChangeTheirRun(p, e);
    FoundText(RunOf(p, e.payload.run).parts, e.payload.id, i);
  }

  /** A reasoning delta is appended to its message's reasoning, and the text stays. */
  lemma ReasoningIsShown(p: Projection, e: Event, i: nat)
    requires Takes(p, e) && e.payload.ReasoningDelta? && TextStands(RunOf(p, e.payload.run).parts, e.payload.id, i)
    ensures var m, run, after := e.payload, RunOf(p, e.payload.run), RunOf(After(p, e), e.payload.run);
            var prior := PreviousText(run.parts, i, m.id);
            && prior.Text? && OnlyRunChanges(p, After(p, e), m.run) && after == run.(attempt := Some(m.id.attempt), parts := after.parts)
            && Shows(run.parts, after.parts, i,
                     Text(m.id, prior.text, Some((if prior.reasoning.Some? then prior.reasoning.value else "") + m.reasoningDelta),
                          prior.state, prior.truncated))
  {
    EventsChangeTheirRun(p, e);
    FoundText(RunOf(p, e.payload.run).parts, e.payload.id, i);
  }

  /**
   A completed message decides what its part shows: its own text and reasoning, or what had been streamed
   if the copy in the event was cut and is only the beginning of that.
   */
  lemma MessagesAreShown(p: Projection, e: Event, i: nat)
    requires Takes(p, e) && e.payload.AssistantMessage? && TextStands(RunOf(p, e.payload.run).parts, e.payload.id, i)
    ensures var m, run, after := e.payload, RunOf(p, e.payload.run), RunOf(After(p, e), e.payload.run);
            var prior := PreviousText(run.parts, i, m.id);
            var reasoned := if m.reasoning.Some? then m.reasoning.value else "";
            && prior.Text? && OnlyRunChanges(p, After(p, e), m.run) && after == run.(attempt := Some(m.id.attempt), parts := after.parts)
            && Shows(run.parts, after.parts, i,
                     Text(m.id, if m.contentTruncated && m.content <= prior.text then prior.text else m.content,
                          if m.reasoningTruncated && prior.reasoning.Some? && reasoned <= prior.reasoning.value then prior.reasoning
                          else if m.reasoning.Some? then m.reasoning else prior.reasoning,
                          if m.stoppedEarly then Partial else Final, m.contentTruncated))
  {
    EventsChangeTheirRun(p, e);
    FoundText(RunOf(p, e.payload.run).parts, e.payload.id, i);
  }

  /** What a new attempt or turn leaves of the earlier ones: notes, final texts and finished calls, in their order. */
  predicate Lasts(part: Part) {
    match part
    case Note(_) => true
    case Text(_, _, _, state, _) => state == Final
    case Tool(_, _, _, tool, _, _, _, _, _) => tool == Completed || tool == Failed
  }

  function Lasting(parts: seq<Part>): seq<Part> {
    if parts == [] then []
    else Lasting(parts[..|parts| - 1]) + (if Lasts(parts[|parts| - 1]) then [parts[|parts| - 1]] else [])
  }

  lemma {:induction false} KeptAreLasting(parts: seq<Part>)
    ensures KeepSettled(parts) == Lasting(parts)
  {
    if parts != [] {
      var init, last := parts[..|parts| - 1], parts[|parts| - 1];
      KeptAreLasting(init);
      KeepLast(init, last);
      assert parts == init + [last];
    }
  }

  lemma {:induction false} KeepLast(parts: seq<Part>, last: Part)
    ensures KeepSettled(parts + [last]) == KeepSettled(parts) + (if Lasts(last) then [last] else [])
  {
    if parts == [] {
      assert [last][1..] == [];
      assert [] + [last] == [last];
    } else {
      assert (parts + [last])[1..] == parts[1..] + [last];
      KeepLast(parts[1..], last);
    }
  }

  /** The message belongs to another attempt than the run shows, or to another turn than one that is not final. */
  predicate StartsOver(run: Run, id: Identity) {
    || (run.attempt.Some? && run.attempt != Some(id.attempt))
    || exists j :: 0 <= j < |run.parts| && run.parts[j].Text? && (run.parts[j].state == Streaming || run.parts[j].state == Partial)
                   && run.parts[j].id.turn != id.turn
  }

  /** A message that starts streams, after what it replaces is gone. */
  lemma StartedMessagesAreShown(p: Projection, e: Event, i: nat)
    requires Takes(p, e) && e.payload.AssistantStarted?
    requires var run := RunOf(p, e.payload.run);
             TextStands(if StartsOver(run, e.payload.id) then Lasting(run.parts) else run.parts, e.payload.id, i)
    ensures var m, run, after := e.payload, RunOf(p, e.payload.run), RunOf(After(p, e), e.payload.run);
            var kept := if StartsOver(run, m.id) then Lasting(run.parts) else run.parts;
            var prior := PreviousText(kept, i, m.id);
            && prior.Text? && OnlyRunChanges(p, After(p, e), m.run) && after == run.(attempt := Some(m.id.attempt), parts := after.parts)
            && Shows(kept, after.parts, i, Text(m.id, prior.text, prior.reasoning, Streaming, prior.truncated))
  {
    EventsChangeTheirRun(p, e);
    KeptAreLasting(RunOf(p, e.payload.run).parts);
    var run := RunOf(p, e.payload.run);
    FoundText(if StartsOver(run, e.payload.id) then Lasting(run.parts) else run.parts, e.payload.id, i);
  }

  // ---- runs, notes and the workspace -----------------------------------------------------

  /** A status event decides the run's status; one that ends it badly ends what was streaming. */
  lemma RunChangesAreShown(p: Projection, e: Event)
    requires Takes(p, e) && e.payload.RunChanged?
    ensures var m, run, after := e.payload, RunOf(p, e.payload.run), RunOf(After(p, e), e.payload.run);
            && OnlyRunChanges(p, After(p, e), m.run)
            && after.status == (if m.status.Some? then m.status else run.status)
            && after.statusSequence == (if m.status.Some? then e.sequence else run.statusSequence)
            && after.error == (if m.error.Some? then m.error else run.error) && after.attempt == run.attempt
            && |after.parts| == |run.parts|
            && forall j :: 0 <= j < |run.parts| ==>
                 after.parts[j] == if (m.status == Some(Broken) || m.status == Some(Cancelled))
                                      && run.parts[j].Text? && run.parts[j].state == Streaming
                                   then Text(run.parts[j].id, run.parts[j].text, run.parts[j].reasoning, Partial, run.parts[j].truncated)
                                   else run.parts[j]
  {
    EventsChangeTheirRun(p, e);
  }

  /** Steers, compactions and markers are noted at the end of their run. */
  lemma NotesAreShown(p: Projection, e: Event)
    requires Takes(p, e) && (e.payload.Steered? || e.payload.Compacted? || e.payload.Marked?)
    ensures var m, run, after := e.payload, RunOf(p, e.payload.run), RunOf(After(p, e), e.payload.run);
            && OnlyRunChanges(p, After(p, e), m.run)
            && after == run.(parts := run.parts + [Note(if m.Steered? then m.message else if m.Compacted? then m.entry else e.sequence)])
  {
    EventsChangeTheirRun(p, e);
  }

  /** Events that name no run change the title, the workspace or the count of unsupported events, and nothing else. */
  lemma OtherEventsAreShown(p: Projection, e: Event)
    requires Takes(p, e) && !NamesRun(e.payload)
    ensures var m, q := e.payload, After(p, e);
            && q == p.(cursor := e.sequence, title := q.title, titleVersion := q.titleVersion, workspace := q.workspace,
                       workspaceSequence := q.workspaceSequence, unsupported := q.unsupported)
            && q.title == (if m.TitleUpdated? then Some(m.title) else p.title)
            && q.titleVersion == (if m.TitleUpdated? then e.sequence else p.titleVersion)
            && q.workspaceSequence == (if m.WorkspaceReset? || m.WorkspaceChanged? then e.sequence else p.workspaceSequence)
            && q.workspace == (if m.WorkspaceReset? then Some(Workspace("recovery", Some(m.newGeneration)))
                               else if m.WorkspaceChanged?
                               then Some(Workspace(m.state, if m.generation.Some? then m.generation
                                                            else if p.workspace.Some? then p.workspace.value.generation else None))
                               else p.workspace)
            && q.unsupported == (if m.Unsupported? && p.unsupported < 8 then p.unsupported + 1 else p.unsupported)
  {
  }

  // ---- what a log makes of a call --------------------------------------------------------

  /** The last completion of a call in the log, if there is one: did it fail? */
  function LastCompletion(log: seq<Event>, run: nat, attempt: nat, call: nat): Option<bool> {
    if log == [] then None
    else Completion(LastCompletion(log[..|log| - 1], run, attempt, call), log[|log| - 1].payload, run, attempt, call)
  }

  /** The call shows running as long as it has no completion, and then what the last one says. */
  predicate CallShows(parts: seq<Part>, attempt: nat, call: nat, completion: Option<bool>) {
    && (forall j :: 0 <= j < |parts| && parts[j].Tool? && parts[j].attempt == attempt && parts[j].call == call ==>
          parts[j].tool == match completion case None => Running case Some(failed) => if failed then Failed else Completed)
    && (completion.Some? ==> exists j :: 0 <= j < |parts| && IsCall(parts[j], attempt, call))
  }

  predicate IsCall(part: Part, attempt: nat, call: nat) {
    part.Tool? && part.attempt == attempt && part.call == call
  }

  lemma {:induction false} LastingHas(parts: seq<Part>)
    ensures forall part :: part in Lasting(parts) <==> part in parts && Lasts(part)
  {
    if parts != [] {
      LastingHas(parts[..|parts| - 1]);
      assert parts == parts[..|parts| - 1] + [parts[|parts| - 1]];
    }
  }

  /** The completion that an event brings about, if any. */
  function Completion(before: Option<bool>, m: Payload, run: nat, attempt: nat, call: nat): Option<bool> {
    if m.ToolCompleted? && m.run == run && m.attempt == attempt && m.call == call then Some(m.failed) else before
  }

  lemma {:induction false} KeepingShowsTheCall(parts: seq<Part>, attempt: nat, call: nat, completion: Option<bool>)
    requires CallShows(parts, attempt, call, completion)
    ensures CallShows(KeepSettled(parts), attempt, call, completion)
  {
    var kept := KeepSettled(parts);
    KeptAreLasting(parts);
    LastingHas(parts);
    forall j | 0 <= j < |kept| && IsCall(kept[j], attempt, call)
      ensures kept[j].tool == match completion case None => Running case Some(failed) => if failed then Failed else Completed
    {
      assert kept[j] in parts;
    }
    if completion.Some? {
      var j :| 0 <= j < |parts| && IsCall(parts[j], attempt, call);
      assert parts[j] in kept;
    }
  }

  lemma UpsertShowsTheCall(parts: seq<Part>, blank: ToolPart, m: Payload, attempt: nat, call: nat, completion: Option<bool>)
    requires CallShows(parts, attempt, call, completion) && Keyed(parts) && blank.tool == Running
    requires UpsertTool(parts, blank, m).Ok? && (m.ToolCompleted? ==> blank.attempt == m.attempt && blank.call == m.call)
    ensures CallShows(UpsertTool(parts, blank, m).value, attempt, call,
                      if m.ToolCompleted? then Completion(completion, m, m.run, attempt, call) else completion)
  {
    var after := UpsertTool(parts, blank, m).value;
    var i := FindTool(parts, blank.attempt, blank.call);
    assert i < |after| && IsCall(after[i], blank.attempt, blank.call);
    if completion.Some? {
      var j :| 0 <= j < |parts| && IsCall(parts[j], attempt, call);
      assert IsCall(after[j], attempt, call);
    }
  }

  lemma TextShowsTheCall(parts: seq<Part>, id: Identity, m: Payload, attempt: nat, call: nat, completion: Option<bool>)
    requires CallShows(parts, attempt, call, completion) && (m.TextDelta? ==> m.delta.Some?)
    ensures CallShows(UpsertText(parts, id, m), attempt, call, completion)
  {
    var after := UpsertText(parts, id, m);
    if completion.Some? {
      var j :| 0 <= j < |parts| && IsCall(parts[j], attempt, call);
      assert IsCall(after[j], attempt, call);
    }
  }

  lemma RunStepShowsTheCall(run: Run, e: Event, attempt: nat, call: nat, completion: Option<bool>)
    requires CallShows(run.parts, attempt, call, completion) && Keyed(run.parts) && RunStep(run, e).Ok? && NamesRun(e.payload)
    ensures CallShows(RunStep(run, e).value.parts, attempt, call, Completion(completion, e.payload, e.payload.run, attempt, call))
  {
    match e.payload
    case AssistantStarted(_, id) =>
      KeepingShowsTheCall(run.parts, attempt, call, completion);
      TextShowsTheCall(if Replaces(run, id) then KeepSettled(run.parts) else run.parts, id, e.payload, attempt, call, completion);
    case TextDelta(_, id, _, _) => TextShowsTheCall(run.parts, id, e.payload, attempt, call, completion);
    case ReasoningDelta(_, id, _, _) => TextShowsTheCall(run.parts, id, e.payload, attempt, call, completion);
    case AssistantMessage(_, id, _, _, _, _, _) => TextShowsTheCall(run.parts, id, e.payload, attempt, call, completion);
    case ToolStarted(_, a, c, name) => UpsertShowsTheCall(run.parts, FreshTool(a, c, name), e.payload, attempt, call, completion);
    case LiveOutput(_, a, c, _, _, _, _) => UpsertShowsTheCall(run.parts, FreshTool(a, c, c), e.payload, attempt, call, completion);
    case ToolOutput(_, a, c, _, _, _, _) => UpsertShowsTheCall(run.parts, FreshTool(a, c, c), e.payload, attempt, call, completion);
    case ToolCompleted(_, a, c, name, _, _, _, _) =>
      UpsertShowsTheCall(run.parts, FreshTool(a, c, if name.Some? then name.value else c), e.payload, attempt, call, completion);
    case _ => OtherPartsShowTheCall(run, e, attempt, call, completion);
  }

  lemma OtherPartsShowTheCall(run: Run, e: Event, attempt: nat, call: nat, completion: Option<bool>)
    requires CallShows(run.parts, attempt, call, completion) && RunStep(run, e).Ok?
    requires e.payload.RunChanged? || e.payload.Steered? || e.payload.Compacted? || e.payload.Marked?
    ensures CallShows(RunStep(run, e).value.parts, attempt, call, completion)
  {
    var after := RunStep(run, e).value.parts;
    if completion.Some? {
      var j :| 0 <= j < |run.parts| && IsCall(run.parts[j], attempt, call);
      assert IsCall(after[j], attempt, call);
    }
  }

  /** Main result: in the projection of a log, the last completion of a call decides the state that its part shows. */
  lemma {:induction false} LastCompletionDecides(log: seq<Event>, run: nat, attempt: nat, call: nat)
    requires Numbered(log) && ApplyAll(Empty(), log).Ok?
    ensures CallShows(RunOf(ApplyAll(Empty(), log).value, run).parts, attempt, call, LastCompletion(log, run, attempt, call))
  {
    if log != [] {
      var init, e := log[..|log| - 1], log[|log| - 1];
      LastCompletionDecides(init, run, attempt, call);
      EveryProjectionIsWellKeyed(init);
      var p := ApplyAll(Empty(), init).value;
      CursorCounts(init);
      if NamesRun(e.payload) {
        EventsChangeTheirRun(p, e);
        if e.payload.run == run { RunStepShowsTheCall(RunOf(p, run), e, attempt, call, LastCompletion(init, run, attempt, call)); }
      } else {
        OtherEventsAreShown(p, e);
      }
    }
  }

  lemma {:induction false} CursorCounts(log: seq<Event>)
    requires Numbered(log) && ApplyAll(Empty(), log).Ok?
    ensures ApplyAll(Empty(), log).value.cursor == |log|
  {
    if log != [] {
      CursorCounts(log[..|log| - 1]);
      ApplyMovesCursor(ApplyAll(Empty(), log[..|log| - 1]).value, log[|log| - 1]);
    }
  }

  // ---- what a log makes of streamed text -------------------------------------------------

  function Joined(deltas: seq<string>): string {
    if deltas == [] then "" else Joined(deltas[..|deltas| - 1]) + deltas[|deltas| - 1]
  }

  /** The next events are these deltas of one message. */
  predicate Streams(events: seq<Event>, from: nat, run: nat, id: Identity, deltas: seq<string>) {
    |events| == |deltas|
    && forall k :: 0 <= k < |events| ==>
         events[k].sequence == from + 1 + k && events[k].payload.TextDelta? && events[k].payload.run == run
         && events[k].payload.id == id && events[k].payload.delta == Some(deltas[k])
  }

  /** The parts after these deltas of one message. */
  predicate Streamed(before: seq<Part>, after: seq<Part>, i: nat, id: Identity, deltas: seq<string>)
    requires TextStands(before, id, i)
  {
    var prior := PreviousText(before, i, id);
    if deltas == [] then after == before
    else Shows(before, after, i, Text(id, prior.text + Joined(deltas), prior.reasoning, Streaming, prior.truncated))
  }

  lemma OneMoreDelta(before: seq<Part>, q: Projection, e: Event, run: nat, id: Identity, i: nat, deltas: seq<string>, last: string)
    requires TextStands(before, id, i) && Streamed(before, RunOf(q, run).parts, i, id, deltas)
    requires e.sequence == q.cursor + 1 && e.payload.TextDelta? && e.payload.run == run && e.payload.id == id && e.payload.delta == Some(last)
    ensures Takes(q, e) && Streamed(before, RunOf(After(q, e), run).parts, i, id, deltas + [last])
  {
    EventsAreRefused(q, e);
    DeltasAreShown(q, e, i);
    JoinedMore(PreviousText(before, i, id).text, deltas, last);
  }

  lemma {:induction false} JoinedMore(text: string, deltas: seq<string>, last: string)
    ensures text + Joined(deltas + [last]) == (text + Joined(deltas)) + last
    ensures deltas == [] ==> text + Joined(deltas + [last]) == text + last
  {
    assert (deltas + [last])[..|deltas|] == deltas;
  }

  /** A reader sees streamed text as the deltas joined, behind what was there before. */
  lemma {:induction false} StreamedTextIsTheDeltas(p: Projection, events: seq<Event>, run: nat, id: Identity, deltas: seq<string>, i: nat)
    requires Streams(events, p.cursor, run, id, deltas) && TextStands(RunOf(p, run).parts, id, i)
    ensures var q := ApplyAll(p, events);
            q.Ok? && q.value.cursor == p.cursor + |events| && Streamed(RunOf(p, run).parts, RunOf(q.value, run).parts, i, id, deltas)
  {
    if events != [] {
      var init, e := events[..|events| - 1], events[|events| - 1];
      var front, last := deltas[..|deltas| - 1], deltas[|deltas| - 1];
      StreamedTextIsTheDeltas(p, init, run, id, front, i);
      OneMoreDelta(RunOf(p, run).parts, ApplyAll(p, init).value, e, run, id, i, front, last);
      assert deltas == front + [last];
    }
  }
}
