/**
 The delta coalescer of a session subscription. Providers stream a few
 characters at a time; consecutive pieces of one kind for one message are
 written as a single event. `Direct` is the reference that writes one event per
 piece; a reader of the coalesced events projects the same run.
 */
module DeltaCoalescer {
  import opened Wrappers
  import opened ThreadProjection

  datatype SessionEvent =
    | AgentStart
    | MessageStart
    | TextPiece(text: string)
    | ThinkingPiece(contentIndex: nat, text: string)
    | MessageEnd(content: string, contentTruncated: bool, reasoning: Option<string>, reasoningTruncated: bool,
                 stoppedEarly: bool)
    | ToolStart(call: nat, name: nat)
    | ToolUpdate(call: nat, output: string, truncated: bool)
    | ToolEnd(call: nat, name: nat, failed: bool, output: string, diagnostic: string, truncated: bool)
    | Quiet

  datatype Source = Source(run: nat, attempt: nat)

  /** Where in the session the next piece belongs. */
  datatype Position = Position(turn: nat, message: nat, block: Option<nat>)

  predicate IsPiece(event: SessionEvent) {
    event.TextPiece? || event.ThinkingPiece?
  }

  function Moved(p: Position, event: SessionEvent): Position {
    match event
    case AgentStart => p.(turn := p.turn + 1, message := 0)
    case MessageStart => p.(message := p.message + 1, block := None)
    case ThinkingPiece(block, _) => p.(block := Some(block))
    case _ => p
  }

  /** A thinking block that differs from the one streamed before starts a new paragraph. */
  function Separated(p: Position, block: nat, text: string): string {
    (if p.block.Some? && p.block.value != block then "\n\n" else "") + text
  }

  /** What the subscription writes: a delta of one message, or another event. */
  datatype Written =
    | Delta(reasoning: bool, turn: nat, message: nat, text: string, index: nat)
    | Other(payload: Payload)

  function AsPayload(source: Source, e: Written): Payload {
    match e
    case Other(payload) => payload
    case Delta(reasoning, turn, message, text, index) =>
      var id := Identity(source.attempt, turn, message);
      if reasoning then ReasoningDelta(source.run, id, index, text) else TextDelta(source.run, id, index, Some(text))
  }

  /** The event one session event is worth by itself; a piece carries the given delta index. */
  function Worth(source: Source, p: Position, event: SessionEvent, index: nat): seq<Written> {
    var message := if p.message == 0 then 1 else p.message;
    var id := Identity(source.attempt, p.turn, message);
    match event
    case MessageStart => [Other(AssistantStarted(source.run, Identity(source.attempt, p.turn, p.message + 1)))]
    case TextPiece(text) => [Delta(false, p.turn, message, text, index)]
    case ThinkingPiece(block, text) => [Delta(true, p.turn, message, Separated(p, block, text), index)]
    case MessageEnd(content, cut, reasoning, reasoningCut, stoppedEarly) =>
      [Other(AssistantMessage(source.run, id, content, cut, reasoning, reasoningCut, stoppedEarly))]
    case ToolStart(call, name) => [Other(ToolStarted(source.run, source.attempt, call, name))]
    case ToolUpdate(call, output, truncated) =>
      [Other(ToolOutput(source.run, source.attempt, call, Some(output), true, Some(output), truncated))]
    case ToolEnd(call, name, failed, output, diagnostic, truncated) =>
      [Other(ToolCompleted(source.run, source.attempt, call, Some(name), failed, Some(output), Some(diagnostic), truncated))]
    case _ => []
  }

  const START := Position(0, 0, None)

  function PositionAfter(history: seq<SessionEvent>): Position {
    if history == [] then START else Moved(PositionAfter(history[..|history| - 1]), history[|history| - 1])
  }

  /** The reference: one event per piece, none held back. */
  function Direct(source: Source, history: seq<SessionEvent>): seq<Written> {
    if history == [] then []
    else
      var before := history[..|history| - 1];
      Direct(source, before) + Worth(source, PositionAfter(before), history[|history| - 1], |before|)
  }

  // ---- merging adjacent deltas ------------------------------------------------

  /** Two deltas of one kind for one message. */
  predicate Joins(a: Written, b: Written) {
    a.Delta? && b.Delta? && a.reasoning == b.reasoning && a.turn == b.turn && a.message == b.message
  }

  function Join(a: Written, b: Written): Written
    requires Joins(a, b)
  {
    a.(text := a.text + b.text, index := 0)
  }

  function Unindexed(e: Written): Written {
    if e.Delta? then e.(index := 0) else e
  }

  function Push(merged: seq<Written>, e: Written): seq<Written> {
    if merged != [] && Joins(merged[|merged| - 1], e)
    then merged[..|merged| - 1] + [Join(merged[|merged| - 1], e)]
    else merged + [Unindexed(e)]
  }

  /** Adjacent deltas that belong together become one; nothing else moves. */
  function Merged(events: seq<Written>): seq<Written> {
    if events == [] then [] else Push(Merged(events[..|events| - 1]), events[|events| - 1])
  }

  lemma {:induction false} MergedAppend(events: seq<Written>, e: Written)
    ensures Merged(events + [e]) == Push(Merged(events), e)
  {
    assert (events + [e])[..|events|] == events;
  }

  lemma PushTwice(merged: seq<Written>, a: Written, b: Written)
    requires Joins(a, b)
    ensures Push(Push(merged, a), b) == Push(merged, Join(a, b))
  {
    if merged != [] && Joins(merged[|merged| - 1], a) {
      var last := merged[|merged| - 1];
      assert (last.text + a.text) + b.text == last.text + (a.text + b.text);
      assert Push(merged, a)[..|merged| - 1] == merged[..|merged| - 1];
    } else {
      assert Push(merged, a)[..|merged|] == merged;
    }
  }

  // ---- what a reader projects ---------------------------------------------------

  /** The run after these events; none of them depends on the sequence it gets in the log. */
  function Projected(source: Source, run: Run, events: seq<Written>): Result<Run, Fault> {
    if events == [] then Ok(run)
    else
      var before := Projected(source, run, events[..|events| - 1]);
      if before.Err? then before else Step(source, before.value, events[|events| - 1])
  }

  function Step(source: Source, run: Run, e: Written): Result<Run, Fault> {
    RunStep(run, Event(0, AsPayload(source, e)))
  }

  lemma {:induction false} ProjectedAppend(source: Source, run: Run, events: seq<Written>, e: Written)
    ensures Projected(source, run, events + [e])
         == var before := Projected(source, run, events); if before.Err? then before else Step(source, before.value, e)
  {
    assert (events + [e])[..|events|] == events;
  }

  lemma IndexIsNotProjected(source: Source, run: Run, e: Written)
    ensures Step(source, run, e) == Step(source, run, Unindexed(e))
  {
    if e.Delta? {
      var id := Identity(source.attempt, e.turn, e.message);
      var i := FindText(run.parts, id);
      var part := if i < |run.parts| then run.parts[i] else FreshText(id);
      assert ChangedText(part, AsPayload(source, e)) == ChangedText(part, AsPayload(source, Unindexed(e)));
    }
  }

  /** Two deltas in a row are one delta with both texts. */
  lemma JoinProjectsTheSame(source: Source, run: Run, a: Written, b: Written)
    requires Joins(a, b)
    ensures Step(source, run, a).Ok?
    ensures Step(source, Step(source, run, a).value, b) == Step(source, run, Join(a, b))
  {
    var id := Identity(source.attempt, a.turn, a.message);
    var pa, pb, pab := AsPayload(source, a), AsPayload(source, b), AsPayload(source, Join(a, b));
    var i := FindText(run.parts, id);
    var once := UpsertText(run.parts, id, pa);
    FindTextIs(once, id, i);
    var part: TextPart := if i < |run.parts| then run.parts[i] else FreshText(id);
    var first := ChangedText(part, pa);
    var base := if a.reasoning then (if part.reasoning.Some? then part.reasoning.value else "") else part.text;
    assert (base + a.text) + b.text == base + (a.text + b.text);
    assert ChangedText(first, pb) == ChangedText(part, pab);
    assert once[i := ChangedText(first, pb)] == UpsertText(run.parts, id, pab);
  }

  /** Merging is invisible to the projection. */
  lemma {:induction false} MergedProjectsTheSame(source: Source, run: Run, events: seq<Written>)
    ensures Projected(source, run, Merged(events)) == Projected(source, run, events)
  {
    if events != [] {
      var init, e := events[..|events| - 1], events[|events| - 1];
      MergedProjectsTheSame(source, run, init);
      PushProjects(source, run, Merged(init), e);
    }
  }

  lemma {:induction false} PushProjects(source: Source, run: Run, merged: seq<Written>, e: Written)
    ensures Projected(source, run, Push(merged, e)) == Projected(source, run, merged + [e])
  {
    ProjectedAppend(source, run, merged, e);
    if merged != [] && Joins(merged[|merged| - 1], e) {
      var front, last := merged[..|merged| - 1], merged[|merged| - 1];
      ProjectedAppend(source, run, front, Join(last, e));
      var before := Projected(source, run, front);
      if before.Ok? { JoinProjectsTheSame(source, before.value, last, e); }
    } else {
      ProjectedAppend(source, run, merged, Unindexed(e));
      var before := Projected(source, run, merged);
      if before.Ok? { IndexIsNotProjected(source, before.value, e); }
    }
  }

  // ---- the coalescer --------------------------------------------------------------

  datatype Pending = Pending(reasoning: bool, turn: nat, message: nat, text: string)

  function AsWritten(p: Pending, index: nat): Written {
    Delta(p.reasoning, p.turn, p.message, p.text, index)
  }

  /** Delta indices grow along the events and stay below `next`. */
  predicate Indexed(events: seq<Written>, next: nat) {
    if events == [] then true
    else
      var init, last := events[..|events| - 1], events[|events| - 1];
      if last.Delta? then last.index < next && Indexed(init, last.index) else Indexed(init, next)
  }

  lemma {:induction false} IndexedAppend(events: seq<Written>, next: nat, e: Written, after: nat)
    requires Indexed(events, next) && next <= after && (e.Delta? ==> e.index == next < after)
    ensures Indexed(events + [e], after)
  {
    assert (events + [e])[..|events|] == events;
    IndexedBelow(events, next, after);
  }

  lemma {:induction false} IndexedBelow(events: seq<Written>, next: nat, after: nat)
    requires Indexed(events, next) && next <= after
    ensures Indexed(events, after)
  {
    if events != [] && !events[|events| - 1].Delta? { IndexedBelow(events[..|events| - 1], next, after); }
  }

  /** So no two deltas share an index, and a later one has the larger. */
  lemma {:induction false} IndicesNeverRepeat(events: seq<Written>, next: nat)
    requires Indexed(events, next)
    ensures forall i :: 0 <= i < |events| && events[i].Delta? ==> events[i].index < next
    ensures forall i, j :: 0 <= i < j < |events| && events[i].Delta? && events[j].Delta? ==>
              events[i].index < events[j].index
  {
    if events != [] {
      var last := events[|events| - 1];
      IndicesNeverRepeat(events[..|events| - 1], if last.Delta? then last.index else next);
    }
  }

  /** Adding to what is held is one more piece after what was held. */
  lemma {:induction false} GrownHeld(emitted: seq<Written>, p: Pending, text: string, index: nat)
    ensures Merged(emitted + [AsWritten(p.(text := p.text + text), index)])
         == Push(Merged(emitted + [AsWritten(p, index)]), AsWritten(p.(text := text), 0))
  {
    var held, piece := AsWritten(p, index), AsWritten(p.(text := text), 0);
    var grown := AsWritten(p.(text := p.text + text), index);
    MergedAppend(emitted, held);
    MergedAppend(emitted, grown);
    PushTwice(Merged(emitted), held, piece);
    assert Unindexed(grown) == Join(held, piece);
    PushForgetsTheIndex(Merged(emitted), grown);
  }

  lemma PushForgetsTheIndex(merged: seq<Written>, e: Written)
    ensures Push(merged, e) == Push(merged, Unindexed(e))
  {
  }

  lemma {:induction false} NewlyHeld(emitted: seq<Written>, p: Pending, index: nat)
    ensures Merged(emitted + [AsWritten(p, index)]) == Push(Merged(emitted), AsWritten(p, 0))
  {
    MergedAppend(emitted, AsWritten(p, index));
    PushForgetsTheIndex(Merged(emitted), AsWritten(p, index));
    PushForgetsTheIndex(Merged(emitted), AsWritten(p, 0));
  }

  /** The piece a delta event is worth, without its index. */
  function PieceOf(p: Position, event: SessionEvent): Written
    requires IsPiece(event)
  {
    var message := if p.message == 0 then 1 else p.message;
    if event.TextPiece? then Delta(false, p.turn, message, event.text, 0)
    else Delta(true, p.turn, message, Separated(p, event.contentIndex, event.text), 0)
  }

  /** The merged reference, one session event further. */
  function Grown(source: Source, merged: seq<Written>, p: Position, event: SessionEvent): seq<Written> {
    if IsPiece(event) then Push(merged, PieceOf(p, event)) else merged + Worth(source, p, event, 0)
  }

  function MergedReference(source: Source, history: seq<SessionEvent>): seq<Written> {
    if history == [] then []
    else
      var before := history[..|history| - 1];
      Grown(source, MergedReference(source, before), PositionAfter(before), history[|history| - 1])
  }

  lemma {:induction false} GrownIsMerged(source: Source, direct: seq<Written>, p: Position, event: SessionEvent, index: nat)
    ensures Grown(source, Merged(direct), p, event) == Merged(direct + Worth(source, p, event, index))
  {
    var worth := Worth(source, p, event, index);
    if worth == [] {
      assert direct + worth == direct;
    } else {
      assert worth == [worth[0]];
      MergedAppend(direct, worth[0]);
      PushForgetsTheIndex(Merged(direct), worth[0]);
    }
  }

  lemma {:induction false} MergedReferenceIsMergedDirect(source: Source, history: seq<SessionEvent>)
    ensures MergedReference(source, history) == Merged(Direct(source, history))
  {
    if history != [] {
      var before, event := history[..|history| - 1], history[|history| - 1];
      MergedReferenceIsMergedDirect(source, before);
      GrownIsMerged(source, Direct(source, before), PositionAfter(before), event, |before|);
    }
  }

  class Coalescer {
    const source: Source
    const flushChars: nat
    var pending: Option<Pending>
    var deltaIndex: nat
    var turn: nat
    var message: nat
    var block: Option<nat>
    var emitted: seq<Written>
    ghost var history: seq<SessionEvent>
    ghost var merged: seq<Written>

    /** What is held back, as the event the next flush writes. */
    function Held(): (held: seq<Written>)
      reads `pending, `deltaIndex
      ensures held == [] <==> pending.None?
    {
      if pending.Some? then [AsWritten(pending.value, deltaIndex)] else []
    }

    predicate IndicesGrow()
      reads `emitted, `deltaIndex
    {
      Indexed(emitted, deltaIndex)
    }

    /** Nothing is lost, invented or reordered: emitted and held merge to what the reference merges to. */
    ghost predicate Faithful()
      reads `emitted, `pending, `deltaIndex, `merged
    {
      Merged(emitted + Held()) == merged
    }

    ghost predicate Follows()
      reads `history, `merged, `turn, `message, `block
    {
      merged == MergedReference(source, history) && Position(turn, message, block) == PositionAfter(history)
    }

    ghost predicate Valid()
      reads this
    {
      && IndicesGrow() && Faithful() && Follows()
      && HeldIsShort()
    }

    constructor (source: Source, flushChars: nat)
      ensures Valid() && history == [] && emitted == [] && this.source == source && this.flushChars == flushChars
    {
      this.source, this.flushChars := source, flushChars;
      pending, deltaIndex, turn, message, block := None, 0, 0, 0, None;
      emitted, history, merged := [], [], [];
    }

    method FlushDelta()
      requires IndicesGrow() && Faithful()
      modifies `pending, `deltaIndex, `emitted
      ensures IndicesGrow() && Faithful() && pending.None? && emitted == old(emitted + Held())
    {
      assert Held() == [] ==> emitted + Held() == emitted;
      if pending.None? { return; }
      var index := deltaIndex;
      IndexedAppend(emitted, index, AsWritten(pending.value, index), index + 1);
      deltaIndex := deltaIndex + 1;
      emitted := emitted + [AsWritten(pending.value, index)];
      pending := None;
      assert emitted + Held() == emitted;
    }

    /** The flush timer of the held piece. */
    method TimerFires()
      requires Valid()
      modifies `pending, `deltaIndex, `emitted
      ensures Valid() && Held() == []
    {
      FlushDelta();
    }

    predicate HeldIsShort()
      reads `pending
    {
      pending.Some? ==> |pending.value.text| < flushChars
    }

    method BufferDelta(reasoning: bool, text: string)
      requires IndicesGrow() && Faithful() && HeldIsShort()
      modifies `pending, `deltaIndex, `emitted, `merged
      ensures IndicesGrow() && Faithful() && HeldIsShort()
      ensures merged == Push(old(merged), Delta(reasoning, turn, if message == 0 then 1 else message, text, 0))
    {
      var index := if message == 0 then 1 else message;
      if pending.Some? && (pending.value.reasoning != reasoning || pending.value.turn != turn || pending.value.message != index) {
        FlushDelta();
      }
      Hold(Pending(reasoning, turn, index, text));
      if |pending.value.text| >= flushChars {
        FlushDelta();
      }
    }

    /** Adds a piece to what is held, or holds it. */
    method Hold(piece: Pending)
      requires Faithful() && (pending.Some? ==> pending.value.(text := piece.text) == piece)
      modifies `pending, `merged
      ensures Faithful() && pending.Some? && merged == Push(old(merged), AsWritten(piece, 0))
    {
      if pending.Some? {
        GrownHeld(emitted, pending.value, piece.text, deltaIndex);
        pending := Some(pending.value.(text := pending.value.text + piece.text));
      } else {
        assert emitted + Held() == emitted;
        NewlyHeld(emitted, piece, deltaIndex);
        pending := Some(piece);
      }
      merged := Push(merged, AsWritten(piece, 0));
    }

    /** The session's subscription callback: every event but a piece is ordered after the text before it. */
    method OnEvent(event: SessionEvent)
      requires Valid()
      modifies this
      ensures Valid() && history == old(history) + [event]
      ensures !IsPiece(event) ==> Held() == [] && old(emitted + Held()) <= emitted
    {
      Handle(event);
      history := history + [event];
      assert history[..|history| - 1] == old(history);
    }

    method Handle(event: SessionEvent)
      requires IndicesGrow() && Faithful() && HeldIsShort()
      modifies `pending, `deltaIndex, `emitted, `turn, `message, `block, `merged
      ensures IndicesGrow() && Faithful() && HeldIsShort()
      ensures var p := old(Position(turn, message, block));
              Position(turn, message, block) == Moved(p, event) && merged == Grown(source, old(merged), p, event)
      ensures !IsPiece(event) ==> Held() == [] && old(emitted + Held()) <= emitted
    {
      match event {
        case TextPiece(text) =>
          BufferDelta(false, text);
        case ThinkingPiece(contentIndex, text) =>
          var separator := if block.Some? && block.value != contentIndex then "\n\n" else "";
          block := Some(contentIndex);
          BufferDelta(true, separator + text);
        case _ =>
          FlushDelta();
          Emit(event);
      }
    }

    method QueueEvent(payload: Payload)
      requires IndicesGrow() && Faithful() && pending.None?
      modifies `emitted, `merged
      ensures IndicesGrow() && Faithful() && old(emitted) <= emitted && merged == old(merged) + [Other(payload)]
    {
      IndexedAppend(emitted, deltaIndex, Other(payload), deltaIndex);
      MergedAppend(emitted, Other(payload));
      assert emitted + Held() == emitted;
      emitted := emitted + [Other(payload)];
      assert emitted + Held() == emitted;
      merged := merged + [Other(payload)];
    }

    method Emit(event: SessionEvent)
      requires !IsPiece(event) && IndicesGrow() && Faithful() && pending.None?
      modifies `turn, `message, `block, `emitted, `merged
      ensures IndicesGrow() && Faithful() && old(emitted) <= emitted
      ensures var p := old(Position(turn, message, block));
              Position(turn, message, block) == Moved(p, event) && merged == old(merged) + Worth(source, p, event, 0)
    {
      var id := Identity(source.attempt, turn, if message == 0 then 1 else message);
      match event {
        case AgentStart =>
          turn := turn + 1;
          message := 0;
        case MessageStart =>
          message := message + 1;
          block := None;
          QueueEvent(AssistantStarted(source.run, Identity(source.attempt, turn, message)));
        case MessageEnd(content, cut, reasoning, reasoningCut, early) =>
          QueueEvent(AssistantMessage(source.run, id, content, cut, reasoning, reasoningCut, early));
        case ToolStart(call, name) =>
          QueueEvent(ToolStarted(source.run, source.attempt, call, name));
        case ToolUpdate(call, output, truncated) =>
          QueueEvent(ToolOutput(source.run, source.attempt, call, Some(output), true, Some(output), truncated));
        case ToolEnd(call, name, failed, output, diagnostic, truncated) =>
          QueueEvent(ToolCompleted(source.run, source.attempt, call, Some(name), failed, Some(output), Some(diagnostic),
                                   truncated));
        case _ =>
      }
    }

    /** A reader of the emitted events and the held one projects what one event per piece would project. */
    lemma {:induction false} ReadersSeeTheSameRun(run: Run)
      requires Valid()
      ensures Projected(source, run, emitted + Held()) == Projected(source, run, Direct(source, history))
    {
      MergedReferenceIsMergedDirect(source, history);
      MergedProjectsTheSame(source, run, emitted + Held());
      MergedProjectsTheSame(source, run, Direct(source, history));
    }
  }
}
