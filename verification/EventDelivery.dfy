/**
 From the committed log to the browser's projection: the server renders the
 events after the cursor with heartbeats in between, the network cuts the text
 into chunks and may end anywhere, and the reader reconnects as often as it has
 to. The projection is always the plain fold of a prefix of the log.
 */
module EventDelivery {
  import opened Wrappers
  import opened SseDecoder
  import opened SseStream
  import TP = ThreadProjection

  type Event = TP.Event

  /** An event's type and JSON text, and what the validated text is read as. */
  datatype Codec = Codec(kind: TP.Payload -> string, data: TP.Payload -> string, payload: (string, string) -> TP.Payload)

  ghost predicate Inverse(codec: Codec) {
    forall p: TP.Payload :: codec.payload(codec.kind(p), codec.data(p)) == p
  }

  function Sending(codec: Codec, events: seq<Event>): (r: seq<SseEvent>)
    ensures |r| == |events|
  {
    if events == [] then []
    else [SseEvent(events[0].sequence, codec.kind(events[0].payload), codec.data(events[0].payload))]
         + Sending(codec, events[1..])
  }

  function Receiving(codec: Codec, frames: seq<SseEvent>): (r: seq<Event>)
    ensures |r| == |frames|
  {
    if frames == [] then []
    else [TP.Event(frames[0].sequence, codec.payload(frames[0].kind, frames[0].data))] + Receiving(codec, frames[1..])
  }

  lemma {:induction false} PrefixIsReceived(codec: Codec, events: seq<Event>, frames: seq<SseEvent>)
    requires Inverse(codec) && frames <= Sending(codec, events)
    ensures Receiving(codec, frames) == events[..|frames|]
  {
    if frames != [] {
      assert frames[1..] <= Sending(codec, events)[1..];
      PrefixIsReceived(codec, events[1..], frames[1..]);
    }
  }

  /** The chunks of one connection: some of what the server wrote after the cursor, up to some event. */
  ghost predicate Connection(codec: Codec, log: seq<Event>, cursor: nat, chunks: seq<string>) {
    exists end: nat, items: seq<Item> :: WrittenUpTo(codec, log, cursor, end, items) && Joined(chunks) <= Wire(items)
  }

  ghost predicate WrittenUpTo(codec: Codec, log: seq<Event>, cursor: nat, end: nat, items: seq<Item>) {
    cursor <= end <= |log| && AllSendable(items) && EventsIn(items) == Sending(codec, log[cursor..end])
  }

  /** Main result for one connection: what is read is exactly what comes next in the log. */
  lemma {:induction false} ConnectionDeliversWhatComesNext(number: Numbers, codec: Codec, log: seq<Event>, cursor: nat, chunks: seq<string>)
    requires ReadsDecimals(number) && Inverse(codec) && Connection(codec, log, cursor, chunks)
    ensures var got := Receiving(codec, ReadFrom(number, chunks));
            cursor + |got| <= |log| && got == log[cursor..cursor + |got|]
  {
    var end: nat, items: seq<Item> :| WrittenUpTo(codec, log, cursor, end, items) && Joined(chunks) <= Wire(items);
    WrittenIsDelivered(number, codec, log, cursor, chunks, end, items);
  }

  lemma {:induction false} WrittenIsDelivered(number: Numbers, codec: Codec, log: seq<Event>, cursor: nat, chunks: seq<string>,
                                              end: nat, items: seq<Item>)
    requires ReadsDecimals(number) && Inverse(codec)
    requires WrittenUpTo(codec, log, cursor, end, items) && Joined(chunks) <= Wire(items)
    ensures var got := Receiving(codec, ReadFrom(number, chunks));
            cursor + |got| <= |log| && got == log[cursor..cursor + |got|]
  {
    CutReadsAPrefix(number, items, chunks);
    FramesAreTheNextEvents(codec, log, cursor, end, items, ReadFrom(number, chunks));
  }

  lemma {:induction false} FramesAreTheNextEvents(codec: Codec, log: seq<Event>, cursor: nat, end: nat, items: seq<Item>,
                               frames: seq<SseEvent>)
    requires Inverse(codec) && WrittenUpTo(codec, log, cursor, end, items) && frames <= EventsIn(items)
    ensures cursor + |frames| <= |log| && Receiving(codec, frames) == log[cursor..cursor + |frames|]
  {
    PrefixIsReceived(codec, log[cursor..end], frames);
    SliceOfSlice(log, cursor, end, |frames|);
  }

  lemma {:induction false} CutReadsAPrefix(number: Numbers, items: seq<Item>, chunks: seq<string>)
    requires ReadsDecimals(number) && AllSendable(items) && Joined(chunks) <= Wire(items)
    ensures ReadFrom(number, chunks) <= EventsIn(items)
  {
    var text := Joined(chunks);
    ReadingIsDecoding(number, chunks);
    assert Wire(items)[..|text|] == text;
    CutStreamDecodesToAPrefix(number, items, |text|);
  }

  lemma SliceOfSlice(log: seq<Event>, from: nat, end: nat, k: nat)
    requires from <= end <= |log| && k <= end - from
    ensures log[from..end][..k] == log[from..from + k]
  {
  }

  /** The projection after one connection. */
  function AfterConnection(number: Numbers, codec: Codec, p: TP.Projection, chunks: seq<string>): Result<TP.Projection, TP.Fault> {
    TP.ApplyAll(p, Receiving(codec, ReadFrom(number, chunks)))
  }

  function AfterSession(number: Numbers, codec: Codec, p: TP.Projection, session: seq<seq<string>>): Result<TP.Projection, TP.Fault>
    decreases |session|
  {
    if session == [] then Ok(p)
    else
      var next := AfterConnection(number, codec, p, session[0]);
      if next.Err? then next else AfterSession(number, codec, next.value, session[1..])
  }

  /** Every connection of the session is served from the cursor the projection had reached. */
  ghost predicate Session(number: Numbers, codec: Codec, log: seq<Event>, p: TP.Projection, session: seq<seq<string>>)
    decreases |session|
  {
    session != [] ==>
      && Connection(codec, log, p.cursor, session[0])
      && var next := AfterConnection(number, codec, p, session[0]); next.Ok? ==> Session(number, codec, log, next.value, session[1..])
  }

  lemma {:induction false} OneConnection(number: Numbers, codec: Codec, log: seq<Event>, p: TP.Projection, chunks: seq<string>)
    requires ReadsDecimals(number) && Inverse(codec) && TP.Numbered(log) && TP.FoldsTo(log, p)
    requires Connection(codec, log, p.cursor, chunks)
    ensures var next := AfterConnection(number, codec, p, chunks); next.Ok? ==> TP.FoldsTo(log, next.value)
    ensures TP.ApplyAll(TP.Empty(), log).Ok? ==> AfterConnection(number, codec, p, chunks).Ok?
  {
    ConnectionDeliversWhatComesNext(number, codec, log, p.cursor, chunks);
    var got := Receiving(codec, ReadFrom(number, chunks));
    NextEventsAgree(log, p, got);
    if TP.ApplyAll(TP.Empty(), log).Ok? { NextEventsApply(log, p, p.cursor + |got|); }
  }

  lemma {:induction false} NextEventsAgree(log: seq<Event>, p: TP.Projection, got: seq<Event>)
    requires TP.Numbered(log) && TP.FoldsTo(log, p)
    requires p.cursor + |got| <= |log| && got == log[p.cursor..p.cursor + |got|]
    ensures var next := TP.ApplyAll(p, got); next.Ok? ==> TP.FoldsTo(log, next.value)
  {
    DrawnSlice(log, p.cursor, p.cursor + |got|);
    TP.EveryBatchAgreesWithTheLog(log, p, got);
  }

  lemma {:induction false} NextEventsApply(log: seq<Event>, p: TP.Projection, end: nat)
    requires TP.Numbered(log) && TP.FoldsTo(log, p) && TP.ApplyAll(TP.Empty(), log).Ok? && p.cursor <= end <= |log|
    ensures TP.ApplyAll(p, log[p.cursor..end]).Ok?
  {
    PrefixFolds(log, end);
    TP.SliceExtendsTheFold(log, p, p.cursor, end);
  }

  lemma DrawnSlice(log: seq<Event>, from: nat, end: nat)
    requires TP.Numbered(log) && from <= end <= |log|
    ensures TP.Drawn(log[from..end], log)
  {
  }

  lemma {:induction false} PrefixFolds(log: seq<Event>, end: nat)
    requires end <= |log| && TP.ApplyAll(TP.Empty(), log).Ok?
    ensures TP.ApplyAll(TP.Empty(), log[..end]).Ok?
  {
    if end == |log| {
      assert log[..end] == log;
    } else {
      PrefixFolds(log[..|log| - 1], end);
      assert log[..|log| - 1][..end] == log[..end];
    }
  }

  /** Main result: any number of connections, cut anywhere, leave the plain fold of a prefix of the log. */
  lemma {:induction false} SessionAgreesWithTheLog(number: Numbers, codec: Codec, log: seq<Event>, p: TP.Projection, session: seq<seq<string>>)
    requires ReadsDecimals(number) && Inverse(codec) && TP.Numbered(log) && TP.FoldsTo(log, p)
    requires Session(number, codec, log, p, session)
    ensures var q := AfterSession(number, codec, p, session); q.Ok? ==> TP.FoldsTo(log, q.value)
    ensures TP.ApplyAll(TP.Empty(), log).Ok? ==> AfterSession(number, codec, p, session).Ok?
    decreases |session|
  {
    if session != [] {
      OneConnection(number, codec, log, p, session[0]);
      var next := AfterConnection(number, codec, p, session[0]);
      if next.Ok? { SessionAgreesWithTheLog(number, codec, log, next.value, session[1..]); }
    }
  }
}
