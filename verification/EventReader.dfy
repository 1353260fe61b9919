/**
 The reconnecting reader: duplicates are ignored, a gap ends the connection and
 the next one starts from the last projected event. Whatever the connections
 deliver, what the reader hands over is the log from where it started, and the
 projection is the plain fold of the log up to its cursor.
 */
module EventReader {
  import opened Wrappers
  import opened EventPages
  import opened SseDecoder
  import opened SseStream
  import TP = ThreadProjection

  type Event = TP.Event

  const BATCH_LIMIT := 100

  datatype Received = Ignored | Buffered | Gap | Malformed

  /** How a connection ended: on its own, by a gap or a lost socket, or by an error that cannot heal. */
  datatype Ending = Ended | Retryable | Fatal

  lemma {:induction false} FoldEnds(log: seq<Event>, end: nat)
    requires TP.Numbered(log) && end <= |log| && TP.ApplyAll(TP.Empty(), log[..end]).Ok?
    ensures TP.ApplyAll(TP.Empty(), log[..end]).value.cursor == end
  {
    if end > 0 {
      assert log[..end][..end - 1] == log[..end - 1];
      FoldEnds(log, end - 1);
      TP.ApplyMovesCursor(TP.ApplyAll(TP.Empty(), log[..end - 1]).value, log[end - 1]);
    }
  }

  /** A batch that comes next in the log takes the projection to its end. */
  lemma {:induction false} BatchExtends(log: seq<Event>, p: TP.Projection, batch: seq<Event>)
    requires TP.Numbered(log) && TP.FoldsTo(log, p) && batch != [] && Holds(log, p.cursor, batch)
    ensures var next := TP.ApplyAll(p, batch);
            next.Ok? ==> TP.FoldsTo(log, next.value) && next.value.cursor == p.cursor + |batch|
  {
    var end := p.cursor + |batch|;
    assert batch == log[p.cursor..end];
    TP.SliceExtendsTheFold(log, p, p.cursor, end);
    var next := TP.ApplyAll(p, batch);
    assert next == TP.ApplyAll(TP.Empty(), log[..end]);
    if next.Ok? {
      FoldEnds(log, end);
      assert next.value.cursor == end;
    }
  }

  class Reader {
    ghost const log: seq<Event>
    ghost const start: nat
    var projection: TP.Projection
    var connected: bool
    var seen: nat
    var pending: seq<Event>
    var projectionFailed: bool
    var aborted: bool
    var stopped: bool
    ghost var handedOver: seq<Event>

    /** The batches so far are the log from the start to the cursor; what is buffered comes next. */
    ghost predicate Valid()
      reads this
    {
      && TP.Numbered(log) && TP.FoldsTo(log, projection)
      && projection.cursor == start + |handedOver| && Holds(log, start, handedOver)
      && (connected && !projectionFailed ==>
            seen == projection.cursor + |pending| && Holds(log, projection.cursor, pending))
      && (connected && projectionFailed ==> pending == [])
    }

    predicate Bounded()
      reads `pending
    {
      |pending| < BATCH_LIMIT
    }

    constructor (ghost log: seq<Event>, projection: TP.Projection)
      requires TP.Numbered(log) && TP.FoldsTo(log, projection)
      ensures Valid() && Bounded() && !connected && !projectionFailed && !stopped && !aborted && this.log == log && this.projection == projection
    {
      this.log, this.start := log, projection.cursor;
      this.projection := projection;
      connected, projectionFailed, aborted, stopped := false, false, false, false;
      seen, pending, handedOver := 0, [], [];
    }

    method Connect() returns (after: nat)
      requires Valid() && !connected && !stopped && !aborted
      modifies `connected, `seen, `pending, `projectionFailed
      ensures Valid() && Bounded() && connected && !projectionFailed && after == seen == projection.cursor
    {
      seen := projection.cursor;
      pending := [];
      projectionFailed := false;
      connected := true;
      after := seen;
    }

    /** Hands the buffered events over; a projection that refuses them ends the connection for good. */
    method Flush()
      requires Valid() && connected
      modifies `pending, `projection, `projectionFailed, `handedOver
      ensures Valid() && |pending| <= |old(pending)|
      ensures if aborted || old(pending) == [] || projectionFailed
              then projection == old(projection) && handedOver == old(handedOver)
              else pending == [] && (projectionFailed || (projection.cursor == seen && handedOver == old(handedOver + pending)))
      ensures !aborted ==> pending == []
      ensures projectionFailed == (old(projectionFailed)
                || (!aborted && old(pending) != [] && TP.ApplyAll(old(projection), old(pending)).Err?))
    {
      if aborted || pending == [] { return; }
      var batch := pending;
      pending := [];
      BatchExtends(log, projection, batch);
      HoldsConcat(log, start, handedOver, batch);
      var next := TP.ApplyAll(projection, batch);
      if next.Err? {
        projectionFailed := true;
        return;
      }
      projection := next.value;
      handedOver := handedOver + batch;
    }

    /** One event of the stream; a gap and a malformed event end the connection. */
    method OnEvent(event: Event, known: bool) returns (r: Received)
      requires Valid() && Bounded() && connected
      requires 1 <= event.sequence <= |log| && event == log[event.sequence - 1]
      modifies `seen, `pending, `projection, `projectionFailed, `handedOver
      ensures Valid() && Bounded()
      ensures r.Ignored? <==> old(aborted || projectionFailed) || event.sequence <= old(seen)
      ensures r.Gap? <==> !old(aborted || projectionFailed) && event.sequence > old(seen) + 1
      ensures r.Buffered? <==> !old(aborted || projectionFailed) && event.sequence == old(seen) + 1 && known
      ensures seen == if r.Buffered? then event.sequence else old(seen)
    {
      if aborted || projectionFailed || event.sequence <= seen { return Ignored; }
      if event.sequence != seen + 1 { return Gap; }
      if !known { return Malformed; }
      Buffer(event);
      return Buffered;
    }

    method Buffer(event: Event)
      requires Valid() && Bounded() && connected && !aborted && !projectionFailed
      requires seen < |log| && event == log[seen] && event.sequence == seen + 1
      modifies `seen, `pending, `projection, `projectionFailed, `handedOver
      ensures Valid() && Bounded() && seen == old(seen) + 1
    {
      HoldsConcat(log, projection.cursor, pending, [event]);
      pending := pending + [event];
      seen := event.sequence;
      if |pending| >= BATCH_LIMIT { Flush(); }
    }

    /** The disposable reader is aborted: what is buffered is dropped and nothing more is handed over. */
    method Abort()
      requires Valid()
      modifies `aborted
      ensures Valid() && aborted
    {
      aborted := true;
    }

    /** The connection is over; the reader stops for good or may connect again from the cursor. */
    method Disconnect(ending: Ending)
      requires Valid() && Bounded() && connected
      modifies `connected, `pending, `projection, `projectionFailed, `handedOver, `stopped
      ensures Valid() && Bounded() && !connected
      ensures stopped == (old(stopped) || (!aborted && (projectionFailed || ending.Fatal?)))
      ensures !aborted && !projectionFailed ==> projection.cursor == seen
    {
      Flush();
      connected := false;
      if aborted { return; }
      if projectionFailed || ending.Fatal? { stopped := true; }
    }
  }
}
