/**
 The server's event stream: a pull loop over pages of the committed log, which
 may grow between any two polls, with heartbeats when nothing is committed.
 */
module EventPages {
  import opened Wrappers
  import opened ThreadProjection

  const PAGE_SIZE := 100

  datatype StreamItem = EventItem(event: Event) | HeartbeatItem

  /** `events` is what the log holds from position `from` on. */
  predicate Holds(log: seq<Event>, from: nat, events: seq<Event>) {
    events == [] || (from + |events| <= |log| && log[from..from + |events|] == events)
  }

  /** `listEvents`: the committed events after a sequence, in order, at most `limit` of them. */
  function Page(log: seq<Event>, after: nat, limit: nat): seq<Event> {
    if |log| <= after then [] else if |log| - after <= limit then log[after..] else log[after..after + limit]
  }

  /** Where the next page starts after this one. */
  function Reached(after: nat, page: seq<Event>): nat {
    if page == [] then after else page[|page| - 1].sequence
  }

  /** What a reader gets from polling again and again while the log grows. */
  function Polled(logs: seq<seq<Event>>, after: nat): seq<Event> {
    if logs == [] then []
    else
      var page := Page(logs[0], after, PAGE_SIZE);
      page + Polled(logs[1..], Reached(after, page))
  }

  ghost predicate Growing(logs: seq<seq<Event>>) {
    && (forall i :: 0 <= i < |logs| ==> Numbered(logs[i]))
    && (forall i :: 0 < i < |logs| ==> logs[i - 1] <= logs[i])
  }

  /** A page holds the next events up to the limit, and all that are left if they are fewer. */
  lemma PagesAreFull(log: seq<Event>, after: nat, limit: nat)
    ensures var page := Page(log, after, limit);
            && Holds(log, after, page)
            && |page| == if |log| <= after then 0 else if |log| - after < limit then |log| - after else limit
  {
  }

  lemma PageIsNext(log: seq<Event>, after: nat)
    requires Numbered(log)
    ensures var page := Page(log, after, PAGE_SIZE); Reached(after, page) == after + |page| && Holds(log, after, page)
  {
  }

  lemma HoldsConcat(log: seq<Event>, from: nat, a: seq<Event>, b: seq<Event>)
    requires Holds(log, from, a) && Holds(log, from + |a|, b)
    ensures Holds(log, from, a + b)
  {
    if b == [] {
      assert a + b == a;
    } else if a == [] {
      assert a + b == b;
    } else {
      assert log[from..from + |a + b|] == log[from..from + |a|] + log[from + |a|..from + |a| + |b|];
    }
  }

  lemma HoldsLater(log: seq<Event>, later: seq<Event>, from: nat, events: seq<Event>)
    requires log <= later && Holds(log, from, events)
    ensures Holds(later, from, events)
  {
    if events != [] { assert later[..|log|][from..from + |events|] == later[from..from + |events|]; }
  }

  /** Pages neither skip nor repeat an event, however the log grows between polls. */
  lemma {:induction false} PagesRebuildTheLog(logs: seq<seq<Event>>, after: nat)
    requires logs != [] && Growing(logs)
    ensures Holds(logs[|logs| - 1], after, Polled(logs, after))
  {
    var page := Page(logs[0], after, PAGE_SIZE);
    var rest := Polled(logs[1..], Reached(after, page));
    PageIsNext(logs[0], after);
    FirstIsPrefixOfLast(logs);
    HoldsLater(logs[0], logs[|logs| - 1], after, page);
    if |logs| > 1 { PagesRebuildTheLog(logs[1..], after + |page|); }
    HoldsConcat(logs[|logs| - 1], after, page, rest);
  }

  lemma {:induction false} FirstIsPrefixOfLast(logs: seq<seq<Event>>)
    requires logs != [] && Growing(logs)
    ensures logs[0] <= logs[|logs| - 1]
  {
    if |logs| > 1 { FirstIsPrefixOfLast(logs[..|logs| - 1]); }
  }

  class EventStream {
    const after: nat
    const heartbeatMs: nat
    var batch: seq<Event>
    var batchIndex: nat
    var lastSequence: nat
    var lastHeartbeatAt: Option<nat>
    ghost var known: seq<Event>
    ghost var emitted: seq<Event>

    /** What was emitted is the log from the starting point on; the rest of the page comes next. */
    ghost predicate Valid()
      reads this
    {
      && Numbered(known) && batchIndex <= |batch| && lastSequence == after + |emitted|
      && Holds(known, after, emitted) && Holds(known, lastSequence, batch[batchIndex..])
    }

    constructor (after: nat, heartbeatMs: nat, committed: seq<Event>)
      requires Numbered(committed)
      ensures Valid() && emitted == [] && this.after == after && lastSequence == after && known == committed && lastHeartbeatAt.None?
    {
      this.after, this.heartbeatMs := after, heartbeatMs;
      batch, batchIndex := Page(committed, after, PAGE_SIZE), 0;
      lastSequence := after;
      lastHeartbeatAt := None;
      known, emitted := committed, [];
      PageIsNext(committed, after);
    }

    /** One turn of the pull loop at time `now`; a turn without an item waits at the tail and polls. */
    method Turn(now: nat, committed: seq<Event>) returns (item: Option<StreamItem>, slept: bool)
      requires Valid() && known <= committed && Numbered(committed)
      modifies this
      ensures Valid() && known == committed
      ensures item.Some? && item.value.EventItem? <==> old(batchIndex < |batch|)
      ensures item.Some? && item.value.EventItem? ==>
                lastSequence == old(lastSequence) + 1 && item.value.event == committed[old(lastSequence)]
                && emitted == old(emitted) + [item.value.event]
      ensures !(item.Some? && item.value.EventItem?) ==> emitted == old(emitted) && lastSequence == old(lastSequence)
      ensures var since := if old(lastHeartbeatAt).Some? then old(lastHeartbeatAt).value else now;
              && (item == Some(HeartbeatItem) <==> !old(batchIndex < |batch|) && now - since >= heartbeatMs)
              && lastHeartbeatAt == Some(if item == Some(HeartbeatItem) then now else since)
      ensures item.None? ==> batchIndex == 0 && batch == Page(committed, lastSequence, PAGE_SIZE)
      ensures slept <==> item.None? && old(|batch|) < PAGE_SIZE
    {
      slept := false;
      HoldsLater(known, committed, after, emitted);
      HoldsLater(known, committed, lastSequence, batch[batchIndex..]);
      known := committed;
      if lastHeartbeatAt.None? { lastHeartbeatAt := Some(now); }
      if batchIndex < |batch| {
        var event := Take();
        return Some(EventItem(event)), false;
      }
      if now - lastHeartbeatAt.value >= heartbeatMs {
        lastHeartbeatAt := Some(now);
        return Some(HeartbeatItem), false;
      }
      slept := |batch| < PAGE_SIZE;
      batch := Page(committed, lastSequence, PAGE_SIZE);
      batchIndex := 0;
      PageIsNext(committed, lastSequence);
      assert batch[0..] == batch;
      item := None;
    }

    method Take() returns (event: Event)
      requires Valid() && batchIndex < |batch|
      modifies `batchIndex, `lastSequence, `emitted
      ensures Valid() && emitted == old(emitted) + [event] && lastSequence == old(lastSequence) + 1
      ensures old(lastSequence) < |known| && event == known[old(lastSequence)]
    {
      ghost var left := batch[batchIndex..];
      event := batch[batchIndex];
      assert left[0] == event && known[lastSequence] == event;
      HoldsConcat(known, after, emitted, [event]);
      batchIndex := batchIndex + 1;
      lastSequence := event.sequence;
      emitted := emitted + [event];
      assert batch[batchIndex..] == left[1..];
    }
  }
}
