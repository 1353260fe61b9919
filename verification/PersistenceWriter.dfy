/**
 The bounded persistence writer of one agent attempt: a FIFO with an item and a
 byte budget, commit acknowledgements and four failure modes. Producers, the
 consumer and the cleanup call its methods in any order; `Valid` is what every
 reachable state satisfies.
 */
module PersistenceWriter {
  import opened Wrappers

  datatype Mode = Overflow | Producer | Persistence | Cleanup

  datatype Fault = LimitExceeded | WriterClosed | Raised(code: nat) | CleanupFailed

  datatype Failure = Failure(error: Fault, mode: Mode)

  datatype Kind = Event | Checkpoint | Barrier

  /** A JavaScript number as the size check sees it. */
  datatype JsNumber = Whole(value: int) | NotWhole

  /** An admitted item; `ticket` is its place in the order of admission. */
  datatype Item = Item(ticket: nat, kind: Kind, bytes: nat)

  datatype Ack = Waiting | Committed | Refused(error: Fault)

  const MAX_SAFE_INTEGER: int := 9_007_199_254_740_991

  function TotalBytes(items: seq<Item>): nat {
    if items == [] then 0 else items[0].bytes + TotalBytes(items[1..])
  }

  lemma {:induction false} TotalOfAppend(items: seq<Item>, item: Item)
    ensures TotalBytes(items + [item]) == TotalBytes(items) + item.bytes
  {
    if items != [] {
      assert (items + [item])[1..] == items[1..] + [item];
      TotalOfAppend(items[1..], item);
    }
  }

  lemma TailGrows(items: seq<Item>, from: nat, to: nat, item: Item)
    requires from <= to <= |items|
    ensures (items + [item])[to..] == items[to..] + [item] && (items + [item])[from..to] == items[from..to]
  {
  }

  lemma SplitTail(items: seq<Item>, from: nat, n: nat)
    requires from + n <= |items|
    ensures items[from..][..n] == items[from..from + n] && items[from..][n..] == items[from + n..]
  {
  }

  /** Overflow and producer failures let accepted writes finish; the other modes discard them. */
  predicate Drains(failure: Option<Failure>) {
    failure.None? || failure.value.mode == Overflow || failure.value.mode == Producer
  }

  predicate Discards(mode: Mode) {
    mode == Persistence || mode == Cleanup
  }

  /** A store failure replaces an earlier overflow or producer failure; nothing else replaces anything. */
  function Recorded(first: Option<Failure>, error: Fault, mode: Mode): Option<Failure> {
    if first.Some? && !(!Discards(first.value.mode) && mode == Persistence) then first else Some(Failure(error, mode))
  }

  /** May `next` follow `first`? */
  predicate Supersedes(first: Option<Failure>, next: Option<Failure>) {
    next == first || (next.Some? && first.None?) || (next.Some? && next.value.mode == Persistence && Drains(first))
  }

  class Writer {
    const itemLimit: nat
    const byteLimit: nat
    var queue: seq<Item>
    var ended: bool
    var buffer: seq<Item>
    var active: Option<Item>
    var consumerDone: bool
    var pending: seq<Item>
    var admittedItems: int
    var retainedBytes: int
    var accepting: bool
    var failure: Option<Failure>
    var acks: seq<Ack>
    var reports: nat
    /**
     History: every admitted item in order; how many the consumer pulled, took off its chunk and
     finished writing; how many settled, and how many of those committed.
     */
    ghost var admitted: seq<Item>
    ghost var pulled: nat
    ghost var taken: nat
    ghost var written: nat
    ghost var settled: nat
    ghost var committed: nat

    /** The counters are the size and the byte sum of the pending items and respect both limits. */
    ghost predicate BudgetOk()
      reads `admitted, `settled, `pending, `admittedItems, `retainedBytes
    {
      && itemLimit > 0 && settled <= |admitted| && pending == admitted[settled..]
      && admittedItems == |pending| <= itemLimit
      && retainedBytes == TotalBytes(pending) <= byteLimit
      && (forall i :: 0 <= i < |admitted| ==> admitted[i].ticket == i)
    }

    /** What is queued, pulled and active is the unwritten tail of what was admitted, in order. */
    ghost predicate QueueOk()
      reads `admitted, `queue, `buffer, `active, `consumerDone, `accepting, `ended, `failure, `pulled, `taken, `written
    {
      && written <= taken <= pulled <= |admitted|
      && (accepting ==> failure.None? && !ended && !consumerDone) && (!accepting ==> ended)
      && (consumerDone ==> active.None? && buffer == [] && queue == [])
      && (!consumerDone ==> buffer == admitted[taken..pulled])
      && (active.Some? ==> taken == written + 1 && active.value == admitted[written])
      && (!consumerDone && Drains(failure) ==> queue == admitted[pulled..] && (active.None? ==> taken == written))
    }

    /** Until the consumer stops, what is pending is what is unwritten; a discarding failure, or no failure, leaves nothing. */
    ghost predicate PendingOk()
      reads `failure, `consumerDone, `pending, `queue, `settled, `written
    {
      && (!consumerDone && Drains(failure) ==> settled == written)
      && (!Drains(failure) ==> pending == [] && queue == [])
      && (consumerDone && failure.None? ==> pending == [])
    }

    /** Acknowledgements: a committed prefix, then refusals, then the ones still waiting. */
    ghost predicate AcksOk()
      reads `acks, `admitted, `committed, `settled, `written, `failure
    {
      && |acks| == |admitted| && committed <= settled <= |admitted| && committed <= written
      && (forall i :: 0 <= i < committed ==> acks[i] == Committed)
      && (forall i :: committed <= i < settled ==> acks[i].Refused?)
      && (forall i :: settled <= i < |acks| ==> acks[i] == Waiting)
      && (committed < settled ==> settled == |admitted| && !Drains(failure))
    }

    ghost predicate Valid()
      reads this
    {
      BudgetOk() && QueueOk() && PendingOk() && AcksOk()
    }

    twostate predicate SettledStaySettled()
      reads `acks
    {
      && |old(acks)| <= |acks|
      && forall i :: 0 <= i < |old(acks)| && old(acks)[i] != Waiting ==> acks[i] == old(acks)[i]
    }

    /** What no method ever does: change a settled acknowledgement, forget an admission, demote a failure. */
    twostate predicate Progresses()
      reads `acks, `admitted, `failure
    {
      && SettledStaySettled()
      && old(admitted) <= admitted
      && Supersedes(old(failure), failure)
    }

    constructor (itemLimit: nat, byteLimit: nat)
      requires itemLimit > 0
      ensures Valid() && this.itemLimit == itemLimit && this.byteLimit == byteLimit
      ensures accepting && admitted == [] && failure == None
    {
      this.itemLimit, this.byteLimit := itemLimit, byteLimit;
      queue, buffer, pending, acks, admitted := [], [], [], [], [];
      ended, consumerDone, accepting, reports := false, false, true, 0;
      active, failure := None, None;
      admittedItems, retainedBytes := 0, 0;
      pulled, taken, written, settled, committed := 0, 0, 0, 0, 0;
    }

    /** Takes the oldest item out of the pending set and settles its acknowledgement. */
    method SettleFirst(error: Option<Fault>)
      requires BudgetOk() && pending != [] && |acks| == |admitted|
      modifies this`pending, this`admittedItems, this`retainedBytes, this`acks, this`settled
      ensures BudgetOk() && settled == old(settled) + 1
      ensures acks == old(acks)[old(settled) :=
                if error.None? && (failure.None? || failure.value.mode != Persistence) then Committed
                else Refused(if error.Some? then error.value else failure.value.error)]
    {
      var item := pending[0];
      pending := pending[1..];
      admittedItems := admittedItems - 1;
      retainedBytes := retainedBytes - item.bytes;
      settled := settled + 1;
      if error.None? && (failure.None? || failure.value.mode != Persistence) {
        acks := acks[item.ticket := Committed];
      } else {
        acks := acks[item.ticket := Refused(if error.Some? then error.value else failure.value.error)];
      }
    }

    /** Refuses everything that is still pending, after a failure whose mode discards. */
    method RefusePending(error: Fault)
      requires BudgetOk() && AcksOk() && !Drains(failure)
      modifies this`pending, this`admittedItems, this`retainedBytes, this`acks, this`settled
      ensures BudgetOk() && AcksOk() && settled == |admitted| && SettledStaySettled()
    {
      while pending != []
        invariant BudgetOk() && |acks| == |admitted| && old(settled) <= settled
        invariant forall i :: 0 <= i < old(settled) ==> acks[i] == old(acks)[i]
        invariant forall i :: old(settled) <= i < settled ==> acks[i] == Refused(error)
        invariant forall i :: settled <= i < |acks| ==> acks[i] == Waiting
        decreases |pending|
      {
        SettleFirst(Some(error));
      }
    }

    /** The part of `RecordFailure` for modes that let accepted writes finish. */
    method LatchDraining(error: Fault, mode: Mode)
      requires Valid() && failure.None? && !Discards(mode)
      modifies this`failure, this`accepting, this`ended, this`reports
      ensures Valid() && failure == Some(Failure(error, mode)) && !accepting
      ensures Progresses() && reports == old(reports) + 1
    {
      failure := Some(Failure(error, mode));
      accepting := false;
      ended := true;
      reports := reports + 1;
    }

    /** The part for modes that discard: the queue is shut down. */
    method ShutDown(error: Fault, mode: Mode)
      requires Valid() && Drains(failure) && Discards(mode)
      modifies this`failure, this`accepting, this`ended, this`queue, this`reports
      ensures BudgetOk() && QueueOk() && AcksOk() && queue == [] && !accepting
      ensures failure == Some(Failure(error, mode)) && reports == old(reports) + 1
    {
      failure := Some(Failure(error, mode));
      accepting := false;
      ended := true;
      queue := [];
      reports := reports + 1;
    }

    method LatchDiscarding(error: Fault, mode: Mode)
      requires Valid() && Drains(failure) && Discards(mode) && (failure.None? || mode == Persistence)
      modifies this`failure, this`accepting, this`ended, this`queue, this`pending, this`admittedItems,
               this`retainedBytes, this`acks, this`settled, this`reports
      ensures Valid() && failure == Some(Failure(error, mode)) && !accepting && settled == |admitted|
      ensures Progresses() && reports == old(reports) + 1
    {
      ShutDown(error, mode);
      RefusePending(error);
    }

    /** Latches a failure; a discarding mode refuses everything that is still pending. */
    method RecordFailure(error: Fault, mode: Mode)
      requires Valid()
      modifies this`failure, this`accepting, this`ended, this`queue, this`pending, this`admittedItems,
               this`retainedBytes, this`acks, this`settled, this`reports
      ensures Valid() && Progresses() && failure == Recorded(old(failure), error, mode) && !accepting
      ensures failure != old(failure) ==> reports == old(reports) + 1
      ensures failure != old(failure) && Discards(mode) ==> settled == |admitted|
      ensures failure == old(failure) || !Discards(mode) ==>
                pending == old(pending) && acks == old(acks) && queue == old(queue) && settled == old(settled)
                && admittedItems == old(admittedItems) && retainedBytes == old(retainedBytes)
    {
      if failure.Some? && !((failure.value.mode == Overflow || failure.value.mode == Producer) && mode == Persistence) {
        return;
      }
      if mode != Overflow && mode != Producer {
        LatchDiscarding(error, mode);
      } else {
        LatchDraining(error, mode);
      }
    }

    predicate Fits(size: JsNumber)
      reads this
    {
      size.Whole? && 0 <= size.value <= MAX_SAFE_INTEGER && admittedItems < itemLimit
      && size.value + retainedBytes <= byteLimit
    }

    /** The budget check that precedes admission; failing it is itself an overflow failure. */
    method AssertAdmissible(size: JsNumber) returns (ok: bool)
      requires Valid()
      modifies this`failure, this`accepting, this`ended, this`queue, this`pending, this`admittedItems,
               this`retainedBytes, this`acks, this`settled, this`reports
      ensures Valid() && Progresses() && ok == old(Fits(size))
      ensures failure == if ok then old(failure) else Recorded(old(failure), LimitExceeded, Overflow)
      ensures pending == old(pending) && queue == old(queue) && acks == old(acks) && settled == old(settled)
      ensures ok ==> accepting == old(accepting) && ended == old(ended)
                     && admittedItems == old(admittedItems) && retainedBytes == old(retainedBytes)
    {
      if !size.Whole? || size.value < 0 || size.value > MAX_SAFE_INTEGER || size.value > byteLimit
         || admittedItems >= itemLimit || size.value > byteLimit - retainedBytes {
        RecordFailure(LimitExceeded, Overflow);
        return false;
      }
      return true;
    }

    /** Admits an item synchronously and returns its ticket, or refuses it and keeps nothing of it. */
    method Admit(kind: Kind, size: JsNumber) returns (r: Result<nat, Fault>)
      requires Valid()
      modifies this`failure, this`accepting, this`ended, this`queue, this`pending, this`admittedItems,
               this`retainedBytes, this`acks, this`settled, this`reports, this`admitted
      ensures Valid() && Progresses()
      ensures r.Ok? == (old(accepting) && old(Fits(size)))
      ensures r.Ok? ==> r.value == |old(admitted)| && failure == old(failure)
                        && admitted == old(admitted) + [Item(r.value, kind, size.value)]
      ensures r.Err? ==> admitted == old(admitted)
      ensures r.Err? && old(accepting) ==> r.error == LimitExceeded && failure == Some(Failure(LimitExceeded, Overflow))
      ensures r.Err? && !old(accepting) ==>
                failure == old(failure) && r.error == if failure.Some? then failure.value.error else WriterClosed
    {
      if !accepting || failure.Some? {
        return Err(if failure.Some? then failure.value.error else WriterClosed);
      }
      var ok := AssertAdmissible(size);
      if !ok { return Err(LimitExceeded); }
      Enqueue(kind, size.value);
      return Ok(|acks| - 1);
    }

    /** The queue is open and has room whenever the checks passed, so its offer is never turned down. */
    lemma QueueHasRoom(size: JsNumber)
      requires Valid() && accepting && Fits(size)
      ensures |queue| < itemLimit && !ended
    {
      assert |queue| == |admitted| - pulled <= |pending|;
    }

    /** Offers an item that passed the checks to the queue. */
    method Enqueue(kind: Kind, bytes: nat)
      requires Valid() && accepting && Fits(Whole(bytes))
      modifies this`queue, this`pending, this`acks, this`admittedItems, this`retainedBytes, this`admitted
      ensures Valid()
      ensures admitted == old(admitted) + [Item(|old(admitted)|, kind, bytes)] && acks == old(acks) + [Waiting]
    {
      var item := Item(|acks|, kind, bytes);
      TailGrows(admitted, taken, pulled, item);
      Retain(item);
      queue := queue + [item];
      assert QueueOk();
    }

    /** Counts an item in: it joins the pending set and its acknowledgement starts to wait. */
    method Retain(item: Item)
      requires BudgetOk() && AcksOk() && item.ticket == |acks| && accepting && Drains(failure)
      requires Fits(Whole(item.bytes))
      modifies this`pending, this`acks, this`admittedItems, this`retainedBytes, this`admitted
      ensures BudgetOk() && AcksOk()
      ensures admitted == old(admitted) + [item] && acks == old(acks) + [Waiting]
    {
      TotalOfAppend(pending, item);
      pending := pending + [item];
      admittedItems := admittedItems + 1;
      retainedBytes := retainedBytes + item.bytes;
      admitted := admitted + [item];
      acks := acks + [Waiting];
      assert pending == admitted[settled..];
    }

    /** A barrier is an item of size zero. */
    method Flush() returns (r: Result<nat, Fault>)
      requires Valid()
      modifies this`failure, this`accepting, this`ended, this`queue, this`pending, this`admittedItems,
               this`retainedBytes, this`acks, this`settled, this`reports, this`admitted
      ensures Valid() && Progresses()
      ensures r.Ok? ==> r.value == |old(admitted)| && admitted == old(admitted) + [Item(r.value, Barrier, 0)]
      ensures r.Err? ==> admitted == old(admitted)
    {
      r := Admit(Barrier, Whole(0));
    }

    /** The check a producer makes before it captures an expensive snapshot. */
    method Preflight(size: JsNumber) returns (problem: Option<Fault>)
      requires Valid()
      modifies this`failure, this`accepting, this`ended, this`queue, this`pending, this`admittedItems,
               this`retainedBytes, this`acks, this`settled, this`reports
      ensures Valid() && Progresses()
      ensures problem.None? == (old(accepting) && old(Fits(size)))
    {
      if !accepting || failure.Some? {
        return Some(if failure.Some? then failure.value.error else WriterClosed);
      }
      var ok := AssertAdmissible(size);
      return if ok then None else Some(LimitExceeded);
    }

    method Fail(error: Fault)
      requires Valid()
      modifies this`failure, this`accepting, this`ended, this`queue, this`pending, this`admittedItems,
               this`retainedBytes, this`acks, this`settled, this`reports
      ensures Valid() && Progresses() && failure == Recorded(old(failure), error, Producer)
    {
      RecordFailure(error, Producer);
    }

    method Close()
      requires Valid()
      modifies this`accepting, this`ended
      ensures Valid() && Progresses() && !accepting
    {
      if !accepting { return; }
      accepting := false;
      ended := true;
    }

    /** The consumer takes a chunk of what the queue holds. */
    method Pull(n: nat)
      requires Valid() && !consumerDone && active.None? && buffer == [] && n <= |queue|
      modifies this`buffer, this`queue, this`pulled
      ensures Valid() && Progresses()
      ensures buffer == old(queue)[..n] && queue == old(queue)[n..]
    {
      SplitTail(admitted, pulled, n);
      buffer, queue := queue[..n], queue[n..];
      pulled := pulled + n;
    }

    /** The consumer turns to its next item: it begins the write, or drops it after a discarding failure. */
    method Begin()
      requires Valid() && !consumerDone && active.None? && buffer != []
      modifies this`buffer, this`active, this`taken
      ensures Valid() && Progresses() && taken == old(taken) + 1
      ensures if Drains(failure) then active == Some(admitted[written]) else active == None
    {
      var item := buffer[0];
      buffer := buffer[1..];
      taken := taken + 1;
      if failure.Some? && failure.value.mode != Overflow && failure.value.mode != Producer { return; }
      active := Some(item);
    }

    /** The active write returned: its item settles unless a failure settled it already. */
    method WriteReturned()
      requires Valid() && active.Some?
      modifies this`active, this`written, this`committed, this`pending, this`admittedItems, this`retainedBytes,
               this`acks, this`settled
      ensures Valid() && Progresses() && active.None? && written == old(written) + 1
      ensures Drains(failure) ==> acks[old(written)] == Committed
      ensures !Drains(failure) ==> acks == old(acks)
    {
      var item := active.value;
      active := None;
      written := written + 1;
      if pending != [] && pending[0] == item {
        committed := committed + 1;
        SettleFirst(None);
      }
    }

    /** The consumer is interrupted or has failed: what it held is dropped and its queue shut down. */
    method StopConsumer()
      requires Valid() && failure.Some?
      modifies this`active, this`buffer, this`queue, this`consumerDone, this`ended
      ensures Valid() && Progresses() && consumerDone
    {
      active := None;
      buffer := [];
      queue := [];
      consumerDone := true;
      ended := true;
    }

    /** The active write threw: a store failure is recorded and the consumer stops. */
    method WriteThrew(error: Fault)
      requires Valid() && active.Some?
      modifies this
      ensures Valid() && Progresses() && consumerDone && pending == []
      ensures failure == Recorded(old(failure), error, Persistence)
    {
      RecordFailure(error, Persistence);
      StopConsumer();
    }

    /** After the end of the queue the consumer finishes on its own. */
    method ConsumerFinishes()
      requires Valid() && !consumerDone && !accepting && queue == [] && buffer == [] && active.None?
      modifies this`consumerDone, this`ended
      ensures Valid() && Progresses() && consumerDone
      ensures Drains(failure) ==> forall i :: 0 <= i < |acks| ==> acks[i] == Committed
    {
      consumerDone := true;
      ended := true;
    }

    /**
     `complete` within its budget. It returns only if every acknowledgement is a commit; it throws the
     latched failure even if all admitted items were committed before.
     */
    method CompleteDrained() returns (thrown: Option<Fault>)
      requires Valid() && consumerDone && !accepting
      ensures thrown.None? ==> written == |admitted| && forall i :: 0 <= i < |acks| ==> acks[i] == Committed
      ensures failure.Some? ==> thrown == Some(failure.value.error)
    {
      thrown := if failure.Some? then Some(failure.value.error) else None;
    }

    /**
     `complete` ran out of its budget. The failure it throws is an earlier one if there was any.
     Every acknowledgement is settled afterwards exactly when no overflow or producer failure had
     been latched before, or nothing was pending: otherwise those items wait for ever.
     */
    method CompleteTimesOut() returns (thrown: Fault)
      requires Valid() && !consumerDone
      modifies this
      ensures Valid() && Progresses() && consumerDone && !accepting
      ensures thrown == if old(failure).Some? then old(failure).value.error else CleanupFailed
      ensures failure == Recorded(old(failure), CleanupFailed, Cleanup)
      ensures (forall i :: 0 <= i < |acks| ==> acks[i] != Waiting) <==> old(failure).None? || old(pending) == []
    {
      Close();
      thrown := if failure.Some? then failure.value.error else CleanupFailed;
      RecordFailure(CleanupFailed, Cleanup);
      StopConsumer();
      if pending != [] { assert acks[settled] == Waiting; }
    }

    /** `drain` gave up on the consumer: the same failure is recorded, and the one that stands is thrown. */
    method DrainTimesOut() returns (thrown: Fault)
      requires Valid() && !consumerDone
      modifies this
      ensures Valid() && Progresses() && consumerDone && !accepting
      ensures failure == Recorded(old(failure), CleanupFailed, Cleanup) && thrown == failure.value.error
      ensures old(failure).None? ==> pending == []
      ensures old(failure).Some? ==> pending == old(pending) && acks == old(acks)
    {
      RecordFailure(CleanupFailed, Cleanup);
      StopConsumer();
      thrown := failure.value.error;
    }

    /** A resolved flush, like any resolved item, means that everything admitted before it was written. */
    lemma ResolvedMeansWritten(k: nat)
      requires Valid() && k < |acks| && acks[k] == Committed
      ensures k < written && forall i :: 0 <= i <= k ==> acks[i] == Committed
    {
      assert k < committed;
    }
  }
}
