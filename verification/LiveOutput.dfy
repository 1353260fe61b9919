/**
 Live output of a running command: bounded reads of append-only capture files, a
 watcher that emits only contiguous byte ranges, and the reader's live preview,
 which survives duplicates and gaps. What is shown is always a prefix.
 */
module LiveOutput {
  import opened Wrappers
  import TP = ThreadProjection

  type Byte = b: int | 0 <= b < 256

  function Min(a: nat, b: nat): nat {
    if a <= b then a else b
  }

  // ---- reading a capture in the guest --------------------------------------------------

  /** What one read call returns: at least a byte if there is one, at most what was asked for. */
  function ReadSize(wish: nat, wanted: nat, available: nat): (n: nat)
    requires wanted > 0
    ensures n <= wanted && n <= available && (available > 0 ==> n > 0)
  {
    Min(Min(if wish == 0 then 1 else wish, wanted), available)
  }

  /** Reads at most `limit` bytes from a position, however short the single reads are, and says whether there is more. */
  method ReadBounded(file: seq<Byte>, from: nat, limit: nat, wishes: nat -> nat) returns (data: seq<Byte>, longer: bool)
    requires from <= |file|
    ensures data == file[from..Min(from + limit, |file|)]
    ensures longer <==> from + limit < |file|
  {
    data := [];
    while |data| <= limit
      invariant from + |data| <= |file| && |data| <= limit + 1
      invariant data == file[from..from + |data|]
      decreases limit + 1 - |data|
    {
      var n := ReadSize(wishes(|data|), limit + 1 - |data|, |file| - from - |data|);
      if n == 0 { break; }
      data := data + file[from + |data|..from + |data| + n];
    }
    longer := |data| > limit;
    data := if longer then data[..limit] else data;
  }

  datatype Chunk = Chunk(stream: TP.Channel, offset: nat, bytes: seq<Byte>)

  /** What a capture holds from an offset on, up to a limit. */
  function Slice(capture: seq<Byte>, offset: nat, limit: nat): (data: seq<Byte>)
    ensures |data| <= limit
    ensures data == [] <==> limit == 0 || |capture| <= offset
  {
    if |capture| <= offset then [] else capture[offset..Min(offset + limit, |capture|)]
  }

  /** The capture may have grown since the caller asked for its size. */
  method ReadCapture(capture: seq<Byte>, offset: nat, limit: nat, wishes: nat -> nat) returns (data: seq<Byte>)
    ensures data == Slice(capture, offset, limit)
  {
    if offset >= |capture| { return []; }
    var read, _ := ReadBounded(capture, offset, limit, wishes);
    data := read;
  }

  // ---- the watcher -----------------------------------------------------------------------

  datatype Update = Output(stream: TP.Channel, offset: nat, bytes: seq<Byte>) | Unavailable

  function StdoutLimit(outputMax: nat): (n: nat)
    ensures n >= 1
  {
    if outputMax / 2 >= 1 then outputMax / 2 else 1
  }

  function StderrLimit(outputMax: nat): nat {
    if outputMax >= StdoutLimit(outputMax) then outputMax - StdoutLimit(outputMax) else 0
  }

  /** Half of what may be shown is for standard output and the rest for standard error; a single byte goes to the former. */
  lemma LimitsShareTheMaximum(outputMax: nat)
    ensures outputMax >= 1 ==> StdoutLimit(outputMax) + StderrLimit(outputMax) == outputMax
    ensures outputMax >= 2 ==> StderrLimit(outputMax) - 1 <= StdoutLimit(outputMax) <= StderrLimit(outputMax)
    ensures outputMax <= 1 ==> StdoutLimit(outputMax) == 1 && StderrLimit(outputMax) == 0
  {
  }

  /** The bytes emitted for a stream, joined. */
  function Emitted(updates: seq<Update>, stream: TP.Channel): seq<Byte> {
    if updates == [] then []
    else
      var last := updates[|updates| - 1];
      Emitted(updates[..|updates| - 1], stream) + (if last.Output? && last.stream == stream then last.bytes else [])
  }

  /** Every range starts where the emitted bytes of its stream ended. */
  predicate Contiguous(updates: seq<Update>) {
    if updates == [] then true
    else
      var init, last := updates[..|updates| - 1], updates[|updates| - 1];
      Contiguous(init) && (last.Output? ==> last.offset == |Emitted(init, last.stream)| && last.bytes != [])
  }

  lemma {:induction false} UpdatesAppend(updates: seq<Update>, u: Update, stream: TP.Channel)
    ensures Emitted(updates + [u], stream) == Emitted(updates, stream) + (if u.Output? && u.stream == stream then u.bytes else [])
    ensures Contiguous(updates + [u]) <==>
              Contiguous(updates) && (u.Output? ==> u.offset == |Emitted(updates, u.stream)| && u.bytes != [])
  {
    assert (updates + [u])[..|updates|] == updates;
  }

  /**
   The emitted bytes of a stream are a prefix of its capture, within the stream's limit, and as long
   as the offset says until the watcher is stopped.
   */
  predicate StreamOk(emitted: seq<Byte>, capture: seq<Byte>, offset: nat, limit: nat, stopped: bool) {
    && offset <= limit && offset <= |capture| && emitted <= capture[..offset]
    && (!stopped ==> |emitted| == offset)
  }

  lemma StreamGrows(emitted: seq<Byte>, capture: seq<Byte>, offset: nat, limit: nat, stopped: bool, bytes: seq<Byte>)
    requires StreamOk(emitted, capture, offset, limit, stopped)
    requires offset + |bytes| <= limit && offset + |bytes| <= |capture| && bytes == capture[offset..offset + |bytes|]
    ensures StreamOk(if stopped then emitted else emitted + bytes, capture, offset + |bytes|, limit, stopped)
  {
    assert capture[..offset + |bytes|][..offset] == capture[..offset];
  }

  class Watcher {
    const stdoutLimit: nat
    const stderrLimit: nat
    var stdoutOffset: nat
    var stderrOffset: nat
    var stopped: bool
    var reported: bool
    var emitted: seq<Update>
    ghost var stdoutCapture: seq<Byte>
    ghost var stderrCapture: seq<Byte>

    ghost predicate Valid()
      reads `emitted, `stdoutOffset, `stderrOffset, `stopped, `stdoutCapture, `stderrCapture
    {
      && Contiguous(emitted)
      && StreamOk(Emitted(emitted, TP.Stdout), stdoutCapture, stdoutOffset, stdoutLimit, stopped)
      && StreamOk(Emitted(emitted, TP.Stderr), stderrCapture, stderrOffset, stderrLimit, stopped)
    }

    ghost predicate Truthful(chunk: Chunk)
      reads `stdoutCapture, `stderrCapture
    {
      var capture := Capture(chunk.stream);
      chunk.offset + |chunk.bytes| <= |capture| && chunk.bytes == capture[chunk.offset..chunk.offset + |chunk.bytes|]
    }

    constructor (outputMax: nat)
      ensures Valid() && !stopped && !reported && emitted == [] && stdoutCapture == [] && stderrCapture == []
      ensures stdoutLimit == StdoutLimit(outputMax) && stderrLimit == StderrLimit(outputMax)
    {
      stdoutLimit, stderrLimit := StdoutLimit(outputMax), StderrLimit(outputMax);
      stdoutOffset, stderrOffset := 0, 0;
      stopped, reported, emitted := false, false, [];
      stdoutCapture, stderrCapture := [], [];
    }

    /** The command goes on writing. */
    ghost method CapturesGrow(stdout: seq<Byte>, stderr: seq<Byte>)
      requires Valid() && stdoutCapture <= stdout && stderrCapture <= stderr
      modifies `stdoutCapture, `stderrCapture
      ensures Valid() && stdoutCapture == stdout && stderrCapture == stderr
    {
      stdoutCapture, stderrCapture := stdout, stderr;
    }

    /** No callback runs after `Stop`. */
    method Emit(update: Update)
      modifies `emitted
      ensures emitted == if stopped then old(emitted) else old(emitted) + [update]
    {
      if !stopped { emitted := emitted + [update]; }
    }

    method ReportUnavailable()
      requires Valid()
      modifies `emitted, `reported
      ensures Valid() && reported
      ensures emitted == if stopped || old(reported) then old(emitted) else old(emitted) + [Unavailable]
    {
      if reported { return; }
      reported := true;
      UpdatesAppend(emitted, Unavailable, TP.Stdout);
      UpdatesAppend(emitted, Unavailable, TP.Stderr);
      assert Emitted(emitted, TP.Stdout) + [] == Emitted(emitted, TP.Stdout);
      assert Emitted(emitted, TP.Stderr) + [] == Emitted(emitted, TP.Stderr);
      Emit(Unavailable);
    }

    /** One range of an observation: a gap or a repetition is dropped, and so is what passes the limit. */
    method Accept(chunk: Chunk)
      requires Valid() && Truthful(chunk)
      modifies `emitted, `stdoutOffset, `stderrOffset
      ensures Valid() && (stopped ==> emitted == old(emitted))
      ensures stdoutOffset == (if chunk.stream == TP.Stdout then old(After(chunk, stdoutOffset, stdoutLimit)) else old(stdoutOffset))
      ensures stderrOffset == (if chunk.stream == TP.Stderr then old(After(chunk, stderrOffset, stderrLimit)) else old(stderrOffset))
    {
      var previous := if chunk.stream == TP.Stdout then stdoutOffset else stderrOffset;
      if chunk.offset != previous { return; }
      var limit := if chunk.stream == TP.Stdout then stdoutLimit else stderrLimit;
      var bytes := chunk.bytes[..Min(|chunk.bytes|, limit - previous)];
      if |bytes| == 0 { return; }
      assert bytes == Capture(chunk.stream)[previous..previous + |bytes|];
      Publish(chunk.stream, bytes);
    }

    ghost function Capture(stream: TP.Channel): seq<Byte>
      reads `stdoutCapture, `stderrCapture
    {
      if stream == TP.Stdout then stdoutCapture else stderrCapture
    }

    function Offset(stream: TP.Channel): nat
      reads `stdoutOffset, `stderrOffset
    {
      if stream == TP.Stdout then stdoutOffset else stderrOffset
    }

    /** Emits bytes that come next in their stream. */
    method Publish(stream: TP.Channel, bytes: seq<Byte>)
      requires Valid() && bytes != []
      requires Offset(stream) + |bytes| <= if stream == TP.Stdout then stdoutLimit else stderrLimit
      requires Offset(stream) + |bytes| <= |Capture(stream)|
      requires bytes == Capture(stream)[Offset(stream)..Offset(stream) + |bytes|]
      modifies `emitted, `stdoutOffset, `stderrOffset
      ensures Valid() && (stopped ==> emitted == old(emitted))
      ensures stdoutOffset == old(stdoutOffset) + (if stream == TP.Stdout then |bytes| else 0)
      ensures stderrOffset == old(stderrOffset) + (if stream == TP.Stderr then |bytes| else 0)
    {
      var update := Output(stream, Offset(stream), bytes);
      UpdatesAppend(emitted, update, TP.Stdout);
      UpdatesAppend(emitted, update, TP.Stderr);
      StreamGrows(Emitted(emitted, stream), Capture(stream), Offset(stream),
                  if stream == TP.Stdout then stdoutLimit else stderrLimit, stopped, bytes);
      if stream == TP.Stdout {
        stdoutOffset := stdoutOffset + |bytes|;
      } else {
        stderrOffset := stderrOffset + |bytes|;
      }
      Emit(update);
    }

    /** Where a range takes the offset of its stream. */
    function After(chunk: Chunk, offset: nat, limit: nat): (end: nat)
      requires offset <= limit
      ensures offset <= end <= limit
    {
      if chunk.offset == offset then Min(offset + |chunk.bytes|, limit) else offset
    }

    /** Where all the ranges of an observation take it. */
    function AfterAll(chunks: seq<Chunk>, stream: TP.Channel, offset: nat, limit: nat): (end: nat)
      requires offset <= limit
      ensures offset <= end <= limit
    {
      if chunks == [] then offset
      else
        var before, last := AfterAll(chunks[..|chunks| - 1], stream, offset, limit), chunks[|chunks| - 1];
        if last.stream == stream then After(last, before, limit) else before
    }

    /** An observation is a list of ranges in any order. */
    method AcceptAll(chunks: seq<Chunk>)
      requires Valid() && forall i :: 0 <= i < |chunks| ==> Truthful(chunks[i])
      modifies `emitted, `stdoutOffset, `stderrOffset
      ensures Valid() && (stopped ==> emitted == old(emitted))
      ensures stdoutOffset == AfterAll(chunks, TP.Stdout, old(stdoutOffset), stdoutLimit)
      ensures stderrOffset == AfterAll(chunks, TP.Stderr, old(stderrOffset), stderrLimit)
    {
      for i := 0 to |chunks|
        invariant Valid() && (stopped ==> emitted == old(emitted))
        invariant stdoutOffset == AfterAll(chunks[..i], TP.Stdout, old(stdoutOffset), stdoutLimit)
        invariant stderrOffset == AfterAll(chunks[..i], TP.Stderr, old(stderrOffset), stderrLimit)
      {
        assert chunks[..i + 1][..i] == chunks[..i];
        Accept(chunks[i]);
      }
      assert chunks[..|chunks|] == chunks;
    }

    method Stop()
      requires Valid()
      modifies `stopped
      ensures Valid() && stopped && emitted == old(emitted)
    {
      stopped := true;
    }
  }

  // ---- the reader's preview ------------------------------------------------------------------

  /** A published range: decoded text and the bytes it stands for. */
  datatype Range = Range(offset: nat, next: nat, text: string)

  predicate Chained(ranges: seq<Range>) {
    forall i {:trigger Start(ranges, i)} :: 0 <= i < |ranges| ==>
      ranges[i].offset == Start(ranges, i) && ranges[i].offset < ranges[i].next
  }

  /** Where the k-th range starts. */
  function Start(ranges: seq<Range>, k: nat): nat
    requires k <= |ranges|
  {
    if k == 0 then 0 else ranges[k - 1].next
  }

  function Text(ranges: seq<Range>): string {
    if ranges == [] then "" else Text(ranges[..|ranges| - 1]) + ranges[|ranges| - 1].text
  }

  /** The ranges that a call publishes, stream by stream. */
  datatype Streams = Streams(stdout: seq<Range>, stderr: seq<Range>)

  function RangesOf(streams: Streams, stream: TP.Channel): seq<Range> {
    if stream == TP.Stdout then streams.stdout else streams.stderr
  }

  datatype Arrival = Arrival(stream: TP.Channel, index: nat)

  predicate Published(streams: Streams, arrival: Arrival) {
    arrival.index < |RangesOf(streams, arrival.stream)|
  }

  /** How many ranges of a stream, counted from the first, have arrived in order: the next one counts, all others do not. */
  function InOrder(arrivals: seq<Arrival>, stream: TP.Channel): nat {
    if arrivals == [] then 0
    else
      var k, last := InOrder(arrivals[..|arrivals| - 1], stream), arrivals[|arrivals| - 1];
      if last.stream == stream && last.index == k then k + 1 else k
  }

  /** Did a range arrive before the one that comes in front of it? */
  predicate Gapped(arrivals: seq<Arrival>) {
    if arrivals == [] then false
    else
      var init, last := arrivals[..|arrivals| - 1], arrivals[|arrivals| - 1];
      Gapped(init) || last.index > InOrder(init, last.stream)
  }

  function Bounded(text: string): string {
    if |text| > TP.MAX_LIVE_TEXT then text[|text| - TP.MAX_LIVE_TEXT..] else text
  }

  lemma BoundedTwice(a: string, b: string)
    ensures Bounded(Bounded(a) + b) == Bounded(a + b)
  {
  }

  /** The tool part after these arrivals, the two streams interleaved. */
  function Preview(part: TP.ToolPart, streams: Streams, arrivals: seq<Arrival>): Result<TP.ToolPart, TP.Fault>
    requires forall i :: 0 <= i < |arrivals| ==> Published(streams, arrivals[i])
  {
    if arrivals == [] then Ok(part)
    else
      var before, last := Preview(part, streams, arrivals[..|arrivals| - 1]), arrivals[|arrivals| - 1];
      assert Published(streams, last);
      var r := RangesOf(streams, last.stream)[last.index];
      if before.Err? then before else TP.AppendLive(before.value, last.stream, r.text, r.offset, Some(r.next))
  }

  lemma {:induction false} StartsAreOrdered(ranges: seq<Range>, i: nat, k: nat)
    requires Chained(ranges) && i < k <= |ranges|
    ensures Start(ranges, i) < Start(ranges, k)
  {
    assert Start(ranges, k - 1) == ranges[k - 1].offset < Start(ranges, k);
    if i < k - 1 { StartsAreOrdered(ranges, i, k - 1); }
  }

  function ShownText(part: TP.ToolPart, stream: TP.Channel): string {
    if stream == TP.Stdout then part.live.stdout else part.live.stderr
  }

  function ShownUpTo(part: TP.ToolPart, stream: TP.Channel): nat {
    if stream == TP.Stdout then part.outOffset else part.errOffset
  }

  /** The part shows the first `k` ranges of a stream. */
  predicate Shows(part: TP.ToolPart, ranges: seq<Range>, stream: TP.Channel, k: nat)
    requires k <= |ranges|
  {
    ShownUpTo(part, stream) == Start(ranges, k) && ShownText(part, stream) == Bounded(Text(ranges[..k]))
  }

  /** Has the text of the first `k` ranges lost its beginning? */
  predicate IsCut(ranges: seq<Range>, k: nat)
    requires k <= |ranges|
  {
    |Text(ranges[..k])| > TP.MAX_LIVE_TEXT
  }

  /** The part shows the first `k` ranges of standard output and the first `j` of standard error, and marks what is missing. */
  predicate ShowsWhatArrived(part: TP.ToolPart, streams: Streams, k: nat, j: nat, gapped: bool) {
    && k <= |streams.stdout| && Shows(part, streams.stdout, TP.Stdout, k)
    && j <= |streams.stderr| && Shows(part, streams.stderr, TP.Stderr, j)
    && (part.live.truncated <==> gapped || IsCut(streams.stdout, k) || IsCut(streams.stderr, j))
  }

  /**
   Whatever ranges of the two streams arrive, repeated, missing, out of order and interleaved: for each
   stream the reader's offset is the end of the contiguous prefix that arrived in order, and the preview
   is that prefix's text, cut to its end. It is marked as truncated exactly when a range arrived ahead of
   its turn or one of the two texts was cut.
   */
  lemma {:induction false} PreviewIsAPrefix(streams: Streams, arrivals: seq<Arrival>, attempt: nat, call: nat, name: nat)
    requires Chained(streams.stdout) && Chained(streams.stderr)
    requires forall i :: 0 <= i < |arrivals| ==> Published(streams, arrivals[i])
    ensures var p := Preview(TP.FreshTool(attempt, call, name), streams, arrivals);
            p.Ok? && ShowsWhatArrived(p.value, streams, InOrder(arrivals, TP.Stdout), InOrder(arrivals, TP.Stderr), Gapped(arrivals))
  {
    assert streams.stdout[..0] == [] && streams.stderr[..0] == [];
    PreviewFrom(TP.FreshTool(attempt, call, name), streams, arrivals);
  }

  lemma {:induction false} PreviewFrom(part: TP.ToolPart, streams: Streams, arrivals: seq<Arrival>)
    requires Chained(streams.stdout) && Chained(streams.stderr) && ShowsWhatArrived(part, streams, 0, 0, false)
    requires forall i :: 0 <= i < |arrivals| ==> Published(streams, arrivals[i])
    ensures var p := Preview(part, streams, arrivals);
            p.Ok? && ShowsWhatArrived(p.value, streams, InOrder(arrivals, TP.Stdout), InOrder(arrivals, TP.Stderr), Gapped(arrivals))
  {
    if arrivals != [] {
      var init, last := arrivals[..|arrivals| - 1], arrivals[|arrivals| - 1];
      PreviewFrom(part, streams, init);
      assert Published(streams, last);
      ArrivalExtends(Preview(part, streams, init).value, streams, InOrder(init, TP.Stdout), InOrder(init, TP.Stderr),
                     Gapped(init), last);
    }
  }

  lemma {:induction false} ArrivalExtends(part: TP.ToolPart, streams: Streams, k: nat, j: nat, gapped: bool, last: Arrival)
    requires Chained(streams.stdout) && Chained(streams.stderr) && Published(streams, last)
    requires ShowsWhatArrived(part, streams, k, j, gapped)
    ensures var r := RangesOf(streams, last.stream)[last.index];
            var next := TP.AppendLive(part, last.stream, r.text, r.offset, Some(r.next));
            next.Ok? && ShowsWhatArrived(next.value, streams,
                                         if last == Arrival(TP.Stdout, k) then k + 1 else k,
                                         if last == Arrival(TP.Stderr, j) then j + 1 else j,
                                         gapped || last.index > if last.stream == TP.Stdout then k else j)
  {
    ArrivalStep(part, RangesOf(streams, last.stream), last.stream, if last.stream == TP.Stdout then k else j, last.index);
  }

  function Other(stream: TP.Channel): TP.Channel {
    if stream == TP.Stdout then TP.Stderr else TP.Stdout
  }

  lemma AppendInOrder(part: TP.ToolPart, stream: TP.Channel, text: string, offset: nat, end: nat)
    requires ShownUpTo(part, stream) == offset < end
    ensures var next := TP.AppendLive(part, stream, text, offset, Some(end));
            && next.Ok? && ShownUpTo(next.value, stream) == end
            && ShownText(next.value, stream) == Bounded(ShownText(part, stream) + text)
            && ShownUpTo(next.value, Other(stream)) == ShownUpTo(part, Other(stream))
            && ShownText(next.value, Other(stream)) == ShownText(part, Other(stream))
            && (next.value.live.truncated <==> part.live.truncated || |ShownText(part, stream) + text| > TP.MAX_LIVE_TEXT)
  {
  }

  lemma NextRangeExtends(part: TP.ToolPart, ranges: seq<Range>, stream: TP.Channel, k: nat)
    requires k < |ranges| && Shows(part, ranges, stream, k) && ranges[k].offset == Start(ranges, k) < ranges[k].next
    requires IsCut(ranges, k) ==> part.live.truncated
    ensures var r := ranges[k];
            var next := TP.AppendLive(part, stream, r.text, r.offset, Some(r.next));
            && next.Ok? && Shows(next.value, ranges, stream, k + 1)
            && ShownUpTo(next.value, Other(stream)) == ShownUpTo(part, Other(stream))
            && ShownText(next.value, Other(stream)) == ShownText(part, Other(stream))
            && (next.value.live.truncated <==> part.live.truncated || IsCut(ranges, k + 1))
            && (IsCut(ranges, k) ==> IsCut(ranges, k + 1))
  {
    AppendInOrder(part, stream, ranges[k].text, ranges[k].offset, ranges[k].next);
    TextGrows(ranges, k);
  }

  /** The next range extends its stream's preview; an earlier one is ignored, a later one leaves a gap; the other stream stays. */
  lemma {:induction false} ArrivalStep(part: TP.ToolPart, ranges: seq<Range>, stream: TP.Channel, k: nat, last: nat)
    requires Chained(ranges) && k <= |ranges| && last < |ranges| && Shows(part, ranges, stream, k)
    requires IsCut(ranges, k) ==> part.live.truncated
    ensures var r := ranges[last];
            var next := TP.AppendLive(part, stream, r.text, r.offset, Some(r.next));
            var j := if last == k then k + 1 else k;
            && next.Ok? && Shows(next.value, ranges, stream, j)
            && ShownUpTo(next.value, Other(stream)) == ShownUpTo(part, Other(stream))
            && ShownText(next.value, Other(stream)) == ShownText(part, Other(stream))
            && (next.value.live.truncated <==> part.live.truncated || last > k || (last == k && IsCut(ranges, k + 1)))
            && (IsCut(ranges, k) ==> IsCut(ranges, j))
  {
    assert Start(ranges, last) == ranges[last].offset < ranges[last].next;
    if last == k {
      NextRangeExtends(part, ranges, stream, k);
    } else if last < k {
      StartsAreOrdered(ranges, last, k);
    } else {
      StartsAreOrdered(ranges, k, last);
    }
  }

  lemma TextGrows(ranges: seq<Range>, k: nat)
    requires k < |ranges|
    ensures Bounded(Bounded(Text(ranges[..k])) + ranges[k].text) == Bounded(Text(ranges[..k + 1]))
    ensures |Text(ranges[..k])| <= |Text(ranges[..k + 1])|
    ensures |Bounded(Text(ranges[..k])) + ranges[k].text| > TP.MAX_LIVE_TEXT ==> IsCut(ranges, k + 1)
    ensures |Bounded(Text(ranges[..k])) + ranges[k].text| <= TP.MAX_LIVE_TEXT ==> !IsCut(ranges, k + 1) || IsCut(ranges, k)
  {
    assert ranges[..k + 1][..k] == ranges[..k];
    BoundedTwice(Text(ranges[..k]), ranges[k].text);
  }
}
