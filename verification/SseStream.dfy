/**
 The event stream end to end: frames as the server writes them, the decoder's
 agreement with the line-by-line reading of section 9.2.5 of the HTML Living
 Standard, and the client's read loop over arbitrary chunks.
 */
module SseStream {
  import opened SseDecoder
  import opened Text
  import opened Wrappers

  // ---- the standard's reading -----------------------------------------------------

  function AsSeq(event: Option<SseEvent>): seq<SseEvent> {
    if event.Some? then [event.value] else []
  }

  /** Line by line: an empty line dispatches the block of lines before it. */
  function ByLines(number: Numbers, text: string, block: seq<string>, line: string): seq<SseEvent>
    decreases text
  {
    if text == "" then []
    else if text[0] != '\n' then ByLines(number, text[1..], block, line + [text[0]])
    else if line != "" then ByLines(number, text[1..], block + [line], "")
    else AsSeq(Dispatch(number, block)) + ByLines(number, text[1..], [], "")
  }

  function NonEmpty(lines: seq<string>): seq<string> {
    if lines == [] then []
    else NonEmpty(lines[..|lines| - 1]) + (if lines[|lines| - 1] == "" then [] else [lines[|lines| - 1]])
  }

  lemma {:induction false} DispatchIgnoresEmptyLines(number: Numbers, lines: seq<string>)
    ensures Dispatch(number, NonEmpty(lines)) == Dispatch(number, lines)
  {
    FieldsIgnoreEmptyLines(lines, "id:");
    FieldsIgnoreEmptyLines(lines, "event:");
  }

  lemma {:induction false} FieldsIgnoreEmptyLines(lines: seq<string>, name: string)
    requires name != ""
    ensures LastField(NonEmpty(lines), name) == LastField(lines, name)
    ensures DataText(NonEmpty(lines)) == DataText(lines)
  {
    if lines != [] {
      var before, last := lines[..|lines| - 1], lines[|lines| - 1];
      FieldsIgnoreEmptyLines(before, name);
      if last == "" {
        assert NonEmpty(lines) == NonEmpty(before);
      } else {
        assert NonEmpty(lines)[..|NonEmpty(lines)| - 1] == NonEmpty(before);
      }
    }
  }

  lemma {:induction false} LastLineIsEmpty(s: string)
    ensures SplitLines(s)[|SplitLines(s)| - 1] == "" <==> s == "" || s[|s| - 1] == '\n'
  {
  }

  /** `text` was read since the last dispatch, without a blank line; its finished lines are `block`. */
  predicate Reading(text: string, block: seq<string>, line: string) {
    var lines := SplitLines(text);
    FirstBreak(text) == |text| && lines[|lines| - 1] == line && NonEmpty(lines[..|lines| - 1]) == block
  }

  lemma {:induction false} SplittingReadsByLines(number: Numbers, text: string, read: string, block: seq<string>, line: string)
    requires Reading(read, block, line)
    ensures EventsOf(number, Parts(read + text)) == ByLines(number, text, block, line)
    decreases |text|
  {
    if text == "" {
      assert read + text == read;
    } else {
      var c, rest := text[0], text[1..];
      assert read + text == read + [c] + rest;
      if c == '\n' && line == "" && read != "" {
        BlankLineDispatches(number, rest, read, block);
        assert "" + rest == rest;
        SplittingReadsByLines(number, rest, "", [], "");
      } else {
        StillReading(read, block, line, c);
        EmptyBlockIsSilent(number, block, line, read);
        SplittingReadsByLines(number, rest, read + [c], if c != '\n' || line == "" then block else block + [line],
                              if c != '\n' then line + [c] else "");
      }
    }
  }

  lemma EmptyBlockIsSilent(number: Numbers, block: seq<string>, line: string, read: string)
    requires Reading(read, block, line)
    ensures read == "" ==> block == [] && AsSeq(Dispatch(number, block)) == []
  {
  }

  lemma {:induction false} BlankLineDispatches(number: Numbers, text: string, read: string, block: seq<string>)
    requires Reading(read, block, "") && read != ""
    ensures EventsOf(number, Parts(read + ['\n'] + text)) == AsSeq(Dispatch(number, block)) + EventsOf(number, Parts(text))
  {
    LastLineIsEmpty(read);
    var part := read[..|read| - 1];
    var whole := read + ['\n'] + text;
    assert read == part + ['\n'];
    SplitAppend(part, '\n', '\n');
    DispatchIgnoresEmptyLines(number, SplitLines(part));
    SecondEndingBreaks(part, text);
    assert whole == part + "\n\n" + text;
    assert whole[|part| + 2..] == text && whole[..|part|] == part;
    EventsConcat(number, [part], Parts(text));
    assert EventsOf(number, [part]) == AsSeq(Dispatch(number, block));
  }

  lemma StillReading(read: string, block: seq<string>, line: string, c: char)
    requires Reading(read, block, line) && (c != '\n' || line != "" || read == "")
    ensures if c != '\n' then Reading(read + [c], block, line + [c])
            else Reading(read + [c], if line == "" then block else block + [line], "")
  {
    SplitAppend(read, c, '\n');
    LastLineIsEmpty(read);
    NoNewBreak(read, c);
    var lines, next := SplitLines(read), SplitLines(read + [c]);
    if c != '\n' {
      assert next[..|next| - 1] == lines[..|lines| - 1];
    } else {
      assert next[..|next| - 1] == lines;
    }
  }

  lemma {:induction false} NoNewBreak(read: string, c: char)
    requires FirstBreak(read) == |read| && (c != '\n' || read == "" || read[|read| - 1] != '\n')
    ensures FirstBreak(read + [c]) == |read + [c]|
  {
    if |read| > 1 {
      NoNewBreak(read[1..], c);
      assert (read + [c])[1..] == read[1..] + [c];
    }
  }

  lemma {:induction false} SecondEndingBreaks(part: string, text: string)
    requires FirstBreak(part + "\n") == |part| + 1
    ensures FirstBreak(part + "\n\n" + text) == |part|
  {
    if part != "" {
      assert (part + "\n")[1..] == part[1..] + "\n";
      SecondEndingBreaks(part[1..], text);
      assert (part + "\n\n" + text)[1..] == part[1..] + "\n\n" + text;
    }
  }

  /** Main result: splitting at blank lines is the standard's line-by-line reading. */
  lemma DecodingFollowsTheStandard(number: Numbers, s: string)
    ensures Decoded(number, s) == ByLines(number, Newlines(Readable(s)), [], "")
  {
    var text := Newlines(Readable(s));
    SplittingReadsByLines(number, text, "", [], "");
    assert "" + text == text;
  }

  // ---- what the server writes -----------------------------------------------------

  datatype Item = Sent(event: SseEvent) | Heartbeat

  ghost predicate ReadsDecimals(number: Numbers) {
    forall n: nat :: number(Decimal(n)) == Some(n)
  }

  /** No line break inside and no blank around, as event types and JSON texts are. */
  predicate Sendable(event: SseEvent) {
    && event.kind != "" && Trim(event.kind) == event.kind && TrimStart(event.data) == event.data
    && '\n' !in event.kind + event.data && '\r' !in event.kind + event.data
  }

  function IdLine(event: SseEvent): string { "id: " + Decimal(event.sequence) }

  function EventLine(event: SseEvent): string { "event: " + event.kind }

  function DataLine(event: SseEvent): string { "data: " + event.data }

  function Frame(item: Item): string {
    if item.Heartbeat? then ": heartbeat\n\n"
    else IdLine(item.event) + "\n" + EventLine(item.event) + "\n" + DataLine(item.event) + "\n\n"
  }

  function Wire(items: seq<Item>): string {
    if items == [] then "" else Frame(items[0]) + Wire(items[1..])
  }

  ghost predicate AllSendable(items: seq<Item>) {
    forall i :: 0 <= i < |items| && items[i].Sent? ==> Sendable(items[i].event)
  }

  function EventsIn(items: seq<Item>): seq<SseEvent> {
    if items == [] then [] else (if items[0].Sent? then [items[0].event] else []) + EventsIn(items[1..])
  }

  lemma {:induction false} ReadsALine(number: Numbers, l: string, read: string, rest: string, block: seq<string>)
    requires '\n' !in l && read + l != ""
    ensures ByLines(number, l + "\n" + rest, block, read) == ByLines(number, rest, block + [read + l], "")
    decreases |l|
  {
    var text := l + "\n" + rest;
    if l == "" {
      assert text[1..] == rest && read + l == read;
    } else {
      assert text[1..] == l[1..] + "\n" + rest && read + l == (read + [l[0]]) + l[1..];
      ReadsALine(number, l[1..], read + [l[0]], rest, block);
    }
  }

  lemma {:induction false} TrimAfterBlank(s: string)
    ensures TrimStart(" " + s) == TrimStart(s) && Trim(" " + s) == Trim(s)
  {
    assert (" " + s)[1..] == s;
  }

  lemma {:induction false} FieldsAppend(lines: seq<string>, l: string, name: string)
    ensures LastField(lines + [l], name) == if name <= l then Some(Trim(l[|name|..])) else LastField(lines, name)
    ensures var before := DataText(lines);
            DataText(lines + [l]) == if !("data:" <= l) then before else
              Some((if before.Some? then before.value + "\n" else "") + TrimStart(l[5..]))
  {
    assert (lines + [l])[..|lines|] == lines;
  }

  lemma {:induction false} DecimalIsTrimmed(n: nat)
    ensures Trim(Decimal(n)) == Decimal(n)
  {
  }

  lemma FieldsOfAFrame(number: Numbers, event: SseEvent)
    requires Sendable(event) && ReadsDecimals(number)
    ensures Dispatch(number, [IdLine(event)] + [EventLine(event)] + [DataLine(event)]) == Some(event)
  {
    var id, kind, data := IdLine(event), EventLine(event), DataLine(event);
    LineValues(event);
    FieldsAppend([], id, "id:");
    FieldsAppend([id], kind, "id:");
    FieldsAppend([id] + [kind], data, "id:");
    FieldsAppend([id], kind, "event:");
    FieldsAppend([id] + [kind], data, "event:");
    assert [] + [id] == [id];
    var lines := [id] + [kind] + [data];
    assert LastField(lines, "id:") == Some(Decimal(event.sequence));
    assert LastField(lines, "event:") == Some(event.kind);
    assert DataText([id]) == None;
    assert DataText([id] + [kind]) == None;
    assert "" + event.data == event.data;
  }

  lemma LineValues(event: SseEvent)
    requires Sendable(event)
    ensures var id, kind, data := IdLine(event), EventLine(event), DataLine(event);
            && "id:" <= id && !("data:" <= id) && "event:" <= kind && !("id:" <= kind) && !("data:" <= kind)
            && "data:" <= data && !("id:" <= data) && !("event:" <= data)
            && Trim(id[3..]) == Decimal(event.sequence) && Trim(kind[6..]) == event.kind
            && TrimStart(data[5..]) == event.data
  {
    var id, kind, data := IdLine(event), EventLine(event), DataLine(event);
    assert id[0] == 'i' && kind[0] == 'e' && data[0] == 'd';
    assert id[3..] == " " + Decimal(event.sequence) && kind[6..] == " " + event.kind && data[5..] == " " + event.data;
    TrimAfterBlank(Decimal(event.sequence));
    TrimAfterBlank(event.kind);
    TrimAfterBlank(event.data);
    DecimalIsTrimmed(event.sequence);
  }

  lemma {:induction false} ReadsThreeLines(number: Numbers, a: string, b: string, c: string, rest: string)
    requires a != "" && b != "" && c != "" && '\n' !in a && '\n' !in b && '\n' !in c
    ensures ByLines(number, a + "\n" + b + "\n" + c + "\n\n" + rest, [], "")
         == AsSeq(Dispatch(number, [a] + [b] + [c])) + ByLines(number, rest, [], "")
  {
    var rest2 := c + "\n" + ("\n" + rest);
    var rest1 := b + "\n" + rest2;
    assert a + "\n" + b + "\n" + c + "\n\n" + rest == a + "\n" + rest1;
    ReadsALine(number, a, "", rest1, []);
    ReadsALine(number, b, "", rest2, [a]);
    ReadsALine(number, c, "", "\n" + rest, [a] + [b]);
    assert "" + a == a && "" + b == b && "" + c == c && [] + [a] == [a];
    assert ("\n" + rest)[1..] == rest;
  }

  lemma {:induction false} HeartbeatReadsBack(number: Numbers, rest: string)
    ensures ByLines(number, Frame(Heartbeat) + rest, [], "") == ByLines(number, rest, [], "")
  {
    var l := ": heartbeat";
    assert Frame(Heartbeat) + rest == l + "\n" + ("\n" + rest);
    ReadsALine(number, l, "", "\n" + rest, []);
    assert ("\n" + rest)[1..] == rest && "" + l == l && [] + [l] == [l];
    FieldsAppend([], l, "id:");
    FieldsAppend([], l, "event:");
  }

  lemma {:induction false} FrameReadsBack(number: Numbers, item: Item, rest: string)
    requires ReadsDecimals(number) && (item.Sent? ==> Sendable(item.event))
    ensures ByLines(number, Frame(item) + rest, [], "")
         == (if item.Sent? then [item.event] else []) + ByLines(number, rest, [], "")
  {
    if item.Heartbeat? {
      HeartbeatReadsBack(number, rest);
    } else {
      LinesHaveNoBreak(item.event);
      ReadsThreeLines(number, IdLine(item.event), EventLine(item.event), DataLine(item.event), rest);
      FieldsOfAFrame(number, item.event);
    }
  }

  lemma LinesHaveNoBreak(event: SseEvent)
    requires Sendable(event)
    ensures '\n' !in IdLine(event) && '\n' !in EventLine(event) && '\n' !in DataLine(event)
    ensures '\r' !in IdLine(event) && '\r' !in EventLine(event) && '\r' !in DataLine(event)
  {
    assert forall c :: c in event.kind || c in event.data ==> c in event.kind + event.data;
  }

  lemma {:induction false} WireReadsBack(number: Numbers, items: seq<Item>)
    requires ReadsDecimals(number) && AllSendable(items)
    ensures ByLines(number, Wire(items), [], "") == EventsIn(items)
    ensures '\r' !in Wire(items)
  {
    if items != [] {
      FrameReadsBack(number, items[0], Wire(items[1..]));
      WireReadsBack(number, items[1..]);
      FrameHasNoCr(items[0]);
    }
  }

  lemma FrameHasNoCr(item: Item)
    requires item.Sent? ==> Sendable(item.event)
    ensures '\r' !in Frame(item)
  {
    if item.Sent? { LinesHaveNoBreak(item.event); }
  }

  /** Round trip: decoding what the server writes gives the events it sent; heartbeats leave no trace. */
  lemma {:induction false} WireDecodes(number: Numbers, items: seq<Item>)
    requires ReadsDecimals(number) && AllSendable(items)
    ensures Decoded(number, Wire(items)) == EventsIn(items)
  {
    WireReadsBack(number, items);
    DecodesWithoutCr(number, Wire(items));
  }

  lemma {:induction false} DecodesWithoutCr(number: Numbers, text: string)
    requires '\r' !in text
    ensures Decoded(number, text) == ByLines(number, text, [], "")
  {
    NewlinesKeeps(text);
    DecodingFollowsTheStandard(number, text);
  }

  /** Wherever the connection is cut, what was decoded is a prefix of what was sent. */
  lemma {:induction false} CutStreamDecodesToAPrefix(number: Numbers, items: seq<Item>, cut: nat)
    requires ReadsDecimals(number) && AllSendable(items) && cut <= |Wire(items)|
    ensures Decoded(number, Wire(items)[..cut]) <= EventsIn(items)
  {
    WireDecodes(number, items);
    PrefixDecodesToAPrefix(number, Wire(items), cut);
  }

  lemma PrefixDecodesToAPrefix(number: Numbers, text: string, cut: nat)
    requires cut <= |text|
    ensures Decoded(number, text[..cut]) <= Decoded(number, text)
  {
    assert text == text[..cut] + text[cut..];
    DecodingIsIndependentOfChunks(number, text[..cut], text[cut..]);
  }

  // ---- the client's read loop --------------------------------------------------------

  const SSE_MAX_BUFFER := 1024 * 1024

  datatype Ending = Finished | FrameTooLong

  function Joined(chunks: seq<string>): string {
    if chunks == [] then "" else Joined(chunks[..|chunks| - 1]) + chunks[|chunks| - 1]
  }

  /** The buffer after these chunks. */
  function BufferAfter(chunks: seq<string>): string {
    if chunks == [] then "" else Rest(BufferAfter(chunks[..|chunks| - 1]) + chunks[|chunks| - 1])
  }

  function ReadFrom(number: Numbers, chunks: seq<string>): seq<SseEvent> {
    if chunks == [] then []
    else
      var before, last := chunks[..|chunks| - 1], chunks[|chunks| - 1];
      ReadFrom(number, before) + Decoded(number, BufferAfter(before) + last)
  }

  /** Reading chunk by chunk is decoding the whole text. */
  lemma {:induction false} ReadingIsDecoding(number: Numbers, chunks: seq<string>)
    ensures ReadFrom(number, chunks) == Decoded(number, Joined(chunks)) && BufferAfter(chunks) == Rest(Joined(chunks))
  {
    if chunks != [] {
      ReadingIsDecoding(number, chunks[..|chunks| - 1]);
      DecodingIsIndependentOfChunks(number, Joined(chunks[..|chunks| - 1]), chunks[|chunks| - 1]);
    }
  }

  /** No unfinished frame outgrew the buffer after any of these chunks. */
  predicate Fits(chunks: seq<string>) {
    chunks != [] ==> |BufferAfter(chunks)| <= SSE_MAX_BUFFER && Fits(chunks[..|chunks| - 1])
  }

  lemma {:induction false} FitsShrinks(chunks: seq<string>, k: nat)
    requires k <= |chunks| && Fits(chunks)
    ensures Fits(chunks[..k])
  {
    if k == |chunks| {
      assert chunks[..k] == chunks;
    } else {
      FitsShrinks(chunks[..|chunks| - 1], k);
      assert chunks[..|chunks| - 1][..k] == chunks[..k];
    }
  }

  /**
   Reads decoded chunks until the stream ends; `flushed` is what the text decoder adds at the end.
   It stops at the first chunk after which one unfinished frame outgrows the buffer.
   */
  method StreamEvents(number: Numbers, chunks: seq<string>, flushed: string) returns (events: seq<SseEvent>, read: nat, ending: Ending)
    ensures read <= |chunks|
    ensures ending.Finished? <==> Fits(chunks)
    ensures ending.Finished? ==> read == |chunks| && events == ReadFrom(number, chunks + [flushed])
    ensures ending.FrameTooLong? ==> read > 0 && events == ReadFrom(number, chunks[..read])
                                     && Fits(chunks[..read - 1]) && !Fits(chunks[..read])
  {
    var buffer := "";
    events := [];
    for i := 0 to |chunks|
      invariant events == ReadFrom(number, chunks[..i]) && buffer == BufferAfter(chunks[..i])
      invariant Fits(chunks[..i])
    {
      assert chunks[..i + 1][..i] == chunks[..i];
      var more, rest := ConsumeSse(number, buffer + chunks[i]);
      buffer := rest;
      events := events + more;
      if |buffer| > SSE_MAX_BUFFER {
        if Fits(chunks) { FitsShrinks(chunks, i + 1); }
        return events, i + 1, FrameTooLong;
      }
    }
    assert chunks[..|chunks|] == chunks;
    assert (chunks + [flushed])[..|chunks|] == chunks;
    var last, _ := ConsumeSse(number, buffer + flushed);
    return events + last, |chunks|, Finished;
  }
}
