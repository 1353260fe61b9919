/**
 The text of one progress observation: a status line with the sizes of the two
 captures, then one framed byte range per stream. What the runner parses from a
 printed observation are ranges of the captures, however much they grew while
 they were read.
 */
module ProgressFrames {
  import opened JournalResponse
  import opened LiveOutput
  import opened Text
  import opened Wrappers
  import TP = ThreadProjection

  const PROGRESS_PREFIX := "__CLOUD_SWE_PROGRESS__"

  /** Base64: what was encoded decodes, and an encoding is one line. */
  datatype Codec = Codec(encode: seq<Byte> -> string, decode: string -> seq<Byte>)

  ghost predicate Base64(codec: Codec) {
    forall bytes :: codec.decode(codec.encode(bytes)) == bytes && '\n' !in codec.encode(bytes)
  }

  /** JavaScript's `Number` on a text of digits. */
  type Sizes = string -> nat

  ghost predicate ReadsSizes(number: Sizes) {
    forall n: nat :: number(Decimal(n)) == n
  }

  datatype Observation = Unread | Available(state: State, stdoutSize: nat, stderrSize: nat, chunks: seq<Chunk>)

  function StreamText(stream: TP.Channel): string {
    if stream == TP.Stdout then "stdout" else "stderr"
  }

  function StreamOf(text: string): Option<TP.Channel> {
    if text == "stdout" then Some(TP.Stdout) else if text == "stderr" then Some(TP.Stderr) else None
  }

  function BeginMark(id: string): string {
    PROGRESS_PREFIX + id + ":"
  }

  function Header(id: string, chunk: Chunk): string {
    BeginMark(id) + Join([StreamText(chunk.stream), Decimal(chunk.offset)], ':')
  }

  function Closing(id: string, stream: TP.Channel): string {
    PROGRESS_PREFIX + "END:" + id + ":" + StreamText(stream)
  }

  /** The line that closes a frame names its command and its stream. */
  lemma FramesAreClosedByName(id: string, stream: TP.Channel)
    ensures Closing(id, stream) == "__CLOUD_SWE_PROGRESS__END:" + id + (if stream == TP.Stdout then ":stdout" else ":stderr")
  {
    Associate("__CLOUD_SWE_PROGRESS__END:" + id, ":", StreamText(stream));
  }

  lemma Associate(a: string, b: string, c: string)
    ensures a + b + c == a + (b + c)
  {
  }

  // ---- printing in the guest -----------------------------------------------------------

  function SizeColumns(id: string, state: State, stdoutSize: nat, stderrSize: nat): seq<string> {
    [RESULT_PREFIX + id, StateText(state), "", "0", "0", Decimal(stdoutSize), Decimal(stderrSize)]
  }

  function Frame(codec: Codec, id: string, chunk: Chunk): (lines: seq<string>)
    ensures |lines| == 3
  {
    [Header(id, chunk), codec.encode(chunk.bytes), Closing(id, chunk.stream)]
  }

  function FrameLines(codec: Codec, id: string, chunks: seq<Chunk>): seq<string> {
    if chunks == [] then [] else Frame(codec, id, chunks[0]) + FrameLines(codec, id, chunks[1..])
  }

  function PrintedLines(codec: Codec, id: string, state: State, stdoutSize: nat, stderrSize: nat, chunks: seq<Chunk>): (lines: seq<string>)
    ensures lines != []
  {
    [Join(SizeColumns(id, state, stdoutSize, stderrSize), '\t')] + (FrameLines(codec, id, chunks) + [""])
  }

  /** What a request asks of one stream. */
  datatype Ask = Ask(offset: nat, limit: nat)

  /** The range of one stream that an observation prints. */
  function Wanted(stream: TP.Channel, size: nat, capture: seq<Byte>, ask: Ask): seq<Chunk> {
    if size <= ask.offset || Slice(capture, ask.offset, ask.limit) == [] then []
    else [Chunk(stream, ask.offset, Slice(capture, ask.offset, ask.limit))]
  }

  lemma {:induction false} FramesConcat(codec: Codec, id: string, a: seq<Chunk>, b: seq<Chunk>)
    ensures FrameLines(codec, id, a + b) == FrameLines(codec, id, a) + FrameLines(codec, id, b)
  {
    if a == [] {
      assert a + b == b;
    } else {
      FramesConcat(codec, id, a[1..], b);
      FirstFrame(codec, id, a + b);
      FirstFrame(codec, id, a);
      assert (a + b)[1..] == a[1..] + b;
      AssociateConcat(Frame(codec, id, a[0]), FrameLines(codec, id, a[1..]), FrameLines(codec, id, b));
    }
  }

  lemma {:induction false} FirstFrame(codec: Codec, id: string, chunks: seq<Chunk>)
    requires chunks != []
    ensures FrameLines(codec, id, chunks) == Frame(codec, id, chunks[0]) + FrameLines(codec, id, chunks[1..])
  {
  }

  lemma {:induction false} AssociateConcat<T>(a: seq<T>, b: seq<T>, c: seq<T>)
    ensures a + (b + c) == a + b + c
  {
  }

  /** The guest program: the sizes were taken first, and the captures may have grown when they are read. */
  method PrintProgress(codec: Codec, id: string, state: State, stdoutSize: nat, stderrSize: nat, stdout: seq<Byte>,
                       stderr: seq<Byte>, out: Ask, err: Ask, wishes: nat -> nat) returns (output: string)
    ensures output == JoinLines(PrintedLines(codec, id, state, stdoutSize, stderrSize,
                                             Wanted(TP.Stdout, stdoutSize, stdout, out) + Wanted(TP.Stderr, stderrSize, stderr, err)))
  {
    var lines := [Join([RESULT_PREFIX + id, StateText(state), "", "0", "0", Decimal(stdoutSize), Decimal(stderrSize)], '\t')];
    var first := PrintStream(codec, id, TP.Stdout, stdoutSize, stdout, out, wishes);
    var second := PrintStream(codec, id, TP.Stderr, stderrSize, stderr, err, wishes);
    FramesConcat(codec, id, Wanted(TP.Stdout, stdoutSize, stdout, out), Wanted(TP.Stderr, stderrSize, stderr, err));
    assert lines + first + second + [""] == lines + (first + second + [""]);
    output := JoinLines(lines + first + second + [""]);
  }

  /** One stream of the guest program. */
  method PrintStream(codec: Codec, id: string, stream: TP.Channel, size: nat, capture: seq<Byte>, ask: Ask, wishes: nat -> nat)
    returns (lines: seq<string>)
    ensures lines == FrameLines(codec, id, Wanted(stream, size, capture, ask))
  {
    if ask.limit == 0 || size <= ask.offset { return []; }
    var data := ReadCapture(capture, ask.offset, ask.limit, wishes);
    if data == [] { return []; }
    var begin := PROGRESS_PREFIX + id + ":";
    lines := [begin + Join([StreamText(stream), Decimal(ask.offset)], ':'), codec.encode(data), Closing(id, stream)];
    assert lines + [] == FrameLines(codec, id, [Chunk(stream, ask.offset, data)]);
  }

  // ---- parsing in the runner -------------------------------------------------------------

  datatype Progress = Progress(state: State, stdoutSize: nat, stderrSize: nat)

  function ParseSizes(number: Sizes, line: string, id: string): Option<Progress> {
    if !(RESULT_PREFIX + id + "\t" <= line) then None
    else
      var columns := Split(line, '\t');
      var state := StateOf(Column(columns, 1));
      if state.None? || !Digits(Column(columns, 5)) || !Digits(Column(columns, 6)) then None
      else Some(Progress(state.value, number(Column(columns, 5)), number(Column(columns, 6))))
  }

  function FirstSizes(number: Sizes, lines: seq<string>, id: string): Option<Progress> {
    if lines == [] then None
    else
      var status := ParseSizes(number, TrimEnd(lines[0]), id);
      if status.Some? then status else FirstSizes(number, lines[1..], id)
  }

  function StreamAndOffset(number: Sizes, columns: seq<string>): Option<(TP.Channel, nat)> {
    var stream := StreamOf(Column(columns, 0));
    if stream.None? || !Digits(Column(columns, 1)) then None else Some((stream.value, number(Column(columns, 1))))
  }

  /** The stream and offset that a header line announces. */
  function Announced(number: Sizes, line: string, id: string): Option<(TP.Channel, nat)> {
    if !(BeginMark(id) <= line) then None else StreamAndOffset(number, Split(line[|BeginMark(id)|..], ':'))
  }

  function SizeOf(status: Progress, stream: TP.Channel): nat {
    if stream == TP.Stdout then status.stdoutSize else status.stderrSize
  }

  /** A range is cut at the size that the status line announced. */
  function Cut(status: Progress, chunk: Chunk): seq<Chunk> {
    var room := if SizeOf(status, chunk.stream) <= chunk.offset then 0 else SizeOf(status, chunk.stream) - chunk.offset;
    var bytes := chunk.bytes[..Min(|chunk.bytes|, room)];
    if bytes == [] then [] else [chunk.(bytes := bytes)]
  }

  /** The stream and offset of the frame that starts at a line, if it is closed two lines later. */
  function FrameAt(number: Sizes, lines: seq<string>, index: nat, id: string): Option<(TP.Channel, nat)>
    requires index < |lines|
  {
    var header := Announced(number, TrimEnd(lines[index]), id);
    if header.None? || index + 2 >= |lines| || TrimEnd(lines[index + 2]) != Closing(id, header.value.0) then None else header
  }

  function ChunksOf(codec: Codec, number: Sizes, status: Progress, lines: seq<string>, index: nat, id: string): seq<Chunk>
    requires index <= |lines|
    decreases |lines| - index
  {
    if index == |lines| then []
    else
      var frame := FrameAt(number, lines, index, id);
      if frame.None? then ChunksOf(codec, number, status, lines, index + 1, id)
      else Cut(status, Chunk(frame.value.0, frame.value.1, codec.decode(lines[index + 1])))
           + ChunksOf(codec, number, status, lines, index + 3, id)
  }

  function Parsed(codec: Codec, number: Sizes, output: string, id: string): Observation {
    var lines := SplitLines(output);
    var status := FirstSizes(number, lines, id);
    if status.None? || status.value.state.Unknown? then Unread
    else Available(status.value.state, status.value.stdoutSize, status.value.stderrSize,
                   ChunksOf(codec, number, status.value, lines, 0, id))
  }

  /** No range is empty, and none reaches past the size that its stream was announced with. */
  predicate Within(status: Progress, chunks: seq<Chunk>) {
    forall i :: 0 <= i < |chunks| ==>
      chunks[i].bytes != [] && chunks[i].offset + |chunks[i].bytes| <= SizeOf(status, chunks[i].stream)
  }

  lemma {:induction false} ParsedRangesStayWithin(codec: Codec, number: Sizes, status: Progress, lines: seq<string>, index: nat, id: string)
    requires index <= |lines|
    ensures Within(status, ChunksOf(codec, number, status, lines, index, id))
    decreases |lines| - index
  {
    if index < |lines| {
      var frame := FrameAt(number, lines, index, id);
      if frame.None? {
        ParsedRangesStayWithin(codec, number, status, lines, index + 1, id);
      } else {
        ParsedRangesStayWithin(codec, number, status, lines, index + 3, id);
        CutStaysWithin(status, Chunk(frame.value.0, frame.value.1, codec.decode(lines[index + 1])));
        WithinConcat(status, Cut(status, Chunk(frame.value.0, frame.value.1, codec.decode(lines[index + 1]))),
                     ChunksOf(codec, number, status, lines, index + 3, id));
      }
    }
  }

  lemma CutStaysWithin(status: Progress, chunk: Chunk)
    ensures Within(status, Cut(status, chunk))
  {
  }

  lemma WithinConcat(status: Progress, a: seq<Chunk>, b: seq<Chunk>)
    requires Within(status, a) && Within(status, b)
    ensures Within(status, a + b)
  {
  }

  /** Whatever was printed, the ranges that come out of it stay within the sizes that come out of it. */
  method ParseProgress(codec: Codec, number: Sizes, output: string, id: string) returns (observation: Observation)
    ensures observation == Parsed(codec, number, output, id)
    ensures observation.Available? ==>
              !observation.state.Unknown?
              && Within(Progress(observation.state, observation.stdoutSize, observation.stderrSize), observation.chunks)
  {
    var lines := SplitLines(output);
    var status := FirstSizes(number, lines, id);
    if status.None? || status.value.state.Unknown? { return Unread; }
    var chunks := ParseChunks(codec, number, status.value, lines, id);
    ParsedRangesStayWithin(codec, number, status.value, lines, 0, id);
    return Available(status.value.state, status.value.stdoutSize, status.value.stderrSize, chunks);
  }

  method ParseChunks(codec: Codec, number: Sizes, status: Progress, lines: seq<string>, id: string) returns (chunks: seq<Chunk>)
    ensures chunks == ChunksOf(codec, number, status, lines, 0, id)
  {
    chunks := [];
    var index := 0;
    while index < |lines|
      invariant index <= |lines|
      invariant ChunksOf(codec, number, status, lines, 0, id) == chunks + ChunksOf(codec, number, status, lines, index, id)
    {
      var frame := ReadFrame(number, lines, index, id);
      if frame.None? {
        index := index + 1;
      } else {
        var chunk := Chunk(frame.value.0, frame.value.1, codec.decode(lines[index + 1]));
        AssociateConcat(chunks, Cut(status, chunk), ChunksOf(codec, number, status, lines, index + 3, id));
        chunks := chunks + Cut(status, chunk);
        index := index + 3;
      }
    }
  }

  /** A header without its closing line is skipped like any other line. */
  method ReadFrame(number: Sizes, lines: seq<string>, index: nat, id: string) returns (frame: Option<(TP.Channel, nat)>)
    requires index < |lines|
    ensures frame == FrameAt(number, lines, index, id)
    ensures frame.Some? ==> index + 2 < |lines|
  {
    var header := Announced(number, TrimEnd(lines[index]), id);
    if header.None? { return None; }
    var closing := if index + 2 < |lines| then TrimEnd(lines[index + 2]) else "";
    if index + 1 >= |lines| || closing != Closing(id, header.value.0) { return None; }
    return header;
  }

  // ---- the round trip ----------------------------------------------------------------------

  lemma {:induction false} TrimEndKeeps(s: string)
    requires s != "" && !IsSpace(s[|s| - 1])
    ensures TrimEnd(s) == s
  {
  }

  lemma {:induction false} AfterPrefix(prefix: string, rest: string)
    ensures prefix <= prefix + rest && (prefix + rest)[|prefix|..] == rest
    ensures rest != "" ==> (prefix + rest)[|prefix + rest| - 1] == rest[|rest| - 1]
  {
  }

  lemma {:induction false} HeaderReadsBack(number: Sizes, id: string, chunk: Chunk)
    requires ReadsSizes(number)
    ensures TrimEnd(Header(id, chunk)) == Header(id, chunk)
    ensures Announced(number, Header(id, chunk), id) == Some((chunk.stream, chunk.offset))
  {
    var columns := [StreamText(chunk.stream), Decimal(chunk.offset)];
    HeaderColumns(chunk);
    PrefixedLine(number, id, Join(columns, ':'), columns);
    StreamNames(chunk.stream);
    ColumnsAnnounce(number, columns, chunk.stream, chunk.offset);
  }

  lemma StreamNames(stream: TP.Channel)
    ensures StreamOf(StreamText(stream)) == Some(stream)
  {
    assert "stdout"[3] != "stderr"[3];
  }

  lemma {:induction false} ColumnsAnnounce(number: Sizes, columns: seq<string>, stream: TP.Channel, offset: nat)
    requires ReadsSizes(number) && |columns| == 2 && StreamOf(columns[0]) == Some(stream) && columns[1] == Decimal(offset)
    ensures StreamAndOffset(number, columns) == Some((stream, offset))
  {
  }

  lemma {:induction false} PrefixedLine(number: Sizes, id: string, rest: string, columns: seq<string>)
    requires Split(rest, ':') == columns && rest != "" && '0' <= rest[|rest| - 1] <= '9'
    ensures TrimEnd(BeginMark(id) + rest) == BeginMark(id) + rest
    ensures Announced(number, BeginMark(id) + rest, id) == StreamAndOffset(number, columns)
  {
    AfterPrefix(BeginMark(id), rest);
    TrimEndKeeps(BeginMark(id) + rest);
  }

  lemma {:induction false} HeaderColumns(chunk: Chunk)
    ensures var columns := [StreamText(chunk.stream), Decimal(chunk.offset)];
            && Split(Join(columns, ':'), ':') == columns && Join(columns, ':') != ""
            && '0' <= Join(columns, ':')[|Join(columns, ':')| - 1] <= '9'
  {
    var columns, digits := [StreamText(chunk.stream), Decimal(chunk.offset)], Decimal(chunk.offset);
    SplitOfJoin(columns, ':');
    assert Join(columns, ':') == Join(columns[..1], ':') + [':'] + digits;
    AfterPrefix(Join(columns[..1], ':') + [':'], digits);
  }

  lemma {:induction false} ClosingIsTrimmed(id: string, stream: TP.Channel)
    ensures TrimEnd(Closing(id, stream)) == Closing(id, stream)
  {
    AfterPrefix(PROGRESS_PREFIX + "END:" + id + ":", StreamText(stream));
    TrimEndKeeps(Closing(id, stream));
  }

  function CutAll(status: Progress, chunks: seq<Chunk>): seq<Chunk> {
    if chunks == [] then [] else Cut(status, chunks[0]) + CutAll(status, chunks[1..])
  }

  lemma {:induction false} FramesReadBack(codec: Codec, number: Sizes, status: Progress, id: string, lines: seq<string>, index: nat,
                                          chunks: seq<Chunk>)
    requires Base64(codec) && ReadsSizes(number) && index < |lines| && lines[index..] == FrameLines(codec, id, chunks) + [""]
    ensures ChunksOf(codec, number, status, lines, index, id) == CutAll(status, chunks)
    decreases |chunks|
  {
    var rest := lines[index..];
    if chunks == [] {
      assert rest == [""] && lines[index] == rest[0] == "";
      EmptyLineIsNoFrame(number, lines, index, id);
    } else {
      FirstFrame(codec, id, chunks);
      var frame := Frame(codec, id, chunks[0]);
      assert lines[index] == rest[0] == frame[0] && lines[index + 1] == rest[1] == frame[1] && lines[index + 2] == rest[2] == frame[2];
      assert lines[index + 3..] == rest[3..] == FrameLines(codec, id, chunks[1..]) + [""];
      FrameReadsBack(number, lines, index, id, chunks[0]);
      FramesReadBack(codec, number, status, id, lines, index + 3, chunks[1..]);
      assert codec.decode(codec.encode(chunks[0].bytes)) == chunks[0].bytes;
    }
  }

  lemma {:induction false} EmptyLineIsNoFrame(number: Sizes, lines: seq<string>, index: nat, id: string)
    requires index < |lines| && lines[index] == ""
    ensures FrameAt(number, lines, index, id).None?
  {
  }

  lemma {:induction false} FrameReadsBack(number: Sizes, lines: seq<string>, index: nat, id: string, chunk: Chunk)
    requires ReadsSizes(number) && index + 2 < |lines|
    requires lines[index] == Header(id, chunk) && lines[index + 2] == Closing(id, chunk.stream)
    ensures FrameAt(number, lines, index, id) == Some((chunk.stream, chunk.offset))
  {
    HeaderReadsBack(number, id, chunk);
    ClosingIsTrimmed(id, chunk.stream);
  }

  lemma {:induction false} SizesLineIsPlain(id: string, state: State, stdoutSize: nat, stderrSize: nat)
    requires SafeSegment(id)
    ensures var line := Join(SizeColumns(id, state, stdoutSize, stderrSize), '\t');
            TrimEnd(line) == line && '\n' !in line && RESULT_PREFIX + id + "\t" <= line
  {
    SafeSegmentIsPlain(id);
    var columns := SizeColumns(id, state, stdoutSize, stderrSize);
    JoinAvoids(columns, '\t', '\n');
    JoinConcat(columns[..1], columns[1..], '\t');
    assert columns == columns[..1] + columns[1..];
    AfterPrefix(Join(columns[..6], '\t') + ['\t'], Decimal(stderrSize));
    TrimEndKeeps(Join(columns, '\t'));
  }

  lemma {:induction false} SizesReadBack(number: Sizes, id: string, line: string, state: State, stdoutSize: nat, stderrSize: nat)
    requires ReadsSizes(number) && RESULT_PREFIX + id + "\t" <= line
    requires Split(line, '\t') == SizeColumns(id, state, stdoutSize, stderrSize)
    ensures ParseSizes(number, line, id) == Some(Progress(state, stdoutSize, stderrSize))
  {
    assert StateOf(StateText(state)) == Some(state);
  }

  lemma {:induction false} SizesSplit(id: string, state: State, stdoutSize: nat, stderrSize: nat)
    requires SafeSegment(id)
    ensures Split(Join(SizeColumns(id, state, stdoutSize, stderrSize), '\t'), '\t') == SizeColumns(id, state, stdoutSize, stderrSize)
  {
    SafeSegmentIsPlain(id);
    SplitOfJoin(SizeColumns(id, state, stdoutSize, stderrSize), '\t');
  }

  /** The status line is not taken for a frame. */
  lemma {:induction false} SizesLineIsNoFrame(number: Sizes, lines: seq<string>, id: string)
    requires lines != [] && RESULT_PREFIX + id + "\t" <= lines[0] && TrimEnd(lines[0]) == lines[0]
    ensures FrameAt(number, lines, 0, id).None?
  {
    assert lines[0][12] == RESULT_PREFIX[12] && BeginMark(id)[12] == PROGRESS_PREFIX[12];
  }

  lemma {:induction false} FramesAreLines(codec: Codec, id: string, chunks: seq<Chunk>)
    requires SafeSegment(id) && Base64(codec)
    ensures forall i :: 0 <= i < |FrameLines(codec, id, chunks)| ==> '\n' !in FrameLines(codec, id, chunks)[i]
  {
    if chunks != [] {
      SafeSegmentIsPlain(id);
      FramesAreLines(codec, id, chunks[1..]);
      JoinAvoids([StreamText(chunks[0].stream), Decimal(chunks[0].offset)], ':', '\n');
      assert '\n' !in codec.encode(chunks[0].bytes);
    }
  }

  lemma {:induction false} StatusLineIsFirst(number: Sizes, id: string, status: Progress)
    requires SafeSegment(id) && ReadsSizes(number)
    ensures var line := Join(SizeColumns(id, status.state, status.stdoutSize, status.stderrSize), '\t');
            && TrimEnd(line) == line && '\n' !in line && RESULT_PREFIX + id + "\t" <= line
            && ParseSizes(number, line, id) == Some(status)
  {
    var line := Join(SizeColumns(id, status.state, status.stdoutSize, status.stderrSize), '\t');
    SizesLineIsPlain(id, status.state, status.stdoutSize, status.stderrSize);
    SizesSplit(id, status.state, status.stdoutSize, status.stderrSize);
    SizesReadBack(number, id, line, status.state, status.stdoutSize, status.stderrSize);
  }

  lemma {:induction false} PrintedLinesSplit(codec: Codec, id: string, line: string, chunks: seq<Chunk>)
    requires SafeSegment(id) && Base64(codec) && '\n' !in line
    ensures SplitLines(JoinLines([line] + (FrameLines(codec, id, chunks) + [""]))) == [line] + (FrameLines(codec, id, chunks) + [""])
  {
    FramesAreLines(codec, id, chunks);
    SplitOfJoin([line] + (FrameLines(codec, id, chunks) + [""]), '\n');
  }

  /** Round trip: parsing a printed observation gives its state, its sizes and its ranges, cut at the sizes. */
  lemma {:induction false} PrintedProgressReadsBack(codec: Codec, number: Sizes, id: string, status: Progress, chunks: seq<Chunk>)
    requires SafeSegment(id) && Base64(codec) && ReadsSizes(number) && !status.state.Unknown?
    ensures Parsed(codec, number, JoinLines(PrintedLines(codec, id, status.state, status.stdoutSize, status.stderrSize, chunks)), id)
         == Available(status.state, status.stdoutSize, status.stderrSize, CutAll(status, chunks))
  {
    var line := Join(SizeColumns(id, status.state, status.stdoutSize, status.stderrSize), '\t');
    var frames := FrameLines(codec, id, chunks);
    StatusLineIsFirst(number, id, status);
    PrintedLinesSplit(codec, id, line, chunks);
    LinesReadBack(codec, number, id, status, [line] + (frames + [""]), chunks);
  }

  lemma {:induction false} LinesReadBack(codec: Codec, number: Sizes, id: string, status: Progress, lines: seq<string>, chunks: seq<Chunk>)
    requires Base64(codec) && ReadsSizes(number) && lines != [] && lines[1..] == FrameLines(codec, id, chunks) + [""]
    requires RESULT_PREFIX + id + "\t" <= lines[0] && TrimEnd(lines[0]) == lines[0]
    requires ParseSizes(number, lines[0], id) == Some(status)
    ensures FirstSizes(number, lines, id) == Some(status)
    ensures ChunksOf(codec, number, status, lines, 0, id) == CutAll(status, chunks)
  {
    SizesLineIsNoFrame(number, lines, id);
    FramesReadBack(codec, number, status, id, lines, 1, chunks);
  }

  /** The bytes of a capture that were there when its size was taken, from the offset on, up to the limit. */
  function Ranges(stream: TP.Channel, size: nat, capture: seq<Byte>, ask: Ask): seq<Chunk>
    requires size <= |capture|
  {
    if ask.limit == 0 || size <= ask.offset then [] else [Chunk(stream, ask.offset, Slice(capture[..size], ask.offset, ask.limit))]
  }

  /** Cutting a slice at a size is slicing what was there at that size. */
  lemma {:induction false} CutSlice(capture: seq<Byte>, size: nat, ask: Ask)
    requires ask.offset < size <= |capture|
    ensures var read := Slice(capture, ask.offset, ask.limit);
            read[..Min(|read|, size - ask.offset)] == Slice(capture[..size], ask.offset, ask.limit)
  {
    var read, small := Slice(capture, ask.offset, ask.limit), Slice(capture[..size], ask.offset, ask.limit);
    var n := Min(|read|, size - ask.offset);
    assert |small| == n;
    forall k | 0 <= k < n ensures read[k] == small[k] {
      assert read[k] == capture[ask.offset + k] == capture[..size][ask.offset + k];
    }
  }

  lemma {:induction false} CutIsTheCapture(stream: TP.Channel, status: Progress, capture: seq<Byte>, ask: Ask)
    requires SizeOf(status, stream) <= |capture|
    ensures CutAll(status, Wanted(stream, SizeOf(status, stream), capture, ask)) == Ranges(stream, SizeOf(status, stream), capture, ask)
  {
    var size, read := SizeOf(status, stream), Slice(capture, ask.offset, ask.limit);
    if ask.limit > 0 && ask.offset < size {
      var chunk := Chunk(stream, ask.offset, read);
      assert Wanted(stream, size, capture, ask) == [chunk];
      CutSlice(capture, size, ask);
      assert CutAll(status, [chunk]) == Cut(status, chunk) + [];
    }
  }

  lemma {:induction false} CutAllConcat(status: Progress, a: seq<Chunk>, b: seq<Chunk>)
    ensures CutAll(status, a + b) == CutAll(status, a) + CutAll(status, b)
  {
    if a == [] {
      assert a + b == b;
    } else {
      CutAllConcat(status, a[1..], b);
      assert (a + b)[1..] == a[1..] + b && (a + b)[0] == a[0];
      AssociateConcat(Cut(status, a[0]), CutAll(status, a[1..]), CutAll(status, b));
    }
  }

  /**
   Main result: what the runner parses from a printed observation is, for each stream, exactly the
   capture's bytes from the requested offset up to the limit and the size taken before, whatever the
   command wrote in between.
   */
  lemma {:induction false} ObservedRangesAreTheCaptures(codec: Codec, number: Sizes, id: string, status: Progress,
                                                        stdout: seq<Byte>, stderr: seq<Byte>, out: Ask, err: Ask)
    requires SafeSegment(id) && Base64(codec) && ReadsSizes(number) && !status.state.Unknown?
    requires status.stdoutSize <= |stdout| && status.stderrSize <= |stderr|
    ensures var printed := Wanted(TP.Stdout, status.stdoutSize, stdout, out) + Wanted(TP.Stderr, status.stderrSize, stderr, err);
            Parsed(codec, number, JoinLines(PrintedLines(codec, id, status.state, status.stdoutSize, status.stderrSize, printed)), id)
            == Available(status.state, status.stdoutSize, status.stderrSize,
                         Ranges(TP.Stdout, status.stdoutSize, stdout, out) + Ranges(TP.Stderr, status.stderrSize, stderr, err))
  {
    var a, b := Wanted(TP.Stdout, status.stdoutSize, stdout, out), Wanted(TP.Stderr, status.stderrSize, stderr, err);
    PrintedProgressReadsBack(codec, number, id, status, a + b);
    CutAllConcat(status, a, b);
    CutIsTheCapture(TP.Stdout, status, stdout, out);
    CutIsTheCapture(TP.Stderr, status, stderr, err);
  }
}
