/**
 The text a journal response is printed as, and its parser: a status line of
 tab-separated columns, then the two output sections between marker lines.
 Parsing a printed response gives back exactly what was recorded.
 */
module JournalResponse {
  import opened Text
  import opened Wrappers

  const RESULT_PREFIX := "__CLOUD_SWE_RESULT__"
  const STDOUT_BEGIN := "__CLOUD_SWE_STDOUT_BEGIN__"
  const STDOUT_END := "__CLOUD_SWE_STDOUT_END__"
  const STDERR_BEGIN := "__CLOUD_SWE_STDERR_BEGIN__"
  const STDERR_END := "__CLOUD_SWE_STDERR_END__"

  datatype State = Pending | Running | Completed | Failed | Unknown

  datatype Response = Response(state: State, code: Option<nat>, truncated: bool, timedOut: bool, stdout: string, stderr: string)

  datatype Status = Status(state: State, code: Option<int>, truncated: bool, timedOut: bool)

  datatype Observation = Observed(status: Status, stdout: string, stderr: string, outputAvailable: bool)
                       | ResponseMissing | SectionsMissing

  /** JavaScript's `Number` on a text of digits, perhaps after a minus sign. */
  type Numbers = string -> int

  predicate Settled(state: State) {
    state.Completed? || state.Failed?
  }

  function StateText(state: State): string {
    match state
    case Pending => "pending"
    case Running => "running"
    case Completed => "completed"
    case Failed => "failed"
    case Unknown => "unknown"
  }

  function Flag(b: bool): string {
    if b then "1" else "0"
  }

  /** Command ids are path segments. */
  predicate SafeSegment(id: string) {
    id != "" && forall i :: 0 <= i < |id| ==>
      'A' <= id[i] <= 'Z' || 'a' <= id[i] <= 'z' || '0' <= id[i] <= '9' || id[i] in "._-"
  }

  // ---- printing --------------------------------------------------------------------------

  function StatusColumns(id: string, r: Response): seq<string> {
    [RESULT_PREFIX + id, StateText(r.state), if r.code.Some? then Decimal(r.code.value) else "", Flag(r.truncated), Flag(r.timedOut)]
  }

  function StatusLine(id: string, r: Response): string {
    Join(StatusColumns(id, r), '\t')
  }

  /** What is printed, line by line; the contents of the sections may be several lines. */
  function Printed(id: string, r: Response): (pieces: seq<string>)
    ensures pieces != []
  {
    if Settled(r.state) then
      [StatusLine(id, r), STDOUT_BEGIN + id, r.stdout, STDOUT_END + id, STDERR_BEGIN + id, r.stderr, STDERR_END + id, ""]
    else [StatusLine(id, r), ""]
  }

  function Emitted(id: string, r: Response): string {
    JoinLines(Printed(id, r))
  }

  // ---- parsing -----------------------------------------------------------------------------

  function Column(columns: seq<string>, i: nat): string {
    if i < |columns| then columns[i] else ""
  }

  predicate Digits(s: string) {
    s != "" && forall i :: 0 <= i < |s| ==> '0' <= s[i] <= '9'
  }

  predicate IsInteger(s: string) {
    Digits(s) || (s != "" && s[0] == '-' && Digits(s[1..]))
  }

  function StateOf(text: string): Option<State> {
    if text == "pending" then Some(Pending) else if text == "running" then Some(Running)
    else if text == "completed" then Some(Completed) else if text == "failed" then Some(Failed)
    else if text == "unknown" then Some(Unknown) else None
  }

  function ParseStatusLine(number: Numbers, line: string, id: string): Option<Status> {
    if !(RESULT_PREFIX + id + "\t" <= line) then None
    else
      var columns := Split(line, '\t');
      var state := StateOf(Column(columns, 1));
      if state.None? then None
      else Some(Status(state.value, if IsInteger(Column(columns, 2)) then Some(number(Column(columns, 2))) else None,
                       Column(columns, 3) == "1", Column(columns, 4) == "1"))
  }

  function FirstStatus(number: Numbers, lines: seq<string>, id: string): Option<Status> {
    if lines == [] then None
    else
      var status := ParseStatusLine(number, TrimEnd(lines[0]), id);
      if status.Some? then status else FirstStatus(number, lines[1..], id)
  }

  /** The text between a begin marker line and the line that starts with the end marker. */
  function SectionOf(output: string, begin: string, end: string): Option<string> {
    var start := Find(output, begin + "\n", 0);
    if start == |output| then None
    else
      var from := start + |begin| + 1;
      var stop := Find(output, "\n" + end, from);
      if stop == |output| then None else Some(output[from..stop])
  }

  function Parsed(number: Numbers, output: string, id: string): Observation {
    var status := FirstStatus(number, SplitLines(output), id);
    if status.None? then ResponseMissing
    else if !Settled(status.value.state) then Observed(status.value, "", "", false)
    else
      var stdout := SectionOf(output, STDOUT_BEGIN + id, STDOUT_END + id);
      var stderr := SectionOf(output, STDERR_BEGIN + id, STDERR_END + id);
      if stdout.None? && stderr.None? then Observed(status.value, "", "", false)
      else if stdout.None? || stderr.None? then SectionsMissing
      else Observed(status.value, stdout.value, stderr.value, true)
  }

  // ---- occurrences ---------------------------------------------------------------------------

  predicate Occurs(text: string, pattern: string) {
    exists i :: 0 <= i <= |text| && OccursAt(text, pattern, i)
  }

  /** An occurrence, character by character. */
  lemma {:induction false} OccursChars(text: string, pattern: string, i: nat)
    requires OccursAt(text, pattern, i)
    ensures forall m :: i <= m < i + |pattern| ==> text[m] == pattern[m - i]
  {
    var slice := text[i..i + |pattern|];
    assert forall m :: i <= m < i + |pattern| ==> text[m] == slice[m - i];
  }

  /** A pattern without the separator that occurs in a text occurs in one of its pieces. */
  lemma {:induction false} OccursInAPiece(a: string, b: string, separator: char, pattern: string)
    requires separator !in pattern && pattern != "" && Occurs(a + [separator] + b, pattern)
    ensures Occurs(a, pattern) || Occurs(b, pattern)
  {
    var text := a + [separator] + b;
    var i :| 0 <= i <= |text| && OccursAt(text, pattern, i);
    OccursChars(text, pattern, i);
    assert text[|a|] == separator;
    if i + |pattern| <= |a| {
      assert a[i..i + |pattern|] == text[i..i + |pattern|];
      assert OccursAt(a, pattern, i);
    } else {
      var j := i - |a| - 1;
      assert b[j..j + |pattern|] == text[i..i + |pattern|];
      assert OccursAt(b, pattern, j);
    }
  }

  lemma {:induction false} LongerDoesNotOccur(text: string, pattern: string)
    requires |text| < |pattern| || (|text| == |pattern| && text != pattern)
    ensures !Occurs(text, pattern)
  {
    assert text[0..|text|] == text;
  }

  lemma {:induction false} FindIs(text: string, pattern: string, from: nat, i: nat)
    requires pattern != "" && from <= i && OccursAt(text, pattern, i)
    requires forall j :: from <= j < i ==> !OccursAt(text, pattern, j)
    ensures Find(text, pattern, from) == i
  {
  }

  /** A piece of the text stands at a position. */
  predicate Stands(text: string, piece: string, at: nat) {
    at + |piece| <= |text| && text[at..at + |piece|] == piece
  }

  /** A marker line that occurs earlier occurs in what stands before. */
  lemma {:induction false} EarlierLineIsBefore(text: string, before: string, marker: string, j: nat)
    requires Stands(text, before, 0) && '\n' !in marker && j < |before| && before[|before| - 1] == '\n'
    ensures OccursAt(text, marker + "\n", j) ==> OccursAt(before, marker + "\n", j)
  {
    var pattern, stop := marker + "\n", |before| - 1;
    assert text[0..|before|][stop] == text[stop];
    if stop < j + |marker| {
      LineDoesNotCross(text, marker, j, stop);
    } else {
      SliceInside(text, 0, before, j, |pattern|);
    }
  }

  /** A marker line does not begin before a line end and go on after it. */
  lemma {:induction false} LineDoesNotCross(text: string, marker: string, j: nat, stop: nat)
    requires '\n' !in marker && j <= stop < j + |marker| && stop < |text| && text[stop] == '\n'
    ensures !OccursAt(text, marker + "\n", j)
  {
    var pattern := marker + "\n";
    if j + |pattern| <= |text| {
      var slice := text[j..j + |pattern|];
      assert slice[stop - j] == text[stop];
      assert pattern[stop - j] == marker[stop - j] && marker[stop - j] in marker;
    }
  }

  /** The first marker line is found where it stands if no line before it ends with the marker. */
  lemma {:induction false} FindsTheLine(text: string, before: string, marker: string)
    requires Stands(text, before, 0) && Stands(text, marker + "\n", |before|) && '\n' !in marker
    requires before != "" && before[|before| - 1] == '\n' && !Occurs(before, marker + "\n")
    ensures Find(text, marker + "\n", 0) == |before|
  {
    forall j | 0 <= j < |before| ensures !OccursAt(text, marker + "\n", j) {
      EarlierLineIsBefore(text, before, marker, j);
    }
    FindIs(text, marker + "\n", 0, |before|);
  }

  /** A slice of a piece that stands in a text is a slice of the text. */
  lemma {:induction false} SliceInside(text: string, from: nat, content: string, i: nat, n: nat)
    requires Stands(text, content, from) && i + n <= |content|
    ensures content[i..i + n] == text[from + i..from + i + n]
  {
    var whole, inner, outer := text[from..from + |content|], content[i..i + n], text[from + i..from + i + n];
    forall k | 0 <= k < n ensures inner[k] == outer[k] {
      assert whole[i + k] == text[from + i + k];
    }
  }

  /** A marker line does not reach over a line end. */
  lemma {:induction false} DoesNotCross(text: string, end: string, j: nat, stop: nat)
    requires '\n' !in end && j < stop <= j + |end| && stop < |text| && text[stop] == '\n'
    ensures !OccursAt(text, "\n" + end, j)
  {
    var pattern := "\n" + end;
    if j + |pattern| <= |text| {
      var slice := text[j..j + |pattern|];
      assert slice[stop - j] == text[stop];
      assert pattern[stop - j] == end[stop - j - 1] && end[stop - j - 1] in end;
    }
  }

  lemma {:induction false} EarlierEndIsInside(text: string, from: nat, content: string, end: string, j: nat)
    requires Stands(text, content, from) && Stands(text, "\n" + end, from + |content|)
    requires '\n' !in end && from <= j < from + |content|
    ensures OccursAt(text, "\n" + end, j) ==> OccursAt(content, "\n" + end, j - from)
  {
    var pattern, stop := "\n" + end, from + |content|;
    assert text[stop] == text[stop..stop + |pattern|][0];
    if stop <= j + |end| {
      DoesNotCross(text, end, j, stop);
    } else {
      SliceInside(text, from, content, j - from, |pattern|);
    }
  }

  /** The end of a section is found where it stands if its marker does not start a line of the content. */
  lemma {:induction false} FindsTheEnd(text: string, from: nat, content: string, end: string)
    requires Stands(text, content, from) && Stands(text, "\n" + end, from + |content|)
    requires '\n' !in end && !Occurs(content, "\n" + end)
    ensures Find(text, "\n" + end, from) == from + |content|
  {
    forall j | from <= j < from + |content| ensures !OccursAt(text, "\n" + end, j) {
      EarlierEndIsInside(text, from, content, end, j);
    }
    FindIs(text, "\n" + end, from, from + |content|);
  }

  // ---- the round trip --------------------------------------------------------------------------

  /** No line after the first starts with the end marker. */
  predicate KeepsItsEnd(content: string, end: string) {
    !Occurs(content, "\n" + end)
  }

  /** No line of the standard output ends with the marker that begins the other section. */
  predicate NoForgedBegin(id: string, r: Response) {
    EndsNoLine(r.stdout, STDERR_BEGIN + id)
  }

  /**
   The end of the second section is not forged before that section: no line after the first of the standard
   output starts with its marker, and the standard error itself does not.
   */
  predicate NoForgedEnd(id: string, r: Response) {
    KeepsItsEnd(r.stdout, STDERR_END + id) && !(STDERR_END + id <= r.stderr)
  }

  predicate EndsNoLine(text: string, marker: string) {
    !Occurs(text + "\n", marker + "\n")
  }

  ghost predicate ReadsDecimals(number: Numbers) {
    forall n: nat :: number(Decimal(n)) == n
  }

  function StatusOf(r: Response): Status {
    Status(r.state, r.code, r.truncated, r.timedOut)
  }

  lemma SafeSegmentIsPlain(id: string)
    requires SafeSegment(id)
    ensures '\n' !in id && '\t' !in id
  {
  }

  lemma {:induction false} StatusLineReadsBack(number: Numbers, id: string, r: Response)
    requires SafeSegment(id) && ReadsDecimals(number)
    ensures ParseStatusLine(number, StatusLine(id, r), id) == Some(StatusOf(r))
  {
    SafeSegmentIsPlain(id);
    var columns := StatusColumns(id, r);
    SplitOfJoin(columns, '\t');
    JoinConcat(columns[..1], columns[1..], '\t');
    assert columns == columns[..1] + columns[1..];
    ColumnsReadBack(number, StatusLine(id, r), id, r);
  }

  lemma {:induction false} ColumnsReadBack(number: Numbers, line: string, id: string, r: Response)
    requires ReadsDecimals(number) && RESULT_PREFIX + id + "\t" <= line && Split(line, '\t') == StatusColumns(id, r)
    ensures ParseStatusLine(number, line, id) == Some(StatusOf(r))
  {
    assert StateOf(StateText(r.state)) == Some(r.state);
  }

  lemma {:induction false} StatusLineIsOneLine(id: string, r: Response)
    requires SafeSegment(id)
    ensures '\n' !in StatusLine(id, r) && TrimEnd(StatusLine(id, r)) == StatusLine(id, r)
  {
    SafeSegmentIsPlain(id);
    var columns, line := StatusColumns(id, r), StatusLine(id, r);
    JoinAvoids(columns, '\t', '\n');
    assert line == Join(columns[..4], '\t') + ['\t'] + Flag(r.timedOut);
    assert line[|line| - 1] == Flag(r.timedOut)[0];
  }

  lemma {:induction false} FirstLineIsTheStatus(number: Numbers, id: string, r: Response)
    requires SafeSegment(id) && ReadsDecimals(number)
    ensures FirstStatus(number, SplitLines(Emitted(id, r)), id) == Some(StatusOf(r))
  {
    var line, rest := StatusLine(id, r), Printed(id, r)[1..];
    StatusLineIsOneLine(id, r);
    assert Printed(id, r) == [line] + rest;
    JoinConcat([line], rest, '\n');
    SplitOnePiece(line, '\n');
    SplitConcat(line, JoinLines(rest), '\n');
    StatusLineReadsBack(number, id, r);
  }

  /** A marker that occurs in no piece does not occur in what is joined. */
  lemma {:induction false} JoinHasNoMarker(pieces: seq<string>, separator: char, marker: string)
    requires pieces != [] && separator !in marker && marker != ""
    requires forall i :: 0 <= i < |pieces| ==> !Occurs(pieces[i], marker)
    ensures !Occurs(Join(pieces, separator), marker)
  {
    if |pieces| > 1 {
      var init, last := pieces[..|pieces| - 1], pieces[|pieces| - 1];
      JoinHasNoMarker(init, separator, marker);
      NotInEither(Join(init, separator), last, separator, marker);
    }
  }

  /** The marker of a section does not occur in the status line. */
  lemma {:induction false} StatusHasNoMarker(id: string, r: Response, marker: string)
    requires SafeSegment(id) && |marker| > |RESULT_PREFIX + id| && |marker| > 9 && '\t' !in marker && marker[0] == '_'
    ensures !Occurs(StatusLine(id, r), marker)
  {
    var columns := StatusColumns(id, r);
    LongerDoesNotOccur(columns[0], marker);
    LongerDoesNotOccur(columns[1], marker);
    DigitsHaveNoMarker(columns[2], marker);
    LongerDoesNotOccur(columns[3], marker);
    LongerDoesNotOccur(columns[4], marker);
    JoinHasNoMarker(columns, '\t', marker);
  }

  lemma {:induction false} DigitsHaveNoMarker(text: string, marker: string)
    requires marker != "" && marker[0] == '_' && forall i :: 0 <= i < |text| ==> '0' <= text[i] <= '9'
    ensures !Occurs(text, marker)
  {
    forall i | 0 <= i <= |text| ensures !OccursAt(text, marker, i) {
      assert i + |marker| <= |text| ==> text[i..i + |marker|][0] == text[i];
    }
  }

  lemma {:induction false} NotInEither(a: string, b: string, separator: char, marker: string)
    requires separator !in marker && marker != "" && !Occurs(a, marker) && !Occurs(b, marker)
    ensures !Occurs(a + [separator] + b, marker)
  {
    if Occurs(a + [separator] + b, marker) { OccursInAPiece(a, b, separator, marker); }
  }

  lemma {:induction false} SectionAt(text: string, before: string, begin: string, content: string, end: string)
    requires '\n' !in begin && '\n' !in end
    requires Stands(text, before, 0) && Stands(text, begin + "\n", |before|)
    requires Stands(text, content, |before| + |begin| + 1) && Stands(text, "\n" + end, |before| + |begin| + 1 + |content|)
    requires before != "" && before[|before| - 1] == '\n' && !Occurs(before, begin + "\n") && !Occurs(content, "\n" + end)
    ensures SectionOf(text, begin, end) == Some(content)
  {
    FindsTheLine(text, before, begin);
    SectionFound(text, |before|, begin, content, end);
  }

  lemma {:induction false} SectionFound(text: string, at: nat, begin: string, content: string, end: string)
    requires '\n' !in end && at < |text| && Find(text, begin + "\n", 0) == at
    requires Stands(text, content, at + |begin| + 1) && Stands(text, "\n" + end, at + |begin| + 1 + |content|)
    requires KeepsItsEnd(content, end)
    ensures SectionOf(text, begin, end) == Some(content)
  {
    var from := at + |begin| + 1;
    FindsTheEnd(text, from, content, end);
    assert from + |content| < |text|;
  }

  /** Where the pieces of a concatenation stand. */
  lemma {:induction false} PiecesStand(before: string, begin: string, content: string, end: string, after: string)
    ensures var text := before + begin + "\n" + content + "\n" + end + after;
            && Stands(text, before, 0) && Stands(text, begin + "\n", |before|)
            && Stands(text, content, |before| + |begin| + 1) && Stands(text, "\n" + end, |before| + |begin| + 1 + |content|)
  {
  }

  /** A section among the printed lines. */
  lemma {:induction false} SectionAmongLines(front: seq<string>, begin: string, content: string, end: string, more: seq<string>)
    requires front != [] && more != []
    ensures JoinLines(front + [begin, content, end] + more)
         == JoinLines(front + [""]) + begin + "\n" + content + "\n" + end + ("\n" + JoinLines(more))
  {
    JoinConcat(front + [begin, content, end], more, '\n');
    JoinConcat(front, [begin, content, end], '\n');
    JoinConcat(front, [""], '\n');
    ThreeLines(begin, content, end);
  }

  lemma {:induction false} ThreeLines(a: string, b: string, c: string)
    ensures JoinLines([a, b, c]) == a + "\n" + b + "\n" + c
  {
    JoinConcat([a], [b], '\n');
    JoinConcat([a] + [b], [c], '\n');
    assert [a, b, c] == [a] + [b] + [c];
  }

  lemma {:induction false} Regroup(a: string, b: string, c: string)
    ensures a + "\n" + b + c == a + ("\n" + b + c)
  {
  }

  /** What ends a line of two texts ends a line of one of them. */
  lemma {:induction false} LineEndInAPart(a: string, b: string, marker: string)
    requires '\n' !in marker && EndsNoLine(a, marker) && EndsNoLine(b, marker)
    ensures EndsNoLine(a + ['\n'] + b, marker)
  {
    var text, pattern := a + ['\n'] + b + "\n", marker + "\n";
    forall i | 0 <= i <= |text| ensures !OccursAt(text, pattern, i) {
      if |a| < i {
        Shifted(text, a + ['\n'], b + "\n", pattern, i);
      } else if |a| < i + |marker| {
        assert text[|a|] == '\n';
        LineDoesNotCross(text, marker, i, |a|);
      } else {
        FrontPart(text, a + "\n", b + "\n", pattern, i);
      }
    }
  }

  lemma {:induction false} Shifted(text: string, front: string, back: string, pattern: string, i: nat)
    requires text == front + back && |front| <= i && !Occurs(back, pattern)
    ensures !OccursAt(text, pattern, i)
  {
    if i + |pattern| <= |text| {
      assert text[i..i + |pattern|] == back[i - |front|..i - |front| + |pattern|];
      assert !OccursAt(back, pattern, i - |front|);
    }
  }

  lemma {:induction false} FrontPart(text: string, front: string, back: string, pattern: string, i: nat)
    requires text == front + back && i + |pattern| <= |front| && !Occurs(front, pattern)
    ensures !OccursAt(text, pattern, i)
  {
    assert text[i..i + |pattern|] == front[i..i + |pattern|];
    assert !OccursAt(front, pattern, i);
  }

  lemma {:induction false} PlainLineIsNoEnd(text: string, marker: string)
    requires !Occurs(text, marker)
    ensures EndsNoLine(text, marker)
  {
    forall i | 0 <= i <= |text + "\n"| ensures !OccursAt(text + "\n", marker + "\n", i) {
      MarkerBeforeTheEnd(text, marker, i);
    }
  }

  lemma {:induction false} MarkerBeforeTheEnd(text: string, marker: string, i: nat)
    ensures OccursAt(text + "\n", marker + "\n", i) ==> OccursAt(text, marker, i)
  {
    var line, pattern := text + "\n", marker + "\n";
    if OccursAt(line, pattern, i) {
      OccursChars(line, pattern, i);
      var slice := text[i..i + |marker|];
      forall k | 0 <= k < |marker| ensures slice[k] == marker[k] {
        assert line[i + k] == pattern[k];
      }
    }
  }

  lemma {:induction false} LinesEndNoLine(pieces: seq<string>, marker: string)
    requires pieces != [] && '\n' !in marker && forall i :: 0 <= i < |pieces| ==> EndsNoLine(pieces[i], marker)
    ensures EndsNoLine(JoinLines(pieces), marker)
  {
    if |pieces| > 1 {
      LinesEndNoLine(pieces[..|pieces| - 1], marker);
      LineEndInAPart(JoinLines(pieces[..|pieces| - 1]), pieces[|pieces| - 1], marker);
    }
  }

  /** A section of the printed lines is read back exactly when no line of it starts with its end marker. */
  lemma {:induction false} SectionReadsBack(front: seq<string>, begin: string, content: string, end: string, more: seq<string>)
    requires front != [] && more != [] && begin != "" && '\n' !in begin && '\n' !in end
    requires forall i :: 0 <= i < |front| ==> EndsNoLine(front[i], begin)
    ensures SectionOf(JoinLines(front + [begin, content, end] + more), begin, end) == Some(content) <==> KeepsItsEnd(content, end)
  {
    var before := JoinLines(front) + "\n";
    LinesEndNoLine(front, begin);
    JoinConcat(front, [""], '\n');
    assert JoinLines(front + [""]) == before;
    SectionAmongLines(front, begin, content, end, more);
    if KeepsItsEnd(content, end) {
      PiecesStand(before, begin, content, end, "\n" + JoinLines(more));
      SectionAt(JoinLines(front + [begin, content, end] + more), before, begin, content, end);
    } else {
      var k := FirstForgery(content, end);
      Regrouped(content[..k], "\n", end, content[k + |end| + 1..]);
      ForgedSection(front, begin, content[..k], end, content[k + |end| + 1..], more);
    }
  }

  lemma {:induction false} Regrouped(a: string, b: string, c: string, d: string)
    ensures a + (b + c) + d == a + b + c + d
  {
  }

  /** The content up to its first line that starts with the end marker. */
  lemma {:induction false} FirstForgery(content: string, end: string) returns (k: nat)
    requires !KeepsItsEnd(content, end)
    ensures k + |end| + 1 <= |content| && content == content[..k] + ("\n" + end) + content[k + |end| + 1..]
    ensures KeepsItsEnd(content[..k], end)
  {
    k := Find(content, "\n" + end, 0);
    var j :| 0 <= j <= |content| && OccursAt(content, "\n" + end, j);
    assert k < |content|;
    ThreeParts(content, "\n" + end, k);
    NothingBefore(content, "\n" + end, k);
  }

  lemma {:induction false} ThreeParts(content: string, pattern: string, k: nat)
    requires OccursAt(content, pattern, k)
    ensures content == content[..k] + pattern + content[k + |pattern|..]
  {
  }

  lemma {:induction false} NothingBefore(content: string, pattern: string, k: nat)
    requires k <= |content| && pattern != "" && forall j :: 0 <= j < k ==> !OccursAt(content, pattern, j)
    ensures !Occurs(content[..k], pattern)
  {
    forall i | 0 <= i <= k ensures !OccursAt(content[..k], pattern, i) {
      if i + |pattern| <= k {
        SliceInside(content, 0, content[..k], i, |pattern|);
        assert !OccursAt(content, pattern, i);
      }
    }
  }

  lemma {:induction false} ForgedSection(front: seq<string>, begin: string, before: string, end: string, after: string, more: seq<string>)
    requires front != [] && more != [] && '\n' !in begin && '\n' !in end
    requires EndsNoLine(JoinLines(front), begin) && KeepsItsEnd(before, end)
    ensures SectionOf(JoinLines(front + [begin, before + "\n" + end + after, end] + more), begin, end) == Some(before)
  {
    var content, rest := before + "\n" + end + after, "\n" + JoinLines(more);
    JoinConcat(front, [""], '\n');
    assert JoinLines(front + [""]) == JoinLines(front) + "\n";
    SectionAmongLines(front, begin, content, end, more);
    Regroup(JoinLines(front + [""]) + begin + "\n" + content, end, rest);
    ForgedText(JoinLines(front + [""]), begin, before, end, after, "\n" + end + rest);
  }

  lemma {:induction false} ForgedText(front: string, begin: string, before: string, end: string, after: string, rest: string)
    requires '\n' !in begin && '\n' !in end && KeepsItsEnd(before, end)
    requires front != "" && front[|front| - 1] == '\n' && !Occurs(front, begin + "\n")
    ensures SectionOf(front + begin + "\n" + (before + "\n" + end + after) + rest, begin, end) == Some(before)
  {
    var content := before + "\n" + end + after;
    PiecesStand(front, begin, before, end, after + rest);
    assert front + begin + "\n" + content + rest == front + begin + "\n" + before + "\n" + end + (after + rest);
    SectionAt(front + begin + "\n" + content + rest, front, begin, before, end);
  }

  /** The first section is read back exactly when no line of it starts with its end marker. */
  lemma {:induction false} StdoutReadsBack(id: string, r: Response)
    requires SafeSegment(id) && Settled(r.state)
    ensures SectionOf(Emitted(id, r), STDOUT_BEGIN + id, STDOUT_END + id) == Some(r.stdout) <==> KeepsItsEnd(r.stdout, STDOUT_END + id)
  {
    SafeSegmentIsPlain(id);
    StatusHasNoMarker(id, r, STDOUT_BEGIN + id);
    PlainLineIsNoEnd(StatusLine(id, r), STDOUT_BEGIN + id);
    var more := [STDERR_BEGIN + id, r.stderr, STDERR_END + id, ""];
    assert Printed(id, r) == [StatusLine(id, r)] + [STDOUT_BEGIN + id, r.stdout, STDOUT_END + id] + more;
    SectionReadsBack([StatusLine(id, r)], STDOUT_BEGIN + id, r.stdout, STDOUT_END + id, more);
  }

  /** So is the second one, if no line of the first ends with the marker that begins the second. */
  lemma {:induction false} StderrReadsBack(id: string, r: Response)
    requires SafeSegment(id) && Settled(r.state) && NoForgedBegin(id, r)
    ensures SectionOf(Emitted(id, r), STDERR_BEGIN + id, STDERR_END + id) == Some(r.stderr) <==> KeepsItsEnd(r.stderr, STDERR_END + id)
  {
    SafeSegmentIsPlain(id);
    var marker := STDERR_BEGIN + id;
    var front := [StatusLine(id, r), STDOUT_BEGIN + id, r.stdout, STDOUT_END + id];
    OwnLinesEndNoLine(id, r);
    assert forall i :: 0 <= i < |front| ==> EndsNoLine(front[i], marker);
    assert Printed(id, r) == front + [marker, r.stderr, STDERR_END + id] + [""];
    SectionReadsBack(front, marker, r.stderr, STDERR_END + id, [""]);
  }

  lemma {:induction false} OwnLinesEndNoLine(id: string, r: Response)
    requires SafeSegment(id)
    ensures EndsNoLine(StatusLine(id, r), STDERR_BEGIN + id)
    ensures EndsNoLine(STDOUT_BEGIN + id, STDERR_BEGIN + id) && EndsNoLine(STDOUT_END + id, STDERR_BEGIN + id)
  {
    SafeSegmentIsPlain(id);
    var marker := STDERR_BEGIN + id;
    StatusHasNoMarker(id, r, marker);
    assert (STDOUT_BEGIN + id)[15] == 'O' && marker[15] == 'E';
    LongerDoesNotOccur(STDOUT_BEGIN + id, marker);
    LongerDoesNotOccur(STDOUT_END + id, marker);
    PlainLineIsNoEnd(StatusLine(id, r), marker);
    PlainLineIsNoEnd(STDOUT_BEGIN + id, marker);
    PlainLineIsNoEnd(STDOUT_END + id, marker);
  }

  /** A response without a settled state carries no output. */
  lemma {:induction false} UnsettledResponsesReadBack(number: Numbers, id: string, r: Response)
    requires SafeSegment(id) && ReadsDecimals(number) && !Settled(r.state)
    ensures Parsed(number, Emitted(id, r), id) == Observed(StatusOf(r), "", "", false)
  {
    FirstLineIsTheStatus(number, id, r);
  }

  /** An output that starts a line with its own end marker is cut there. */
  lemma {:induction false} ForgedEndMarkerCutsTheOutput(id: string, before: string, after: string, r: Response)
    requires SafeSegment(id) && Settled(r.state) && r.stdout == before + "\n" + (STDOUT_END + id) + after
    requires KeepsItsEnd(before, STDOUT_END + id)
    ensures SectionOf(Emitted(id, r), STDOUT_BEGIN + id, STDOUT_END + id) == Some(before) && before != r.stdout
  {
    SafeSegmentIsPlain(id);
    StatusHasNoMarker(id, r, STDOUT_BEGIN + id);
    PlainLineIsNoEnd(StatusLine(id, r), STDOUT_BEGIN + id);
    var front, begin, end := [StatusLine(id, r)], STDOUT_BEGIN + id, STDOUT_END + id;
    var more := [STDERR_BEGIN + id, r.stderr, STDERR_END + id, ""];
    assert Printed(id, r) == front + [begin, r.stdout, end] + more;
    ForgedSection(front, begin, before, end, after, more);
    assert |r.stdout| > |before|;
  }

  // ---- a forged beginning ----------------------------------------------------------------------

  /** No line at all starts with the end marker. */
  predicate NoEndLine(text: string, end: string) {
    KeepsItsEnd("\n" + text, end)
  }

  lemma {:induction false} KeptInBoth(a: string, b: string, end: string)
    requires '\n' !in end && KeepsItsEnd(a, end) && NoEndLine(b, end)
    ensures KeepsItsEnd(a + ("\n" + b), end)
  {
    var text, pattern := a + ("\n" + b), "\n" + end;
    forall i | 0 <= i <= |text| ensures !OccursAt(text, pattern, i) {
      if |a| <= i {
        Shifted(text, a, "\n" + b, pattern, i);
      } else if |a| <= i + |end| {
        assert text[|a|] == '\n';
        DoesNotCross(text, end, i, |a|);
      } else {
        FrontPart(text, a, "\n" + b, pattern, i);
      }
    }
  }

  lemma {:induction false} LinesBeside(a: string, b: string, end: string)
    requires '\n' !in end && NoEndLine(a, end) && NoEndLine(b, end)
    ensures NoEndLine(a + ("\n" + b), end)
  {
    KeptInBoth("\n" + a, b, end);
    assert "\n" + (a + ("\n" + b)) == ("\n" + a) + ("\n" + b);
  }

  /** A part of a text keeps what the text keeps. */
  lemma {:induction false} PartKeepsItsEnd(text: string, from: nat, to: nat, end: string)
    requires from <= to <= |text| && KeepsItsEnd(text, end)
    ensures KeepsItsEnd(text[from..to], end)
  {
    var part, pattern := text[from..to], "\n" + end;
    forall i | 0 <= i <= |part| ensures !OccursAt(part, pattern, i) {
      if i + |pattern| <= |part| {
        SliceInside(text, from, part, i, |pattern|);
        assert !OccursAt(text, pattern, from + i);
      }
    }
  }

  /** A single line. */
  lemma {:induction false} OneLine(line: string, end: string)
    requires '\n' !in line && !(end <= line)
    ensures NoEndLine(line, end)
  {
    forall i | 0 <= i <= |line| ensures !OccursAt(line, "\n" + end, i) {
      assert i + 1 + |end| <= |line| ==> line[i..i + 1 + |end|][0] == line[i];
    }
    FirstLineOnly(line, end);
  }

  lemma {:induction false} FirstLineOnly(text: string, end: string)
    requires KeepsItsEnd(text, end) && !(end <= text)
    ensures NoEndLine(text, end)
  {
    var line, pattern := "\n" + text, "\n" + end;
    forall i | 0 <= i <= |line| ensures !OccursAt(line, pattern, i) {
      if i == 0 {
        assert |end| <= |text| ==> line[1..1 + |end|] == text[..|end|];
        assert |end| <= |text| ==> line[..1 + |end|][1..] == line[1..1 + |end|];
        assert pattern[1..] == end;
      } else {
        Shifted(line, "\n", text, pattern, i);
      }
    }
  }

  /** What stands between the two outputs. */
  function Between(id: string): string {
    STDOUT_END + id + "\n" + (STDERR_BEGIN + id) + "\n"
  }

  lemma {:induction false} BetweenHasNoEnd(id: string, err: string)
    requires SafeSegment(id) && KeepsItsEnd(err, STDERR_END + id) && !(STDERR_END + id <= err)
    ensures NoEndLine(Between(id) + err, STDERR_END + id)
  {
    SafeSegmentIsPlain(id);
    var end, close, begin := STDERR_END + id, STDOUT_END + id, STDERR_BEGIN + id;
    assert close[15] == 'O' && end[15] == 'E' && begin[19] == 'B' && end[19] == 'E';
    OneLine(close, end);
    OneLine(begin, end);
    FirstLineOnly(err, end);
    LinesBeside(begin, err, end);
    LinesBeside(close, begin + ("\n" + err), end);
    assert Between(id) + err == close + ("\n" + (begin + ("\n" + err)));
  }

  /** The section that a forged beginning opens keeps the end of the real one. */
  lemma {:induction false} SwallowedKeepsItsEnd(id: string, out: string, from: nat, err: string)
    requires SafeSegment(id) && from <= |out| + 1 && KeepsItsEnd(out, STDERR_END + id)
    requires KeepsItsEnd(err, STDERR_END + id) && !(STDERR_END + id <= err)
    ensures KeepsItsEnd((out + "\n")[from..] + (Between(id) + err), STDERR_END + id)
  {
    SafeSegmentIsPlain(id);
    var end, rest := STDERR_END + id, Between(id) + err;
    BetweenHasNoEnd(id, err);
    if from == |out| + 1 {
      PartKeepsItsEnd("\n" + rest, 1, |rest| + 1, end);
      assert (out + "\n")[from..] + rest == ("\n" + rest)[1..|rest| + 1];
    } else {
      PartKeepsItsEnd(out, from, |out|, end);
      KeptInBoth(out[from..|out|], rest, end);
      assert (out + "\n")[from..] + rest == out[from..|out|] + ("\n" + rest);
    }
  }

  /** What is printed before the standard output. */
  function Opening(id: string, r: Response): string {
    StatusLine(id, r) + "\n" + (STDOUT_BEGIN + id) + "\n"
  }

  lemma {:induction false} EmittedInParts(id: string, r: Response)
    requires Settled(r.state)
    ensures Emitted(id, r) == Opening(id, r) + (r.stdout + "\n") + (Between(id) + r.stderr) + ("\n" + (STDERR_END + id) + "\n")
  {
    var status, open, close := StatusLine(id, r), STDOUT_BEGIN + id, STDOUT_END + id;
    var begin, end := STDERR_BEGIN + id, STDERR_END + id;
    var front := [status, open, r.stdout, close];
    SectionAmongLines(front, begin, r.stderr, end, [""]);
    assert Printed(id, r) == front + [begin, r.stderr, end] + [""];
    assert front + [""] == [status, open] + [r.stdout, close, ""];
    JoinConcat([status, open], [r.stdout, close, ""], '\n');
    JoinConcat([status], [open], '\n');
    assert [status, open] == [status] + [open];
    ThreeLines(r.stdout, close, "");
    Reassociate(status, open, r.stdout, close, begin, r.stderr, end);
  }

  lemma {:induction false} Reassociate(status: string, open: string, out: string, close: string, begin: string, err: string, end: string)
    ensures (status + "\n" + open) + "\n" + (out + "\n" + close + "\n" + "") + begin + "\n" + err + "\n" + end + ("\n" + "")
         == (status + "\n" + open + "\n") + (out + "\n") + (close + "\n" + begin + "\n" + err) + ("\n" + end + "\n")
  {
  }

  /** The first beginning of the section is the forged one. */
  lemma {:induction false} FindsTheForgery(text: string, front: string, out: string, back: string, begin: string)
    requires text == front + (out + "\n") + back && '\n' !in begin
    requires front != "" && front[|front| - 1] == '\n' && !Occurs(front, begin + "\n") && Occurs(out + "\n", begin + "\n")
    ensures var n := Find(out + "\n", begin + "\n", 0);
            n < |out + "\n"| && Find(text, begin + "\n", 0) == |front| + n < |text|
  {
    var line, pattern := out + "\n", begin + "\n";
    var n := Find(line, pattern, 0);
    var k :| 0 <= k <= |line| && OccursAt(line, pattern, k);
    assert n <= k;
    Middle(front, line, back, n, |pattern|);
    forall j | 0 <= j < |front| + n ensures !OccursAt(text, pattern, j) {
      NotBeforeTheForgery(front, line, back, begin, n, j);
    }
    FindIs(text, pattern, 0, |front| + n);
  }

  lemma {:induction false} NotBeforeTheForgery(front: string, line: string, back: string, begin: string, n: nat, j: nat)
    requires '\n' !in begin && front != "" && front[|front| - 1] == '\n' && !Occurs(front, begin + "\n")
    requires n + |begin| + 1 <= |line| && (forall i :: 0 <= i < n ==> !OccursAt(line, begin + "\n", i)) && j < |front| + n
    ensures !OccursAt(front + line + back, begin + "\n", j)
  {
    if j < |front| {
      FrontStands(front, line, back);
      EarlierLineIsBefore(front + line + back, front, begin, j);
    } else {
      Middle(front, line, back, j - |front|, |begin| + 1);
      assert !OccursAt(line, begin + "\n", j - |front|);
    }
  }

  lemma {:induction false} FrontStands(front: string, line: string, back: string)
    ensures Stands(front + line + back, front, 0)
  {
  }

  lemma {:induction false} Middle(front: string, line: string, back: string, i: nat, n: nat)
    requires i + n <= |line|
    ensures (front + line + back)[|front| + i..|front| + i + n] == line[i..i + n]
  {
  }

  lemma {:induction false} OpeningHasNoBegin(id: string, r: Response)
    requires SafeSegment(id)
    ensures !Occurs(Opening(id, r), STDERR_BEGIN + id + "\n") && Opening(id, r)[|Opening(id, r)| - 1] == '\n'
  {
    SafeSegmentIsPlain(id);
    OwnLinesEndNoLine(id, r);
    LineEndInAPart(StatusLine(id, r), STDOUT_BEGIN + id, STDERR_BEGIN + id);
    assert Opening(id, r) == StatusLine(id, r) + ['\n'] + (STDOUT_BEGIN + id) + "\n";
  }

  lemma {:induction false} LastTwo(a: string, b: string, c: string, d: string)
    ensures a + b + c + d == a + b + (c + d)
  {
  }

  /** What stands behind a forged beginning, up to the end of the real section. */
  lemma {:induction false} SwallowedStands(front: string, line: string, from: nat, rest: string, end: string)
    requires from <= |line|
    ensures var text, at, content := front + line + rest + ("\n" + end + "\n"), |front| + from, line[from..] + rest;
            Stands(text, content, at) && Stands(text, "\n" + end, at + |content|)
  {
    var text, at, content := front + line + rest + ("\n" + end + "\n"), |front| + from, line[from..] + rest;
    assert text == (front + line[..from]) + content + ("\n" + end + "\n");
  }

  /** A section that is longer than a text reads as that text only if it is cut, and then the text is plain. */
  lemma {:induction false} LongerSection(text: string, at: nat, begin: string, content: string, end: string, err: string)
    requires '\n' !in end && at < |text| && Find(text, begin + "\n", 0) == at && |content| > |err|
    requires Stands(text, content, at + |begin| + 1) && Stands(text, "\n" + end, at + |begin| + 1 + |content|)
    ensures SectionOf(text, begin, end) == Some(err) ==> !KeepsItsEnd(content, end) && KeepsItsEnd(err, end)
  {
    if KeepsItsEnd(content, end) {
      SectionFound(text, at, begin, content, end);
    } else {
      var k := FirstForgery(content, end);
      SliceInside(text, at + |begin| + 1, content, 0, k);
      SliceInside(text, at + |begin| + 1, content, k, |end| + 1);
      assert content[k..k + |end| + 1] == "\n" + end;
      SectionFound(text, at, begin, content[..k], end);
    }
  }

  /** The section begins behind the forgery and holds more than the standard error, unless it is cut before. */
  lemma {:induction false} LongerBehindTheForgery(front: string, out: string, rest: string, begin: string, end: string, err: string)
    returns (from: nat)
    requires '\n' !in begin && '\n' !in end && |rest| > |err|
    requires front != "" && front[|front| - 1] == '\n' && !Occurs(front, begin + "\n") && Occurs(out + "\n", begin + "\n")
    ensures from <= |out| + 1
    ensures SectionOf(front + (out + "\n") + rest + ("\n" + end + "\n"), begin, end) == Some(err) ==>
              !KeepsItsEnd((out + "\n")[from..] + rest, end) && KeepsItsEnd(err, end)
  {
    var line, tail := out + "\n", "\n" + end + "\n";
    LastTwo(front, line, rest, tail);
    FindsTheForgery(front + line + rest + tail, front, out, rest + tail, begin);
    var n := Find(line, begin + "\n", 0);
    from := n + |begin| + 1;
    SwallowedStands(front, line, from, rest, end);
    LongerSection(front + line + rest + tail, |front| + n, begin, line[from..] + rest, end, err);
  }

  /**
   If the standard output forges the beginning of the other section, that section is not what was
   recorded, as long as no line of the standard output, and not the first one of the standard error,
   starts with the marker that ends the section.
   */
  lemma {:induction false} ForgedBeginMovesTheSection(id: string, r: Response)
    requires SafeSegment(id) && Settled(r.state) && !NoForgedBegin(id, r) && NoForgedEnd(id, r)
    ensures SectionOf(Emitted(id, r), STDERR_BEGIN + id, STDERR_END + id) != Some(r.stderr)
  {
    SafeSegmentIsPlain(id);
    EmittedInParts(id, r);
    OpeningHasNoBegin(id, r);
    var from := LongerBehindTheForgery(Opening(id, r), r.stdout, Between(id) + r.stderr, STDERR_BEGIN + id, STDERR_END + id, r.stderr);
    if KeepsItsEnd(r.stderr, STDERR_END + id) { SwallowedKeepsItsEnd(id, r.stdout, from, r.stderr); }
  }

  /**
   Main result: a settled response is parsed into exactly what was recorded, empty outputs and trailing
   line ends included, if and only if no line after the first of either output starts with its own end
   marker and the standard output does not forge the beginning of the other section. That is exact for
   all outputs but those that forge both the beginning and the end of that section.
   */
  lemma {:induction false} PrintedResponsesReadBack(number: Numbers, id: string, r: Response)
    requires SafeSegment(id) && ReadsDecimals(number) && Settled(r.state)
    ensures NoForgedBegin(id, r) || NoForgedEnd(id, r) ==>
              (Parsed(number, Emitted(id, r), id) == Observed(StatusOf(r), r.stdout, r.stderr, true)
               <==> NoForgedBegin(id, r) && KeepsItsEnd(r.stdout, STDOUT_END + id) && KeepsItsEnd(r.stderr, STDERR_END + id))
  {
    FirstLineIsTheStatus(number, id, r);
    StdoutReadsBack(id, r);
    if NoForgedBegin(id, r) { StderrReadsBack(id, r); } else if NoForgedEnd(id, r) { ForgedBeginMovesTheSection(id, r); }
  }

  // ---- any output --------------------------------------------------------------------------------

  /** The words of the five states, and no others. */
  lemma StatesHaveNames(state: State, text: string)
    ensures StateText(state) == (match state case Pending => "pending" case Running => "running" case Completed => "completed"
                                             case Failed => "failed" case Unknown => "unknown")
    ensures StateOf(text) == Some(state) <==> text == StateText(state)
    ensures StateOf(text).None? <==> text !in {"pending", "running", "completed", "failed", "unknown"}
    ensures Settled(state) <==> state == Completed || state == Failed
  {
    assert "pending"[0] != "running"[0] && |"completed"| == 9 && |"failed"| == 6 && |"unknown"| == 7;
  }

  /** Numbers are read with or without a sign, and nothing else is read as one. */
  lemma {:induction false} NumbersAreDigits(n: nat, text: string)
    ensures IsInteger(Decimal(n)) && IsInteger("-" + Decimal(n)) && !IsInteger("-") && !IsInteger("")
    ensures text != "" && text[0] != '-' && !('0' <= text[0] <= '9') ==> !IsInteger(text)
    ensures |text| > 1 && !('0' <= text[|text| - 1] <= '9') ==> !IsInteger(text)
  {
    assert ("-" + Decimal(n))[1..] == Decimal(n);
    if |text| > 1 { assert text[1..][|text| - 2] == text[|text| - 1]; }
  }

  /** Command ids are UUIDs, which are safe in every marker. */
  lemma UuidsAreSafe(id: string)
    requires id != "" && forall i :: 0 <= i < |id| ==> '0' <= id[i] <= '9' || 'a' <= id[i] <= 'f' || id[i] == '-'
    ensures SafeSegment(id)
  {
  }

  /**
   Whatever comes back: without a status line there is no response; with one, an unsettled state has no
   output, and a settled one has both sections, or none and no output, or the response is unusable.
   */
  lemma {:induction false} AnyOutputIsParsed(number: Numbers, output: string, id: string)
    ensures var status := FirstStatus(number, SplitLines(output), id);
            var stdout := SectionOf(output, STDOUT_BEGIN + id, STDOUT_END + id);
            var stderr := SectionOf(output, STDERR_BEGIN + id, STDERR_END + id);
            var parsed := Parsed(number, output, id);
            && (parsed == ResponseMissing <==> status.None?)
            && (parsed == SectionsMissing <==>
                  status.Some? && (status.value.state == Completed || status.value.state == Failed) && stdout.Some? != stderr.Some?)
            && (parsed.Observed? ==> status == Some(parsed.status))
            && (parsed.Observed? && parsed.outputAvailable <==>
                  status.Some? && (status.value.state == Completed || status.value.state == Failed) && stdout.Some? && stderr.Some?)
            && (parsed.Observed? && parsed.outputAvailable ==> stdout == Some(parsed.stdout) && stderr == Some(parsed.stderr))
            && (parsed.Observed? && !parsed.outputAvailable ==> parsed.stdout == "" && parsed.stderr == "")
  {
  }
}
