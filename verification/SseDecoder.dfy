/**
 The incremental event-stream decoder. Chunks may cut the text anywhere, inside
 a CRLF as well; what has been decoded after any number of chunks is what decoding
 their concatenation at once gives, and that is what the line-by-line reading of
 section 9.2.5 of the HTML Living Standard gives.
 */
module SseDecoder {
  import opened Text
  import opened Wrappers

  /** A decoded frame; `data` is the joined text of its data lines. */
  datatype SseEvent = SseEvent(sequence: nat, kind: string, data: string)

  /** JavaScript's `Number` on an id, when the result is a non-negative integer. */
  type Numbers = string -> Option<nat>

  // ---- lines ------------------------------------------------------------------

  /** How many characters the first character or line ending takes. */
  function First(s: string): (n: nat)
    requires s != ""
    ensures 1 <= n <= |s|
  {
    if s[0] == '\r' && |s| > 1 && s[1] == '\n' then 2 else 1
  }

  /** CRLF, LF and CR each end a line. */
  function Newlines(s: string): string {
    if s == "" then "" else [if s[0] == '\r' then '\n' else s[0]] + Newlines(s[First(s)..])
  }

  function ReplaceCrLf(s: string): string {
    if s == "" then ""
    else if s[0] == '\r' && |s| > 1 && s[1] == '\n' then "\n" + ReplaceCrLf(s[2..])
    else [s[0]] + ReplaceCrLf(s[1..])
  }

  function ReplaceCr(s: string): string {
    if s == "" then "" else [if s[0] == '\r' then '\n' else s[0]] + ReplaceCr(s[1..])
  }

  /** The code's two replacements are the standard's one rule. */
  lemma {:induction false} TwoReplacementsAreOneRule(s: string)
    ensures ReplaceCr(ReplaceCrLf(s)) == Newlines(s)
  {
    if s != "" {
      if s[0] == '\r' && |s| > 1 && s[1] == '\n' {
        TwoReplacementsAreOneRule(s[2..]);
        assert ReplaceCrLf(s)[1..] == ReplaceCrLf(s[2..]);
      } else {
        TwoReplacementsAreOneRule(s[1..]);
        assert ReplaceCrLf(s)[1..] == ReplaceCrLf(s[1..]);
      }
    }
  }

  predicate EndsWithCr(s: string) {
    s != "" && s[|s| - 1] == '\r'
  }

  lemma {:induction false} NewlinesConcat(s: string, t: string)
    requires !EndsWithCr(s) || t == "" || t[0] != '\n'
    ensures Newlines(s + t) == Newlines(s) + Newlines(t)
  {
    if s == "" {
      assert s + t == t;
    } else {
      var n := First(s);
      assert First(s + t) == n;
      assert (s + t)[n..] == s[n..] + t;
      NewlinesConcat(s[n..], t);
    }
  }

  lemma {:induction false} NewlinesKeeps(s: string)
    requires '\r' !in s
    ensures Newlines(s) == s
  {
    if s != "" { NewlinesKeeps(s[1..]); }
  }

  lemma {:induction false} NewlinesHasNoCr(s: string)
    ensures '\r' !in Newlines(s)
  {
    if s != "" { NewlinesHasNoCr(s[First(s)..]); }
  }

  // ---- frames -----------------------------------------------------------------

  /** The index of the first blank line, or the length of the text. */
  function FirstBreak(s: string): (i: nat)
    ensures i <= |s| && (i < |s| ==> i + 2 <= |s|)
  {
    if |s| < 2 then |s| else if s[0] == '\n' && s[1] == '\n' then 0 else 1 + FirstBreak(s[1..])
  }

  lemma {:induction false} BreakStaysFirst(s: string, t: string)
    requires FirstBreak(s) < |s|
    ensures FirstBreak(s + t) == FirstBreak(s)
  {
    if !(s[0] == '\n' && s[1] == '\n') {
      BreakStaysFirst(s[1..], t);
      assert (s + t)[1..] == s[1..] + t;
    }
  }

  /** `split("\n\n")` without its last piece, which is `Tail`. */
  function Parts(s: string): seq<string> {
    var i := FirstBreak(s);
    if i == |s| then [] else [s[..i]] + Parts(s[i + 2..])
  }

  function Tail(s: string): (r: string)
    ensures FirstBreak(r) == |r|
  {
    var i := FirstBreak(s);
    if i == |s| then s else Tail(s[i + 2..])
  }

  lemma {:induction false} SplitConcat(a: string, b: string)
    ensures Parts(a + b) == Parts(a) + Parts(Tail(a) + b)
    ensures Tail(a + b) == Tail(Tail(a) + b)
    decreases |a|
  {
    if FirstBreak(a) < |a| {
      var part, rest := a[..FirstBreak(a)], a[FirstBreak(a) + 2..];
      SplitConcat(rest, b);
      SplitFirst(a, b);
      assert [part] + (Parts(rest) + Parts(Tail(rest) + b)) == [part] + Parts(rest) + Parts(Tail(rest) + b);
    }
  }

  lemma SplitFirst(a: string, b: string)
    requires FirstBreak(a) < |a|
    ensures var part, rest := a[..FirstBreak(a)], a[FirstBreak(a) + 2..];
            && Parts(a + b) == [part] + Parts(rest + b) && Tail(a + b) == Tail(rest + b)
            && Parts(a) == [part] + Parts(rest) && Tail(a) == Tail(rest)
  {
    var i := FirstBreak(a);
    BreakStaysFirst(a, b);
    assert (a + b)[i + 2..] == a[i + 2..] + b && (a + b)[..i] == a[..i];
  }

  lemma {:induction false} TailKeepsOut(s: string, c: char)
    requires c !in s
    ensures c !in Tail(s)
  {
    var i := FirstBreak(s);
    if i < |s| { TailKeepsOut(s[i + 2..], c); }
  }

  // ---- fields of one frame -------------------------------------------------------

  /** The value of the last line that starts with `name`. */
  function LastField(lines: seq<string>, name: string): Option<string> {
    if lines == [] then None
    else
      var last := lines[|lines| - 1];
      if name <= last then Some(Trim(last[|name|..])) else LastField(lines[..|lines| - 1], name)
  }

  function DataText(lines: seq<string>): Option<string> {
    if lines == [] then None
    else
      var before, last := DataText(lines[..|lines| - 1]), lines[|lines| - 1];
      if !("data:" <= last) then before
      else Some((if before.Some? then before.value + "\n" else "") + TrimStart(last[5..]))
  }

  function EventOf(number: Numbers, id: Option<string>, kind: Option<string>, data: string): Option<SseEvent> {
    if id.None? || id.value == "" || kind.None? || kind.value == "" then None
    else
      var sequence := number(id.value);
      if sequence.None? then None else Some(SseEvent(sequence.value, kind.value, data))
  }

  /** What a block of lines means. */
  function Dispatch(number: Numbers, lines: seq<string>): Option<SseEvent> {
    var data := DataText(lines);
    EventOf(number, LastField(lines, "id:"), LastField(lines, "event:"), if data.Some? then data.value else "")
  }

  method ParseSseFrame(number: Numbers, part: string) returns (event: Option<SseEvent>)
    ensures event == Dispatch(number, SplitLines(part))
  {
    var lines := SplitLines(part);
    var id: Option<string>, kind: Option<string>, data: Option<string> := None, None, None;
    for i := 0 to |lines|
      invariant id == LastField(lines[..i], "id:") && kind == LastField(lines[..i], "event:")
      invariant data == DataText(lines[..i])
    {
      var line := lines[i];
      assert lines[..i + 1][..i] == lines[..i];
      if line == "" || line[0] == ':' { continue; }
      if "id:" <= line {
        id := Some(Trim(line[3..]));
      } else if "event:" <= line {
        kind := Some(Trim(line[6..]));
      } else if "data:" <= line {
        data := Some((if data.Some? then data.value + "\n" else "") + TrimStart(line[5..]));
      }
    }
    assert lines[..|lines|] == lines;
    event := EventOf(number, id, kind, if data.Some? then data.value else "");
  }

  // ---- the decoder -----------------------------------------------------------------

  function EventsOf(number: Numbers, parts: seq<string>): seq<SseEvent> {
    if parts == [] then []
    else
      var last := Dispatch(number, SplitLines(parts[|parts| - 1]));
      EventsOf(number, parts[..|parts| - 1]) + (if last.Some? then [last.value] else [])
  }

  /** The part of the buffer that can be read: a final CR may be half of a CRLF. */
  function Readable(buffer: string): string {
    if EndsWithCr(buffer) then buffer[..|buffer| - 1] else buffer
  }

  function Decoded(number: Numbers, buffer: string): seq<SseEvent> {
    EventsOf(number, Parts(Newlines(Readable(buffer))))
  }

  function Rest(buffer: string): string {
    Tail(Newlines(Readable(buffer))) + buffer[|Readable(buffer)|..]
  }

  method ConsumeSse(number: Numbers, buffer: string) returns (events: seq<SseEvent>, rest: string)
    ensures events == Decoded(number, buffer) && rest == Rest(buffer)
  {
    var held := "";
    var work := buffer;
    if work != "" && work[|work| - 1] == '\r' {
      held := "\r";
      work := work[..|work| - 1];
    }
    assert work == Readable(buffer) && held == buffer[|work|..];
    work := WithNewlines(work);
    events := ParseParts(number, Parts(work));
    rest := Tail(work) + held;
  }

  method WithNewlines(work: string) returns (text: string)
    ensures text == Newlines(work)
  {
    TwoReplacementsAreOneRule(work);
    text := ReplaceCr(ReplaceCrLf(work));
  }

  method ParseParts(number: Numbers, parts: seq<string>) returns (events: seq<SseEvent>)
    ensures events == EventsOf(number, parts)
  {
    events := [];
    for i := 0 to |parts|
      invariant events == EventsOf(number, parts[..i])
    {
      assert parts[..i + 1][..i] == parts[..i];
      var event := ParseSseFrame(number, parts[i]);
      if event.Some? { events := events + [event.value]; }
    }
    assert parts[..|parts|] == parts;
  }

  lemma {:induction false} EventsConcat(number: Numbers, a: seq<string>, b: seq<string>)
    ensures EventsOf(number, a + b) == EventsOf(number, a) + EventsOf(number, b)
  {
    if b == [] {
      assert a + b == a;
    } else {
      EventsConcat(number, a, b[..|b| - 1]);
      assert (a + b)[..|a + b| - 1] == a + b[..|b| - 1];
    }
  }

  /** Main result: a cut anywhere in the text changes neither the events nor what is left over. */
  lemma DecodingIsIndependentOfChunks(number: Numbers, s: string, t: string)
    ensures Decoded(number, s + t) == Decoded(number, s) + Decoded(number, Rest(s) + t)
    ensures Rest(s + t) == Rest(Rest(s) + t)
  {
    var work, held := Readable(s), s[|Readable(s)|..];
    var tail := Tail(Newlines(work));
    var more := held + t;
    assert s + t == work + more && Rest(s) + t == tail + more;
    TailHasNoCr(work);
    DecodedAfter(number, work, more);
    DecodedAfter(number, tail, more);
    NewlinesKeeps(tail);
    var next := Newlines(Readable(more));
    SplitConcat(Newlines(work), next);
    EventsConcat(number, Parts(Newlines(work)), Parts(tail + next));
  }

  lemma {:induction false} DecodedAfter(number: Numbers, front: string, more: string)
    requires !EndsWithCr(front) || (more != "" && more[0] != '\n')
    ensures var text := Newlines(front) + Newlines(Readable(more));
            && Decoded(number, front + more) == EventsOf(number, Parts(text))
            && Rest(front + more) == Tail(text) + more[|Readable(more)|..]
  {
    ReadableAfter(front, more);
    NewlinesConcat(front, Readable(more));
    assert (front + more)[|Readable(front + more)|..] == more[|Readable(more)|..];
  }

  lemma {:induction false} TailHasNoCr(work: string)
    ensures '\r' !in Tail(Newlines(work))
  {
    NewlinesHasNoCr(work);
    TailKeepsOut(Newlines(work), '\r');
  }

  lemma ReadableAfter(front: string, more: string)
    requires more != "" || !EndsWithCr(front)
    ensures Readable(front + more) == front + Readable(more)
  {
  }
}
