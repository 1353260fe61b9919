/**
 Reading a file through bounded windows: each announces where the next one
 starts. Following the announcements ends, and rebuilds the file when no line is
 too long for a window.
 */
module ReadWindow {
  import opened Text
  import opened Wrappers

  const READ_MAX_LINES := 2000
  const READ_MAX_BYTES := 50 * 1024

  /** Lines are numbered from one. */
  datatype Window =
    | BeyondEnd(total: nat)
    | LineTooLong(line: nat)
    | Whole(content: string)
    | Cut(content: string, first: nat, last: nat, total: nat, byBytes: bool)
    | More(content: string, left: nat, last: nat)

  /** The offset a window announces, if it does not reach the end. */
  function NextOffset(w: Window): Option<nat> {
    match w
    case Cut(_, _, last, _, _) => Some(last + 1)
    case More(_, _, last) => Some(last + 1)
    case _ => None
  }

  predicate HasContent(w: Window) {
    w.Whole? || w.Cut? || w.More?
  }

  /** The bytes of these lines with a line ending between each two. */
  function Size(lines: seq<string>): nat {
    if lines == [] then 0
    else Size(lines[..|lines| - 1]) + Utf8Length(lines[|lines| - 1]) + (if |lines| == 1 then 0 else 1)
  }

  lemma {:induction false} SizeIsOfTheJoinedText(lines: seq<string>)
    requires lines != []
    ensures Size(lines) == Utf8Length(JoinLines(lines))
  {
    if |lines| > 1 {
      var init, last := lines[..|lines| - 1], lines[|lines| - 1];
      SizeIsOfTheJoinedText(init);
      Utf8Concat(JoinLines(init), "\n");
      Utf8Concat(JoinLines(init) + "\n", last);
      assert "\n"[..0] == "";
      assert Utf8Length("\n") == 1;
    } else {
      assert lines[..0] == [];
    }
  }

  predicate Fits(lines: seq<string>) {
    |lines| <= READ_MAX_LINES && Size(lines) <= READ_MAX_BYTES
  }

  /** How many of the lines from `start` before `end` a window takes: as many as fit, one by one. */
  ghost predicate Taken(lines: seq<string>, start: nat, end: nat, n: nat) {
    && start + n <= end <= |lines| && Fits(lines[start..start + n])
    && (start + n < end ==> !Fits(lines[start..start + n + 1]))
  }

  method Select(lines: seq<string>, start: nat, end: nat) returns (selected: seq<string>, byBytes: bool)
    requires start <= end <= |lines|
    ensures Taken(lines, start, end, |selected|) && selected == lines[start..start + |selected|]
    ensures byBytes <==> start + |selected| < end && |selected| < READ_MAX_LINES
  {
    selected := [];
    byBytes := false;
    var size := 0;
    assert lines[start..start] == [];
    while start + |selected| < end && !byBytes
      invariant start + |selected| <= end && selected == lines[start..start + |selected|]
      invariant size == Size(selected) && Fits(selected)
      invariant byBytes ==> start + |selected| < end && |selected| < READ_MAX_LINES && !Fits(lines[start..start + |selected| + 1])
      decreases end - |selected|, !byBytes
    {
      var line := lines[start + |selected|];
      var lineBytes := Utf8Length(line) + (if selected == [] then 0 else 1);
      var longer := selected + [line];
      assert longer == lines[start..start + |selected| + 1];
      assert longer[..|longer| - 1] == selected;
      if |selected| == READ_MAX_LINES { break; }
      if size + lineBytes > READ_MAX_BYTES {
        byBytes := true;
      } else {
        selected := longer;
        size := size + lineBytes;
      }
    }
  }

  /** The first line a request asks for; no offset and offset zero mean the beginning. */
  function First(offset: Option<nat>): nat {
    if offset.Some? && offset.value > 0 then offset.value - 1 else 0
  }

  function Until(lines: seq<string>, start: nat, limit: Option<nat>): nat {
    if limit.Some? && start + limit.value < |lines| then start + limit.value else |lines|
  }

  predicate Shown(lines: seq<string>, start: nat, n: nat, content: string) {
    0 < n && start + n <= |lines| && content == JoinLines(lines[start..start + n])
  }

  /** What a window for the lines from `start` says: which lines it shows and where the next one starts. */
  ghost predicate Shows(lines: seq<string>, start: nat, limit: Option<nat>, w: Window) {
    var end := Until(lines, start, limit);
    match w
    case BeyondEnd(total) => start >= |lines| && total == |lines|
    case LineTooLong(line) => start < |lines| && line == start + 1 && Utf8Length(lines[start]) > READ_MAX_BYTES
    case Whole(content) => start < end == |lines| && Taken(lines, start, end, end - start) && Shown(lines, start, end - start, content)
    case Cut(content, first, last, total, byBytes) =>
      && first == start + 1 && start < last < end && total == |lines| && (byBytes <==> last - start < READ_MAX_LINES)
      && Taken(lines, start, end, last - start) && Shown(lines, start, last - start, content)
    case More(content, left, last) =>
      && start < last == end < |lines| && left == |lines| - last
      && Taken(lines, start, end, last - start) && Shown(lines, start, last - start, content)
  }

  method ReadWindow(text: string, offset: Option<nat>, limit: Option<nat>) returns (w: Window)
    requires limit.Some? ==> limit.value > 0
    ensures Shows(SplitLines(text), First(offset), limit, w)
  {
    var start := if offset.Some? && offset.value > 0 then offset.value - 1 else 0;
    w := WindowOf(SplitLines(text), start, limit);
  }

  method WindowOf(lines: seq<string>, start: nat, limit: Option<nat>) returns (w: Window)
    requires limit.Some? ==> limit.value > 0
    ensures Shows(lines, start, limit, w)
  {
    var total := |lines|;
    if start >= total { return BeyondEnd(total); }
    var end := if limit.Some? && start + limit.value < total then start + limit.value else total;
    var selected, byBytes := Select(lines, start, end);
    if selected == [] && byBytes {
      assert start + |selected| + 1 == start + 1;
      FirstDoesNotFit(lines, start);
      return LineTooLong(start + 1);
    }
    var last := start + |selected|;
    var content := JoinLines(selected);
    if last < end { return Cut(content, start + 1, last, total, byBytes); }
    if end < total { return More(content, total - end, end); }
    return Whole(content);
  }

  lemma FirstDoesNotFit(lines: seq<string>, start: nat)
    requires start < |lines| && !Fits(lines[start..start + 1])
    ensures Utf8Length(lines[start]) > READ_MAX_BYTES
  {
    var first := [lines[start]];
    assert lines[start..start + 1] == first && first[..0] == [];
    assert Size(first) == Utf8Length(lines[start]);
  }

  predicate ShownWithin(lines: seq<string>, start: nat, content: string) {
    exists n :: 0 <= n <= READ_MAX_LINES && Shown(lines, start, n, content)
  }

  /**
   Every window stays within both limits, in bytes and in lines, and advances by at least a line if it
   announces a next one.
   */
  lemma WindowsAreBoundedAndAdvance(lines: seq<string>, start: nat, limit: Option<nat>, w: Window)
    requires Shows(lines, start, limit, w)
    ensures HasContent(w) ==> Utf8Length(w.content) <= READ_MAX_BYTES && ShownWithin(lines, start, w.content)
    ensures NextOffset(w).Some? ==> start + 1 < NextOffset(w).value <= |lines|
  {
    if HasContent(w) {
      var n := match w case Cut(_, _, last, _, _) => last - start case More(_, _, last) => last - start case _ => |lines| - start;
      SizeIsOfTheJoinedText(lines[start..start + n]);
      assert Shown(lines, start, n, w.content);
    }
  }

  /** Splitting never leaves a separator in a piece. */
  lemma {:induction false} PiecesArePlain(s: string, separator: char)
    ensures forall i :: 0 <= i < |Split(s, separator)| ==> separator !in Split(s, separator)[i]
  {
    if s != "" { PiecesArePlain(s[..|s| - 1], separator); }
  }

  /** So the content of a window of a text, read as lines, has no more lines than a window may show. */
  lemma {:induction false} WindowsHaveFewLines(text: string, start: nat, limit: Option<nat>, w: Window)
    requires Shows(SplitLines(text), start, limit, w) && HasContent(w)
    ensures |SplitLines(w.content)| <= READ_MAX_LINES
  {
    var lines := SplitLines(text);
    WindowsAreBoundedAndAdvance(lines, start, limit, w);
    var n :| 0 <= n <= READ_MAX_LINES && Shown(lines, start, n, w.content);
    PiecesArePlain(text, '\n');
    ShownHasItsLines(lines, start, n, w.content);
  }

  lemma {:induction false} ShownHasItsLines(lines: seq<string>, start: nat, n: nat, content: string)
    requires Shown(lines, start, n, content) && forall i :: 0 <= i < |lines| ==> '\n' !in lines[i]
    ensures |SplitLines(content)| == n
  {
    SplitOfJoin(lines[start..start + n], '\n');
  }

  /** The windows a reader gets who follows every announced offset. */
  ghost predicate Follows(lines: seq<string>, start: nat, limit: Option<nat>, windows: seq<Window>)
    decreases |windows|
  {
    && windows != [] && Shows(lines, start, limit, windows[0])
    && (NextOffset(windows[0]).Some? ==> Follows(lines, NextOffset(windows[0]).value - 1, limit, windows[1..]))
    && (NextOffset(windows[0]).None? ==> |windows| == 1)
  }

  function Contents(windows: seq<Window>): seq<string>
    requires forall i :: 0 <= i < |windows| ==> HasContent(windows[i])
    ensures |Contents(windows)| == |windows|
  {
    if windows == [] then [] else assert HasContent(windows[0]); [windows[0].content] + Contents(windows[1..])
  }

  /** Following the offsets ends after at most as many windows as there are lines left. */
  lemma {:induction false} FollowingEnds(lines: seq<string>, start: nat, limit: Option<nat>, windows: seq<Window>)
    requires Follows(lines, start, limit, windows) && start < |lines|
    ensures |windows| <= |lines| - start
    decreases |windows|
  {
    var next := NextOffset(windows[0]);
    if next.Some? {
      WindowsAreBoundedAndAdvance(lines, start, limit, windows[0]);
      FollowingEnds(lines, next.value - 1, limit, windows[1..]);
    }
  }

  /** The contents are consecutive stretches of the lines from `start` to the end. */
  predicate Stretches(lines: seq<string>, start: nat, contents: seq<string>)
    decreases |contents|
  {
    contents != [] && start < |lines|
    && (if |contents| == 1 then contents[0] == JoinLines(lines[start..])
        else exists end :: start < end < |lines| && StretchTo(lines, start, end, contents[0])
                           && Stretches(lines, end, contents[1..]))
  }

  predicate StretchTo(lines: seq<string>, start: nat, end: nat, content: string) {
    start < end <= |lines| && content == JoinLines(lines[start..end])
  }

  lemma {:induction false} StretchesJoin(lines: seq<string>, start: nat, contents: seq<string>)
    requires Stretches(lines, start, contents)
    ensures JoinLines(contents) == JoinLines(lines[start..])
    decreases |contents|
  {
    if |contents| > 1 {
      var end :| start < end < |lines| && StretchTo(lines, start, end, contents[0]) && Stretches(lines, end, contents[1..]);
      StretchesJoin(lines, end, contents[1..]);
      JoinedSliceSplits(lines, start, end);
      FirstAndRest(contents);
    }
  }

  lemma {:induction false} FirstAndRest(contents: seq<string>)
    requires |contents| > 1
    ensures JoinLines(contents) == contents[0] + "\n" + JoinLines(contents[1..])
  {
    assert contents == [contents[0]] + contents[1..];
    JoinConcat([contents[0]], contents[1..], '\n');
  }

  /** The windows after the first one are followed from where it says, or there are none. */
  lemma {:induction false} FollowsRest(lines: seq<string>, start: nat, limit: Option<nat>, windows: seq<Window>)
    requires Follows(lines, start, limit, windows) && start < |lines| && Utf8Length(lines[start]) <= READ_MAX_BYTES
    ensures var w := windows[0];
            && HasContent(w)
            && if NextOffset(w).Some? then
                 var end := NextOffset(w).value - 1;
                 start < end < |lines| && StretchTo(lines, start, end, w.content) && Follows(lines, end, limit, windows[1..])
               else windows == [w] && w.content == JoinLines(lines[start..])
  {
    ShownPart(lines, start, limit, windows[0]);
    WindowsAreBoundedAndAdvance(lines, start, limit, windows[0]);
  }

  /** Every window has content, and shows the lines up to where the next one starts, the last one all that are left. */
  predicate Paged(lines: seq<string>, start: nat, windows: seq<Window>)
    decreases |windows|
  {
    && windows != [] && start < |lines| && HasContent(windows[0])
    && if NextOffset(windows[0]).Some? then
         var end := NextOffset(windows[0]).value - 1;
         start < end && StretchTo(lines, start, end, windows[0].content) && Paged(lines, end, windows[1..])
       else |windows| == 1 && windows[0].content == JoinLines(lines[start..])
  }

  lemma {:induction false} FollowedWindowsArePaged(lines: seq<string>, start: nat, limit: Option<nat>, windows: seq<Window>)
    requires Follows(lines, start, limit, windows) && start < |lines|
    requires forall l :: l in lines ==> Utf8Length(l) <= READ_MAX_BYTES
    ensures Paged(lines, start, windows)
    decreases |windows|
  {
    assert lines[start] in lines;
    FollowsRest(lines, start, limit, windows);
    var next := NextOffset(windows[0]);
    if next.Some? { FollowedWindowsArePaged(lines, next.value - 1, limit, windows[1..]); }
  }

  lemma {:induction false} PagesStretch(lines: seq<string>, start: nat, windows: seq<Window>)
    requires Paged(lines, start, windows)
    ensures forall i :: 0 <= i < |windows| ==> HasContent(windows[i])
    ensures Stretches(lines, start, Contents(windows))
    decreases |windows|
  {
    var next := NextOffset(windows[0]);
    if next.Some? {
      PagesStretch(lines, next.value - 1, windows[1..]);
      FirstStretch(lines, start, next.value - 1, windows);
    } else {
      assert Contents(windows) == [windows[0].content];
    }
  }

  lemma {:induction false} FirstStretch(lines: seq<string>, start: nat, end: nat, windows: seq<Window>)
    requires windows != [] && HasContent(windows[0]) && forall i :: 0 <= i < |windows[1..]| ==> HasContent(windows[1..][i])
    requires end < |lines| && StretchTo(lines, start, end, windows[0].content) && Stretches(lines, end, Contents(windows[1..]))
    ensures forall i :: 0 <= i < |windows| ==> HasContent(windows[i])
    ensures Stretches(lines, start, Contents(windows))
  {
    forall i | 0 <= i < |windows| ensures HasContent(windows[i]) {
      if i > 0 { assert windows[i] == windows[1..][i - 1]; }
    }
    assert Contents(windows)[1..] == Contents(windows[1..]);
  }

  /** Main result: if no line is too long, the windows joined by line endings are the rest of the file. */
  lemma {:induction false} WindowsRebuildTheFile(lines: seq<string>, start: nat, limit: Option<nat>, windows: seq<Window>)
    requires Follows(lines, start, limit, windows) && start < |lines|
    requires forall l :: l in lines ==> Utf8Length(l) <= READ_MAX_BYTES
    ensures forall i :: 0 <= i < |windows| ==> HasContent(windows[i])
    ensures JoinLines(Contents(windows)) == JoinLines(lines[start..])
  {
    FollowedWindowsArePaged(lines, start, limit, windows);
    PagesStretch(lines, start, windows);
    StretchesJoin(lines, start, Contents(windows));
  }

  /** A window shows the lines up to the next offset it announces, or up to the end. */
  lemma ShownPart(lines: seq<string>, start: nat, limit: Option<nat>, w: Window)
    requires Shows(lines, start, limit, w) && start < |lines| && Utf8Length(lines[start]) <= READ_MAX_BYTES
    ensures HasContent(w)
    ensures var end := if NextOffset(w).Some? then NextOffset(w).value - 1 else |lines|;
            start < end <= |lines| && w.content == JoinLines(lines[start..end])
    ensures lines[start..] == lines[start..|lines|]
  {
  }

  lemma {:induction false} JoinedSliceSplits(lines: seq<string>, start: nat, from: nat)
    requires start < from < |lines|
    ensures JoinLines(lines[start..]) == JoinLines(lines[start..from]) + "\n" + JoinLines(lines[from..])
  {
    assert lines[start..] == lines[start..from] + lines[from..];
    JoinConcat(lines[start..from], lines[from..], '\n');
  }

  /** From the first line on, that is the whole text. */
  lemma {:induction false} WindowsRebuildTheText(text: string, limit: Option<nat>, windows: seq<Window>)
    requires Follows(SplitLines(text), 0, limit, windows)
    requires forall l :: l in SplitLines(text) ==> Utf8Length(l) <= READ_MAX_BYTES
    ensures forall i :: 0 <= i < |windows| ==> HasContent(windows[i])
    ensures JoinLines(Contents(windows)) == text
  {
    WindowsRebuildTheFile(SplitLines(text), 0, limit, windows);
    assert SplitLines(text)[0..] == SplitLines(text);
    JoinOfSplit(text);
  }
}
