/**
 Several literal replacements in one file at once: every edit is matched against
 the original text, overlapping ones are refused, and the matches are spliced from
 right to left. The result is the simultaneous replacement of all spans and does
 not depend on the order of the edits.
 */
module MultiEdit {
  import opened Text
  import opened Wrappers

  datatype Edit = Edit(oldText: string, newText: string)

  datatype Match = Match(start: nat, index: nat, edit: Edit)

  datatype Failure =
    | NoEdits
    | InputTooLong
    | EmptyOldText(index: nat)
    | NoLiteralMatch(index: nat)
    | AmbiguousMatch(index: nat, count: nat)
    | Overlapping(index: nat, nextIndex: nat)
    | NoChange
    | ResultTooLong
    | Binary

  const LIMIT := 1024 * 1024

  // ---- matching ---------------------------------------------------------------------

  /** How often the pattern occurs, from left to right and without overlaps. */
  function Count(text: string, pattern: string, from: nat): nat
    requires pattern != "" && from <= |text|
    decreases |text| - from
  {
    var i := Find(text, pattern, from);
    if i == |text| then 0 else 1 + Count(text, pattern, i + |pattern|)
  }

  /** A count of one: every other occurrence overlaps the leftmost one. */
  lemma {:induction false} CountOne(text: string, pattern: string)
    requires pattern != ""
    ensures Count(text, pattern, 0) == 1 <==>
              var i := Find(text, pattern, 0);
              i < |text| && forall j :: i + |pattern| <= j ==> !OccursAt(text, pattern, j)
  {
    var i := Find(text, pattern, 0);
    if i < |text| {
      var next := Find(text, pattern, i + |pattern|);
      if next < |text| {
        assert Count(text, pattern, i + |pattern|) >= 1;
      } else {
        assert Count(text, pattern, i + |pattern|) == 0;
        assert forall j :: |text| <= j ==> !OccursAt(text, pattern, j);
      }
    }
  }

  /** So a count of one does not mean a single occurrence. */
  lemma OneCountCanHideAnOverlap()
    ensures Count("aaa", "aa", 0) == 1 && OccursAt("aaa", "aa", 0) && OccursAt("aaa", "aa", 1)
  {
    assert Find("aaa", "aa", 0) == 0;
    assert Find("aaa", "aa", 2) == 3;
  }

  function Place(original: string, e: Edit): nat
    requires e.oldText != ""
  {
    Find(original, e.oldText, 0)
  }

  function End(original: string, e: Edit): nat
    requires e.oldText != ""
  {
    Place(original, e) + |e.oldText|
  }

  predicate Matches(original: string, e: Edit) {
    e.oldText != "" && Count(original, e.oldText, 0) == 1
  }

  lemma MatchedSpanIsInside(original: string, e: Edit)
    requires Matches(original, e)
    ensures End(original, e) <= |original| && original[Place(original, e)..End(original, e)] == e.oldText
  {
  }

  /** The two matched spans do not overlap. */
  predicate Apart(original: string, a: Edit, b: Edit) {
    a.oldText != "" && b.oldText != "" && (End(original, a) <= Place(original, b) || End(original, b) <= Place(original, a))
  }

  // ---- replacing --------------------------------------------------------------------

  /** Spans in order, none overlapping the next, from a position on. */
  predicate Ordered(original: string, from: nat, edits: seq<Edit>)
    decreases |edits|
  {
    if edits == [] then from <= |original|
    else Matches(original, edits[0]) && from <= Place(original, edits[0]) && Ordered(original, End(original, edits[0]), edits[1..])
  }

  /** All spans of the original text replaced at once. */
  function Replaced(original: string, from: nat, edits: seq<Edit>): string
    requires Ordered(original, from, edits) && from <= |original|
    decreases |edits|
  {
    if edits == [] then original[from..]
    else
      MatchedSpanIsInside(original, edits[0]);
      original[from..Place(original, edits[0])] + edits[0].newText + Replaced(original, End(original, edits[0]), edits[1..])
  }

  lemma {:induction false} KeepsTheFront(original: string, from: nat, upto: nat, edits: seq<Edit>)
    requires from <= upto <= |original| && Ordered(original, upto, edits)
    ensures Ordered(original, from, edits)
    ensures Replaced(original, from, edits) == original[from..upto] + Replaced(original, upto, edits)
  {
    if edits != [] {
      var p := Place(original, edits[0]);
      MatchedSpanIsInside(original, edits[0]);
      assert original[from..p] == original[from..upto] + original[upto..p];
      var rest := Replaced(original, End(original, edits[0]), edits[1..]);
      assert original[from..upto] + original[upto..p] + edits[0].newText + rest == original[from..upto] + (original[upto..p] + edits[0].newText + rest);
    } else {
      assert original[from..] == original[from..upto] + original[upto..];
    }
  }

  /** Splicing the first span after all later ones replaces it too. */
  lemma {:induction false} SpliceFirst(original: string, edits: seq<Edit>)
    requires edits != [] && Ordered(original, 0, edits)
    ensures Ordered(original, 0, edits[1..])
    ensures var later, p, end := Replaced(original, 0, edits[1..]), Place(original, edits[0]), End(original, edits[0]);
            end <= |later| && Replaced(original, 0, edits) == later[..p] + edits[0].newText + later[end..]
  {
    var p, end := Place(original, edits[0]), End(original, edits[0]);
    MatchedSpanIsInside(original, edits[0]);
    KeepsTheFront(original, 0, end, edits[1..]);
    assert original[0..end][..p] == original[0..p];
  }

  function EditsOf(matches: seq<Match>): (r: seq<Edit>)
    ensures |r| == |matches|
    ensures forall i :: 0 <= i < |r| ==> r[i] == matches[i].edit
  {
    if matches == [] then [] else [matches[0].edit] + EditsOf(matches[1..])
  }

  predicate Placed(original: string, matches: seq<Match>) {
    forall i :: 0 <= i < |matches| ==> Matches(original, matches[i].edit) && matches[i].start == Place(original, matches[i].edit)
  }

  /** The splicing loop: from right to left, so earlier positions stay valid. */
  method Splice(original: string, matches: seq<Match>) returns (text: string)
    requires Placed(original, matches) && Ordered(original, 0, EditsOf(matches))
    ensures text == Replaced(original, 0, EditsOf(matches))
  {
    ghost var edits := EditsOf(matches);
    text := original;
    assert edits[|edits|..] == [];
    assert original[0..] == original;
    var i := |matches|;
    while i > 0
      invariant 0 <= i <= |matches| && Ordered(original, 0, edits[i..]) && text == Replaced(original, 0, edits[i..])
    {
      i := i - 1;
      OrderedSuffix(original, edits, i);
      assert edits[i..][1..] == edits[i + 1..];
      SpliceFirst(original, edits[i..]);
      var m := matches[i];
      text := text[..m.start] + m.edit.newText + text[m.start + |m.edit.oldText|..];
    }
    assert edits[0..] == edits;
  }

  lemma {:induction false} OrderedSuffix(original: string, edits: seq<Edit>, i: nat)
    requires Ordered(original, 0, edits) && i < |edits|
    ensures Ordered(original, 0, edits[i..])
  {
    if i == 0 {
      assert edits[0..] == edits;
    } else {
      MatchedSpanIsInside(original, edits[0]);
      OrderedFromZero(original, End(original, edits[0]), edits[1..]);
      OrderedSuffix(original, edits[1..], i - 1);
      assert edits[1..][i - 1..] == edits[i..];
    }
  }

  lemma {:induction false} OrderedFromZero(original: string, from: nat, edits: seq<Edit>)
    requires Ordered(original, from, edits) && from <= |original|
    ensures Ordered(original, 0, edits)
  {
    KeepsTheFront(original, 0, from, edits);
  }

  function Unchanging(edits: seq<Edit>): (r: seq<Edit>)
    ensures |r| == |edits| && forall i :: 0 <= i < |r| ==> r[i] == edits[i].(newText := edits[i].oldText)
  {
    if edits == [] then [] else [edits[0].(newText := edits[0].oldText)] + Unchanging(edits[1..])
  }

  // ---- what stands where -----------------------------------------------------------------

  /** By how much what follows the first `k` edits moves. */
  function Shift(edits: seq<Edit>, k: nat): int
    requires k <= |edits|
  {
    if k == 0 then 0 else Shift(edits, k - 1) + |edits[k - 1].newText| - |edits[k - 1].oldText|
  }

  lemma {:induction false} ShiftFirst(edits: seq<Edit>, k: nat)
    requires 0 < k <= |edits|
    ensures Shift(edits, k) == |edits[0].newText| - |edits[0].oldText| + Shift(edits[1..], k - 1)
  {
    if k > 1 { ShiftFirst(edits, k - 1); }
  }

  /** Where the k-th unmatched stretch of the original begins and ends; the last one ends with the text. */
  function GapStart(original: string, from: nat, edits: seq<Edit>, k: nat): nat
    requires k <= |edits| && Ordered(original, from, edits)
  {
    if k == 0 then from else OrderedMatches(original, from, edits, k - 1); End(original, edits[k - 1])
  }

  function GapEnd(original: string, from: nat, edits: seq<Edit>, k: nat): nat
    requires k <= |edits| && Ordered(original, from, edits)
  {
    if k == |edits| then |original| else OrderedMatches(original, from, edits, k); Place(original, edits[k])
  }

  lemma {:induction false} OrderedMatches(original: string, from: nat, edits: seq<Edit>, k: nat)
    requires k < |edits| && Ordered(original, from, edits)
    ensures Matches(original, edits[k])
    decreases k
  {
    if k > 0 { OrderedMatches(original, End(original, edits[0]), edits[1..], k - 1); }
  }

  /** A text stands in another one at a position. */
  predicate StandsAt(text: string, piece: string, at: int) {
    0 <= at && at + |piece| <= |text| && text[at..at + |piece|] == piece
  }

  lemma {:induction false} StandsLater(front: string, back: string, piece: string, at: int, place: int)
    requires StandsAt(back, piece, at) && place == |front| + at
    ensures StandsAt(front + back, piece, place)
  {
    assert (front + back)[place..place + |piece|] == back[at..at + |piece|];
  }

  predicate Carried(original: string, result: string, start: int, end: int, move: int) {
    0 <= start <= end <= |original| && StandsAt(result, original[start..end], start + move)
  }

  /** The k-th unmatched stretch stands in the result, moved by what the edits before it add or remove. */
  predicate StretchStands(original: string, from: nat, edits: seq<Edit>, k: nat)
    requires Ordered(original, from, edits) && from <= |original| && k <= |edits|
  {
    var start, end := GapStart(original, from, edits, k), GapEnd(original, from, edits, k);
    from <= start && Carried(original, Replaced(original, from, edits), start, end, Shift(edits, k) - from)
  }

  /** And the k-th new text stands behind it. */
  predicate NewTextStands(original: string, from: nat, edits: seq<Edit>, k: nat)
    requires Ordered(original, from, edits) && from <= |original| && k < |edits|
  {
    StandsAt(Replaced(original, from, edits), edits[k].newText, GapEnd(original, from, edits, k) + Shift(edits, k) - from)
  }

  /** Outside the spans nothing changes, and nothing but the new texts comes in between. */
  lemma {:induction false} OutsideIsUnchanged(original: string, from: nat, edits: seq<Edit>, k: nat)
    requires Ordered(original, from, edits) && from <= |original| && k <= |edits|
    ensures StretchStands(original, from, edits, k)
    ensures k < |edits| ==> NewTextStands(original, from, edits, k)
    decreases k
  {
    if k == 0 {
      FirstStretchStands(original, from, edits);
    } else {
      MatchedSpanIsInside(original, edits[0]);
      OutsideIsUnchanged(original, End(original, edits[0]), edits[1..], k - 1);
      LaterStretchStands(original, from, edits, k);
      if k < |edits| { LaterNewTextStands(original, from, edits, k); }
    }
  }

  lemma SameStanding(text: string, piece: string, at: int, other: string, place: int)
    requires StandsAt(text, piece, at) && piece == other && at == place
    ensures StandsAt(text, other, place)
  {
  }

  lemma {:induction false} LaterStretchStands(original: string, from: nat, edits: seq<Edit>, k: nat)
    requires 0 < k <= |edits| && Ordered(original, from, edits) && from <= |original| && End(original, edits[0]) <= |original|
    requires StretchStands(original, End(original, edits[0]), edits[1..], k - 1)
    ensures StretchStands(original, from, edits, k)
  {
    var first, rest := End(original, edits[0]), edits[1..];
    var start, end := GapStart(original, first, rest, k - 1), GapEnd(original, first, rest, k - 1);
    GapsOfTheRest(original, from, edits, k);
    CarriedWithTheFirst(original, from, edits, k, start, end);
  }

  lemma {:induction false} CarriedWithTheFirst(original: string, from: nat, edits: seq<Edit>, k: nat, start: nat, end: nat)
    requires 0 < k <= |edits| && Ordered(original, from, edits) && End(original, edits[0]) <= |original|
    requires Carried(original, Replaced(original, End(original, edits[0]), edits[1..]), start, end,
                     Shift(edits[1..], k - 1) - End(original, edits[0]))
    ensures Carried(original, Replaced(original, from, edits), start, end, Shift(edits, k) - from)
  {
    MovesWithTheFirst(original, from, edits, k, original[start..end], start);
  }

  lemma {:induction false} LaterNewTextStands(original: string, from: nat, edits: seq<Edit>, k: nat)
    requires 0 < k < |edits| && Ordered(original, from, edits) && from <= |original| && End(original, edits[0]) <= |original|
    requires NewTextStands(original, End(original, edits[0]), edits[1..], k - 1)
    ensures NewTextStands(original, from, edits, k)
  {
    var rest, end := edits[1..], GapEnd(original, End(original, edits[0]), edits[1..], k - 1);
    GapsOfTheRest(original, from, edits, k);
    MovesWithTheFirst(original, from, edits, k, rest[k - 1].newText, end);
    SameStanding(Replaced(original, from, edits), rest[k - 1].newText, end + Shift(edits, k) - from,
                 edits[k].newText, GapEnd(original, from, edits, k) + Shift(edits, k) - from);
  }

  /** What stands behind the first edit moves with it. */
  lemma {:induction false} MovesWithTheFirst(original: string, from: nat, edits: seq<Edit>, k: nat, piece: string, pos: nat)
    requires 0 < k <= |edits| && Ordered(original, from, edits) && End(original, edits[0]) <= |original|
    requires StandsAt(Replaced(original, End(original, edits[0]), edits[1..]), piece,
                      pos + Shift(edits[1..], k - 1) - End(original, edits[0]))
    ensures StandsAt(Replaced(original, from, edits), piece, pos + Shift(edits, k) - from)
  {
    var e, rest := edits[0], edits[1..];
    var front, back := original[from..Place(original, e)] + e.newText, Replaced(original, End(original, e), rest);
    var at := pos + Shift(rest, k - 1) - End(original, e);
    ShiftFirst(edits, k);
    var place := pos + Shift(edits, k) - from;
    assert place == |front| + at;
    StandsLater(front, back, piece, at, place);
  }

  lemma {:induction false} GapsOfTheRest(original: string, from: nat, edits: seq<Edit>, k: nat)
    requires 0 < k <= |edits| && Ordered(original, from, edits)
    ensures Ordered(original, End(original, edits[0]), edits[1..])
    ensures GapStart(original, from, edits, k) == GapStart(original, End(original, edits[0]), edits[1..], k - 1)
    ensures GapEnd(original, from, edits, k) == GapEnd(original, End(original, edits[0]), edits[1..], k - 1)
  {
  }

  lemma {:induction false} FirstStretchStands(original: string, from: nat, edits: seq<Edit>)
    requires Ordered(original, from, edits) && from <= |original|
    ensures StretchStands(original, from, edits, 0)
    ensures edits != [] ==> NewTextStands(original, from, edits, 0)
  {
    if edits != [] {
      MatchedSpanIsInside(original, edits[0]);
      var p, rest := Place(original, edits[0]), Replaced(original, End(original, edits[0]), edits[1..]);
      ThreePieces(original[from..p], edits[0].newText, rest);
    }
  }

  lemma {:induction false} ThreePieces(a: string, b: string, c: string)
    ensures StandsAt(a + b + c, a, 0) && StandsAt(a + b + c, b, |a|)
  {
  }

  /** Putting each old text back in its place gives the original. */
  lemma {:induction false} OldTextsPutBack(original: string, from: nat, edits: seq<Edit>)
    requires Ordered(original, from, edits) && from <= |original|
    ensures Ordered(original, from, Unchanging(edits))
    ensures Replaced(original, from, Unchanging(edits)) == original[from..]
    decreases |edits|
  {
    if edits != [] {
      var e, rest := edits[0], Unchanging(edits[1..]);
      var p, end := Place(original, e), End(original, e);
      MatchedSpanIsInside(original, e);
      OldTextsPutBack(original, end, edits[1..]);
      var same := Unchanging(edits);
      assert same[1..] == rest && same[0] == e.(newText := e.oldText);
      assert Place(original, same[0]) == p && End(original, same[0]) == end;
      SpanJoins(original, from, p, end);
    }
  }

  lemma SpanJoins(original: string, from: nat, p: nat, end: nat)
    requires from <= p <= end <= |original|
    ensures original[from..] == original[from..p] + original[p..end] + original[end..]
  {
  }

  // ---- the whole operation -------------------------------------------------------------

  function InputSize(edits: seq<Edit>): nat {
    if edits == [] then 0 else Utf8Length(edits[0].oldText) + Utf8Length(edits[0].newText) + InputSize(edits[1..])
  }

  /** No control characters but tab, line feed, carriage return, form feed and backspace. */
  predicate IsText(text: string) {
    forall i :: 0 <= i < |text| ==> text[i] >= ' ' || text[i] in "\t\n\r\U{0C}\U{08}"
  }

  function MatchFailure(original: string, e: Edit, index: nat): Failure {
    if e.oldText == "" then EmptyOldText(index)
    else if Count(original, e.oldText, 0) == 0 then NoLiteralMatch(index)
    else AmbiguousMatch(index, Count(original, e.oldText, 0))
  }

  /** The matches of the edits in the given order, or why the first edit without one has none. */
  function Located(original: string, edits: seq<Edit>): (r: Result<seq<Match>, Failure>)
    ensures r.Ok? <==> forall i :: 0 <= i < |edits| ==> Matches(original, edits[i])
    ensures r.Ok? ==> |r.value| == |edits| && Placed(original, r.value) && EditsOf(r.value) == edits
  {
    if edits == [] then Ok([])
    else
      var n := |edits| - 1;
      var before := Located(original, edits[..n]);
      if before.Err? then before
      else if !Matches(original, edits[n]) then Err(MatchFailure(original, edits[n], n))
      else
        var all := before.value + [Match(Place(original, edits[n]), n, edits[n])];
        assert EditsOf(all) == edits;
        Ok(all)
  }

  method Locate(original: string, edits: seq<Edit>) returns (r: Result<seq<Match>, Failure>)
    ensures r == Located(original, edits)
  {
    var matches: seq<Match> := [];
    for i := 0 to |edits|
      invariant Located(original, edits[..i]) == Ok(matches)
    {
      var e := edits[i];
      assert edits[..i + 1][..i] == edits[..i];
      var failed := e.oldText == "" || Count(original, e.oldText, 0) != 1;
      if failed {
        LocatedFails(original, edits, i);
        return Err(MatchFailure(original, e, i));
      }
      matches := matches + [Match(Find(original, e.oldText, 0), i, e)];
    }
    assert edits[..|edits|] == edits;
    return Ok(matches);
  }

  lemma {:induction false} LocatedFails(original: string, edits: seq<Edit>, i: nat)
    requires i < |edits| && Located(original, edits[..i]).Ok? && !Matches(original, edits[i])
    ensures Located(original, edits) == Err(MatchFailure(original, edits[i], i))
    decreases |edits|
  {
    var init := edits[..|edits| - 1];
    if i < |init| {
      assert init[..i] == edits[..i];
      LocatedFails(original, init, i);
    }
  }

  /** A text occurs twice, the second time behind the first. */
  ghost predicate Twice(text: string, pattern: string) {
    exists p, q :: 0 <= p && p + |pattern| <= q && OccursAt(text, pattern, p) && OccursAt(text, pattern, q)
  }

  lemma {:induction false} CountedTwice(text: string, pattern: string)
    requires pattern != "" && Count(text, pattern, 0) >= 2
    ensures Twice(text, pattern)
  {
    var p := Find(text, pattern, 0);
    var q := Find(text, pattern, p + |pattern|);
    assert q < |text|;
  }

  /** The first edit without a unique match is named: it is empty, or its text occurs nowhere, or more than once. */
  lemma {:induction false} FailuresSayWhy(original: string, edits: seq<Edit>, i: nat)
    requires i < |edits| && !Matches(original, edits[i]) && forall j :: 0 <= j < i ==> Matches(original, edits[j])
    ensures Located(original, edits).Err?
    ensures var e, f := edits[i], Located(original, edits).error;
            if e.oldText == "" then f == EmptyOldText(i)
            else if forall p :: !OccursAt(original, e.oldText, p) then f == NoLiteralMatch(i)
            else f == AmbiguousMatch(i, Count(original, e.oldText, 0)) && f.count >= 2 && Twice(original, e.oldText)
  {
    LocatedFails(original, edits, i);
    var e := edits[i];
    if e.oldText != "" {
      var p := Find(original, e.oldText, 0);
      if p == |original| {
        assert forall q :: |original| <= q ==> !OccursAt(original, e.oldText, q);
      } else {
        assert OccursAt(original, e.oldText, p) && Count(original, e.oldText, 0) >= 1;
        CountedTwice(original, e.oldText);
      }
    }
  }

  lemma {:induction false} LocatingErrors(original: string, edits: seq<Edit>)
    ensures Located(original, edits).Err? ==>
              var f := Located(original, edits).error; f.EmptyOldText? || f.NoLiteralMatch? || f.AmbiguousMatch?
  {
    if edits != [] { LocatingErrors(original, edits[..|edits| - 1]); }
  }

  predicate SortedByStart(matches: seq<Match>) {
    forall i, j :: 0 <= i < j < |matches| ==> matches[i].start <= matches[j].start
  }

  function Insert(matches: seq<Match>, m: Match): seq<Match> {
    if matches == [] || m.start >= matches[|matches| - 1].start then matches + [m]
    else Insert(matches[..|matches| - 1], m) + [matches[|matches| - 1]]
  }

  lemma {:induction false} InsertAdds(matches: seq<Match>, m: Match)
    ensures multiset(Insert(matches, m)) == multiset(matches) + multiset{m}
  {
    if matches != [] && m.start < matches[|matches| - 1].start {
      var front, last := matches[..|matches| - 1], matches[|matches| - 1];
      assert matches == front + [last];
      InsertAdds(front, m);
    }
  }

  lemma {:induction false} InsertKeepsSorted(matches: seq<Match>, m: Match)
    requires SortedByStart(matches)
    ensures SortedByStart(Insert(matches, m))
  {
    if matches != [] && m.start < matches[|matches| - 1].start {
      var front, last := matches[..|matches| - 1], matches[|matches| - 1];
      InsertKeepsSorted(front, m);
      InsertAdds(front, m);
      var inserted := Insert(front, m);
      forall i | 0 <= i < |inserted| ensures inserted[i].start <= last.start {
        assert inserted[i] in multiset(inserted);
      }
    }
  }

  /** A stable sort by start. */
  function SortMatches(matches: seq<Match>): seq<Match> {
    if matches == [] then [] else Insert(SortMatches(matches[..|matches| - 1]), matches[|matches| - 1])
  }

  lemma {:induction false} SortSorts(matches: seq<Match>)
    ensures SortedByStart(SortMatches(matches)) && multiset(SortMatches(matches)) == multiset(matches)
  {
    if matches != [] {
      var front, last := matches[..|matches| - 1], matches[|matches| - 1];
      assert matches == front + [last];
      SortSorts(front);
      InsertKeepsSorted(SortMatches(front), last);
      InsertAdds(SortMatches(front), last);
    }
  }

  predicate OverlapsNext(matches: seq<Match>, i: nat)
    requires i + 1 < |matches|
  {
    matches[i].start + |matches[i].edit.oldText| > matches[i + 1].start
  }

  /** The first overlap of two neighbours. */
  function FirstOverlap(matches: seq<Match>, from: nat): (r: Option<Failure>)
    ensures r.Some? ==> r.value.Overlapping?
    decreases |matches| - from
  {
    if from + 1 >= |matches| then None
    else if OverlapsNext(matches, from) then Some(Overlapping(matches[from].index, matches[from + 1].index))
    else FirstOverlap(matches, from + 1)
  }

  /** It is that of the first two neighbours of which one reaches into the next. */
  lemma {:induction false} OverlapsSayWhich(matches: seq<Match>, from: nat) returns (i: nat)
    requires FirstOverlap(matches, from).Some?
    ensures from <= i && i + 1 < |matches| && matches[i].start + |matches[i].edit.oldText| > matches[i + 1].start
    ensures FirstOverlap(matches, from) == Some(Overlapping(matches[i].index, matches[i + 1].index))
    ensures forall j {:trigger OverlapsNext(matches, j)} :: from <= j < i ==> !OverlapsNext(matches, j)
    decreases |matches| - from
  {
    if OverlapsNext(matches, from) { i := from; } else { i := OverlapsSayWhich(matches, from + 1); }
  }

  method CheckOverlaps(matches: seq<Match>) returns (overlap: Option<Failure>)
    ensures overlap == FirstOverlap(matches, 0)
  {
    var i := 0;
    while i + 1 < |matches|
      invariant FirstOverlap(matches, 0) == FirstOverlap(matches, i)
    {
      if matches[i].start + |matches[i].edit.oldText| > matches[i + 1].start {
        return Some(Overlapping(matches[i].index, matches[i + 1].index));
      }
      i := i + 1;
    }
    return None;
  }

  function Checked(original: string, text: string): Result<string, Failure> {
    if text == original then Err(NoChange)
    else if Utf8Length(text) > LIMIT then Err(ResultTooLong)
    else if !IsText(text) then Err(Binary)
    else Ok(text)
  }

  lemma {:induction false} NoOverlapIsOrdered(original: string, matches: seq<Match>, from: nat)
    requires from < |matches| && Placed(original, matches) && FirstOverlap(matches, from).None?
    ensures Ordered(original, matches[from].start, EditsOf(matches[from..]))
    decreases |matches| - from
  {
    var edits := EditsOf(matches[from..]);
    MatchedSpanIsInside(original, matches[from].edit);
    assert matches[from..][1..] == matches[from + 1..];
    if from + 1 < |matches| {
      NoOverlapIsOrdered(original, matches, from + 1);
      KeepsTheFront(original, End(original, edits[0]), matches[from + 1].start, edits[1..]);
    }
  }

  lemma {:induction false} SortedIsOrdered(original: string, matches: seq<Match>)
    requires Placed(original, matches) && FirstOverlap(matches, 0).None?
    ensures Ordered(original, 0, EditsOf(matches))
  {
    if matches != [] {
      NoOverlapIsOrdered(original, matches, 0);
      assert matches[0..] == matches;
      MatchedSpanIsInside(original, matches[0].edit);
      KeepsTheFront(original, 0, matches[0].start, EditsOf(matches));
    }
  }

  lemma PlacedPermutes(original: string, a: seq<Match>, b: seq<Match>)
    requires Placed(original, a) && multiset(a) == multiset(b)
    ensures Placed(original, b)
  {
    forall i | 0 <= i < |b| ensures Matches(original, b[i].edit) && b[i].start == Place(original, b[i].edit) {
      assert b[i] in multiset(a);
    }
  }

  /** What the edit operation returns. */
  function EditResult(original: string, edits: seq<Edit>): Result<string, Failure> {
    if edits == [] then Err(NoEdits)
    else if InputSize(edits) > LIMIT then Err(InputTooLong)
    else
      var located := Located(original, edits);
      if located.Err? then Err(located.error)
      else
        var matches := SortMatches(located.value);
        var overlap := FirstOverlap(matches, 0);
        if overlap.Some? then Err(overlap.value)
        else
          SortSorts(located.value);
          PlacedPermutes(original, located.value, matches);
          SortedIsOrdered(original, matches);
          Checked(original, Replaced(original, 0, EditsOf(matches)))
  }

  lemma AcceptedTextIsChecked(original: string, edits: seq<Edit>)
    ensures var r := EditResult(original, edits);
            r.Ok? ==> AllMatch(original, multiset(edits)) && AllApart(original, multiset(edits))
                      && r.value != original && Utf8Length(r.value) <= LIMIT && IsText(r.value)
  {
    if edits != [] && InputSize(edits) <= LIMIT { AcceptedExactlyWhenApart(original, edits); }
  }

  method ApplyEdits(original: string, edits: seq<Edit>) returns (r: Result<string, Failure>)
    ensures r == EditResult(original, edits)
    ensures r.Ok? ==> AllMatch(original, multiset(edits)) && AllApart(original, multiset(edits))
                      && r.value != original && Utf8Length(r.value) <= LIMIT && IsText(r.value)
  {
    AcceptedTextIsChecked(original, edits);
    if edits == [] { return Err(NoEdits); }
    if InputSize(edits) > LIMIT { return Err(InputTooLong); }
    var located := Locate(original, edits);
    if located.Err? { return Err(located.error); }
    var matches := SortMatches(located.value);
    var overlap := CheckOverlaps(matches);
    if overlap.Some? { return Err(overlap.value); }
    SortSorts(located.value);
    PlacedPermutes(original, located.value, matches);
    SortedIsOrdered(original, matches);
    var text := Splice(original, matches);
    r := Checked(original, text);
  }

  // ---- any order of the edits ------------------------------------------------------------

  /** No edit twice, and no two matched spans overlap. */
  ghost predicate AllApart(original: string, edits: multiset<Edit>) {
    && (forall e :: e in edits ==> edits[e] == 1)
    && (forall a, b :: a in edits && b in edits && a != b ==> Apart(original, a, b))
  }

  lemma {:induction false} LaterStartsLater(original: string, from: nat, edits: seq<Edit>, e: Edit)
    requires Ordered(original, from, edits) && e in edits
    ensures Matches(original, e) && from <= Place(original, e)
    decreases |edits|
  {
    if e != edits[0] {
      LaterStartsLater(original, End(original, edits[0]), edits[1..], e);
    }
  }

  lemma AddApart(original: string, e: Edit, rest: multiset<Edit>)
    requires AllApart(original, rest) && forall o :: o in rest ==> o != e && Apart(original, e, o)
    ensures AllApart(original, multiset{e} + rest)
  {
    assert e !in rest;
  }

  lemma {:induction false} OrderedIsApart(original: string, from: nat, edits: seq<Edit>)
    requires Ordered(original, from, edits)
    ensures AllApart(original, multiset(edits))
    decreases |edits|
  {
    if edits != [] {
      var e, rest := edits[0], edits[1..];
      OrderedIsApart(original, End(original, e), rest);
      forall o | o in multiset(rest) ensures o != e && Apart(original, e, o) {
        LaterStartsLater(original, End(original, e), rest, o);
      }
      AddApart(original, e, multiset(rest));
      assert edits == [e] + rest;
    }
  }

  lemma {:induction false} OrderedIsUnique(original: string, from: nat, a: seq<Edit>, b: seq<Edit>)
    requires Ordered(original, from, a) && Ordered(original, from, b) && multiset(a) == multiset(b)
    ensures a == b
    decreases |a|
  {
    if a != [] {
      assert a == [a[0]] + a[1..];
      assert a[0] in multiset(b) && b[0] in multiset(a);
      if a[0] != b[0] {
        LaterStartsLater(original, End(original, a[0]), a[1..], b[0]);
        LaterStartsLater(original, End(original, b[0]), b[1..], a[0]);
      }
      assert b == [b[0]] + b[1..];
      assert multiset(a[1..]) == multiset(a) - multiset{a[0]} && multiset(b[1..]) == multiset(b) - multiset{b[0]};
      OrderedIsUnique(original, End(original, a[0]), a[1..], b[1..]);
    }
  }

  lemma {:induction false} NeighboursApart(original: string, matches: seq<Match>, i: nat)
    requires Placed(original, matches) && SortedByStart(matches) && AllApart(original, multiset(EditsOf(matches)))
    requires i + 1 < |matches|
    ensures !OverlapsNext(matches, i)
  {
    var edits := EditsOf(matches);
    var a, b := edits[i], edits[i + 1];
    assert a in multiset(edits) && b in multiset(edits);
    if a == b { TwiceCountsTwice(edits, i); }
    assert Apart(original, a, b);
  }

  lemma {:induction false} ApartIsUnobstructed(original: string, matches: seq<Match>)
    requires Placed(original, matches) && SortedByStart(matches) && AllApart(original, multiset(EditsOf(matches)))
    ensures FirstOverlap(matches, 0).None?
  {
    forall i | 0 <= i < |matches| - 1 ensures !OverlapsNext(matches, i) {
      NeighboursApart(original, matches, i);
    }
    NoneOverlaps(matches, 0);
  }

  lemma {:induction false} NoneOverlaps(matches: seq<Match>, from: nat)
    requires forall i :: from <= i < |matches| - 1 ==> !OverlapsNext(matches, i)
    ensures FirstOverlap(matches, from).None?
    decreases |matches| - from
  {
    if from + 1 < |matches| { NoneOverlaps(matches, from + 1); }
  }

  lemma TwiceCountsTwice(edits: seq<Edit>, i: nat)
    requires i + 1 < |edits| && edits[i] == edits[i + 1]
    ensures multiset(edits)[edits[i]] >= 2
  {
    assert edits == edits[..i] + [edits[i]] + [edits[i + 1]] + edits[i + 2..];
  }

  lemma {:induction false} Without<T>(s: seq<T>, k: nat)
    requires k < |s|
    ensures multiset(s[..k] + s[k + 1..]) == multiset(s) - multiset{s[k]}
  {
    assert s == s[..k] + [s[k]] + s[k + 1..];
  }

  lemma {:induction false} WithoutFirst<T>(s: seq<T>)
    requires s != []
    ensures multiset(s[1..]) == multiset(s) - multiset{s[0]}
  {
    assert s == [s[0]] + s[1..];
  }

  /** The first element of one sequence, taken out of a permutation of it. */
  lemma {:induction false} TakeOut<T>(a: seq<T>, b: seq<T>) returns (k: nat)
    requires a != [] && multiset(a) == multiset(b)
    ensures k < |b| && b[k] == a[0] && multiset(a[1..]) == multiset(b[..k] + b[k + 1..])
  {
    assert a[0] in multiset(b);
    k :| 0 <= k < |b| && b[k] == a[0];
    Without(b, k);
    WithoutFirst(a);
  }

  lemma {:induction false} EditsSplit(b: seq<Match>, k: nat)
    requires k < |b|
    ensures multiset(EditsOf(b)) == multiset(EditsOf(b[..k] + b[k + 1..])) + multiset{b[k].edit}
  {
    var edits, rest := EditsOf(b), EditsOf(b[..k] + b[k + 1..]);
    assert edits == edits[..k] + [edits[k]] + edits[k + 1..];
    assert rest == edits[..k] + edits[k + 1..];
  }

  lemma {:induction false} EditsPermute(a: seq<Match>, b: seq<Match>)
    requires multiset(a) == multiset(b)
    ensures multiset(EditsOf(a)) == multiset(EditsOf(b))
  {
    if a == [] {
      assert |b| == |multiset(b)| == 0;
    } else {
      var k := TakeOut(a, b);
      EditsPermute(a[1..], b[..k] + b[k + 1..]);
      EditsSplit(b, k);
      EditsSplit(a, 0);
      assert a[..0] + a[1..] == a[1..];
    }
  }

  lemma {:induction false} InputSizeSplit(b: seq<Edit>, k: nat)
    requires k < |b|
    ensures InputSize(b) == InputSize(b[..k] + b[k + 1..]) + Utf8Length(b[k].oldText) + Utf8Length(b[k].newText)
  {
    var tail := b[k..];
    assert b == b[..k] + tail && tail[1..] == b[k + 1..];
    InputSizeConcat(b[..k], tail);
    InputSizeConcat(b[..k], b[k + 1..]);
  }

  lemma {:induction false} InputSizePermutes(a: seq<Edit>, b: seq<Edit>)
    requires multiset(a) == multiset(b)
    ensures InputSize(a) == InputSize(b)
  {
    if a == [] {
      assert |b| == |multiset(b)| == 0;
    } else {
      var k := TakeOut(a, b);
      InputSizePermutes(a[1..], b[..k] + b[k + 1..]);
      InputSizeSplit(b, k);
    }
  }

  lemma {:induction false} InputSizeConcat(a: seq<Edit>, b: seq<Edit>)
    ensures InputSize(a + b) == InputSize(a) + InputSize(b)
  {
    if a == [] {
      assert a + b == b;
    } else {
      InputSizeConcat(a[1..], b);
      assert (a + b)[1..] == a[1..] + b;
    }
  }

  /** The edits an accepted input performs, in the order of their spans. */
  function InOrder(original: string, edits: seq<Edit>): seq<Edit>
    requires Located(original, edits).Ok?
  {
    EditsOf(SortMatches(Located(original, edits).value))
  }

  ghost predicate AllMatch(original: string, edits: multiset<Edit>) {
    forall e :: e in edits ==> Matches(original, e)
  }

  /**
   The edits are accepted exactly when each matches once and all spans are apart; the result is then the
   simultaneous replacement, checked as a whole.
   */
  lemma {:induction false} AcceptedExactlyWhenApart(original: string, edits: seq<Edit>)
    requires edits != [] && InputSize(edits) <= LIMIT
    ensures AllMatch(original, multiset(edits)) && AllApart(original, multiset(edits)) ==>
              Located(original, edits).Ok? && Ordered(original, 0, InOrder(original, edits))
              && multiset(InOrder(original, edits)) == multiset(edits)
              && EditResult(original, edits) == Checked(original, Replaced(original, 0, InOrder(original, edits)))
    ensures !(AllMatch(original, multiset(edits)) && AllApart(original, multiset(edits))) ==> EditResult(original, edits).Err?
  {
    var located := Located(original, edits);
    assert located.Ok? <==> AllMatch(original, multiset(edits)) by { MatchEach(original, edits); }
    if located.Ok? {
      var matches := SortMatches(located.value);
      SortSorts(located.value);
      PlacedPermutes(original, located.value, matches);
      EditsPermute(located.value, matches);
      if FirstOverlap(matches, 0).None? {
        SortedIsOrdered(original, matches);
        OrderedIsApart(original, 0, EditsOf(matches));
      } else if AllApart(original, multiset(edits)) {
        ApartIsUnobstructed(original, matches);
      }
    }
  }

  lemma MatchEach(original: string, edits: seq<Edit>)
    ensures AllMatch(original, multiset(edits)) <==> forall i :: 0 <= i < |edits| ==> Matches(original, edits[i])
  {
    if AllMatch(original, multiset(edits)) {
      forall i | 0 <= i < |edits| ensures Matches(original, edits[i]) { assert edits[i] in multiset(edits); }
    }
  }

  /** Main result: the order of the edits changes neither whether they succeed nor what they make of the file. */
  lemma OrderDoesNotMatter(original: string, a: seq<Edit>, b: seq<Edit>)
    requires multiset(a) == multiset(b)
    ensures EditResult(original, a).Ok? <==> EditResult(original, b).Ok?
    ensures EditResult(original, a).Ok? ==> EditResult(original, a) == EditResult(original, b)
  {
    assert |a| == |multiset(a)| == |multiset(b)| == |b|;
    InputSizePermutes(a, b);
    if a != [] && InputSize(a) <= LIMIT {
      AcceptedExactlyWhenApart(original, a);
      AcceptedExactlyWhenApart(original, b);
      if AllMatch(original, multiset(a)) && AllApart(original, multiset(a)) {
        OrderedIsUnique(original, 0, InOrder(original, a), InOrder(original, b));
      }
    }
  }

  /** No edits and too long ones are refused before anything is matched. */
  lemma {:induction false} InputsAreChecked(original: string, edits: seq<Edit>)
    ensures EditResult(original, edits) == Err(NoEdits) <==> edits == []
    ensures EditResult(original, edits) == Err(InputTooLong) <==> edits != [] && InputSize(edits) > 1048576
  {
    LocatingErrors(original, edits);
  }

  predicate Unprintable(c: char) {
    c < ' ' && c != '\t' && c != '\n' && c != '\r' && c != '\U{0C}' && c != '\U{08}'
  }

  /** The replaced text comes out unless it is the old one, too long or no text. */
  lemma {:induction false} ResultsAreChecked(original: string, text: string)
    ensures Checked(original, text)
         == if text == original then Err(NoChange)
            else if Utf8Length(text) > 1048576 then Err(ResultTooLong)
            else if exists i :: 0 <= i < |text| && Unprintable(text[i]) then Err(Binary)
            else Ok(text)
  {
  }
}
