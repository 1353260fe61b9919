/** Lines and byte lengths of texts. */
module Text {
  /** The bytes of a character in UTF-8. */
  function CharBytes(c: char): nat {
    if c < '\U{80}' then 1 else if c < '\U{800}' then 2 else if c < '\U{10000}' then 3 else 4
  }

  function Utf8Length(text: string): nat {
    if text == "" then 0 else Utf8Length(text[..|text| - 1]) + CharBytes(text[|text| - 1])
  }

  lemma {:induction false} Utf8Concat(a: string, b: string)
    ensures Utf8Length(a + b) == Utf8Length(a) + Utf8Length(b)
  {
    if b == "" {
      assert a + b == a;
    } else {
      Utf8Concat(a, b[..|b| - 1]);
      assert (a + b)[..|a + b| - 1] == a + b[..|b| - 1];
    }
  }

  /** The pieces of a text that goes on with one more character. */
  function Extended(pieces: seq<string>, c: char, separator: char): (r: seq<string>)
    requires pieces != []
    ensures r != []
  {
    if c == separator then pieces + [""] else pieces[..|pieces| - 1] + [pieces[|pieces| - 1] + [c]]
  }

  /** The pieces of a text between separators. */
  function Split(s: string, separator: char): (pieces: seq<string>)
    ensures pieces != []
  {
    if s == "" then [""] else Extended(Split(s[..|s| - 1], separator), s[|s| - 1], separator)
  }

  function SplitLines(s: string): (lines: seq<string>)
    ensures lines != []
  {
    Split(s, '\n')
  }

  lemma {:induction false} SplitAppend(s: string, c: char, separator: char)
    ensures Split(s + [c], separator) == Extended(Split(s, separator), c, separator)
  {
    assert (s + [c])[..|s|] == s;
  }

  lemma {:induction false} ExtendedConcat(left: seq<string>, right: seq<string>, c: char, separator: char)
    requires right != []
    ensures Extended(left + right, c, separator) == left + Extended(right, c, separator)
  {
  }

  lemma {:induction false} SplitConcat(a: string, b: string, separator: char)
    ensures Split(a + [separator] + b, separator) == Split(a, separator) + Split(b, separator)
  {
    if b == "" {
      SplitAppend(a, separator, separator);
      assert a + [separator] + b == a + [separator];
    } else {
      var init, c := b[..|b| - 1], b[|b| - 1];
      SplitConcat(a, init, separator);
      assert a + [separator] + b == (a + [separator] + init) + [c];
      SplitAppend(a + [separator] + init, c, separator);
      ExtendedConcat(Split(a, separator), Split(init, separator), c, separator);
    }
  }

  lemma {:induction false} SplitOnePiece(s: string, separator: char)
    requires separator !in s
    ensures Split(s, separator) == [s]
  {
    if s != "" {
      var init, c := s[..|s| - 1], s[|s| - 1];
      SplitOnePiece(init, separator);
      SplitAppend(init, c, separator);
      assert s == init + [c] && [init][..0] == [];
    }
  }

  /** The pieces with a separator between each two. */
  function Join(pieces: seq<string>, separator: char): string
    requires pieces != []
  {
    if |pieces| == 1 then pieces[0]
    else Join(pieces[..|pieces| - 1], separator) + [separator] + pieces[|pieces| - 1]
  }

  function JoinLines(lines: seq<string>): string
    requires lines != []
  {
    Join(lines, '\n')
  }

  lemma {:induction false} JoinConcat(a: seq<string>, b: seq<string>, separator: char)
    requires a != [] && b != []
    ensures Join(a + b, separator) == Join(a, separator) + [separator] + Join(b, separator)
  {
    var init := b[..|b| - 1];
    if init == [] {
      assert (a + b)[..|a + b| - 1] == a;
    } else {
      JoinConcat(a, init, separator);
      assert (a + b)[..|a + b| - 1] == a + init;
    }
  }

  /** Splitting what was joined gives the pieces back, if none of them contains the separator. */
  lemma {:induction false} SplitOfJoin(pieces: seq<string>, separator: char)
    requires pieces != [] && forall i :: 0 <= i < |pieces| ==> separator !in pieces[i]
    ensures Split(Join(pieces, separator), separator) == pieces
  {
    var init, last := pieces[..|pieces| - 1], pieces[|pieces| - 1];
    SplitOnePiece(last, separator);
    if init != [] {
      SplitOfJoin(init, separator);
      SplitConcat(Join(init, separator), last, separator);
    }
  }

  lemma {:induction false} JoinAvoids(pieces: seq<string>, separator: char, c: char)
    requires pieces != [] && c != separator && forall i :: 0 <= i < |pieces| ==> c !in pieces[i]
    ensures c !in Join(pieces, separator)
  {
    if |pieces| > 1 { JoinAvoids(pieces[..|pieces| - 1], separator, c); }
  }

  lemma {:induction false} JoinOfSplit(s: string)
    ensures JoinLines(SplitLines(s)) == s
  {
    if s != "" {
      var before, c := SplitLines(s[..|s| - 1]), s[|s| - 1];
      JoinOfSplit(s[..|s| - 1]);
      assert s == s[..|s| - 1] + [c];
      if c == '\n' {
        JoinConcat(before, [""], '\n');
      } else {
        LongerLastLine(before, c);
      }
    }
  }

  lemma {:induction false} LongerLastLine(lines: seq<string>, c: char)
    requires lines != []
    ensures JoinLines(lines[..|lines| - 1] + [lines[|lines| - 1] + [c]]) == JoinLines(lines) + [c]
  {
    var longer := lines[..|lines| - 1] + [lines[|lines| - 1] + [c]];
    assert longer[..|longer| - 1] == lines[..|lines| - 1];
  }

  function Digit(d: nat): char
    requires d < 10
  {
    '0' + d as char
  }

  function Decimal(n: nat): (s: string)
    ensures s != "" && forall i :: 0 <= i < |s| ==> '0' <= s[i] <= '9'
  {
    if n < 10 then [Digit(n)] else Decimal(n / 10) + [Digit(n % 10)]
  }

  lemma {:induction false} DecimalIsShort(n: nat, digits: nat)
    requires n < Power10(digits) && digits > 0
    ensures |Decimal(n)| <= digits
  {
    if n >= 10 { DecimalIsShort(n / 10, digits - 1); }
  }

  function Power10(k: nat): nat {
    if k == 0 then 1 else 10 * Power10(k - 1)
  }

  predicate OccursAt(text: string, pattern: string, i: nat) {
    i + |pattern| <= |text| && text[i..i + |pattern|] == pattern
  }

  /** The leftmost occurrence from a position on, or the length of the text. */
  function Find(text: string, pattern: string, from: nat): (i: nat)
    requires pattern != "" && from <= |text|
    ensures from <= i <= |text| && (i < |text| ==> OccursAt(text, pattern, i))
    ensures forall j :: from <= j < i ==> !OccursAt(text, pattern, j)
    decreases |text| - from
  {
    if from == |text| || OccursAt(text, pattern, from) then from else Find(text, pattern, from + 1)
  }

  predicate IsSpace(c: char) {
    c == ' ' || '\t' <= c <= '\r' || c == '\U{A0}' || c == '\U{1680}' || '\U{2000}' <= c <= '\U{200A}'
    || c == '\U{2028}' || c == '\U{2029}' || c == '\U{202F}' || c == '\U{205F}' || c == '\U{3000}' || c == '\U{FEFF}'
  }

  function TrimStart(s: string): string {
    if s != "" && IsSpace(s[0]) then TrimStart(s[1..]) else s
  }

  function TrimEnd(s: string): string {
    if s != "" && IsSpace(s[|s| - 1]) then TrimEnd(s[..|s| - 1]) else s
  }

  function Trim(s: string): string {
    TrimEnd(TrimStart(s))
  }
}
