/**
 Saved session checkpoints: the entry graph check, which accepts exactly the
 well-formed graphs, and the sanitising of messages, after which decoding again
 changes nothing.
 */
module Checkpoint {
  import opened Text
  import opened Wrappers

  type Id = string

  // ---- messages --------------------------------------------------------------------------

  datatype FailureCode = NoLiteralMatch | AmbiguousLiteralMatch

  datatype ToolFailure = ToolFailure(code: FailureCode, editIndex: nat, matchCount: nat)

  datatype Details = FailureDetails(failure: ToolFailure) | OtherDetails(value: string)

  datatype Content = Text(text: string, signature: Option<string>) | Image | Attachment

  datatype DiagnosticError = DiagnosticError(name: Option<string>, message: string, code: Option<string>)

  datatype Diagnostic = Diagnostic(kind: string, timestamp: int, error: Option<DiagnosticError>)

  datatype Message =
    | Assistant(text: string, errorMessage: Option<string>, diagnostics: Option<seq<Diagnostic>>, rawStopReason: Option<string>)
    | ToolResult(tool: string, isError: bool, content: seq<Content>, details: Option<Details>)
    | Other(content: seq<Content>)

  /** The public messages, and how a failure text is read as JSON; printing a failure is `Printed`. */
  datatype Env = Env(publicMessages: set<string>, parsed: string -> Option<ToolFailure>)

  const ACTIVITY_FAILED := "Agent execution failed"
  const MAX_FAILURE_NUMBER := 1048576

  predicate ValidFailure(f: ToolFailure) {
    && f.editIndex <= MAX_FAILURE_NUMBER && f.matchCount <= MAX_FAILURE_NUMBER
    && (if f.code.NoLiteralMatch? then f.matchCount == 0 else f.matchCount > 1)
  }

  /** The printed failure, part by part. */
  function FailureParts(f: ToolFailure): seq<string> {
    ["{\"kind\":\"project-tool-failure\"", "\"version\":2",
     "\"code\":\"" + (match f.code case NoLiteralMatch => "no-literal-match" case AmbiguousLiteralMatch => "ambiguous-literal-match") + "\"",
     "\"editIndex\":" + Decimal(f.editIndex), "\"matchCount\":" + Decimal(f.matchCount) + "}"]
  }

  function Printed(f: ToolFailure): string {
    Join(FailureParts(f), ',')
  }

  /** Reading back what was printed. */
  ghost predicate Sound(env: Env) {
    && ACTIVITY_FAILED in env.publicMessages
    && forall f :: ValidFailure(f) ==> env.parsed(Printed(f)) == Some(f)
  }

  function ParseFailure(env: Env, text: string): (r: Option<ToolFailure>)
    ensures r.Some? ==> ValidFailure(r.value)
  {
    if |text| > 512 then None
    else
      var read := env.parsed(text);
      if read.Some? && ValidFailure(read.value) then read else None
  }

  function PublicMessage(env: Env, text: string): string {
    if text in env.publicMessages then text else ACTIVITY_FAILED
  }

  function SafeDiagnostic(env: Env, d: Diagnostic): Diagnostic {
    Diagnostic("error", d.timestamp,
               if d.error.Some? then Some(DiagnosticError(None, PublicMessage(env, d.error.value.message), None)) else None)
  }

  function SafeDiagnostics(env: Env, ds: seq<Diagnostic>): (r: seq<Diagnostic>)
    ensures |r| == |ds| && forall i :: 0 <= i < |r| ==> r[i] == SafeDiagnostic(env, ds[i])
  {
    if ds == [] then [] else [SafeDiagnostic(env, ds[0])] + SafeDiagnostics(env, ds[1..])
  }

  function Sanitized(env: Env, m: Message): Message {
    match m
    case Assistant(text, errorMessage, diagnostics, _) =>
      Assistant(text, if errorMessage.Some? then Some(PublicMessage(env, errorMessage.value)) else None,
                if diagnostics.Some? then Some(SafeDiagnostics(env, diagnostics.value)) else None, None)
    case ToolResult(tool, isError, content, details) =>
      if !isError then m
      else
        var text := if |content| == 1 && content[0].Text? then content[0].text else "";
        var failure := if tool == "edit" then ParseFailure(env, text) else None;
        if failure.Some? then ToolResult(tool, true, [Text(Printed(failure.value), None)], Some(FailureDetails(failure.value)))
        else ToolResult(tool, true, [Text(ACTIVITY_FAILED, None)], None)
    case Other(_) => m
  }

  lemma {:induction false} JoinLast(pieces: seq<string>, last: string)
    requires pieces != []
    ensures Join(pieces + [last], ',') == Join(pieces, ',') + [','] + last
  {
    assert (pieces + [last])[..|pieces|] == pieces;
  }

  lemma JoinFive(a: string, b: string, c: string, d: string, e: string)
    ensures |Join([a, b, c, d, e], ',')| == |a| + |b| + |c| + |d| + |e| + 4
  {
    JoinLast([a], b);
    JoinLast([a, b], c);
    JoinLast([a, b, c], d);
    JoinLast([a, b, c, d], e);
    assert [a] + [b] == [a, b] && [a, b] + [c] == [a, b, c] && [a, b, c] + [d] == [a, b, c, d];
    assert [a, b, c, d] + [e] == [a, b, c, d, e];
  }

  lemma FailureTextIsShort(f: ToolFailure)
    requires ValidFailure(f)
    ensures |Printed(f)| <= 512
  {
    var p := FailureParts(f);
    JoinFive(p[0], p[1], p[2], p[3], p[4]);
    assert Power10(7) == 10000000;
    DecimalIsShort(f.editIndex, 7);
    DecimalIsShort(f.matchCount, 7);
  }

  /** The generic text is no failure text, or the JSON reader would have printed it. */
  ghost predicate GenericIsPlain(env: Env) {
    ParseFailure(env, ACTIVITY_FAILED).None?
  }

  /** Sanitising a sanitised message changes nothing. */
  lemma SanitizingTwice(env: Env, m: Message)
    requires Sound(env) && GenericIsPlain(env)
    ensures Sanitized(env, Sanitized(env, m)) == Sanitized(env, m)
  {
    match m
    case Assistant(_, _, diagnostics, _) =>
      if diagnostics.Some? {
        var once := SafeDiagnostics(env, diagnostics.value);
        assert SafeDiagnostics(env, once) == once;
      }
    case ToolResult(tool, isError, content, _) =>
      var text := if |content| == 1 && content[0].Text? then content[0].text else "";
      if isError && tool == "edit" && ParseFailure(env, text).Some? {
        FailureTextIsShort(ParseFailure(env, text).value);
      }
    case Other(_) =>
  }

  // ---- the entry graph ---------------------------------------------------------------------

  datatype Kind =
    | Plain
    | MessageOf(message: Message)
    | Compaction(firstKept: Id)
    | BranchSummary(from: Id)
    | Label(target: Id)
    | ContextEdit(target: Id)

  datatype Entry = Session(id: Id) | Node(id: Id, parent: Option<Id>, kind: Kind)

  /** The entry that a node refers to besides its parent. */
  function Reference(kind: Kind): Option<Id> {
    match kind
    case Compaction(firstKept) => Some(firstKept)
    case BranchSummary(from) => Some(from)
    case Label(target) => Some(target)
    case ContextEdit(target) => Some(target)
    case _ => None
  }

  /** Some node before position `i` has this id; the session header is not a node. */
  predicate Earlier(entries: seq<Entry>, i: nat, id: Id)
    requires i <= |entries|
  {
    exists j :: 0 <= j < i && entries[j].Node? && entries[j].id == id
  }

  predicate NodeOk(entries: seq<Entry>, i: nat)
    requires i < |entries| && entries[i].Node?
  {
    var e := entries[i];
    && (i == 1 ==> e.parent.None?)
    && (e.parent.Some? ==> Earlier(entries, i, e.parent.value))
    && (Reference(e.kind).Some? ==>
          Earlier(entries, i, Reference(e.kind).value) || (e.kind.Compaction? && e.kind.firstKept == e.id))
  }

  /** One header first, distinct ids, and references only backwards. */
  predicate WellFormed(entries: seq<Entry>) {
    && entries != [] && entries[0].Session?
    && (forall i :: 1 <= i < |entries| ==> entries[i].Node?)
    && (forall i, j :: 0 <= i < j < |entries| ==> entries[i].id != entries[j].id)
    && (forall i :: 1 <= i < |entries| ==> NodeOk(entries, i))
  }

  method CountHeaders(entries: seq<Entry>) returns (n: nat)
    ensures n <= |entries|
    ensures entries != [] && entries[0].Session? ==> n >= 1 && (n == 1 <==> forall i :: 1 <= i < |entries| ==> entries[i].Node?)
  {
    n := 0;
    for i := 0 to |entries|
      invariant n <= i
      invariant i > 0 && entries[0].Session? ==> n >= 1 && (n == 1 <==> forall j :: 1 <= j < i ==> entries[j].Node?)
    {
      if entries[i].Session? { n := n + 1; }
    }
  }

  method ValidateEntryGraph(entries: seq<Entry>) returns (ok: bool)
    ensures ok <==> WellFormed(entries)
  {
    var headers := CountHeaders(entries);
    if headers != 1 || entries == [] || !entries[0].Session? { return false; }
    var ids: set<Id> := {};
    var entryIds: set<Id> := {};
    for index := 0 to |entries|
      invariant forall id :: id in ids <==> exists j :: 0 <= j < index && entries[j].id == id
      invariant forall id :: id in entryIds <==> Earlier(entries, index, id)
      invariant forall i, j :: 0 <= i < j < index ==> entries[i].id != entries[j].id
      invariant forall i :: 1 <= i < index ==> NodeOk(entries, i)
    {
      var entry := entries[index];
      if entry.id in ids { return false; }
      ids := ids + {entry.id};
      if entry.Node? {
        var ok := ValidateNode(entries, index, entryIds);
        if !ok { return false; }
        entryIds := entryIds + {entry.id};
      }
    }
    ok := true;
  }

  method ValidateNode(entries: seq<Entry>, index: nat, entryIds: set<Id>) returns (ok: bool)
    requires 1 <= index < |entries| && entries[index].Node?
    requires forall id :: id in entryIds <==> Earlier(entries, index, id)
    ensures ok <==> NodeOk(entries, index)
  {
    var entry := entries[index];
    if index == 1 && entry.parent.Some? { return false; }
    if entry.parent.Some? && entry.parent.value !in entryIds { return false; }
    if entry.kind.ContextEdit? && entry.kind.target !in entryIds { return false; }
    if entry.kind.Compaction? && entry.kind.firstKept != entry.id && entry.kind.firstKept !in entryIds { return false; }
    if entry.kind.BranchSummary? && entry.kind.from !in entryIds { return false; }
    if entry.kind.Label? && entry.kind.target !in entryIds { return false; }
    ok := true;
  }

  function IndexOf(entries: seq<Entry>, id: Id, i: nat): (j: nat)
    requires i <= |entries| && Earlier(entries, i, id)
    ensures j < i && entries[j].Node? && entries[j].id == id
  {
    if entries[i - 1].Node? && entries[i - 1].id == id then i - 1 else IndexOf(entries, id, i - 1)
  }

  predicate HasParent(entries: seq<Entry>, id: Id, parent: Option<Id>) {
    exists i :: 1 <= i < |entries| && entries[i].Node? && entries[i].id == id && entries[i].parent == parent
  }

  /** Each id's node has the next id as its parent, and the last one's has none. */
  predicate Linked(entries: seq<Entry>, ids: seq<Id>) {
    ids != []
    && if |ids| == 1 then HasParent(entries, ids[0], None)
       else HasParent(entries, ids[0], Some(ids[1])) && Linked(entries, ids[1..])
  }

  /** The place of a node's parent. */
  function ParentOf(entries: seq<Entry>, i: nat): (j: nat)
    requires WellFormed(entries) && 1 <= i < |entries| && entries[i].parent.Some?
    ensures 1 <= j < i && entries[j].Node? && entries[i].parent == Some(entries[j].id)
  {
    assert NodeOk(entries, i);
    IndexOf(entries, entries[i].parent.value, i)
  }

  /** The ids on the way from a node to its root, from parent to parent. */
  function Chain(entries: seq<Entry>, i: nat): (ids: seq<Id>)
    requires WellFormed(entries) && 1 <= i < |entries|
    ensures ids != [] && |ids| <= i && ids[0] == entries[i].id
  {
    if entries[i].parent.None? then [entries[i].id] else [entries[i].id] + Chain(entries, ParentOf(entries, i))
  }

  /** The node without a parent that the parents of a node lead to. */
  function Root(entries: seq<Entry>, i: nat): (r: nat)
    requires WellFormed(entries) && 1 <= i < |entries|
    ensures 1 <= r <= i && entries[r].Node? && entries[r].parent.None?
    ensures entries[r].id == Chain(entries, i)[|Chain(entries, i)| - 1]
  {
    if entries[i].parent.None? then i else Root(entries, ParentOf(entries, i))
  }

  lemma {:induction false} ChainFollowsParents(entries: seq<Entry>, i: nat)
    requires WellFormed(entries) && 1 <= i < |entries|
    ensures Linked(entries, Chain(entries, i))
  {
    assert HasParent(entries, entries[i].id, entries[i].parent);
    if entries[i].parent.Some? {
      ChainFollowsParents(entries, ParentOf(entries, i));
      assert Chain(entries, i)[1..] == Chain(entries, ParentOf(entries, i));
    }
  }

  lemma {:induction false} ChainStaysBelow(entries: seq<Entry>, i: nat)
    requires WellFormed(entries) && 1 <= i < |entries|
    ensures forall k :: 0 <= k < |Chain(entries, i)| ==> Earlier(entries, i + 1, Chain(entries, i)[k])
  {
    if entries[i].parent.Some? {
      var rest := Chain(entries, ParentOf(entries, i));
      ChainStaysBelow(entries, ParentOf(entries, i));
      forall k | 0 <= k < |rest| ensures Earlier(entries, i + 1, rest[k]) {
        var j :| 0 <= j < ParentOf(entries, i) + 1 && entries[j].Node? && entries[j].id == rest[k];
        assert entries[j].Node?;
      }
    }
  }

  /** No node is its own ancestor. */
  lemma {:induction false} ChainNeverRepeats(entries: seq<Entry>, i: nat)
    requires WellFormed(entries) && 1 <= i < |entries|
    ensures forall k, m :: 0 <= k < m < |Chain(entries, i)| ==> Chain(entries, i)[k] != Chain(entries, i)[m]
  {
    if entries[i].parent.Some? {
      var rest := Chain(entries, ParentOf(entries, i));
      ChainNeverRepeats(entries, ParentOf(entries, i));
      ChainStaysBelow(entries, ParentOf(entries, i));
      forall k | 0 <= k < |rest| ensures rest[k] != entries[i].id {
        var j :| 0 <= j < ParentOf(entries, i) + 1 && entries[j].Node? && entries[j].id == rest[k];
        assert entries[j].id != entries[i].id;
      }
    }
  }

  /** Following parents leads nowhere else: whatever links a node to the end of its parents is this chain. */
  lemma {:induction false} ChainIsTheOnlyOne(entries: seq<Entry>, i: nat, ids: seq<Id>)
    requires WellFormed(entries) && 1 <= i < |entries| && Linked(entries, ids) && ids[0] == entries[i].id
    ensures ids == Chain(entries, i)
    decreases i
  {
    var parent := if |ids| == 1 then None else Some(ids[1]);
    ParentIsUnique(entries, i, parent);
    if parent.Some? {
      ChainIsTheOnlyOne(entries, ParentOf(entries, i), ids[1..]);
      assert ids == [ids[0]] + ids[1..];
    }
  }

  lemma ParentIsUnique(entries: seq<Entry>, i: nat, parent: Option<Id>)
    requires WellFormed(entries) && 1 <= i < |entries| && HasParent(entries, entries[i].id, parent)
    ensures entries[i].parent == parent
  {
    var j :| 1 <= j < |entries| && entries[j].Node? && entries[j].id == entries[i].id && entries[j].parent == parent;
    assert j == i;
  }

  // ---- decoding ----------------------------------------------------------------------------------

  datatype Saved = Saved(sessionId: Id, version: Option<nat>, entries: seq<Entry>)

  function ContentOf(m: Message): seq<Content> {
    if m.ToolResult? || m.Other? then m.content else []
  }

  /** Attachment references exist from version 2 on; the only other version is 1, which may be left out. */
  predicate SchemaOk(c: Saved) {
    c.version == Some(2)
    || ((c.version.None? || c.version == Some(1))
        && forall i :: 0 <= i < |c.entries| && c.entries[i].Node? && c.entries[i].kind.MessageOf? ==>
             Attachment !in ContentOf(c.entries[i].kind.message))
  }

  function SafeEntry(env: Env, e: Entry): Entry {
    if e.Node? && e.kind.MessageOf? then e.(kind := MessageOf(Sanitized(env, e.kind.message))) else e
  }

  function SafeEntries(env: Env, entries: seq<Entry>): (r: seq<Entry>)
    ensures |r| == |entries| && forall i :: 0 <= i < |r| ==> r[i] == SafeEntry(env, entries[i])
  {
    if entries == [] then [] else [SafeEntry(env, entries[0])] + SafeEntries(env, entries[1..])
  }

  function Decoded(env: Env, c: Saved): Option<Saved> {
    if !SchemaOk(c) || c.entries == [] || !c.entries[0].Session? || c.entries[0].id != c.sessionId || !WellFormed(c.entries)
    then None
    else
      var normal := Saved(c.sessionId, Some(if c.version == Some(2) then 2 else 1), SafeEntries(env, c.entries));
      if SchemaOk(normal) then Some(normal) else None
  }

  method Decode(env: Env, c: Saved) returns (r: Option<Saved>)
    ensures r == Decoded(env, c)
  {
    if !SchemaOk(c) || c.entries == [] || !c.entries[0].Session? || c.entries[0].id != c.sessionId { return None; }
    var ok := ValidateEntryGraph(c.entries);
    if !ok { return None; }
    var normal := Saved(c.sessionId, Some(if c.version == Some(2) then 2 else 1), SafeEntries(env, c.entries));
    r := if SchemaOk(normal) then Some(normal) else None;
  }

  /** Sanitising leaves the graph as it is. */
  lemma {:induction false} SafeEntriesKeepTheGraph(env: Env, entries: seq<Entry>)
    ensures WellFormed(SafeEntries(env, entries)) <==> WellFormed(entries)
  {
    var safe := SafeEntries(env, entries);
    forall i, id | 0 <= i <= |entries| ensures Earlier(safe, i, id) <==> Earlier(entries, i, id) {
      if Earlier(entries, i, id) {
        var j :| 0 <= j < i && entries[j].Node? && entries[j].id == id;
        assert safe[j].Node? && safe[j].id == id;
      }
      if Earlier(safe, i, id) {
        var j :| 0 <= j < i && safe[j].Node? && safe[j].id == id;
        assert entries[j].Node? && entries[j].id == id;
      }
    }
    forall i | 0 <= i < |entries| && entries[i].Node? ensures NodeOk(safe, i) <==> NodeOk(entries, i) {
      assert Reference(safe[i].kind) == Reference(entries[i].kind);
    }
  }

  /** Every checkpoint the decoder returns has a well-formed graph, and decoding it again changes nothing. */
  lemma DecodingTwice(env: Env, c: Saved)
    requires Sound(env) && GenericIsPlain(env) && Decoded(env, c).Some?
    ensures WellFormed(Decoded(env, c).value.entries)
    ensures Decoded(env, Decoded(env, c).value) == Decoded(env, c)
  {
    var once := Decoded(env, c).value;
    SafeEntriesKeepTheGraph(env, c.entries);
    SafeEntriesKeepTheGraph(env, once.entries);
    forall i | 0 <= i < |once.entries| ensures SafeEntry(env, once.entries[i]) == once.entries[i] {
      if once.entries[i].Node? && once.entries[i].kind.MessageOf? {
        SanitizingTwice(env, c.entries[i].kind.message);
      }
    }
    assert SafeEntries(env, once.entries) == once.entries;
  }

  /** Nothing but public texts survives in the error fields of a decoded checkpoint. */
  lemma OnlyPublicTextsSurvive(env: Env, c: Saved, i: nat)
    requires Sound(env) && Decoded(env, c).Some? && i < |Decoded(env, c).value.entries|
    ensures var e := Decoded(env, c).value.entries[i];
            e.Node? && e.kind.MessageOf? ==>
              var m := e.kind.message;
              && (m.Assistant? && m.errorMessage.Some? ==> m.errorMessage.value in env.publicMessages)
              && (m.Assistant? && m.diagnostics.Some? ==>
                    forall d :: d in m.diagnostics.value && d.error.Some? ==> d.error.value.message in env.publicMessages)
              && (m.Assistant? ==> m.rawStopReason.None?)
              && (m.ToolResult? && m.isError ==>
                    |m.content| == 1 && m.content[0].Text?
                    && (m.content[0].text == ACTIVITY_FAILED || PrintsAFailure(m.content[0].text)))
  {
  }

  ghost predicate PrintsAFailure(text: string) {
    exists f :: ValidFailure(f) && text == Printed(f)
  }

  // ---- what a decoded checkpoint holds ---------------------------------------------------

  predicate HasMessage(e: Entry) {
    e.Node? && e.kind.MessageOf?
  }

  /** Only version 2 has attachments; version 1 may be left out, and no other version is read. */
  predicate Readable(c: Saved) {
    || c.version == Some(2)
    || ((c.version == None || c.version == Some(1))
        && forall i :: 0 <= i < |c.entries| && HasMessage(c.entries[i]) ==>
             var m := c.entries[i].kind.message; m.Assistant? || forall k :: 0 <= k < |m.content| ==> !m.content[k].Attachment?)
  }

  /** A checkpoint is decoded exactly when it is readable, its header names its session and its graph is well formed. */
  lemma DecodedExactlyWhen(env: Env, c: Saved)
    ensures Decoded(env, c).Some? <==> Readable(c) && WellFormed(c.entries) && c.entries[0].id == c.sessionId
  {
    if Decoded(env, c).Some? || (Readable(c) && WellFormed(c.entries) && c.entries[0].id == c.sessionId) {
      SchemaIsReadable(c);
      var normal := Saved(c.sessionId, Some(if c.version == Some(2) then 2 else 1), SafeEntries(env, c.entries));
      forall i | 0 <= i < |normal.entries| && HasMessage(normal.entries[i]) && Attachment in ContentOf(normal.entries[i].kind.message)
        ensures Attachment in ContentOf(c.entries[i].kind.message)
      {
        assert HasMessage(c.entries[i]);
      }
    }
  }

  lemma SchemaIsReadable(c: Saved)
    ensures SchemaOk(c) <==> Readable(c)
  {
    if Readable(c) && c.version != Some(2) {
      forall i | 0 <= i < |c.entries| && HasMessage(c.entries[i]) ensures Attachment !in ContentOf(c.entries[i].kind.message) {
      }
    }
    if SchemaOk(c) && c.version != Some(2) {
      forall i | 0 <= i < |c.entries| && HasMessage(c.entries[i])
        ensures var m := c.entries[i].kind.message; m.Assistant? || forall k :: 0 <= k < |m.content| ==> !m.content[k].Attachment?
      {
        var m := c.entries[i].kind.message;
        assert c.entries[i].kind.MessageOf? && Attachment !in ContentOf(m);
        assert forall k :: 0 <= k < |ContentOf(m)| ==> ContentOf(m)[k] in ContentOf(m);
      }
    }
  }

  /** Decoding keeps the session, every entry with its id and parent, and everything that is not a message. */
  lemma DecodingKeepsTheEntries(env: Env, c: Saved, i: nat)
    requires Decoded(env, c).Some? && i < |c.entries|
    ensures var d := Decoded(env, c).value;
            && d.sessionId == c.sessionId && d.version == Some(if c.version == Some(2) then 2 else 1) && |d.entries| == |c.entries|
            && d.entries[i].id == c.entries[i].id && (HasMessage(d.entries[i]) <==> HasMessage(c.entries[i]))
            && (HasMessage(c.entries[i]) ==> d.entries[i].parent == c.entries[i].parent)
            && (!HasMessage(c.entries[i]) ==> d.entries[i] == c.entries[i])
  {
  }

  /** Messages of a user and results of tools that succeeded come back unchanged. */
  lemma PlainMessagesAreUnchanged(env: Env, c: Saved, i: nat)
    requires Decoded(env, c).Some? && i < |c.entries| && HasMessage(c.entries[i])
    requires c.entries[i].kind.message.Other? || (c.entries[i].kind.message.ToolResult? && !c.entries[i].kind.message.isError)
    ensures Decoded(env, c).value.entries[i] == c.entries[i]
  {
  }

  /** A text that the public may see stays, any other one becomes the generic failure. */
  predicate MadePublic(env: Env, before: string, after: string) {
    if before in env.publicMessages then after == before else after == "Agent execution failed"
  }

  /** An assistant's text comes back; its error texts are made public, and each diagnostic keeps its place and time. */
  lemma AssistantsKeepTheirText(env: Env, c: Saved, i: nat)
    requires Decoded(env, c).Some? && i < |c.entries| && HasMessage(c.entries[i]) && c.entries[i].kind.message.Assistant?
    ensures var d := Decoded(env, c).value.entries[i];
            HasMessage(d) && d.kind.message.Assistant? && KeepsItsText(env, c.entries[i].kind.message, d.kind.message)
  {
  }

  predicate KeepsItsText(env: Env, before: Message, after: Message)
    requires before.Assistant? && after.Assistant?
  {
    && after.text == before.text && after.rawStopReason == None
    && (after.errorMessage.Some? <==> before.errorMessage.Some?)
    && (before.errorMessage.Some? ==> MadePublic(env, before.errorMessage.value, after.errorMessage.value))
    && (after.diagnostics.Some? <==> before.diagnostics.Some?)
    && (before.diagnostics.Some? ==>
          && |after.diagnostics.value| == |before.diagnostics.value|
          && forall k :: 0 <= k < |before.diagnostics.value| ==> KeepsItsTime(env, before.diagnostics.value[k], after.diagnostics.value[k]))
  }

  predicate KeepsItsTime(env: Env, before: Diagnostic, after: Diagnostic) {
    && after.kind == "error" && after.timestamp == before.timestamp
    && (after.error.Some? <==> before.error.Some?)
    && (before.error.Some? ==>
          after.error.value.name == None && after.error.value.code == None
          && MadePublic(env, before.error.value.message, after.error.value.message))
  }

  /** What a failed result says, if it says one thing. */
  function ErrorText(m: Message): string
    requires m.ToolResult?
  {
    if |m.content| == 1 && m.content[0].Text? then m.content[0].text else ""
  }

  /** The text of an edit states this valid failure. */
  predicate StatesFailure(env: Env, m: Message, f: ToolFailure) {
    m.ToolResult? && m.tool == "edit" && |ErrorText(m)| <= 512 && env.parsed(ErrorText(m)) == Some(f) && ValidFailure(f)
  }

  predicate FailedResult(c: Saved, i: nat) {
    i < |c.entries| && HasMessage(c.entries[i]) && c.entries[i].kind.message.ToolResult? && c.entries[i].kind.message.isError
  }

  /** A failed result keeps its tool, and a failure that an edit states survives as exactly that. */
  lemma StatedFailuresSurvive(env: Env, c: Saved, i: nat, f: ToolFailure)
    requires Decoded(env, c).Some? && FailedResult(c, i) && StatesFailure(env, c.entries[i].kind.message, f)
    ensures HasMessage(Decoded(env, c).value.entries[i])
    ensures Decoded(env, c).value.entries[i].kind.message == ToolResult("edit", true, [Text(Printed(f), None)], Some(FailureDetails(f)))
  {
    assert ParseFailure(env, ErrorText(c.entries[i].kind.message)) == Some(f);
  }

  /** Nothing else of a failed result does. */
  lemma OtherFailuresAreGeneric(env: Env, c: Saved, i: nat)
    requires Decoded(env, c).Some? && FailedResult(c, i)
    requires forall f :: !StatesFailure(env, c.entries[i].kind.message, f)
    ensures HasMessage(Decoded(env, c).value.entries[i])
    ensures Decoded(env, c).value.entries[i].kind.message
         == ToolResult(c.entries[i].kind.message.tool, true, [Text("Agent execution failed", None)], None)
  {
    var m := c.entries[i].kind.message;
    var failure := ParseFailure(env, ErrorText(m));
    if m.tool == "edit" && failure.Some? { assert StatesFailure(env, m, failure.value); }
  }

  /** A failure that was printed into an edit's result comes back from every decoding. */
  lemma PrintedFailuresSurvive(env: Env, c: Saved, i: nat, f: ToolFailure, signature: Option<string>, details: Option<Details>)
    requires Sound(env) && ValidFailure(f) && Decoded(env, c).Some? && i < |c.entries| && HasMessage(c.entries[i])
    requires c.entries[i].kind.message == ToolResult("edit", true, [Text(Printed(f), signature)], details)
    ensures HasMessage(Decoded(env, c).value.entries[i])
    ensures Decoded(env, c).value.entries[i].kind.message == ToolResult("edit", true, [Text(Printed(f), None)], Some(FailureDetails(f)))
  {
    FailureTextIsShort(f);
    StatedFailuresSurvive(env, c, i, f);
  }

  /** A failure is valid within its bounds: no match at all, or more than one. */
  lemma ValidFailures(f: ToolFailure)
    ensures ValidFailure(f) <==>
              f.editIndex <= 1048576 && f.matchCount <= 1048576
              && (f.code == NoLiteralMatch ==> f.matchCount == 0) && (f.code == AmbiguousLiteralMatch ==> f.matchCount >= 2)
  {
  }

  lemma {:induction false} DecimalsDiffer(n: nat, m: nat)
    requires Decimal(n) == Decimal(m)
    ensures n == m
  {
    var a, b := Decimal(n), Decimal(m);
    assert a[|a| - 1] == b[|b| - 1];
    if n >= 10 && m >= 10 {
      assert a[..|a| - 1] == Decimal(n / 10) && b[..|b| - 1] == Decimal(m / 10);
      DecimalsDiffer(n / 10, m / 10);
    }
  }

  lemma SameTail(prefix: string, a: string, b: string, end: string)
    requires prefix + a + end == prefix + b + end
    ensures a == b
  {
    assert |a| == |b|;
    assert a == (prefix + a + end)[|prefix|..|prefix| + |a|] == (prefix + b + end)[|prefix|..|prefix| + |b|] == b;
  }

  lemma PartsDiffer(f: ToolFailure, g: ToolFailure)
    requires FailureParts(f) == FailureParts(g)
    ensures f == g
  {
    var p, q := FailureParts(f), FailureParts(g);
    assert p[2] == q[2] && p[3] == q[3] && p[4] == q[4];
    assert p[2][8] == (if f.code.NoLiteralMatch? then 'n' else 'a') && q[2][8] == if g.code.NoLiteralMatch? then 'n' else 'a';
    assert p[3] == "\"editIndex\":" + Decimal(f.editIndex) + "" && q[3] == "\"editIndex\":" + Decimal(g.editIndex) + "";
    SameTail("\"editIndex\":", Decimal(f.editIndex), Decimal(g.editIndex), "");
    SameTail("\"matchCount\":", Decimal(f.matchCount), Decimal(g.matchCount), "}");
    DecimalsDiffer(f.editIndex, g.editIndex);
    DecimalsDiffer(f.matchCount, g.matchCount);
  }

  /** The words of the two codes. */
  lemma CodesAreNamed(f: ToolFailure)
    ensures f.code == NoLiteralMatch ==> FailureParts(f)[2] == "\"code\":\"no-literal-match\""
    ensures f.code == AmbiguousLiteralMatch ==> FailureParts(f)[2] == "\"code\":\"ambiguous-literal-match\""
  {
  }

  /** Different failures print differently, so there is a reader that gets them back. */
  lemma PrintedFailuresDiffer(f: ToolFailure, g: ToolFailure)
    requires Printed(f) == Printed(g)
    ensures f == g
  {
    PartsArePlain(f);
    PartsArePlain(g);
    SplitOfJoin(FailureParts(f), ',');
    SplitOfJoin(FailureParts(g), ',');
    PartsDiffer(f, g);
  }

  lemma PartsArePlain(f: ToolFailure)
    ensures forall i :: 0 <= i < |FailureParts(f)| ==> ',' !in FailureParts(f)[i]
  {
  }
}
