/**
 The checkout script's staging, marker and promotion protocol. One script runs at a
 time, may be killed after any step and rerun with the same or another request;
 other programs may write into the workspace at any moment.
 */
module RepositoryCheckout {
  import opened Wrappers

  /** What the script can see of a directory; `foreign` marks content that it did not write itself. */
  datatype Tree = Tree(empty: bool, head: bool, origin: Option<string>, branch: Option<string>, foreign: bool)

  const EMPTY := Tree(true, false, None, None, false)

  datatype Request = Request(url: string, branch: Option<string>)

  datatype Outcome = Reused | Cloned

  datatype Pc =
    | CheckMarker
    | WithMarker | InspectStaging | InspectWorkspace | Clearing
    | WithoutMarker
    | Clone | VerifyStaging | CheckEmpty | WriteMarker
    | Copying | VerifyCopy
    | DropStaging(outcome: Outcome, seen: Tree) | DropMarker(outcome: Outcome, seen: Tree) | Print(outcome: Outcome, seen: Tree)

  datatype Script = Script(request: Request, pc: Pc, stagingReady: bool, verified: bool)

  datatype Printed = Printed(request: Request, outcome: Outcome, seen: Tree)

  /**
   `unverified` says that the workspace holds copied content whose checkout was not verified yet;
   `late` that the foreign content in it was written after a promotion had found the workspace empty,
   before its marker was written or at any time while a marker stands;
   `deleted` that clearing the workspace removed foreign content, and whether that was late.
   */
  datatype Disk = Disk(workspace: Tree, staging: Option<Tree>, marker: Option<Request>, script: Option<Script>,
                       unverified: bool, late: bool, deleted: seq<bool>, printed: seq<Printed>)

  datatype Choice = Proceed | Fail | Yield(tree: Tree)

  datatype Action =
    | Start(request: Request)
    | Work(choice: Choice)
    | Kill
    | Terminate
    | Foreign(tree: Tree)

  // ---- the script's tests ---------------------------------------------------------------

  function WithoutSuffix(url: string): string {
    if |url| >= 4 && url[|url| - 4..] == ".git" then url[..|url| - 4] else url
  }

  predicate OriginMatches(t: Tree, r: Request) {
    t.origin.Some? && WithoutSuffix(t.origin.value) == WithoutSuffix(r.url)
  }

  predicate BranchMatches(t: Tree, r: Request) {
    r.branch.None? || t.branch == r.branch
  }

  predicate Matching(t: Tree, r: Request) {
    t.head && OriginMatches(t, r)
  }

  predicate Promotable(t: Tree, r: Request) {
    Matching(t, r) && BranchMatches(t, r)
  }

  // ---- steps ----------------------------------------------------------------------------

  function Goto(d: Disk, s: Script, pc: Pc): Disk {
    d.(script := Some(s.(pc := pc)))
  }

  /** An error exit runs the cleanup trap: staging goes unless a marker protects it. */
  function Exit(d: Disk, s: Script): Disk {
    d.(script := None, staging := if s.verified || d.marker.Some? then d.staging else None)
  }

  function Inspecting(d: Disk, s: Script, choice: Choice): Disk {
    match s.pc
    case CheckMarker =>
      if d.marker.None? then Goto(d, s, WithoutMarker)
      else if d.marker != Some(s.request) then Exit(d, s)
      else Goto(d, s.(verified := true), WithMarker)
    case WithMarker =>
      if Promotable(d.workspace, s.request) then Goto(d.(unverified := false), s, DropStaging(Reused, d.workspace))
      else Goto(d, s, InspectStaging)
    case InspectStaging =>
      if d.staging.None? then Goto(d, s, InspectWorkspace)
      else if !d.staging.value.head then Goto(d.(staging := None), s, InspectWorkspace)
      else if !OriginMatches(d.staging.value, s.request) || !BranchMatches(d.staging.value, s.request) then Exit(d, s)
      else Goto(d, s.(stagingReady := true), InspectWorkspace)
    case InspectWorkspace =>
      if d.workspace.origin.Some? && !OriginMatches(d.workspace, s.request) then Exit(d, s)
      else if d.workspace.head then Exit(d, s)
      else if d.workspace.empty then Goto(d, s, Clone)
      else Goto(d, s, Clearing)
    case WithoutMarker =>
      if Matching(d.workspace, s.request) then Goto(d, s, DropStaging(Reused, d.workspace))
      else if d.workspace.head || !d.workspace.empty then Exit(d, s)
      else Goto(d.(staging := None), s, Clone)
    case _ => d
  }

  /** Deleting takes several steps; a step may leave the directory in any state. */
  function Preparing(d: Disk, s: Script, choice: Choice): Disk {
    match s.pc
    case Clearing =>
      var gone := if d.workspace.foreign then d.deleted + [d.late] else d.deleted;
      if choice.Yield? then d.(workspace := choice.tree.(foreign := d.workspace.foreign && choice.tree.foreign), deleted := gone)
      else if choice.Fail? then Exit(d, s)
      else Goto(d.(workspace := EMPTY, deleted := gone, unverified := false, late := false), s, Clone)
    case Clone =>
      if s.stagingReady then Goto(d, s, VerifyStaging)
      else if choice.Yield? then Goto(d.(staging := Some(choice.tree)), s, VerifyStaging)
      else Exit(d, s)
    case VerifyStaging =>
      if d.staging.None? || !Promotable(d.staging.value, s.request) || choice.Fail? then Exit(d, s)
      else Goto(d, s, CheckEmpty)
    case CheckEmpty =>
      if !d.workspace.empty || choice.Fail? then Exit(d, s) else Goto(d.(late := false), s, WriteMarker)
    case _ => d
  }

  /** So does copying. */
  function Promoting(d: Disk, s: Script, choice: Choice): Disk {
    match s.pc
    case WriteMarker => Goto(d.(marker := Some(s.request)), s.(verified := true), Copying)
    case Copying =>
      if choice.Fail? || d.staging.None? then Exit(d, s)
      else if choice.Yield? then d.(workspace := choice.tree.(empty := false, foreign := d.workspace.foreign), unverified := true)
      else Goto(d.(workspace := d.staging.value.(empty := false, foreign := d.workspace.foreign), unverified := true), s, VerifyCopy)
    case VerifyCopy =>
      if Promotable(d.workspace, s.request) then Goto(d.(unverified := false), s, DropStaging(Cloned, d.workspace))
      else Exit(d, s)
    case _ => d
  }

  function Finishing(d: Disk, s: Script): Disk {
    match s.pc
    case DropStaging(outcome, seen) =>
      Goto(d.(staging := None), s, if s.verified then DropMarker(outcome, seen) else Print(outcome, seen))
    case DropMarker(outcome, seen) => Goto(d.(marker := None), s.(verified := false), Print(outcome, seen))
    case Print(outcome, seen) => d.(script := None, printed := d.printed + [Printed(s.request, outcome, seen)])
    case _ => d
  }

  predicate Finishes(pc: Pc) {
    pc.DropStaging? || pc.DropMarker? || pc.Print?
  }

  predicate Inspects(pc: Pc) {
    pc.CheckMarker? || pc.WithMarker? || pc.InspectStaging? || pc.InspectWorkspace? || pc.WithoutMarker?
  }

  predicate Prepares(pc: Pc) {
    pc.Clearing? || pc.Clone? || pc.VerifyStaging? || pc.CheckEmpty?
  }

  /** Between the promotion's emptiness test and the end of the marker, what others write is late. */
  predicate WindowOpen(d: Disk) {
    d.marker.Some? || (d.script.Some? && d.script.value.pc.WriteMarker?)
  }

  function Worked(d: Disk, s: Script, choice: Choice): Disk {
    if Inspects(s.pc) then Inspecting(d, s, choice)
    else if Finishes(s.pc) then Finishing(d, s)
    else if Prepares(s.pc) then Preparing(d, s, choice)
    else Promoting(d, s, choice)
  }

  function Next(d: Disk, action: Action): Disk {
    match action
    case Start(request) => if d.script.Some? then d else d.(script := Some(Script(request, CheckMarker, false, false)))
    case Work(choice) => if d.script.None? then d else Worked(d, d.script.value, choice)
    case Kill => d.(script := None)
    case Terminate => if d.script.None? then d else Exit(d, d.script.value)
    case Foreign(tree) =>
      d.(workspace := tree, late := tree.foreign && (WindowOpen(d) || (d.late && d.workspace.foreign)),
         unverified := d.unverified && !tree.empty)
  }

  const START := Disk(EMPTY, None, None, None, false, false, [], [])

  function Execute(schedule: seq<Action>): Disk {
    if schedule == [] then START else Next(Execute(schedule[..|schedule| - 1]), schedule[|schedule| - 1])
  }

  /** An empty directory shows nothing. */
  predicate Sensible(t: Tree) {
    t.empty ==> !t.head && t.origin == None && !t.foreign
  }

  ghost predicate SensibleSchedule(schedule: seq<Action>) {
    forall i :: 0 <= i < |schedule| ==>
      (schedule[i].Foreign? ==> Sensible(schedule[i].tree))
      && (schedule[i].Work? && schedule[i].choice.Yield? ==> Sensible(schedule[i].choice.tree))
  }

  // ---- the invariant -----------------------------------------------------------------------

  predicate ScriptOk(d: Disk, s: Script) {
    && (s.verified ==> d.marker == Some(s.request))
    && (s.pc.WithMarker? || s.pc.InspectStaging? || s.pc.InspectWorkspace? || s.pc.Clearing? || s.pc.Copying? || s.pc.VerifyCopy? ==>
          s.verified)
    && (s.pc.WithoutMarker? ==> d.marker.None?)
    && (s.pc.CheckMarker? || s.pc.WithoutMarker? ==> !s.verified)
    && (s.pc.WriteMarker? ==> d.workspace.foreign ==> d.late)
    && (s.pc.DropMarker? ==> s.verified)
    && ((s.pc.DropStaging? || s.pc.DropMarker?) && s.verified ==> !d.unverified)
    && (!s.verified && !s.pc.CheckMarker? ==> d.marker.None?)
    && (Finishes(s.pc) ==> Matching(s.pc.seen, s.request) && (s.pc.outcome.Cloned? ==> BranchMatches(s.pc.seen, s.request)))
  }

  predicate Inv(d: Disk) {
    && Sensible(d.workspace)
    && (d.unverified ==> d.marker.Some?)
    && (d.marker.Some? && d.workspace.foreign ==> d.late)
    && (d.script.Some? ==> ScriptOk(d, d.script.value))
    && (forall i :: 0 <= i < |d.deleted| ==> d.deleted[i])
    && (forall i :: 0 <= i < |d.printed| ==> var p := d.printed[i];
          Matching(p.seen, p.request) && (p.outcome.Cloned? ==> BranchMatches(p.seen, p.request)))
  }

  lemma EnteringKeepsInv(d: Disk, s: Script, choice: Choice)
    requires Inv(d) && d.script == Some(s) && (s.pc.CheckMarker? || s.pc.WithMarker? || s.pc.WithoutMarker?)
    ensures Inv(Inspecting(d, s, choice))
  {
  }

  lemma InspectingKeepsInv(d: Disk, s: Script, choice: Choice)
    requires Inv(d) && d.script == Some(s) && Inspects(s.pc)
    ensures Inv(Inspecting(d, s, choice))
  {
    if s.pc.CheckMarker? || s.pc.WithMarker? || s.pc.WithoutMarker? { EnteringKeepsInv(d, s, choice); }
  }

  lemma PreparingKeepsInv(d: Disk, s: Script, choice: Choice)
    requires Inv(d) && d.script == Some(s) && Prepares(s.pc)
    requires choice.Yield? ==> Sensible(choice.tree)
    ensures Inv(Preparing(d, s, choice))
  {
  }

  lemma PromotingKeepsInv(d: Disk, s: Script, choice: Choice)
    requires Inv(d) && d.script == Some(s) && !Inspects(s.pc) && !Finishes(s.pc) && !Prepares(s.pc)
    requires choice.Yield? ==> Sensible(choice.tree)
    ensures Inv(Promoting(d, s, choice))
  {
  }

  lemma FinishingKeepsInv(d: Disk, s: Script)
    requires Inv(d) && d.script == Some(s) && Finishes(s.pc)
    ensures Inv(Finishing(d, s))
  {
  }

  lemma StepKeepsInv(d: Disk, action: Action)
    requires Inv(d)
    requires (action.Foreign? ==> Sensible(action.tree)) && (action.Work? && action.choice.Yield? ==> Sensible(action.choice.tree))
    ensures Inv(Next(d, action))
  {
    if action.Work? && d.script.Some? {
      var s := d.script.value;
      if Inspects(s.pc) {
        InspectingKeepsInv(d, s, action.choice);
      } else if Finishes(s.pc) {
        FinishingKeepsInv(d, s);
      } else if Prepares(s.pc) {
        PreparingKeepsInv(d, s, action.choice);
      } else {
        PromotingKeepsInv(d, s, action.choice);
      }
    }
  }

  lemma {:induction false} ReachableInv(schedule: seq<Action>)
    requires SensibleSchedule(schedule)
    ensures Inv(Execute(schedule))
  {
    if schedule != [] {
      var init, last := schedule[..|schedule| - 1], schedule[|schedule| - 1];
      assert SensibleSchedule(init) by {
        forall i | 0 <= i < |init|
          ensures (init[i].Foreign? ==> Sensible(init[i].tree))
               && (init[i].Work? && init[i].choice.Yield? ==> Sensible(init[i].choice.tree))
        {
          assert init[i] == schedule[i];
        }
      }
      ReachableInv(init);
      StepKeepsInv(Execute(init), last);
    }
  }

  // ---- results -------------------------------------------------------------------------------

  /** The script deletes workspace contents only under a marker of this very request. */
  lemma {:induction false} ClearsOnlyUnderItsMarker(schedule: seq<Action>)
    requires SensibleSchedule(schedule)
    ensures var d := Execute(schedule);
            d.script.Some? && d.script.value.pc.Clearing? ==> d.marker == Some(d.script.value.request)
  {
    ReachableInv(schedule);
  }

  /** From every crash point: content that was copied and not verified still has its marker. */
  lemma {:induction false} UnverifiedCopiesKeepTheirMarker(schedule: seq<Action>)
    requires SensibleSchedule(schedule)
    ensures Execute(schedule).unverified ==> Execute(schedule).marker.Some?
  {
    ReachableInv(schedule);
  }

  /** "Reused" and "cloned" are printed only for a workspace seen with a HEAD and the requested origin; "cloned" also with the branch. */
  lemma {:induction false} PrintedOutcomesWereSeen(schedule: seq<Action>, i: nat)
    requires SensibleSchedule(schedule) && i < |Execute(schedule).printed|
    ensures var p := Execute(schedule).printed[i];
            Matching(p.seen, p.request) && (p.outcome.Cloned? ==> BranchMatches(p.seen, p.request))
  {
    ReachableInv(schedule);
  }

  /** Whatever of others clearing removed had been written after a promotion had found the workspace empty. */
  lemma {:induction false} OnlyLateContentIsDeleted(schedule: seq<Action>, i: nat)
    requires SensibleSchedule(schedule) && i < |Execute(schedule).deleted|
    ensures Execute(schedule).deleted[i]
  {
    ReachableInv(schedule);
  }

  lemma {:induction false} Extend(schedule: seq<Action>, action: Action)
    ensures Execute(schedule + [action]) == Next(Execute(schedule), action)
  {
    assert (schedule + [action])[..|schedule|] == schedule;
  }

  lemma {:induction false} OneMore(schedule: seq<Action>, action: Action)
    requires SensibleSchedule(schedule)
    requires (action.Foreign? ==> Sensible(action.tree)) && (action.Work? && action.choice.Yield? ==> Sensible(action.choice.tree))
    ensures SensibleSchedule(schedule + [action]) && Execute(schedule + [action]) == Next(Execute(schedule), action)
  {
    Extend(schedule, action);
  }

  const GO := Work(Proceed)

  /** A script on its way, on a disk where nothing but staging has been written. */
  function InScript(r: Request, staging: Option<Tree>, pc: Pc): Disk {
    Disk(EMPTY, staging, None, Some(Script(r, pc, false, false)), false, false, [], [])
  }

  lemma CleanStart(r: Request)
    ensures Next(START, Start(r)) == InScript(r, None, CheckMarker)
    ensures Next(InScript(r, None, CheckMarker), GO) == InScript(r, None, WithoutMarker)
    ensures Next(InScript(r, None, WithoutMarker), GO) == InScript(r, None, Clone)
  {
  }

  lemma CleanClone(r: Request, good: Tree)
    requires Promotable(good, r)
    ensures Next(InScript(r, None, Clone), Work(Yield(good))) == InScript(r, Some(good), VerifyStaging)
    ensures Next(InScript(r, Some(good), VerifyStaging), GO) == InScript(r, Some(good), CheckEmpty)
    ensures Next(InScript(r, Some(good), CheckEmpty), GO) == InScript(r, Some(good), WriteMarker)
  {
  }

  lemma ReachesTheClone(r: Request) returns (schedule: seq<Action>)
    ensures SensibleSchedule(schedule) && Execute(schedule) == InScript(r, None, Clone)
  {
    CleanStart(r);
    OneMore([], Start(r));
    schedule := [] + [Start(r)];
    OneMore(schedule, GO);
    schedule := schedule + [GO];
    OneMore(schedule, GO);
    schedule := schedule + [GO];
  }

  lemma ReachesTheWindow(r: Request) returns (schedule: seq<Action>)
    ensures SensibleSchedule(schedule)
    ensures Execute(schedule) == InScript(r, Some(Tree(false, true, Some(r.url), r.branch, false)), WriteMarker)
  {
    var good := Tree(false, true, Some(r.url), r.branch, false);
    CleanClone(r, good);
    schedule := ReachesTheClone(r);
    OneMore(schedule, Work(Yield(good)));
    schedule := schedule + [Work(Yield(good))];
    OneMore(schedule, GO);
    schedule := schedule + [GO];
    OneMore(schedule, GO);
    schedule := schedule + [GO];
  }

  // ---- an undisturbed run --------------------------------------------------------------------

  /** Two addresses name one repository if they differ in a final ".git" at most. */
  lemma SuffixesDoNotMatter(url: string)
    ensures WithoutSuffix(url + ".git") == url
    ensures |url| < 4 || url[|url| - 4..] != ".git" ==> WithoutSuffix(url) == url
  {
    assert (url + ".git")[|url|..] == ".git";
  }

  /** A copy is what was asked for if it has a HEAD, the requested origin and the branch, where one was asked for. */
  lemma PromotableMeans(t: Tree, r: Request)
    ensures Promotable(t, r) <==>
              && t.head && t.origin.Some? && WithoutSuffix(t.origin.value) == WithoutSuffix(r.url)
              && (r.branch.Some? ==> t.branch.Some? && t.branch.value == r.branch.value)
  {
  }

  function InRun(d: Disk, r: Request, pc: Pc, ready: bool, verified: bool): Disk {
    d.(script := Some(Script(r, pc, ready, verified)))
  }

  /** A killed script cleans nothing up; a terminated one drops its staging copy unless a marker protects that. */
  lemma Interruptions(d: Disk)
    ensures Next(d, Kill) == d.(script := None)
    ensures Next(d, Terminate) == d.(script := None, staging := if d.script.Some? && !d.script.value.verified && d.marker.None? then None else d.staging)
  {
  }

  /** Deleting and copying go on step by step: whatever they leave half done, the script is still at it. A cleared workspace is empty. */
  lemma HalfDone(d: Disk, r: Request, half: Tree)
    requires d.staging.Some?
    ensures Next(InRun(d, r, Clearing, false, true), Work(Yield(half)))
         == InRun(d.(workspace := half.(foreign := d.workspace.foreign && half.foreign),
                     deleted := if d.workspace.foreign then d.deleted + [d.late] else d.deleted), r, Clearing, false, true)
    ensures Next(InRun(d, r, Copying, false, true), Work(Yield(half)))
         == InRun(d.(workspace := half.(empty := false, foreign := d.workspace.foreign), unverified := true), r, Copying, false, true)
    ensures Next(InRun(d, r, Clearing, false, true), GO)
         == InRun(d.(workspace := EMPTY, deleted := if d.workspace.foreign then d.deleted + [d.late] else d.deleted,
                     unverified := false, late := false), r, Clone, false, true)
    ensures Next(InRun(d, r, Copying, false, true), Work(Fail)) == d.(script := None)
    ensures Next(InRun(d, r, Clearing, false, true), Work(Fail)) == d.(script := None)
  {
  }

  /** What others write is there at once, and late while the window is open. */
  lemma OthersWrite(d: Disk, tree: Tree)
    ensures var t := Next(d, Foreign(tree));
            && t == d.(workspace := tree, late := t.late, unverified := t.unverified)
            && (t.late <==> tree.foreign && (d.marker.Some? || (d.script.Some? && d.script.value.pc == WriteMarker)
                                             || (d.late && d.workspace.foreign)))
            && (t.unverified <==> d.unverified && !tree.empty)
  {
  }

  /** The script's own next step; what `git clone` leaves is given, or that it fails. */
  function Go(d: Disk, clone: Option<Tree>): Disk {
    if d.script.None? then d
    else Next(d, Work(if !d.script.value.pc.Clone? then Proceed else if clone.Some? then Yield(clone.value) else Fail))
  }

  function Goes(d: Disk, clone: Option<Tree>, n: nat): Disk
    decreases n
  {
    if n == 0 then d else Goes(Go(d, clone), clone, n - 1)
  }

  lemma {:induction false} GoesOn(d: Disk, clone: Option<Tree>, n: nat, m: nat)
    ensures Goes(d, clone, n + m) == Goes(Goes(d, clone, n), clone, m)
    decreases n
  {
    if n > 0 { GoesOn(Go(d, clone), clone, n - 1, m); }
  }

  lemma {:induction false} Ended(d: Disk, clone: Option<Tree>, n: nat)
    requires d.script.None?
    ensures Goes(d, clone, n) == d
  {
    if n > 0 { Ended(d, clone, n - 1); }
  }

  lemma {:induction false} GoesTwice(d: Disk, clone: Option<Tree>)
    ensures Goes(d, clone, 1) == Go(d, clone) && Goes(d, clone, 2) == Go(Go(d, clone), clone)
  {
    assert Goes(Go(d, clone), clone, 1) == Goes(Go(Go(d, clone), clone), clone, 0);
  }

  lemma {:induction false} GoesFourTimes(d: Disk, clone: Option<Tree>)
    ensures Goes(d, clone, 4) == Go(Go(Go(Go(d, clone), clone), clone), clone)
  {
    GoesTwice(d, clone);
    GoesOn(d, clone, 2, 2);
    GoesTwice(Goes(d, clone, 2), clone);
  }

  /** The end of a successful run: staging and marker go, and the outcome is printed for what was seen. */
  lemma {:induction false} FinishesAndPrints(d: Disk, r: Request, outcome: Outcome, seen: Tree, ready: bool, verified: bool, clone: Option<Tree>)
    ensures Goes(InRun(d, r, DropStaging(outcome, seen), ready, verified), clone, 4)
         == d.(staging := None, marker := if verified then None else d.marker, script := None,
               printed := d.printed + [Printed(r, outcome, seen)])
  {
    var s0 := InRun(d, r, DropStaging(outcome, seen), ready, verified);
    GoesFourTimes(s0, clone);
    if verified {
      assert Go(Go(s0, clone), clone) == InRun(d.(staging := None, marker := None), r, Print(outcome, seen), ready, false);
    } else {
      assert Go(s0, clone) == InRun(d.(staging := None), r, Print(outcome, seen), ready, false);
    }
  }

  /** What is copied into the empty workspace. */
  function Copied(d: Disk): Tree
    requires d.staging.Some?
  {
    d.staging.value.(empty := false, foreign := d.workspace.foreign)
  }

  /** A staging copy of the request is promoted into the empty workspace; while it is copied it counts as unverified. */
  lemma {:induction false} PromotesStaging(d: Disk, r: Request, ready: bool, verified: bool, clone: Option<Tree>)
    requires d.workspace.empty && d.staging.Some? && Promotable(d.staging.value, r)
    ensures Goes(InRun(d, r, VerifyStaging, ready, verified), clone, 4)
         == InRun(d.(late := false, marker := Some(r), workspace := Copied(d), unverified := true), r, VerifyCopy, ready, true)
  {
    GoesFourTimes(InRun(d, r, VerifyStaging, ready, verified), clone);
    StagingIsVerified(d, r, ready, verified, clone);
    StagingIsCopied(d.(late := false), r, ready, verified, clone);
  }

  lemma {:induction false} StagingIsVerified(d: Disk, r: Request, ready: bool, verified: bool, clone: Option<Tree>)
    requires d.workspace.empty && d.staging.Some? && Promotable(d.staging.value, r)
    ensures Go(Go(InRun(d, r, VerifyStaging, ready, verified), clone), clone) == InRun(d.(late := false), r, WriteMarker, ready, verified)
  {
  }

  lemma {:induction false} StagingIsCopied(d: Disk, r: Request, ready: bool, verified: bool, clone: Option<Tree>)
    requires d.staging.Some?
    ensures Go(Go(InRun(d, r, WriteMarker, ready, verified), clone), clone)
         == InRun(d.(marker := Some(r), workspace := Copied(d), unverified := true), r, VerifyCopy, ready, true)
  {
  }

  /** What a run leaves when it succeeds. */
  predicate Succeeds(d: Disk, t: Disk, r: Request, outcome: Outcome, workspace: Tree) {
    && t.script.None? && t.staging.None? && t.marker.None? && t.workspace == workspace
    && t.printed == d.printed + [Printed(r, outcome, workspace)]
  }

  /** What it leaves when it fails: nothing printed, and the staging copy only where a marker protects it. */
  predicate Fails(d: Disk, t: Disk, workspace: Tree, staging: Option<Tree>) {
    && t.script.None? && t.printed == d.printed && t.workspace == workspace && t.staging == staging && t.marker == d.marker
  }

  lemma {:induction false} PromotionSucceeds(d: Disk, r: Request, ready: bool, verified: bool, clone: Option<Tree>)
    requires d.workspace.empty && d.staging.Some? && Promotable(d.staging.value, r)
    ensures Succeeds(d, Goes(InRun(d, r, VerifyStaging, ready, verified), clone, 9), r, Cloned, Copied(d))
  {
    var s0, copied := InRun(d, r, VerifyStaging, ready, verified), d.(late := false, marker := Some(r), workspace := Copied(d), unverified := true);
    PromotesStaging(d, r, ready, verified, clone);
    var s4 := InRun(copied, r, VerifyCopy, ready, true);
    GoesTwice(s4, clone);
    assert Go(s4, clone) == InRun(copied.(unverified := false), r, DropStaging(Cloned, Copied(d)), ready, true);
    FinishesAndPrints(copied.(unverified := false), r, Cloned, Copied(d), ready, true, clone);
    GoesOn(s4, clone, 1, 4);
    GoesOn(s0, clone, 4, 5);
  }

  lemma {:induction false} CloneFails(d: Disk, r: Request, ready: bool, verified: bool, clone: Option<Tree>)
    requires d.staging.None? || !Promotable(d.staging.value, r)
    ensures Goes(InRun(d, r, VerifyStaging, ready, verified), clone, 9)
         == d.(script := None, staging := if verified || d.marker.Some? then d.staging else None)
  {
    var s0 := InRun(d, r, VerifyStaging, ready, verified);
    GoesTwice(s0, clone);
    Ended(Go(s0, clone), clone, 8);
    GoesOn(s0, clone, 1, 8);
  }

  /** From the clone on: a promotable copy, kept or fresh, ends up in the workspace; anything else is an error. */
  lemma {:induction false} ClonesOrFails(d: Disk, r: Request, ready: bool, verified: bool, clone: Option<Tree>)
    requires d.workspace.empty && (ready ==> d.staging.Some?)
    ensures var copy := if ready then d.staging else clone;
            var t := Goes(InRun(d, r, Clone, ready, verified), clone, 10);
            if copy.Some? && Promotable(copy.value, r) then Succeeds(d, t, r, Cloned, Copied(d.(staging := copy)))
            else Fails(d, t, d.workspace, if !verified && d.marker.None? then None else if copy.Some? then copy else d.staging)
  {
    var s0 := InRun(d, r, Clone, ready, verified);
    GoesTwice(s0, clone);
    GoesOn(s0, clone, 1, 9);
    if ready || clone.Some? {
      var copy := if ready then d.staging else clone;
      assert Go(s0, clone) == InRun(d.(staging := copy), r, VerifyStaging, ready, verified);
      if Promotable(copy.value, r) {
        PromotionSucceeds(d.(staging := copy), r, ready, verified, clone);
      } else {
        CloneFails(d.(staging := copy), r, ready, verified, clone);
      }
    } else {
      Ended(Go(s0, clone), clone, 9);
    }
  }

  /** One whole run that nothing disturbs. */
  function Whole(d: Disk, r: Request, clone: Option<Tree>): Disk {
    Goes(Next(d, Start(r)), clone, 16)
  }

  /** The marker of another request stops a run before it touches anything. */
  lemma OtherMarkersStop(d: Disk, r: Request, clone: Option<Tree>)
    requires d.script.None? && d.marker.Some? && d.marker != Some(r)
    ensures Whole(d, r, clone) == d
  {
    var s0 := Next(d, Start(r));
    GoesTwice(s0, clone);
    Ended(Go(s0, clone), clone, 15);
    GoesOn(s0, clone, 1, 15);
  }

  /**
   Without a marker a checkout of the repository is reused, an empty workspace gets a fresh clone, and
   anything else is left alone.
   */
  lemma FreshRuns(d: Disk, r: Request, clone: Option<Tree>)
    requires d.script.None? && d.marker.None? && Sensible(d.workspace)
    ensures var t := Whole(d, r, clone);
            if d.workspace.head && OriginMatches(d.workspace, r) then Succeeds(d, t, r, Reused, d.workspace)
            else if d.workspace.empty && clone.Some? && Promotable(clone.value, r)
            then Succeeds(d, t, r, Cloned, clone.value.(empty := false, foreign := false))
            else Fails(d, t, d.workspace, None)
  {
    var s0 := Next(d, Start(r));
    GoesOn(s0, clone, 2, 14);
    FreshRunsInspect(d, r, clone);
    var s2 := Goes(s0, clone, 2);
    if d.workspace.head && OriginMatches(d.workspace, r) {
      FinishesAndPrints(d, r, Reused, d.workspace, false, false, clone);
      GoesOn(s2, clone, 4, 10);
      Ended(Goes(s2, clone, 4), clone, 10);
    } else if d.workspace.empty {
      FreshClones(d, r, clone);
    } else {
      Ended(s2, clone, 14);
    }
  }

  lemma {:induction false} FreshClones(d: Disk, r: Request, clone: Option<Tree>)
    requires d.marker.None? && Sensible(d.workspace) && d.workspace.empty
    ensures var t := Goes(InRun(d.(staging := None), r, Clone, false, false), clone, 14);
            if clone.Some? && Promotable(clone.value, r) then Succeeds(d, t, r, Cloned, clone.value.(empty := false, foreign := false))
            else Fails(d, t, d.workspace, None)
  {
    var s2 := InRun(d.(staging := None), r, Clone, false, false);
    ClonesOrFails(d.(staging := None), r, false, false, clone);
    GoesOn(s2, clone, 10, 4);
    Ended(Goes(s2, clone, 10), clone, 4);
  }

  lemma {:induction false} FreshRunsInspect(d: Disk, r: Request, clone: Option<Tree>)
    requires d.script.None? && d.marker.None? && Sensible(d.workspace)
    ensures Goes(Next(d, Start(r)), clone, 2)
         == if d.workspace.head && OriginMatches(d.workspace, r) then InRun(d, r, DropStaging(Reused, d.workspace), false, false)
            else if d.workspace.empty then InRun(d.(staging := None), r, Clone, false, false)
            else d.(staging := None)
  {
    GoesTwice(Next(d, Start(r)), clone);
  }

  /** Under its own marker a run takes up what an interrupted one left. */
  predicate Refuses(d: Disk, r: Request) {
    || (d.staging.Some? && d.staging.value.head && !(OriginMatches(d.staging.value, r) && BranchMatches(d.staging.value, r)))
    || (d.workspace.origin.Some? && !OriginMatches(d.workspace, r)) || d.workspace.head
  }

  function Emptied(t: Tree): Tree {
    if t.empty then t else EMPTY
  }

  /** The staging copy it goes on with. */
  function KeptStaging(d: Disk): Option<Tree> {
    if d.staging.Some? && d.staging.value.head then d.staging else None
  }

  /**
   Under its own marker: a finished copy is reused; otherwise whatever half a copy left is cleared, unless
   it has a HEAD or another origin, and a good staging copy is promoted before anything is cloned again.
   */
  lemma ContinuedRuns(d: Disk, r: Request, clone: Option<Tree>)
    requires d.script.None? && d.marker == Some(r) && Sensible(d.workspace)
    ensures var t, copy := Whole(d, r, clone), if KeptStaging(d).Some? then KeptStaging(d) else clone;
            if Promotable(d.workspace, r) then Succeeds(d, t, r, Reused, d.workspace)
            else if Refuses(d, r) then Fails(d, t, d.workspace, KeptStaging(d))
            else if copy.Some? && Promotable(copy.value, r)
            then Succeeds(d, t, r, Cloned, copy.value.(empty := false, foreign := false))
            else Fails(d, t, Emptied(d.workspace), copy)
  {
    var s0 := Next(d, Start(r));
    GoesTwice(s0, clone);
    GoesOn(s0, clone, 2, 14);
    var s2 := Goes(s0, clone, 2);
    if Promotable(d.workspace, r) {
      assert s2 == InRun(d.(unverified := false), r, DropStaging(Reused, d.workspace), false, true);
      FinishesAndPrints(d.(unverified := false), r, Reused, d.workspace, false, true, clone);
      GoesOn(s2, clone, 4, 10);
      Ended(Goes(s2, clone, 4), clone, 10);
    } else {
      assert s2 == InRun(d, r, InspectStaging, false, true);
      TakesUp(d, r, clone);
    }
  }

  lemma {:induction false} TakesUp(d: Disk, r: Request, clone: Option<Tree>)
    requires d.script.None? && d.marker == Some(r) && Sensible(d.workspace)
    ensures var t, copy := Goes(InRun(d, r, InspectStaging, false, true), clone, 14), if KeptStaging(d).Some? then KeptStaging(d) else clone;
            if Refuses(d, r) then Fails(d, t, d.workspace, KeptStaging(d))
            else if copy.Some? && Promotable(copy.value, r)
            then Succeeds(d, t, r, Cloned, copy.value.(empty := false, foreign := false))
            else Fails(d, t, Emptied(d.workspace), copy)
  {
    var s2 := InRun(d, r, InspectStaging, false, true);
    GoesOn(s2, clone, 2, 12);
    InspectsBoth(d, r, clone);
    if Refuses(d, r) {
      Ended(Goes(s2, clone, 2), clone, 12);
    } else {
      ClearsAndClones(d.(staging := KeptStaging(d)), r, KeptStaging(d).Some?, clone);
    }
  }

  lemma {:induction false} InspectsBoth(d: Disk, r: Request, clone: Option<Tree>)
    requires d.script.None? && d.marker == Some(r)
    ensures Goes(InRun(d, r, InspectStaging, false, true), clone, 2)
         == if Refuses(d, r) then d.(staging := KeptStaging(d))
            else InRun(d.(staging := KeptStaging(d)), r, if d.workspace.empty then Clone else Clearing, KeptStaging(d).Some?, true)
  {
    GoesTwice(InRun(d, r, InspectStaging, false, true), clone);
  }

  /** What half a copy left is cleared before the clone. */
  lemma ClearsAndClones(d: Disk, r: Request, ready: bool, clone: Option<Tree>)
    requires d.script.None? && d.marker == Some(r) && Sensible(d.workspace) && (ready <==> d.staging.Some?)
    ensures var s4 := InRun(d, r, if d.workspace.empty then Clone else Clearing, ready, true);
            var t, copy := Goes(s4, clone, 12), if ready then d.staging else clone;
            if copy.Some? && Promotable(copy.value, r)
            then Succeeds(d, t, r, Cloned, copy.value.(empty := false, foreign := false))
            else Fails(d, t, Emptied(d.workspace), copy)
  {
    var s4 := InRun(d, r, if d.workspace.empty then Clone else Clearing, ready, true);
    var clean := if d.workspace.empty then d else Goes(s4, clone, 1).(script := None);
    GoesTwice(s4, clone);
    var skipped := if d.workspace.empty then 0 else 1;
    GoesOn(s4, clone, skipped, 10);
    GoesOn(s4, clone, skipped + 10, 2 - skipped);
    ClonesOrFails(clean, r, ready, true, clone);
    Ended(Goes(s4, clone, skipped + 10), clone, 2 - skipped);
  }

  // ---- what a rerun deletes ------------------------------------------------------------------

  /** One uninterrupted rerun: a start and the script's own steps. */
  function Rerun(d: Disk, r: Request, choices: seq<Choice>): Disk {
    if choices == [] then Next(d, Start(r))
    else Next(Rerun(d, r, choices[..|choices| - 1]), Work(choices[|choices| - 1]))
  }

  /** The staging copy does not stop the script: it is missing, unusable, or of this request. */
  predicate StagingPasses(d: Disk, r: Request) {
    d.staging.Some? && d.staging.value.head ==> OriginMatches(d.staging.value, r) && BranchMatches(d.staging.value, r)
  }

  predicate WillClear(d: Disk, r: Request) {
    && d.workspace.foreign && !d.workspace.head && (d.workspace.origin.Some? ==> OriginMatches(d.workspace, r))
    && StagingPasses(d, r)
  }

  /** A script that can still reach the clearing step. */
  predicate BeforeClearing(pc: Pc) {
    pc.CheckMarker? || pc.WithMarker? || pc.InspectStaging? || pc.InspectWorkspace? || pc.Clearing?
  }

  /** Where a script on its way to the clearing step stands, as long as it has nothing foreign to delete. */
  predicate SparesAt(d0: Disk, d: Disk, r: Request, pc: Pc) {
    && d.marker == Some(r)
    && (if pc.Clearing? then !d.workspace.foreign else d.workspace == d0.workspace)
    && (pc.CheckMarker? || pc.WithMarker? || pc.InspectStaging? ==> d.staging == d0.staging)
    && (pc.InspectWorkspace? ==> StagingPasses(d0, r))
  }

  predicate Sparing(d0: Disk, d: Disk, r: Request) {
    && d.deleted == d0.deleted
    && (d.script.Some? ==>
          d.script.value.request == r
          && (BeforeClearing(d.script.value.pc) ==> SparesAt(d0, d, r, d.script.value.pc)))
  }

  lemma StepSpares(d0: Disk, d: Disk, r: Request, choice: Choice)
    requires Sensible(d0.workspace) && d0.marker == Some(r) && !WillClear(d0, r) && Sparing(d0, d, r)
    ensures Sparing(d0, Next(d, Work(choice)), r)
  {
    if d.script.Some? {
      var s := d.script.value;
      if Inspects(s.pc) {
        InspectionSpares(d0, d, r, choice);
      } else if Finishes(s.pc) {
        FinishingSpares(d0, d, s, r);
      } else if Prepares(s.pc) {
        PreparingSpares(d0, d, s, r, choice);
      } else {
        PromotingSpares(d0, d, s, r, choice);
      }
    }
  }

  lemma FinishingSpares(d0: Disk, d: Disk, s: Script, r: Request)
    requires Sparing(d0, d, r) && d.script == Some(s) && Finishes(s.pc)
    ensures Sparing(d0, Finishing(d, s), r)
  {
  }

  lemma PreparingSpares(d0: Disk, d: Disk, s: Script, r: Request, choice: Choice)
    requires Sparing(d0, d, r) && d.script == Some(s) && Prepares(s.pc)
    ensures Sparing(d0, Preparing(d, s, choice), r)
  {
  }

  lemma PromotingSpares(d0: Disk, d: Disk, s: Script, r: Request, choice: Choice)
    requires Sparing(d0, d, r) && d.script == Some(s) && !Inspects(s.pc) && !Finishes(s.pc) && !Prepares(s.pc)
    ensures Sparing(d0, Promoting(d, s, choice), r)
  {
  }

  lemma InspectionSpares(d0: Disk, d: Disk, r: Request, choice: Choice)
    requires Sensible(d0.workspace) && d0.marker == Some(r) && !WillClear(d0, r) && Sparing(d0, d, r)
    requires d.script.Some? && Inspects(d.script.value.pc)
    ensures Sparing(d0, Inspecting(d, d.script.value, choice), r)
  {
  }

  lemma {:induction false} RerunSpares(d: Disk, r: Request, choices: seq<Choice>)
    requires d.script.None? && d.marker == Some(r) && Sensible(d.workspace) && !WillClear(d, r)
    ensures Sparing(d, Rerun(d, r, choices), r)
  {
    if choices != [] {
      var init := choices[..|choices| - 1];
      RerunSpares(d, r, init);
      StepSpares(d, Rerun(d, r, init), r, choices[|choices| - 1]);
    }
  }

  function InRerun(d: Disk, r: Request, pc: Pc, ready: bool, staging: Option<Tree>): Disk {
    d.(script := Some(Script(r, pc, ready, true)), staging := staging)
  }

  /** The states of a rerun up to the clearing step. */
  lemma RerunInspects(d: Disk, r: Request)
    requires d.script.None? && d.marker == Some(r) && Sensible(d.workspace) && WillClear(d, r)
    ensures var ready := d.staging.Some? && d.staging.value.head;
            var kept := if ready then d.staging else None;
            && Next(d.(script := Some(Script(r, CheckMarker, false, false))), GO) == InRerun(d, r, WithMarker, false, d.staging)
            && Next(InRerun(d, r, WithMarker, false, d.staging), GO) == InRerun(d, r, InspectStaging, false, d.staging)
            && Next(InRerun(d, r, InspectStaging, false, d.staging), GO) == InRerun(d, r, InspectWorkspace, ready, kept)
            && Next(InRerun(d, r, InspectWorkspace, ready, kept), GO) == InRerun(d, r, Clearing, ready, kept)
  {
  }

  lemma ClearingDeletes(d: Disk, r: Request, ready: bool, staging: Option<Tree>)
    requires d.workspace.foreign
    ensures Next(InRerun(d, r, Clearing, ready, staging), GO).deleted == d.deleted + [d.late]
  {
  }

  lemma {:induction false} RerunStep(d: Disk, r: Request, choices: seq<Choice>, choice: Choice)
    ensures Rerun(d, r, choices + [choice]) == Next(Rerun(d, r, choices), Work(choice))
  {
    assert (choices + [choice])[..|choices|] == choices;
  }

  lemma RerunClears(d: Disk, r: Request) returns (choices: seq<Choice>)
    requires d.script.None? && d.marker == Some(r) && Sensible(d.workspace) && WillClear(d, r)
    ensures choices == [Proceed, Proceed, Proceed, Proceed, Proceed] && Rerun(d, r, choices).deleted == d.deleted + [d.late]
  {
    RerunInspects(d, r);
    var ready := d.staging.Some? && d.staging.value.head;
    choices := [];
    RerunStep(d, r, choices, Proceed);
    choices := choices + [Proceed];
    RerunStep(d, r, choices, Proceed);
    choices := choices + [Proceed];
    RerunStep(d, r, choices, Proceed);
    choices := choices + [Proceed];
    RerunStep(d, r, choices, Proceed);
    choices := choices + [Proceed];
    assert Rerun(d, r, choices) == InRerun(d, r, Clearing, ready, if ready then d.staging else None);
    RerunStep(d, r, choices, Proceed);
    choices := choices + [Proceed];
    ClearingDeletes(d, r, ready, if ready then d.staging else None);
  }

  /**
   From every state in which a run was interrupted under its own marker: a rerun deletes content of
   others exactly when the workspace holds some, has no HEAD and no other origin, and the staging copy
   is not a checkout of something else.
   */
  lemma {:induction false} RerunDeletesExactlyThen(d: Disk, r: Request)
    requires d.script.None? && d.marker == Some(r) && Sensible(d.workspace)
    ensures (exists choices: seq<Choice> :: Rerun(d, r, choices).deleted != d.deleted) <==> WillClear(d, r)
  {
    if WillClear(d, r) {
      var choices := RerunClears(d, r);
      assert |Rerun(d, r, choices).deleted| == |d.deleted| + 1;
    } else {
      forall choices: seq<Choice> ensures Rerun(d, r, choices).deleted == d.deleted {
        RerunSpares(d, r, choices);
      }
    }
  }

  /** A rerun is part of a schedule. */
  lemma {:induction false} RerunsAreRuns(before: seq<Action>, r: Request, choices: seq<Choice>) returns (schedule: seq<Action>)
    requires SensibleSchedule(before) && forall i :: 0 <= i < |choices| && choices[i].Yield? ==> Sensible(choices[i].tree)
    ensures SensibleSchedule(schedule) && Execute(schedule) == Rerun(Execute(before), r, choices)
  {
    if choices == [] {
      OneMore(before, Start(r));
      schedule := before + [Start(r)];
    } else {
      schedule := RerunsAreRuns(before, r, choices[..|choices| - 1]);
      OneMore(schedule, Work(choices[|choices| - 1]));
      schedule := schedule + [Work(choices[|choices| - 1])];
    }
  }

  /**
   Such states are reached: others write into the workspace between the emptiness test and the marker,
   or while the marker stands after a kill; the rerun deletes what they wrote.
   */
  lemma LateContentCanBeDeleted(r: Request, afterTheKill: bool)
    ensures exists schedule: seq<Action> :: SensibleSchedule(schedule) && Execute(schedule).deleted == [true]
  {
    var mine := Tree(false, false, None, None, true);
    var schedule := ReachesTheWindow(r);
    if !afterTheKill {
      OneMore(schedule, Foreign(mine));
      schedule := schedule + [Foreign(mine)];
    }
    OneMore(schedule, GO);
    schedule := schedule + [GO];
    OneMore(schedule, Kill);
    schedule := schedule + [Kill];
    if afterTheKill {
      OneMore(schedule, Foreign(mine));
      schedule := schedule + [Foreign(mine)];
    }
    var d := Execute(schedule);
    assert WillClear(d, r) && d.late && d.deleted == [];
    var choices := RerunClears(d, r);
    var whole := RerunsAreRuns(schedule, r, choices);
    assert Execute(whole).deleted == [true];
  }
}
