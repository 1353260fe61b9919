/**
 Workspace continuity over an abstract sandbox provider. Between any two calls
 other workers may act, sandboxes finish and exit snapshots vanish; a call may
 fail or lose its answer. Whatever happens, `Ensure` calls a result "existing" or
 "restored" for a stored sandbox only if the returned filesystem descends from it.
 */
module ModalLineage {
  import opened Wrappers

  /** `origin` is the sandbox whose exit snapshot the filesystem came from; `restoredFrom` is what the tag says. */
  datatype Sandbox = Sandbox(name: nat, owner: nat, running: bool, snapshot: bool, origin: Option<nat>,
                             restoredFrom: Option<nat>, deadline: Option<int>)

  datatype Fault = NotFound | AlreadyExists | MissingImage | WrongOwner | Unavailable

  datatype Answer = Fine | Missing | Failure | LostResponse

  datatype Move =
    | Finish(id: nat)
    | Expire(id: nat)
    | Start(name: nat, owner: nat, from: Option<nat>, deadline: Option<int>)

  /** What happens around one provider call. */
  datatype Weather = Weather(moves: seq<Move>, aborts: bool, answer: Answer)

  datatype Located = Located(id: nat, running: bool, restoredFrom: Option<nat>, deadline: Option<int>)

  datatype Disposition = Present | Absent | Superseded

  datatype Resolution = Resolution(disposition: Disposition, recovered: bool, previous: Option<nat>, located: Option<Located>)

  datatype Outcome = Existing | Restored | Created | Replaced

  datatype Ensured = Ensured(providerId: nat, outcome: Outcome, previous: Option<nat>, recovered: bool)

  // ---- the provider's world ------------------------------------------------------

  predicate Ages(a: Sandbox, b: Sandbox) {
    && a.name == b.name && a.owner == b.owner && a.origin == b.origin && a.restoredFrom == b.restoredFrom
    && a.deadline == b.deadline && (b.running ==> a.running) && (b.snapshot ==> a.snapshot || a.running)
  }

  /** Sandboxes are only added, finish, and lose their snapshots; where a filesystem came from is fixed. */
  ghost predicate Evolves(before: seq<Sandbox>, after: seq<Sandbox>) {
    |before| <= |after| && forall i :: 0 <= i < |before| ==> Ages(before[i], after[i])
  }

  /** Every sandbox's tag names the sandbox its filesystem came from. */
  ghost predicate Truthful(sandboxes: seq<Sandbox>) {
    forall i :: 0 <= i < |sandboxes| ==> sandboxes[i].restoredFrom == sandboxes[i].origin
  }

  /** Names are unique among running sandboxes. */
  function FindRunning(sandboxes: seq<Sandbox>, name: nat): (i: nat)
    ensures i <= |sandboxes|
    ensures i < |sandboxes| ==> sandboxes[i].running && sandboxes[i].name == name
    ensures forall j :: 0 <= j < i ==> !(sandboxes[j].running && sandboxes[j].name == name)
  {
    if sandboxes == [] || (sandboxes[0].running && sandboxes[0].name == name) then 0
    else 1 + FindRunning(sandboxes[1..], name)
  }

  /** The filesystem of `child` is that of `ancestor`, or came from it by at most `k` restores. */
  predicate Descends(sandboxes: seq<Sandbox>, child: nat, ancestor: nat, k: nat)
    decreases k
  {
    child == ancestor
    || (k > 0 && child < |sandboxes| && sandboxes[child].origin.Some?
        && Descends(sandboxes, sandboxes[child].origin.value, ancestor, k - 1))
  }

  function Moved(sandboxes: seq<Sandbox>, move: Move): seq<Sandbox> {
    match move
    case Finish(id) =>
      if id < |sandboxes| && sandboxes[id].running
      then sandboxes[id := sandboxes[id].(running := false, snapshot := true)] else sandboxes
    case Expire(id) =>
      if id < |sandboxes| then sandboxes[id := sandboxes[id].(snapshot := false)] else sandboxes
    case Start(name, owner, from, deadline) =>
      if FindRunning(sandboxes, name) < |sandboxes| then sandboxes
      else sandboxes + [Sandbox(name, owner, true, false, from, from, deadline)]
  }

  function AllMoved(sandboxes: seq<Sandbox>, moves: seq<Move>): seq<Sandbox>
    decreases |moves|
  {
    if moves == [] then sandboxes else AllMoved(Moved(sandboxes, moves[0]), moves[1..])
  }

  lemma {:induction false} MovesEvolve(sandboxes: seq<Sandbox>, moves: seq<Move>)
    requires Truthful(sandboxes)
    ensures Evolves(sandboxes, AllMoved(sandboxes, moves)) && Truthful(AllMoved(sandboxes, moves))
    decreases |moves|
  {
    if moves != [] {
      var next := Moved(sandboxes, moves[0]);
      MovesEvolve(next, moves[1..]);
      assert Evolves(sandboxes, next);
    }
  }

  /** What others do: a sandbox that finishes leaves its capture, captures expire, and a new one starts where no other runs. */
  lemma MovesHappen(sandboxes: seq<Sandbox>, move: Move)
    ensures var after := Moved(sandboxes, move);
            match move
            case Finish(id) =>
              |after| == |sandboxes|
              && forall i :: 0 <= i < |sandboxes| ==>
                   after[i] == if i == id && sandboxes[i].running then sandboxes[i].(running := false, snapshot := true) else sandboxes[i]
            case Expire(id) =>
              |after| == |sandboxes|
              && forall i :: 0 <= i < |sandboxes| ==> after[i] == if i == id then sandboxes[i].(snapshot := false) else sandboxes[i]
            case Start(name, owner, from, deadline) =>
              if exists i :: 0 <= i < |sandboxes| && sandboxes[i].running && sandboxes[i].name == name then after == sandboxes
              else after == sandboxes + [Sandbox(name, owner, true, false, from, from, deadline)]
  {
  }

  lemma {:induction false} DescentLasts(before: seq<Sandbox>, after: seq<Sandbox>, child: nat, ancestor: nat, k: nat)
    requires Evolves(before, after) && Descends(before, child, ancestor, k)
    ensures Descends(after, child, ancestor, k)
    decreases k
  {
    if child != ancestor { DescentLasts(before, after, before[child].origin.value, ancestor, k - 1); }
  }

  /** A filesystem restored from one that descends from an ancestor descends from it as well. */
  lemma RestoreDescends(sandboxes: seq<Sandbox>, child: nat, parent: nat, ancestor: nat, k: nat)
    requires child < |sandboxes| && sandboxes[child].origin == Some(parent)
    requires Descends(sandboxes, parent, ancestor, k)
    ensures Descends(sandboxes, child, ancestor, k + 1)
  {
  }

  // ---- the provider client ----------------------------------------------------------

  /** Nothing runs under the name and the image, if one is asked for, is still there. */
  predicate CanCreateIn(sandboxes: seq<Sandbox>, name: nat, image: Option<nat>) {
    FindRunning(sandboxes, name) == |sandboxes|
    && (image.Some? ==> image.value < |sandboxes| && sandboxes[image.value].snapshot)
  }

  /** What others make of the world before the next call. */
  function AfterNextMoves(sandboxes: seq<Sandbox>, script: seq<Weather>): seq<Sandbox> {
    if script == [] then sandboxes else AllMoved(sandboxes, script[0].moves)
  }

  /** Nothing happens but that the create call, the second one, loses its answer; the caller may have aborted by then. */
  predicate LosesItsCreate(script: seq<Weather>) {
    |script| == 2 && script[0] == Weather([], false, Fine) && script[1].moves == [] && script[1].answer == LostResponse
  }

  lemma {:induction false} AddedRuns(sandboxes: seq<Sandbox>, added: Sandbox)
    requires FindRunning(sandboxes, added.name) == |sandboxes| && added.running
    ensures FindRunning(sandboxes + [added], added.name) == |sandboxes|
  {
    if sandboxes != [] {
      assert (sandboxes + [added])[1..] == sandboxes[1..] + [added];
      AddedRuns(sandboxes[1..], added);
    }
  }

  class Provider {
    var sandboxes: seq<Sandbox>
    var script: seq<Weather>
    var aborted: bool
    /** History: the finished sandboxes whose capture the provider denied while it was there. */
    ghost var denied: set<nat>
    const requiredLifetime: int

    constructor (sandboxes: seq<Sandbox>, script: seq<Weather>, requiredLifetime: int)
      ensures this.sandboxes == sandboxes && this.script == script && !aborted && denied == {}
    {
      this.sandboxes, this.script, this.requiredLifetime := sandboxes, script, requiredLifetime;
      aborted, denied := false, {};
    }

    predicate CanCreate(name: nat, image: Option<nat>)
      reads `sandboxes
    {
      CanCreateIn(sandboxes, name, image)
    }

    /** Nothing runs under the name, and the stored sandbox is known. */
    predicate OnlyStored(name: nat, owner: nat, stored: Option<nat>)
      reads `sandboxes
    {
      FindRunning(sandboxes, name) == |sandboxes|
      && stored.Some? && stored.value < |sandboxes| && sandboxes[stored.value].owner == owner
    }

    /** The stored sandbox runs under the workspace's name. */
    predicate RunsAs(name: nat, owner: nat, stored: Option<nat>)
      reads `sandboxes
    {
      stored.Some? && stored.value < |sandboxes| && FindRunning(sandboxes, name) == stored.value
      && sandboxes[stored.value].owner == owner
    }

    /** Enough of its lifetime remains for a run. */
    predicate LivesOn(id: nat, now: int)
      requires id < |sandboxes|
      reads `sandboxes
    {
      sandboxes[id].deadline.Some? && sandboxes[id].deadline.value - now >= requiredLifetime
    }

    /** Others act before the next call answers; once the script is over, the world is calm. */
    method Await() returns (answer: Answer)
      requires Truthful(sandboxes)
      modifies `sandboxes, `script, `aborted
      ensures Evolves(old(sandboxes), sandboxes) && Truthful(sandboxes)
      ensures old(script) == [] ==> script == [] && sandboxes == old(sandboxes) && answer == Fine && aborted == old(aborted)
      ensures old(script) != [] ==>
                script == old(script)[1..] && answer == old(script)[0].answer && sandboxes == AllMoved(old(sandboxes), old(script)[0].moves)
                && (aborted <==> old(aborted) || old(script)[0].aborts)
    {
      if script == [] { return Fine; }
      var weather := script[0];
      script := script[1..];
      MovesEvolve(sandboxes, weather.moves);
      sandboxes := AllMoved(sandboxes, weather.moves);
      aborted := aborted || weather.aborts;
      answer := weather.answer;
    }

    /** Polls a sandbox and reads its tags; another workspace's sandbox is refused. */
    method Locate(id: nat, owner: nat) returns (r: Result<Located, Fault>)
      requires Truthful(sandboxes) && id < |sandboxes|
      modifies `sandboxes, `script, `aborted
      ensures Evolves(old(sandboxes), sandboxes) && Truthful(sandboxes)
      ensures r.Ok? ==> r.value.id == id && r.value.restoredFrom == sandboxes[id].origin && sandboxes[id].owner == owner
      ensures r.Ok? && !r.value.running ==> !sandboxes[id].running
      ensures old(script) == [] ==>
                script == [] && sandboxes == old(sandboxes) && aborted == old(aborted)
                && (r.Ok? <==> sandboxes[id].owner == owner) && (r.Ok? ==> r.value.running == sandboxes[id].running)
                && (r.Ok? ==> r.value.deadline == sandboxes[id].deadline)
    {
      var answer := Await();
      if answer.Missing? { return Err(NotFound); }
      if !answer.Fine? { return Err(Unavailable); }
      var s := sandboxes[id];
      if s.owner != owner { return Err(WrongOwner); }
      return Ok(Located(id, s.running, s.restoredFrom, s.deadline));
    }

    /** The next call answers like this. */
    predicate Next(answer: Answer)
      reads `script
    {
      if script == [] then answer == Fine else script[0].answer == answer
    }

    /** The running sandbox under the workspace's name, if any; a call that fails or loses its answer says nothing. */
    method ByName(name: nat, owner: nat) returns (r: Result<Option<Located>, Fault>)
      requires Truthful(sandboxes)
      modifies `sandboxes, `script, `aborted
      ensures Evolves(old(sandboxes), sandboxes) && Truthful(sandboxes)
      ensures r.Ok? && r.value.Some? ==>
                r.value.value.id < |sandboxes| && r.value.value.restoredFrom == sandboxes[r.value.value.id].origin
                && (!r.value.value.running ==> !sandboxes[r.value.value.id].running)
      ensures old(script) == [] ==>
                script == [] && sandboxes == old(sandboxes) && aborted == old(aborted)
                && (FindRunning(sandboxes, name) == |sandboxes| ==> r == Ok(None))
                && (FindRunning(sandboxes, name) < |sandboxes| && sandboxes[FindRunning(sandboxes, name)].owner == owner ==>
                      var i := FindRunning(sandboxes, name);
                      r == Ok(Some(Located(i, true, sandboxes[i].origin, sandboxes[i].deadline))))
      ensures old(Next(Failure) || Next(LostResponse)) ==> r == Err(Unavailable)
    {
      var answer := Await();
      if answer.Failure? || answer.LostResponse? { return Err(Unavailable); }
      var i := FindRunning(sandboxes, name);
      if answer.Missing? || i == |sandboxes| { return Ok(None); }
      var located := Locate(i, owner);
      if located.Err? { return if located.error.NotFound? then Ok(None) else Err(located.error); }
      return Ok(Some(located.value));
    }

    method ById(id: nat, owner: nat) returns (r: Result<Option<Located>, Fault>)
      requires Truthful(sandboxes)
      modifies `sandboxes, `script, `aborted
      ensures Evolves(old(sandboxes), sandboxes) && Truthful(sandboxes)
      ensures r.Ok? && r.value.Some? ==>
                r.value.value.id == id < |sandboxes| && (!r.value.value.running ==> !sandboxes[id].running)
      ensures old(script) == [] ==>
                script == [] && sandboxes == old(sandboxes) && aborted == old(aborted)
                && (id < |sandboxes| && sandboxes[id].owner == owner ==>
                      r.Ok? && r.value.Some? && r.value.value.running == sandboxes[id].running)
      ensures old(Next(Failure) || Next(LostResponse)) ==> r == Err(Unavailable)
    {
      var answer := Await();
      if answer.Failure? || answer.LostResponse? { return Err(Unavailable); }
      if answer.Missing? || id >= |sandboxes| { return Ok(None); }
      var located := Locate(id, owner);
      if located.Err? { return if located.error.NotFound? then Ok(None) else Err(located.error); }
      return Ok(Some(located.value));
    }

    /** A running sandbox under the name is authoritative; otherwise the stored one, whose snapshot holds the files. */
    method Resolve(name: nat, owner: nat, stored: Option<nat>) returns (r: Result<Resolution, Fault>)
      requires Truthful(sandboxes)
      modifies `sandboxes, `script, `aborted
      ensures Evolves(old(sandboxes), sandboxes) && Truthful(sandboxes)
      ensures r.Ok? && r.value.located.Some? ==>
                var l := r.value.located.value; l.id < |sandboxes| && (!l.running ==> !sandboxes[l.id].running)
      ensures r.Ok? ==> (r.value.disposition.Absent? <==> r.value.located.None?)
      ensures r.Ok? && r.value.disposition.Superseded? ==> stored.Some? && r.value.previous == stored
      ensures r.Ok? && r.value.disposition.Present? && stored.Some? ==>
                Descends(sandboxes, r.value.located.value.id, stored.value, 1)
      ensures old(script) == [] ==> script == []
      ensures old(script) == [] && old(OnlyStored(name, owner, stored)) ==>
                script == [] && sandboxes == old(sandboxes) && r.Ok? && r.value.disposition.Present?
                && r.value.located.value.id == stored.value && r.value.located.value.running == sandboxes[stored.value].running
      ensures old(script) == [] && old(RunsAs(name, owner, stored)) ==>
                script == [] && sandboxes == old(sandboxes)
                && r == Ok(Resolution(Present, false, None, Some(Located(stored.value, true, sandboxes[stored.value].origin,
                                                                         sandboxes[stored.value].deadline))))
      ensures r.Ok? ==> (r.value.recovered <==> r.value.located.Some? && stored != Some(r.value.located.value.id))
      ensures r.Ok? ==> r.value.previous == if r.value.disposition.Superseded? then stored else None
      ensures old(script) == [] && stored.None? && old(FindRunning(sandboxes, name) == |sandboxes|) ==>
                r == Ok(Resolution(Absent, false, None, None)) && sandboxes == old(sandboxes)
    {
      var named := ByName(name, owner);
      if named.Err? { return Err(named.error); }
      if named.value.Some? {
        var located := named.value.value;
        var continues := stored.None? || stored.value == located.id || located.restoredFrom == stored;
        return Ok(Resolution(if continues then Present else Superseded, stored != Some(located.id),
                             if continues then None else stored, Some(located)));
      }
      if stored.None? { return Ok(Resolution(Absent, false, None, None)); }
      var byId := ById(stored.value, owner);
      if byId.Err? { return Err(byId.error); }
      if byId.value.None? { return Ok(Resolution(Absent, false, None, None)); }
      return Ok(Resolution(Present, false, None, byId.value));
    }

    /** The provider's create call: it may act and still lose its answer. */
    method CallCreate(name: nat, owner: nat, image: Option<nat>, restoredFrom: Option<nat>, deadline: Option<int>)
      returns (r: Result<nat, Fault>)
      requires Truthful(sandboxes) && restoredFrom == image
      modifies `sandboxes, `script, `aborted
      ensures Evolves(old(sandboxes), sandboxes) && Truthful(sandboxes)
      ensures r.Ok? ==> r.value < |sandboxes| && sandboxes[r.value].origin == image
      ensures old(script) == [] ==> script == [] && aborted == old(aborted)
      ensures old(script) == [] && old(CanCreate(name, image)) ==> r.Ok?
      ensures r.Ok? ==> sandboxes[r.value] == Sandbox(name, owner, true, false, image, image, deadline)
      ensures old(Next(Failure) || Next(Missing) || Next(LostResponse)) ==> r.Err?
      ensures old(Next(Failure) || Next(Missing)) ==> r == Err(Unavailable) && |sandboxes| == |AfterNextMoves(old(sandboxes), old(script))|
      ensures old(Next(LostResponse)) && CanCreateIn(AfterNextMoves(old(sandboxes), old(script)), name, image) ==>
                r == Err(Unavailable) && |script| == |old(script)| - 1
                && sandboxes == AfterNextMoves(old(sandboxes), old(script)) + [Sandbox(name, owner, true, false, image, image, deadline)]
      ensures old(script) != [] ==> script == old(script)[1..] && (aborted <==> old(aborted) || old(script)[0].aborts)
      ensures old(script) == [] && old(CanCreate(name, image)) ==>
                r == Ok(|old(sandboxes)|) && sandboxes == old(sandboxes) + [Sandbox(name, owner, true, false, image, image, deadline)]
    {
      var answer := Await();
      if answer.Failure? || answer.Missing? { return Err(Unavailable); }
      if FindRunning(sandboxes, name) < |sandboxes| { return Err(AlreadyExists); }
      if image.Some? && !(image.value < |sandboxes| && sandboxes[image.value].snapshot) { return Err(MissingImage); }
      sandboxes := sandboxes + [Sandbox(name, owner, true, false, image, restoredFrom, deadline)];
      if answer.LostResponse? { return Err(Unavailable); }
      return Ok(|sandboxes| - 1);
    }

    /** Creates a sandbox, or adopts the one a lost response had created. */
    method Create(name: nat, owner: nat, image: Option<nat>, deadline: Option<int>) returns (r: Result<nat, Fault>)
      requires Truthful(sandboxes)
      modifies `sandboxes, `script, `aborted
      ensures Evolves(old(sandboxes), sandboxes) && Truthful(sandboxes)
      ensures r.Ok? ==> r.value < |sandboxes| && sandboxes[r.value].origin == image
      ensures old(script) == [] ==> script == []
      ensures old(script) == [] && old(CanCreate(name, image)) ==> r.Ok?
      ensures old(script) == [] && old(CanCreate(name, image)) ==>
                sandboxes == old(sandboxes) + [Sandbox(name, owner, true, false, image, image, deadline)] && r == Ok(|old(sandboxes)|)
      ensures LosesItsCreate(old(script)) && old(CanCreate(name, image)) ==>
                sandboxes == old(sandboxes) + [Sandbox(name, owner, true, false, image, image, deadline)]
                && r == if old(aborted) || old(script)[1].aborts then Err(Unavailable) else Ok(|old(sandboxes)|)
    {
      var capacity := Await();
      if !capacity.Fine? { return Err(Unavailable); }
      var created := CallCreate(name, owner, image, image, deadline);
      if created.Ok? { return created; }
      if aborted && !created.error.AlreadyExists? { return created; }
      if LosesItsCreate(old(script)) && old(CanCreate(name, image)) {
        AddedRuns(old(sandboxes), Sandbox(name, owner, true, false, image, image, deadline));
      }
      var adopted := ByName(name, owner);
      if adopted.Err? { return Err(adopted.error); }
      if adopted.value.Some? && adopted.value.value.running && adopted.value.value.restoredFrom == image {
        return Ok(adopted.value.value.id);
      }
      return created;
    }

    method Terminate(id: nat) returns (r: Result<(), Fault>)
      requires Truthful(sandboxes) && id < |sandboxes|
      modifies `sandboxes, `script, `aborted
      ensures Evolves(old(sandboxes), sandboxes) && Truthful(sandboxes)
      ensures r.Ok? ==> !sandboxes[id].running
      ensures old(script) == [] ==>
                script == [] && r.Ok? && sandboxes == if old(sandboxes)[id].running
                  then old(sandboxes)[id := old(sandboxes)[id].(running := false, snapshot := true)] else old(sandboxes)
      ensures old(Next(Failure) || Next(Missing) || Next(LostResponse)) ==> r == Err(Unavailable)
      ensures old(Next(Failure) || Next(Missing)) ==> sandboxes == AfterNextMoves(old(sandboxes), old(script))
    {
      var answer := Await();
      if answer.Failure? || answer.Missing? { return Err(Unavailable); }
      if sandboxes[id].running { sandboxes := sandboxes[id := sandboxes[id].(running := false, snapshot := true)]; }
      return if answer.LostResponse? then Err(Unavailable) else Ok(());
    }

    /** The finished sandbox's filesystem, or none when the provider no longer has it. */
    method ExitSnapshot(id: nat) returns (r: Result<bool, Fault>)
      requires Truthful(sandboxes) && id < |sandboxes|
      modifies `sandboxes, `script, `aborted, `denied
      ensures Evolves(old(sandboxes), sandboxes) && Truthful(sandboxes)
      ensures old(script) == [] ==> script == [] && sandboxes == old(sandboxes) && r == Ok(sandboxes[id].snapshot)
      ensures r.Ok? && r.value ==> sandboxes[id].snapshot
      ensures denied == old(denied) + if r.Ok? && !r.value && sandboxes[id].snapshot then {id} else {}
    {
      var answer := Await();
      if answer.Failure? || answer.LostResponse? { return Err(Unavailable); }
      if answer.Missing? && sandboxes[id].snapshot { denied := denied + {id}; }
      return Ok(answer.Fine? && sandboxes[id].snapshot);
    }

    method Ready() returns (r: Result<(), Fault>)
      requires Truthful(sandboxes)
      modifies `sandboxes, `script, `aborted
      ensures Evolves(old(sandboxes), sandboxes) && Truthful(sandboxes)
      ensures old(script) == [] ==> r.Ok? && sandboxes == old(sandboxes)
    {
      var answer := Await();
      return if answer.Fine? then Ok(()) else Err(Unavailable);
    }

    /** A new lifetime from the exit snapshot of a finished sandbox, or nothing when the snapshot is gone. */
    method Restore(name: nat, owner: nat, stored: Option<nat>, resolution: Resolution, previous: Option<nat>, id: nat,
                   deadline: Option<int>) returns (r: Result<Option<Ensured>, Fault>)
      requires Truthful(sandboxes) && id < |sandboxes|
      requires resolution.disposition.Present? && stored.Some? ==> Descends(sandboxes, id, stored.value, 1)
      modifies `sandboxes, `script, `aborted, `denied
      ensures Evolves(old(sandboxes), sandboxes) && Truthful(sandboxes)
      ensures r.Ok? && r.value.Some? ==> r.value.value.providerId < |sandboxes| && r.value.value.previous == previous
      ensures r.Ok? && r.value.Some? ==>
                r.value.value.outcome == if resolution.disposition.Superseded? then Replaced else Restored
      ensures r.Ok? && r.value.Some? && resolution.disposition.Present? && stored.Some? ==>
                Descends(sandboxes, r.value.value.providerId, stored.value, 2)
      ensures old(script) == [] && old(CanCreate(name, Some(id))) ==> r.Ok? && r.value.Some?
      ensures old(script) == [] && !old(sandboxes)[id].snapshot ==> r == Ok(None) && sandboxes == old(sandboxes) && script == []
    {
      var image := ExitSnapshot(id);
      if image.Err? { return Err(image.error); }
      if !image.value { return Ok(None); }
      var created := Create(name, owner, Some(id), deadline);
      if created.Err? { return if created.error.MissingImage? then Ok(None) else Err(created.error); }
      var ready := Ready();
      if ready.Err? { return Err(ready.error); }
      if resolution.disposition.Present? && stored.Some? {
        DescentLasts(old(sandboxes), sandboxes, id, stored.value, 1);
        RestoreDescends(sandboxes, created.value, id, stored.value, 1);
      }
      return Ok(Some(Ensured(created.value, if resolution.disposition.Superseded? then Replaced else Restored, previous,
                             resolution.recovered)));
    }

    /**
     A ready sandbox for the workspace. "Existing" and "restored" are promises about the stored
     filesystem; anything else names the stored sandbox as the one it replaced.
     */
    method Ensure(name: nat, owner: nat, stored: Option<nat>, now: int, deadline: Option<int>) returns (r: Result<Ensured, Fault>)
      requires Truthful(sandboxes)
      modifies `sandboxes, `script, `aborted, `denied
      ensures Evolves(old(sandboxes), sandboxes) && Truthful(sandboxes)
      ensures r.Ok? ==> r.value.providerId < |sandboxes|
      ensures r.Ok? && stored.Some? && (r.value.outcome.Existing? || r.value.outcome.Restored?) ==>
                Descends(sandboxes, r.value.providerId, stored.value, 2)
      ensures r.Ok? && r.value.outcome.Replaced? ==> stored.Some? && r.value.previous == stored
      ensures r.Ok? && r.value.outcome.Restored? ==> r.value.previous == stored
      ensures r.Ok? && r.value.outcome.Existing? ==> r.value.previous.None?
      ensures r.Ok? && r.value.outcome.Created? ==> stored.None? && r.value.previous.None?
      ensures old(script) == [] && old(CanCreate(name, None)) && stored.None? ==>
                r == Ok(Ensured(|old(sandboxes)|, Created, None, false))
                && sandboxes == old(sandboxes) + [Sandbox(name, owner, true, false, None, None, deadline)]
      ensures old(script) == [] && old(OnlyStored(name, owner, stored) && !sandboxes[stored.value].running && !sandboxes[stored.value].snapshot) ==>
                r == Ok(Ensured(|old(sandboxes)|, Replaced, stored, false))
                && sandboxes == old(sandboxes) + [Sandbox(name, owner, true, false, None, None, deadline)]
      ensures old(script) == [] && old(OnlyStored(name, owner, stored) && CanCreate(name, stored) && !sandboxes[stored.value].running) ==>
                r.Ok? && r.value.outcome.Restored?
      ensures old(script) == [] && old(RunsAs(name, owner, stored) && LivesOn(stored.value, now)) ==>
                r == Ok(Ensured(stored.value, Existing, None, false)) && sandboxes == old(sandboxes)
    {
      var resolved := Resolve(name, owner, stored);
      if resolved.Err? { return Err(resolved.error); }
      var resolution := resolved.value;
      var located := resolution.located;
      var previous := if resolution.previous.Some? then resolution.previous else stored;
      if located.Some? {
        if located.value.running {
          var kept := Keep(stored, resolution, located.value, now);
          if kept.Err? { return Err(kept.error); }
          if kept.value.Some? { return Ok(kept.value.value); }
        }
        var restored := Restore(name, owner, stored, resolution, previous, located.value.id, deadline);
        if restored.Err? { return Err(restored.error); }
        if restored.value.Some? { return Ok(restored.value.value); }
      }
      r := CreateFromBase(name, owner, stored, deadline);
    }

    /** A running sandbox with enough lifetime is used as it is; one with too little is ended, to be restored. */
    method Keep(stored: Option<nat>, resolution: Resolution, located: Located, now: int) returns (r: Result<Option<Ensured>, Fault>)
      requires Truthful(sandboxes) && located.id < |sandboxes|
      requires resolution.disposition.Present? && stored.Some? ==> Descends(sandboxes, located.id, stored.value, 1)
      modifies `sandboxes, `script, `aborted
      ensures Evolves(old(sandboxes), sandboxes) && Truthful(sandboxes)
      ensures resolution.disposition.Present? && stored.Some? ==> Descends(sandboxes, located.id, stored.value, 1)
      ensures r.Ok? && r.value.Some? ==>
                r.value.value.providerId == located.id && r.value.value.previous == resolution.previous
                && r.value.value.outcome == if resolution.disposition.Superseded? then Replaced else Existing
      ensures r.Ok? && r.value.None? ==> !sandboxes[located.id].running
      ensures old(script) == [] && located.deadline.Some? && located.deadline.value - now >= requiredLifetime ==>
                r.Ok? && r.value.Some? && r.value.value.recovered == resolution.recovered && sandboxes == old(sandboxes)
    {
      if located.deadline.Some? && located.deadline.value - now >= requiredLifetime {
        var ready := Ready();
        if ready.Err? {
          r := Err(ready.error);
        } else {
          r := Ok(Some(Ensured(located.id, if resolution.disposition.Superseded? then Replaced else Existing,
                               resolution.previous, resolution.recovered)));
        }
      } else {
        var terminated := Terminate(located.id);
        r := if terminated.Err? then Err(terminated.error) else Ok(None);
      }
      if resolution.disposition.Present? && stored.Some? {
        DescentLasts(old(sandboxes), sandboxes, located.id, stored.value, 1);
      }
    }

    method CreateFromBase(name: nat, owner: nat, stored: Option<nat>, deadline: Option<int>) returns (r: Result<Ensured, Fault>)
      requires Truthful(sandboxes)
      modifies `sandboxes, `script, `aborted
      ensures Evolves(old(sandboxes), sandboxes) && Truthful(sandboxes)
      ensures r.Ok? ==> r.value.providerId < |sandboxes| && sandboxes[r.value.providerId].origin == None
      ensures r.Ok? ==> r.value.outcome == (if stored.Some? then Replaced else Created) && r.value.previous == stored
      ensures old(script) == [] && old(CanCreate(name, None)) ==>
                r == Ok(Ensured(|old(sandboxes)|, if stored.Some? then Replaced else Created, stored, false))
                && sandboxes == old(sandboxes) + [Sandbox(name, owner, true, false, None, None, deadline)]
    {
      var base := Await();
      if !base.Fine? { return Err(Unavailable); }
      var created := Create(name, owner, None, deadline);
      if created.Err? { return Err(created.error); }
      var ready := Ready();
      if ready.Err? { return Err(ready.error); }
      return Ok(Ensured(created.value, if stored.Some? then Replaced else Created, stored, false));
    }

    /**
     Pausing ends with the sandbox finished. A confirmed deletion leaves no capture behind, except exactly
     when the provider denied having it while it was there. Every error leaves the outcome unknown.
     */
    method Lifecycle(name: nat, owner: nat, stored: Option<nat>, delete: bool) returns (outcome: Result<Option<nat>, Fault>)
      requires Truthful(sandboxes)
      modifies `sandboxes, `script, `aborted, `denied
      ensures Evolves(old(sandboxes), sandboxes) && Truthful(sandboxes)
      ensures outcome.Ok? && outcome.value.Some? ==> outcome.value.value < |sandboxes| && !sandboxes[outcome.value.value].running
      ensures outcome.Ok? && outcome.value.Some? && delete && outcome.value.value !in old(denied) ==>
                (sandboxes[outcome.value.value].snapshot <==> outcome.value.value in denied)
      ensures old(script) == [] ==> denied == old(denied)
      ensures old(script) == [] && old(OnlyStored(name, owner, stored) || RunsAs(name, owner, stored)) ==> outcome == Ok(stored)
      ensures old(script) == [] && stored.None? && old(FindRunning(sandboxes, name) == |sandboxes|) ==>
                outcome == Ok(None) && sandboxes == old(sandboxes)
    {
      var resolved := Resolve(name, owner, stored);
      if resolved.Err? { return Err(resolved.error); }
      if resolved.value.located.None? { return Ok(None); }
      var located := resolved.value.located.value;
      if located.running {
        var terminated := Terminate(located.id);
        if terminated.Err? { return Err(terminated.error); }
      }
      var image := ExitSnapshot(located.id);
      if image.Err? { return Err(image.error); }
      if delete && image.value {
        var deleted := DeleteImage(located.id);
        if deleted.Err? { return Err(deleted.error); }
      }
      return Ok(Some(located.id));
    }

    /** An image that is already gone counts as deleted. */
    method DeleteImage(id: nat) returns (r: Result<(), Fault>)
      requires Truthful(sandboxes) && id < |sandboxes|
      modifies `sandboxes, `script, `aborted, `denied
      ensures Evolves(old(sandboxes), sandboxes) && Truthful(sandboxes)
      ensures old(script) == [] ==> script == [] && r.Ok? && !sandboxes[id].snapshot
      ensures denied == old(denied) + if r.Ok? && sandboxes[id].snapshot then {id} else {}
    {
      var answer := Await();
      if answer.Failure? { return Err(Unavailable); }
      if answer.Missing? && sandboxes[id].snapshot { denied := denied + {id}; }
      if !answer.Missing? { sandboxes := sandboxes[id := sandboxes[id].(snapshot := false)]; }
      return if answer.LostResponse? then Err(Unavailable) else Ok(());
    }
  }
}
