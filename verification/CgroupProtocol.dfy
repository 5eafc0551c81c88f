/** Entering, sweeping and leaving VM scopes (src/cgroup.rs) in every interleaving of any
    number of processes, each of which can die at any step. A sweeper may fail to see a live
    owner, one in another pid namespace, and leaving takes no lock. */
module CgroupProtocol {
  import opened Resources
  import opened Cgroup

  /** The cgroup a process came from: not known, outside the VM scopes, or another VM's scope. */
  datatype Origin = NotKnown | Elsewhere | InScope(name: string)

  datatype Phase =
    | Outside
    | Sweeping(todo: set<string>, spared: set<string>)  // still to visit, and left standing by a visit
    | Swept(spared: set<string>)
    | Made              // its scope exists and is empty
    | Limited           // and has the swap limit it asked for
    | Inside(locked: bool, origin: Origin)
    | MovedOut
    | Gone

  datatype Proc = Proc(noSwap: bool, phase: Phase)

  datatype State = State(scopes: map<string, Scope>, lock: Option<Key>, live: set<Key>, born: set<Key>, procs: map<Key, Proc>)

  datatype Step =
    | Spawn(k: Key, child: Key)
    | Start(k: Key, noSwap: bool)
    | TakeLock(k: Key)
    | Visit(k: Key, name: string, sees: bool)
    | EndSweep(k: Key)
    | Refuse(k: Key)
    | Make(k: Key)
    | Limit(k: Key)
    | Abort(k: Key)
    | MoveIn(k: Key, origin: Origin)
    | DropLock(k: Key)
    | MoveOut(k: Key)
    | RemoveOwn(k: Key)
    | Die(k: Key)

  predicate At(s: State, k: Key, phase: Phase) {
    k in s.procs && s.procs[k].phase == phase
  }

  predicate Building(s: State, k: Key) {
    At(s, k, Made) || At(s, k, Limited)
  }

  predicate HoldsLock(phase: Phase) {
    phase.Sweeping? || phase.Swept? || phase.Made? || phase.Limited? || (phase.Inside? && phase.locked)
  }

  predicate IsInside(s: State, k: Key, locked: bool) {
    k in s.procs && s.procs[k].phase.Inside? && s.procs[k].phase.locked == locked
  }

  /** Where the process is, if that is a VM scope, agrees with its origin. */
  predicate ComesFrom(scopes: map<string, Scope>, k: Key, origin: Origin) {
    match origin
    case NotKnown => true
    case Elsewhere => forall n :: n in scopes ==> k !in scopes[n].members
    case InScope(n) => n in scopes && k in scopes[n].members
  }

  /** The move back to the origin works: it is known, and it is still there. */
  predicate CanReturn(scopes: map<string, Scope>, origin: Origin) {
    origin.Elsewhere? || (origin.InScope? && origin.name in scopes)
  }

  predicate IsSweeping(s: State, k: Key) {
    k in s.procs && s.procs[k].phase.Sweeping?
  }

  predicate HasSwept(s: State, k: Key) {
    k in s.procs && s.procs[k].phase.Swept?
  }

  predicate Enabled(s: State, step: Step) {
    match step
    case Spawn(k, child) => k in s.live && child !in s.born && IsKey(child)
    case Start(k, _) => k in s.live && k !in s.procs
    case TakeLock(k) => At(s, k, Outside) && s.lock.None?
    case Visit(k, name, sees) =>
      && IsSweeping(s, k) && name in s.procs[k].phase.todo
      && (sees ==> OwnerOf(name).Some? && OwnerOf(name).value.Process? && OwnerOf(name).value.key in s.live)
    case EndSweep(k) => IsSweeping(s, k) && s.procs[k].phase.todo == {}
    case Refuse(k) => At(s, k, Outside) || HasSwept(s, k)
    case Make(k) => HasSwept(s, k) && ScopeName(k) !in s.scopes
    case Limit(k) => At(s, k, Made) && ScopeName(k) in s.scopes
    case Abort(k) => Building(s, k)
    case MoveIn(k, origin) => At(s, k, Limited) && ScopeName(k) in s.scopes && ComesFrom(s.scopes, k, origin)
    case DropLock(k) => IsInside(s, k, true)
    case MoveOut(k) => IsInside(s, k, false) && CanReturn(s.scopes, s.procs[k].phase.origin)
    case RemoveOwn(k) => At(s, k, MovedOut)
    case Die(k) => k in s.live
  }

  function SetPhase(s: State, k: Key, phase: Phase): State
    requires k in s.procs
  {
    s.(procs := s.procs[k := s.procs[k].(phase := phase)])
  }

  /** The process leaves whatever scope it is in. */
  function Evict(scopes: map<string, Scope>, k: Key): map<string, Scope> {
    map n | n in scopes :: scopes[n].(members := scopes[n].members - {k})
  }

  function Enter(scopes: map<string, Scope>, k: Key, name: string): (scopes': map<string, Scope>)
    requires name in scopes
    ensures scopes'.Keys == scopes.Keys && k in scopes'[name].members
  {
    var out := Evict(scopes, k);
    out[name := out[name].(members := out[name].members + {k})]
  }

  /** A new process starts where its parent is. */
  function Join(scopes: map<string, Scope>, parent: Key, child: Key): map<string, Scope> {
    map n | n in scopes ::
      if parent in scopes[n].members then scopes[n].(members := scopes[n].members + {child}) else scopes[n]
  }

  /** The kernel's rmdir. */
  function RemoveDir(scopes: map<string, Scope>, name: string): map<string, Scope> {
    if name in scopes && scopes[name].members == {} then scopes - {name} else scopes
  }

  function Unlocked(s: State, k: Key): State {
    if s.lock == Some(k) then s.(lock := None) else s
  }

  function Apply(s: State, step: Step): State
    requires Enabled(s, step)
  {
    match step
    case Spawn(k, child) =>
      s.(scopes := Join(s.scopes, k, child), live := s.live + {child}, born := s.born + {child})
    case Start(k, noSwap) => s.(procs := s.procs[k := Proc(noSwap, Outside)])
    case TakeLock(k) => SetPhase(s.(lock := Some(k)), k, Sweeping(s.scopes.Keys, {}))
    case Visit(k, name, sees) =>
      var scopes := if OwnerOf(name).Some? && !sees then RemoveDir(s.scopes, name) else s.scopes;
      var phase := s.procs[k].phase;
      SetPhase(s.(scopes := scopes), k,
               Sweeping(phase.todo - {name}, if name in scopes then phase.spared + {name} else phase.spared))
    case EndSweep(k) => SetPhase(s, k, Swept(s.procs[k].phase.spared))
    case Refuse(k) => Unlocked(SetPhase(s, k, Gone), k)
    case Make(k) => SetPhase(s.(scopes := s.scopes[ScopeName(k) := Scope({}, false)]), k, Made)
    case Limit(k) =>
      if s.procs[k].noSwap
      then SetPhase(s.(scopes := s.scopes[ScopeName(k) := s.scopes[ScopeName(k)].(noSwap := true)]), k, Limited)
      else SetPhase(s, k, Limited)
    case Abort(k) => Unlocked(SetPhase(s.(scopes := RemoveDir(s.scopes, ScopeName(k))), k, Gone), k)
    case MoveIn(k, origin) =>
      SetPhase(s.(scopes := Enter(s.scopes, k, ScopeName(k))), k, Inside(true, origin))
    case DropLock(k) => Unlocked(SetPhase(s, k, s.procs[k].phase.(locked := false)), k)
    case MoveOut(k) =>
      var origin := s.procs[k].phase.origin;
      SetPhase(s.(scopes := if origin.InScope? then Enter(s.scopes, k, origin.name) else Evict(s.scopes, k)), k, MovedOut)
    case RemoveOwn(k) => SetPhase(s.(scopes := RemoveDir(s.scopes, ScopeName(k))), k, Gone)
    case Die(k) =>
      Unlocked(s.(scopes := Evict(s.scopes, k), live := s.live - {k}, procs := s.procs - {k}), k)
  }

  /** One process and its own scope. */
  ghost predicate ProcInv(s: State, k: Key)
    requires k in s.procs
  {
    var p, name := s.procs[k], ScopeName(k);
    && k in s.live
    && (HoldsLock(p.phase) ==> s.lock == Some(k))
    && (p.phase.Made? || p.phase.Limited? ==> name in s.scopes)
    && (p.phase.Inside? ==> name in s.scopes && k in s.scopes[name].members)
    && ((p.phase.Limited? || p.phase.Inside?) && p.noSwap ==> s.scopes[name].noSwap)
    && (p.phase.Sweeping? ==> s.scopes.Keys <= p.phase.todo + p.phase.spared)
    && (p.phase.Swept? ==> s.scopes.Keys <= p.phase.spared)
  }

  ghost predicate LockInv(s: State) {
    s.lock.Some? ==> s.lock.value in s.procs && HoldsLock(s.procs[s.lock.value].phase)
  }

  ghost predicate BirthInv(s: State) {
    s.live <= s.born && forall k :: k in s.born ==> IsKey(k)
  }

  ghost predicate Inv(s: State) {
    (forall k :: k in s.procs ==> ProcInv(s, k)) && LockInv(s) && BirthInv(s)
  }

  /** Two processes that hold the lock are one. */
  lemma OneLockHolder(s: State, j: Key, k: Key)
    requires Inv(s) && j in s.procs && k in s.procs
    requires HoldsLock(s.procs[j].phase) && HoldsLock(s.procs[k].phase)
    ensures j == k
  {
    assert ProcInv(s, j) && ProcInv(s, k);
  }

  lemma OwnNames(s: State, j: Key, k: Key)
    requires Inv(s) && j in s.procs && k in s.procs && j != k
    ensures ScopeName(j) != ScopeName(k)
  {
    assert ProcInv(s, j) && ProcInv(s, k);
    if ScopeName(j) == ScopeName(k) {
      NamesDiffer(j, k);
    }
  }

  /** A removal by `remover` spares the scope another process is making or is in. */
  lemma RemoveSpares(s: State, name: string, remover: Key, k: Key)
    requires Inv(s) && remover in s.procs && k in s.procs && k != remover
    requires HoldsLock(s.procs[remover].phase) || name == ScopeName(remover)
    requires s.procs[k].phase.Made? || s.procs[k].phase.Limited? || s.procs[k].phase.Inside?
    ensures ScopeName(k) in RemoveDir(s.scopes, name)
    ensures RemoveDir(s.scopes, name)[ScopeName(k)] == s.scopes[ScopeName(k)]
  {
    assert ProcInv(s, k);
    if name == ScopeName(k) {
      if HoldsLock(s.procs[remover].phase) && HoldsLock(s.procs[k].phase) {
        OneLockHolder(s, remover, k);
      } else if name == ScopeName(remover) {
        OwnNames(s, remover, k);
      }
    }
  }

  lemma VisitKeepsInv(s: State, k: Key, name: string, sees: bool)
    requires Inv(s) && Enabled(s, Visit(k, name, sees))
    ensures Inv(Apply(s, Visit(k, name, sees)))
  {
    var s' := Apply(s, Visit(k, name, sees));
    assert ProcInv(s, k);
    forall j | j in s'.procs
      ensures ProcInv(s', j)
    {
      assert ProcInv(s, j);
      if j != k && (s.procs[j].phase.Made? || s.procs[j].phase.Limited? || s.procs[j].phase.Inside?) {
        RemoveSpares(s, name, k, j);
      }
    }
  }

  lemma RemovalKeepsInv(s: State, step: Step)
    requires Inv(s) && Enabled(s, step) && (step.Abort? || step.RemoveOwn?)
    ensures Inv(Apply(s, step))
  {
    var s' := Apply(s, step);
    var k := step.k;
    assert ProcInv(s, k);
    forall j | j in s'.procs
      ensures ProcInv(s', j)
    {
      assert ProcInv(s, j);
      if j != k && (s.procs[j].phase.Made? || s.procs[j].phase.Limited? || s.procs[j].phase.Inside?) {
        RemoveSpares(s, ScopeName(k), k, j);
      }
      if j != k && HoldsLock(s.procs[j].phase) && HoldsLock(s.procs[k].phase) {
        OneLockHolder(s, j, k);
      }
    }
  }

  lemma BuildKeepsInv(s: State, step: Step)
    requires Inv(s) && Enabled(s, step) && (step.Make? || step.Limit? || step.MoveIn?)
    ensures Inv(Apply(s, step))
  {
    var s' := Apply(s, step);
    var k := step.k;
    assert ProcInv(s, k);
    forall j | j in s'.procs
      ensures ProcInv(s', j)
    {
      assert ProcInv(s, j);
      if j != k {
        OwnNames(s, j, k);
        if HoldsLock(s.procs[j].phase) {
          OneLockHolder(s, j, k);
        }
      }
    }
  }

  lemma LockKeepsInv(s: State, step: Step)
    requires Inv(s) && Enabled(s, step)
    requires step.TakeLock? || step.EndSweep? || step.Refuse? || step.DropLock?
    ensures Inv(Apply(s, step))
  {
    var s' := Apply(s, step);
    assert ProcInv(s, step.k);
    forall j | j in s'.procs
      ensures ProcInv(s', j)
    {
      assert ProcInv(s, j);
    }
  }

  lemma ProcessKeepsInv(s: State, step: Step)
    requires Inv(s) && Enabled(s, step)
    requires step.Spawn? || step.Start? || step.MoveOut? || step.Die?
    ensures Inv(Apply(s, step))
  {
    var s' := Apply(s, step);
    forall j | j in s'.procs
      ensures ProcInv(s', j)
    {
      if j in s.procs {
        assert ProcInv(s, j);
      }
    }
  }

  lemma StepKeepsInv(s: State, step: Step)
    requires Inv(s) && Enabled(s, step)
    ensures Inv(Apply(s, step))
  {
    match step
    case Visit(k, name, sees) => VisitKeepsInv(s, k, name, sees);
    case Abort(_) => RemovalKeepsInv(s, step);
    case RemoveOwn(_) => RemovalKeepsInv(s, step);
    case Make(_) => BuildKeepsInv(s, step);
    case Limit(_) => BuildKeepsInv(s, step);
    case MoveIn(_, _) => BuildKeepsInv(s, step);
    case TakeLock(_) => LockKeepsInv(s, step);
    case EndSweep(_) => LockKeepsInv(s, step);
    case Refuse(_) => LockKeepsInv(s, step);
    case DropLock(_) => LockKeepsInv(s, step);
    case _ => ProcessKeepsInv(s, step);
  }

  ghost predicate Runs(s: State, steps: seq<Step>, s': State)
    decreases |steps|
  {
    if steps == [] then s' == s
    else Enabled(s, steps[0]) && Runs(Apply(s, steps[0]), steps[1..], s')
  }

  lemma {:induction false} RunKeepsInv(s: State, steps: seq<Step>, s': State)
    requires Inv(s) && Runs(s, steps, s')
    ensures Inv(s')
    decreases |steps|
  {
    if steps != [] {
      StepKeepsInv(s, steps[0]);
      RunKeepsInv(Apply(s, steps[0]), steps[1..], s');
    }
  }

  /** A start: one process, and whatever scopes earlier ones left behind. */
  predicate Initial(s: State) {
    s.lock.None? && s.procs == map[] && s.live <= s.born && forall k :: k in s.born ==> IsKey(k)
  }

  /** In every run, a step that removes a scope removes an empty one, and never one between
      its creation and its live owner's entry, unless the owner itself gives up. */
  lemma RemovalIsSafe(start: State, steps: seq<Step>, s: State, step: Step, name: string, k: Key)
    requires Initial(start) && Runs(start, steps, s) && Enabled(s, step)
    requires name in s.scopes && name !in Apply(s, step).scopes
    ensures s.scopes[name].members == {}
    ensures Building(s, k) && name == ScopeName(k) ==> step == Abort(k)
  {
    RunKeepsInv(start, steps, s);
    if Building(s, k) && name == ScopeName(k) && step != Abort(k) {
      assert ProcInv(s, k);
      assert step.Visit? || step.Abort? || step.RemoveOwn?;
      if step.k == k {
        assert false;
      }
      RemoveSpares(s, if step.Visit? then step.name else ScopeName(step.k), step.k, k);
    }
  }

  /** The scope of a process that has entered and not left is there, holds it, and has a
      zero swap limit if it asked for one. */
  lemma EnteredScopeStands(start: State, steps: seq<Step>, s: State, k: Key)
    requires Initial(start) && Runs(start, steps, s)
    requires k in s.procs && s.procs[k].phase.Inside?
    ensures ScopeName(k) in s.scopes && k in s.scopes[ScopeName(k)].members
    ensures s.procs[k].noSwap ==> s.scopes[ScopeName(k)].noSwap
  {
    RunKeepsInv(start, steps, s);
    assert ProcInv(s, k);
  }

  /** A process that asked for no swap enters only a scope whose swap limit is already zero. */
  lemma NoSwapBeforeEntry(start: State, steps: seq<Step>, s: State, k: Key, origin: Origin)
    requires Initial(start) && Runs(start, steps, s) && Enabled(s, MoveIn(k, origin)) && s.procs[k].noSwap
    ensures s.scopes[ScopeName(k)].noSwap && s.lock == Some(k)
  {
    RunKeepsInv(start, steps, s);
    assert ProcInv(s, k);
  }

  // ----- what a sweep leaves -----

  /** The scope is none of fcvm's, or its owner lives, or a process is in it. */
  predicate InUse(s: State, name: string) {
    || OwnerOf(name).None?
    || (OwnerOf(name).value.Process? && OwnerOf(name).value.key in s.live)
    || (name in s.scopes && s.scopes[name].members != {})
  }

  /** `steps` cut before its step `i`, where that step finds the scope in use in `k`'s sweep,
      which is `k`'s last. */
  ghost predicate FoundInUse(start: State, steps: seq<Step>, k: Key, name: string, i: nat, s: State) {
    && i < |steps| && Runs(start, steps[..i], s) && InUse(s, name)
    && steps[i].Visit? && steps[i].k == k && steps[i].name == name
    && forall j :: i < j < |steps| ==> steps[j] != TakeLock(k)
  }

  lemma {:induction false} RunsSplit(s: State, steps: seq<Step>, s': State) returns (mid: State)
    requires Runs(s, steps, s') && steps != []
    ensures Runs(s, steps[..|steps| - 1], mid) && Enabled(mid, steps[|steps| - 1])
    ensures Apply(mid, steps[|steps| - 1]) == s'
    decreases |steps|
  {
    if |steps| == 1 {
      mid := s;
    } else {
      mid := RunsSplit(Apply(s, steps[0]), steps[1..], s');
      assert steps[1..][..|steps| - 2] == steps[..|steps| - 1][1..];
    }
  }

  function Spared(s: State, k: Key): set<string> {
    if IsSweeping(s, k) || HasSwept(s, k) then s.procs[k].phase.spared else {}
  }

  lemma SparedGrows(s: State, step: Step, k: Key, name: string)
    requires Enabled(s, step) && name in Spared(Apply(s, step), k)
    ensures step != TakeLock(k)
    ensures name in Spared(s, k) || (step.Visit? && step.k == k && step.name == name && InUse(s, name))
  {
  }

  /** Whatever a sweep spared it found in use, at a state of the run since it took the lock. */
  lemma {:induction false} SparedWasInUse(start: State, steps: seq<Step>, s: State, k: Key, name: string)
    returns (i: nat, m: State)
    requires start.procs == map[] && Runs(start, steps, s) && name in Spared(s, k)
    ensures FoundInUse(start, steps, k, name, i, m)
    decreases |steps|
  {
    var front, last := steps[..|steps| - 1], steps[|steps| - 1];
    m := RunsSplit(start, steps, s);
    SparedGrows(m, last, k, name);
    i := |steps| - 1;
    if name in Spared(m, k) {
      i, m := SparedWasInUse(start, front, m, k, name);
      assert steps[..i] == front[..i] && steps[i] == front[i];
      assert forall j :: i < j < |front| ==> steps[j] == front[j];
    }
  }

  /** A finished sweep has missed nothing: every scope there is when it ends, before its own is
      made, was found in use by it, at some state since it took the lock. */
  lemma SweepMissesNothing(start: State, steps: seq<Step>, s: State, k: Key, name: string)
    requires Initial(start) && Runs(start, steps, s)
    requires HasSwept(s, k) && name in s.scopes
    ensures exists i: nat, m :: FoundInUse(start, steps, k, name, i, m)
  {
    RunKeepsInv(start, steps, s);
    assert ProcInv(s, k);
    var i, m := SparedWasInUse(start, steps, s, k, name);
  }
}
