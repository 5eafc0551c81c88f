/** Removing a published file only if it is still the one that was published
    (`PinnedOutput.unlink_if_unchanged` and `restore_quarantine`,
    bench/chromium/campaign_summary.py:386-434, and `rename_noreplace`, 449-468).

    The entry is first renamed to a private name, without overwriting, then inspected there.
    Hypotheses: an inode number names one file, and no other program touches a quarantine
    name while a cleanup has a file there. */
module Quarantine {
  import opened Resources

  type Ino = nat
  type Id = nat

  /** The published name, and the quarantine names. */
  datatype Name = Output | Aside(token: nat)

  /** Mode, size and modification time, as one value. */
  type Attributes = nat

  datatype Identity = Identity(ino: Ino, attributes: Attributes)

  type Dir = map<Name, Ino>

  /** Where a file that a cleanup moved aside ended up. */
  datatype Fate = NothingMoved | Removed(ino: Ino) | PutBack(ino: Ino) | KeptAside(token: nat, ino: Ino)

  datatype Pc =
    | Looking
    | Moving
    | Inspecting(token: nat, ino: Ino)
    | Removing(token: nat, ino: Ino)
    | Restoring(token: nat, ino: Ino)
    | Ended(fate: Fate)

  datatype Cleanup = Cleanup(expected: Option<Identity>, guarded: set<Ino>, pc: Pc)

  datatype Sys = Sys(dir: Dir, attributes: map<Ino, Attributes>, cleanups: map<Id, Cleanup>)

  /** Steps of cleanups (with what the system call answers beyond what the directory
      decides), and of everyone else. */
  datatype Step =
    | Begin(c: Id, expected: Option<Identity>, guarded: set<Ino>)
    | Look(c: Id)
    | Move(c: Id, token: nat, ok: bool)
    | Inspect(c: Id, ok: bool)
    | Remove(c: Id, ok: bool)
    | Restore(c: Id, ok: bool)
    | OthersPut(name: Name, ino: Ino)
    | OthersRemove(name: Name)
    | OthersWrite(ino: Ino, attributes: Attributes)

  /** `same_state`. */
  predicate Matches(s: Sys, ino: Ino, expected: Option<Identity>) {
    && expected.Some? && ino == expected.value.ino
    && ino in s.attributes && s.attributes[ino] == expected.value.attributes
  }

  /** The quarantine name a cleanup has a file at, and the file. */
  function Held(pc: Pc): Option<(nat, Ino)> {
    match pc
    case Inspecting(t, ino) => Some((t, ino))
    case Removing(t, ino) => Some((t, ino))
    case Restoring(t, ino) => Some((t, ino))
    case Ended(KeptAside(t, ino)) => Some((t, ino))
    case _ => None
  }

  predicate Holds(c: Cleanup, token: nat) {
    Held(c.pc).Some? && Held(c.pc).value.0 == token
  }

  predicate Free(s: Sys, name: Name) {
    name.Aside? ==> forall c :: c in s.cleanups ==> !Holds(s.cleanups[c], name.token)
  }

  predicate Enabled(s: Sys, step: Step) {
    match step
    case Begin(c, _, _) => c !in s.cleanups
    case Look(c) => c in s.cleanups && s.cleanups[c].pc.Looking?
    case Move(c, _, _) => c in s.cleanups && s.cleanups[c].pc.Moving?
    case Inspect(c, _) => c in s.cleanups && s.cleanups[c].pc.Inspecting?
    case Remove(c, _) => c in s.cleanups && s.cleanups[c].pc.Removing?
    case Restore(c, _) => c in s.cleanups && s.cleanups[c].pc.Restoring?
    case OthersPut(name, _) => Free(s, name)
    case OthersRemove(name) => Free(s, name) && name in s.dir
    case OthersWrite(_, _) => true
  }

  function Go(s: Sys, c: Id, pc: Pc): Sys
    requires c in s.cleanups
  {
    s.(cleanups := s.cleanups[c := s.cleanups[c].(pc := pc)])
  }

  /** `rename_noreplace`. */
  function Renamed(dir: Dir, from: Name, to: Name): Dir
    requires from in dir && to !in dir
  {
    (dir - {from})[to := dir[from]]
  }

  function Apply(s: Sys, step: Step): Sys
    requires Enabled(s, step)
  {
    match step
    case Begin(c, expected, guarded) => s.(cleanups := s.cleanups[c := Cleanup(expected, guarded, Looking)])
    case Look(c) =>
      Go(s, c, if Output in s.dir && Matches(s, s.dir[Output], s.cleanups[c].expected) then Moving else Ended(NothingMoved))
    case Move(c, token, ok) =>
      if Output !in s.dir || !ok then Go(s, c, Ended(NothingMoved))
      else if Aside(token) in s.dir then s                       // taken: another token next time
      else Go(s, c, Inspecting(token, s.dir[Output])).(dir := Renamed(s.dir, Output, Aside(token)))
    case Inspect(c, ok) =>
      var Inspecting(token, ino) := s.cleanups[c].pc;
      Go(s, c, if ok && Matches(s, ino, s.cleanups[c].expected) && ino !in s.cleanups[c].guarded
               then Removing(token, ino) else Restoring(token, ino))
    case Remove(c, ok) =>
      var Removing(token, ino) := s.cleanups[c].pc;
      if ok then Go(s, c, Ended(Removed(ino))).(dir := s.dir - {Aside(token)})
      else Go(s, c, Restoring(token, ino))
    case Restore(c, ok) =>
      var Restoring(token, ino) := s.cleanups[c].pc;
      if ok && Output !in s.dir && Aside(token) in s.dir
      then Go(s, c, Ended(PutBack(ino))).(dir := Renamed(s.dir, Aside(token), Output))
      else Go(s, c, Ended(KeptAside(token, ino)))
    case OthersPut(name, ino) => s.(dir := s.dir[name := ino])
    case OthersRemove(name) => s.(dir := s.dir - {name})
    case OthersWrite(ino, attributes) => s.(attributes := s.attributes[ino := attributes])
  }

  ghost predicate Runs(s: Sys, steps: seq<Step>, s': Sys)
    decreases |steps|
  {
    if steps == [] then s' == s
    else Enabled(s, steps[0]) && Runs(Apply(s, steps[0]), steps[1..], s')
  }

  /** What a cleanup moved aside is at its own quarantine name until it is removed or put
      back; only the expected, unguarded inode is ever up for removal. */
  ghost predicate CleanupInv(s: Sys, c: Cleanup) {
    && (Held(c.pc).Some? ==> IsAt(s.dir, Held(c.pc).value.0, Held(c.pc).value.1))
    && (c.pc.Removing? ==> Expected(c, c.pc.ino))
    && (c.pc.Ended? && c.pc.fate.Removed? ==> Expected(c, c.pc.fate.ino))
  }

  predicate IsAt(dir: Dir, token: nat, ino: Ino) {
    Aside(token) in dir && dir[Aside(token)] == ino
  }

  predicate Expected(c: Cleanup, ino: Ino) {
    c.expected.Some? && ino == c.expected.value.ino && ino !in c.guarded
  }

  ghost predicate Inv(s: Sys) {
    && (forall c :: c in s.cleanups ==> CleanupInv(s, s.cleanups[c]))
    && (forall c, d, token :: c in s.cleanups && d in s.cleanups && Holds(s.cleanups[c], token) && Holds(s.cleanups[d], token)
          ==> c == d)
  }

  /** Only `c` moves, and what the others hold stays where it is. */
  ghost predicate OnlyMoves(s: Sys, s': Sys, c: Id) {
    && c in s'.cleanups && s'.cleanups.Keys == s.cleanups.Keys + {c}
    && forall d :: d in s.cleanups && d != c ==>
         && s'.cleanups[d] == s.cleanups[d]
         && (Held(s.cleanups[d].pc).Some? ==>
               var (token, ino) := Held(s.cleanups[d].pc).value;
               (IsAt(s.dir, token, ino) ==> IsAt(s'.dir, token, ino)) && !Holds(s'.cleanups[c], token))
  }

  lemma OwnStepKeepsInv(s: Sys, s': Sys, c: Id)
    requires Inv(s) && OnlyMoves(s, s', c) && CleanupInv(s', s'.cleanups[c])
    ensures Inv(s')
  {
    forall d | d in s'.cleanups
      ensures CleanupInv(s', s'.cleanups[d])
    {
      if d != c {
        assert CleanupInv(s, s.cleanups[d]);
      }
    }
  }

  lemma OthersKeepInv(s: Sys, s': Sys)
    requires Inv(s) && s'.cleanups == s.cleanups
    requires forall token, ino :: IsAt(s.dir, token, ino) && !Free(s, Aside(token)) ==> IsAt(s'.dir, token, ino)
    ensures Inv(s')
  {
    forall c | c in s.cleanups
      ensures CleanupInv(s', s.cleanups[c])
    {
      assert CleanupInv(s, s.cleanups[c]);
      if Held(s.cleanups[c].pc).Some? {
        var (token, ino) := Held(s.cleanups[c].pc).value;
        assert Holds(s.cleanups[c], token);
        assert IsAt(s.dir, token, ino) && !Free(s, Aside(token));
      }
    }
  }

  lemma MoveKeepsInv(s: Sys, c: Id, token: nat)
    requires Inv(s) && Enabled(s, Move(c, token, true)) && Output in s.dir && Aside(token) !in s.dir
    ensures Inv(Apply(s, Move(c, token, true)))
  {
    var s' := Apply(s, Move(c, token, true));
    forall d | d in s.cleanups && d != c && Held(s.cleanups[d].pc).Some?
      ensures Held(s.cleanups[d].pc).value.0 != token
    {
      assert CleanupInv(s, s.cleanups[d]);
    }
    OwnStepKeepsInv(s, s', c);
  }

  lemma LeaveKeepsInv(s: Sys, step: Step)
    requires Inv(s) && Enabled(s, step) && (step.Remove? || step.Restore?)
    ensures Inv(Apply(s, step))
  {
    var s', c := Apply(s, step), step.c;
    assert CleanupInv(s, s.cleanups[c]);
    var token := s.cleanups[c].pc.token;
    forall d | d in s.cleanups && d != c && Held(s.cleanups[d].pc).Some?
      ensures Held(s.cleanups[d].pc).value.0 != token
    {
      assert Holds(s.cleanups[c], token);
      assert Holds(s.cleanups[d], Held(s.cleanups[d].pc).value.0);
    }
    OwnStepKeepsInv(s, s', c);
  }

  lemma StayKeepsInv(s: Sys, step: Step)
    requires Inv(s) && Enabled(s, step) && (step.Begin? || step.Look? || step.Inspect?)
    ensures Inv(Apply(s, step))
  {
    var s', c := Apply(s, step), step.c;
    forall d | d in s.cleanups && d != c && Held(s.cleanups[d].pc).Some?
      ensures !Holds(s'.cleanups[c], Held(s.cleanups[d].pc).value.0)
    {
      assert Holds(s.cleanups[d], Held(s.cleanups[d].pc).value.0);
    }
    OwnStepKeepsInv(s, s', c);
  }

  lemma StepKeepsInv(s: Sys, step: Step)
    requires Inv(s) && Enabled(s, step)
    ensures Inv(Apply(s, step))
  {
    match step
    case Move(c, token, ok) =>
      if ok && Output in s.dir && Aside(token) !in s.dir {
        MoveKeepsInv(s, c, token);
      } else if ok && Output in s.dir {
      } else {
        OwnStepKeepsInv(s, Apply(s, step), c);
      }
    case Remove(_, _) => LeaveKeepsInv(s, step);
    case Restore(_, _) => LeaveKeepsInv(s, step);
    case OthersPut(_, _) => OthersKeepInv(s, Apply(s, step));
    case OthersRemove(_) => OthersKeepInv(s, Apply(s, step));
    case OthersWrite(_, _) => OthersKeepInv(s, Apply(s, step));
    case _ => StayKeepsInv(s, step);
  }

  lemma {:induction false} RunKeepsInv(s: Sys, steps: seq<Step>, s': Sys)
    requires Inv(s) && Runs(s, steps, s')
    ensures Inv(s')
    decreases |steps|
  {
    if steps != [] {
      StepKeepsInv(s, steps[0]);
      RunKeepsInv(Apply(s, steps[0]), steps[1..], s');
    }
  }

  /** Any directory, and no cleanup begun. */
  ghost predicate Initial(s: Sys) {
    s.cleanups == map[]
  }

  /** A step of the run, at its index `i`, by which `c` puts the file back at the output name. */
  ghost predicate PutsBackAt(s0: Sys, steps: seq<Step>, c: Id, ino: Ino, i: nat, m: Sys) {
    && i < |steps| && Runs(s0, steps[..i], m) && steps[i] == Restore(c, true) && Enabled(m, steps[i])
    && m.cleanups[c].pc.Restoring? && m.cleanups[c].pc.ino == ino
    && Output !in m.dir && IsAt(m.dir, m.cleanups[c].pc.token, ino)
    && Output in Apply(m, steps[i]).dir && Apply(m, steps[i]).dir[Output] == ino
  }

  predicate IsPutBack(s: Sys, c: Id, ino: Ino) {
    c in s.cleanups && s.cleanups[c].pc == Ended(PutBack(ino))
  }

  lemma {:induction false} RunsSplit(s: Sys, steps: seq<Step>, s': Sys) returns (mid: Sys)
    requires Runs(s, steps, s') && steps != []
    ensures Runs(s, steps[..|steps| - 1], mid) && Enabled(mid, steps[|steps| - 1])
    ensures Apply(mid, steps[|steps| - 1]) == s'
    decreases |steps|
  {
    if |steps| == 1 {
      mid := s;
    } else {
      mid := RunsSplit(Apply(s, steps[0]), steps[1..], s');
      assert steps[1..][..|steps| - 2] == steps[..|steps| - 1][1..];
    }
  }

  /** A file that was put back stood at the output name again, for the file it had been moved
      from there, when its cleanup ended. */
  lemma {:induction false} PutBackIsAtTheOutput(s0: Sys, steps: seq<Step>, s: Sys, c: Id, ino: Ino)
    returns (i: nat, m: Sys)
    requires Initial(s0) && Runs(s0, steps, s) && IsPutBack(s, c, ino)
    ensures PutsBackAt(s0, steps, c, ino, i, m)
    decreases |steps|
  {
    m := RunsSplit(s0, steps, s);
    var front := steps[..|steps| - 1];
    RunKeepsInv(s0, front, m);
    i := |front|;
    if IsPutBack(m, c, ino) {
      i, m := PutBackIsAtTheOutput(s0, front, m, c, ino);
      assert steps[..i] == front[..i] && steps[i] == front[i];
    } else {
      assert CleanupInv(m, m.cleanups[c]);
    }
  }

  /** A step of the run, at its index `i`, by which `c` finds the file at its quarantine name
      to be the expected one still: the inode and its mode, size and modification time. */
  ghost predicate FindsUnchangedAt(s0: Sys, steps: seq<Step>, c: Id, expected: Option<Identity>, ino: Ino,
                                   i: nat, m: Sys) {
    && i < |steps| && Runs(s0, steps[..i], m) && steps[i] == Inspect(c, true) && Enabled(m, steps[i])
    && m.cleanups[c].expected == expected && ino !in m.cleanups[c].guarded
    && m.cleanups[c].pc.ino == ino && IsAt(m.dir, m.cleanups[c].pc.token, ino) && Matches(m, ino, expected)
  }

  /** `c` is about to remove the file, or has. */
  predicate UpForRemoval(s: Sys, c: Id, expected: Option<Identity>, ino: Ino) {
    && c in s.cleanups && s.cleanups[c].expected == expected
    && match s.cleanups[c].pc
       case Removing(_, j) => j == ino
       case Ended(Removed(j)) => j == ino
       case _ => false
  }

  lemma RemovalBegins(m: Sys, step: Step, c: Id, expected: Option<Identity>, ino: Ino)
    requires Enabled(m, step) && UpForRemoval(Apply(m, step), c, expected, ino) && !UpForRemoval(m, c, expected, ino)
    ensures step == Inspect(c, true)
    ensures m.cleanups[c].expected == expected && ino !in m.cleanups[c].guarded
    ensures m.cleanups[c].pc.ino == ino && Matches(m, ino, expected)
  {
  }

  lemma {:induction false} RemovedWasUnchanged(s0: Sys, steps: seq<Step>, s: Sys, c: Id, expected: Option<Identity>, ino: Ino)
    returns (i: nat, m: Sys)
    requires Initial(s0) && Runs(s0, steps, s) && UpForRemoval(s, c, expected, ino)
    ensures FindsUnchangedAt(s0, steps, c, expected, ino, i, m)
    decreases |steps|
  {
    m := RunsSplit(s0, steps, s);
    var front := steps[..|steps| - 1];
    RunKeepsInv(s0, front, m);
    i := |front|;
    if UpForRemoval(m, c, expected, ino) {
      i, m := RemovedWasUnchanged(s0, front, m, c, expected, ino);
      assert steps[..i] == front[..i] && steps[i] == front[i];
    } else {
      RemovalBegins(m, steps[i], c, expected, ino);
      assert CleanupInv(m, m.cleanups[c]);
    }
  }

  /** Whatever others do, what a cleanup has moved aside is the expected, unguarded inode it
      removed, found unchanged at its quarantine name, or was put back at the output name, or is still at its quarantine name. */
  lemma OnlyTheExpectedIsRemoved(s0: Sys, steps: seq<Step>, s: Sys, c: Id)
    requires Initial(s0) && Runs(s0, steps, s) && c in s.cleanups && s.cleanups[c].pc.Ended?
    ensures
      match s.cleanups[c].pc.fate
      case Removed(ino) =>
        && Expected(s.cleanups[c], ino)
        && exists i: nat, m :: FindsUnchangedAt(s0, steps, c, s.cleanups[c].expected, ino, i, m)
      case KeptAside(token, ino) => IsAt(s.dir, token, ino)
      case PutBack(ino) => exists i: nat, m :: PutsBackAt(s0, steps, c, ino, i, m)
      case NothingMoved => true
  {
    RunKeepsInv(s0, steps, s);
    assert CleanupInv(s, s.cleanups[c]);
    if s.cleanups[c].pc.fate.Removed? {
      var i, m := RemovedWasUnchanged(s0, steps, s, c, s.cleanups[c].expected, s.cleanups[c].pc.fate.ino);
    } else if s.cleanups[c].pc.fate.PutBack? {
      var i, m := PutBackIsAtTheOutput(s0, steps, s, c, s.cleanups[c].pc.fate.ino);
    }
  }

  predicate ByCleanup(step: Step) {
    !step.OthersPut? && !step.OthersRemove? && !step.OthersWrite?
  }

  /** A step of a cleanup never makes a name stand for another file, and takes a file's last
      name only by removing the expected, unguarded inode. */
  lemma CleanupsLoseNothingElse(s0: Sys, steps: seq<Step>, s: Sys, step: Step, name: Name)
    requires Initial(s0) && Runs(s0, steps, s) && Enabled(s, step) && ByCleanup(step) && name in s.dir
    ensures name in Apply(s, step).dir ==> Apply(s, step).dir[name] == s.dir[name]
    ensures name !in Apply(s, step).dir ==>
              || (exists other :: other in Apply(s, step).dir && Apply(s, step).dir[other] == s.dir[name])
              || (step.Remove? && Expected(s.cleanups[step.c], s.dir[name]))
  {
    RunKeepsInv(s0, steps, s);
    if step.Begin? {
    } else {
      assert CleanupInv(s, s.cleanups[step.c]);
    }
    var dir' := Apply(s, step).dir;
    if name !in dir' && step.Move? {
      assert dir'[Aside(step.token)] == s.dir[name];
    } else if name !in dir' && step.Restore? {
      assert dir'[Output] == s.dir[name];
    }
  }

  // ----- one cleanup, undisturbed -----

  datatype Result = Gone | Left | Raised

  class Directory {
    var entries: Dir
    const attributes: map<Ino, Attributes>

    constructor (entries: Dir, attributes: map<Ino, Attributes>)
      ensures this.entries == entries && this.attributes == attributes
    {
      this.entries, this.attributes := entries, attributes;
    }

    predicate SameState(name: Name, expected: Option<Identity>)
      reads this
    {
      && expected.Some? && name in entries && entries[name] == expected.value.ino
      && entries[name] in attributes && attributes[entries[name]] == expected.value.attributes
    }

    method RenameNoReplace(from: Name, to: Name) returns (ok: bool)
      modifies this
      ensures ok == (from in old(entries) && to !in old(entries))
      ensures entries == if ok then (old(entries) - {from})[to := old(entries)[from]] else old(entries)
    {
      ok := from in entries && to !in entries;
      if ok {
        entries := (entries - {from})[to := entries[from]];
      }
    }

    predicate IsUnused(tokens: nat -> nat, i: nat)
      reads this
    {
      Aside(tokens(i)) !in entries
    }

    /** `unlink_if_unchanged`: `tokens` are the random names it tries, of which one is unused, `statOk` and `unlinkOk`
        what those calls answer. The file goes only if it is the expected one and not
        guarded; otherwise the directory is as it was. */
    method UnlinkIfUnchanged(expected: Option<Identity>, guarded: set<Ino>, tokens: nat -> nat,
                             statOk: bool, unlinkOk: bool)
      returns (r: Result)
      requires exists i :: IsUnused(tokens, i)
      modifies this
      ensures r.Gone? <==>
                old(SameState(Output, expected)) && expected.value.ino !in guarded && statOk && unlinkOk
      ensures r.Left? <==>
                !old(SameState(Output, expected)) || (statOk && expected.value.ino in guarded)
      ensures entries == if r.Gone? then old(entries) - {Output} else old(entries)
    {
      if !SameState(Output, expected) {
        return Left;
      }
      var i, ok := 0, false;
      ghost var unused: nat :| IsUnused(tokens, unused);
      while !ok
        invariant !ok ==> entries == old(entries) && SameState(Output, expected)
        invariant !ok ==> i <= unused
        invariant ok ==> i > 0 && Aside(tokens(i - 1)) !in old(entries)
        invariant ok ==> entries == (old(entries) - {Output})[Aside(tokens(i - 1)) := old(entries)[Output]]
        decreases if ok then 0 else 1, unused - i
      {
        ok := RenameNoReplace(Output, Aside(tokens(i)));
        i := i + 1;
      }
      var aside := Aside(tokens(i - 1));
      var ino := entries[aside];
      if statOk && SameState(aside, expected) && ino !in guarded && unlinkOk {
        entries := entries - {aside};
        assert entries == old(entries) - {Output};
        return Gone;
      }
      ok := RenameNoReplace(aside, Output);
      assert entries == old(entries);
      return if statOk && ino in guarded then Left else Raised;
    }
  }
}
