/** Owner locks (src/reclaim.rs): an owner's liveness is an flock on `<id>.lock`, a file
    that whoever ends the owner unlinks while still holding it.

    A description is one open file description, made by one turn of `lock_owner_file`'s
    loop; a retry makes a new one. Helpers an owner starts inherit its description. Any
    process can be killed at any step, and an inode number is reused as soon as nothing
    has the file open, linked or locked. */
module LockProtocol {

  type Id = string
  type Inode = nat
  type DescId = nat

  datatype Pc =
    | Opened          // open, not locked
    | Locked          // flocked, the identity not yet compared
    | Held            // flocked, and the inode is the one at the name
    | Unlinked        // flocked, and its holder has unlinked the name
    | Orphan(linked: bool)  // its process is gone; helpers keep the flock
    | Closed

  datatype Desc = Desc(id: Id, inode: Inode, pc: Pc, helpers: set<nat>, unlocked: bool)

  datatype State = State(lockAt: map<Id, Inode>, flock: map<Inode, DescId>, descs: map<DescId, Desc>)

  datatype Step =
    | Open(d: DescId, id: Id, spare: Inode)
    | Flock(d: DescId)
    | WouldBlock(d: DescId)
    | Check(d: DescId)
    | Unlink(d: DescId)
    | Release(d: DescId)       // close without unlocking
    | Unlock(d: DescId)        // the guard is dropped, which unlocks for every holder
    | Inherit(d: DescId, helper: nat)
    | HelperExit(d: DescId, helper: nat)
    | Kill(d: DescId)
    | Reboot

  const Initial := State(map[], map[], map[])

  predicate HasFlock(pc: Pc) {
    pc.Locked? || pc.Held? || pc.Unlinked? || pc.Orphan?
  }

  predicate At(s: State, d: DescId, pc: Pc) {
    d in s.descs && s.descs[d].pc == pc
  }

  /** Nothing names, opens or locks the inode, so a new file can be given its number. */
  predicate InodeFree(s: State, i: Inode) {
    && i !in s.flock
    && (forall id :: id in s.lockAt ==> s.lockAt[id] != i)
    && (forall d :: d in s.descs && !s.descs[d].pc.Closed? ==> s.descs[d].inode != i)
  }

  predicate Enabled(s: State, step: Step) {
    match step
    case Open(d, id, spare) => d !in s.descs && (id in s.lockAt || InodeFree(s, spare))
    case Flock(d) => At(s, d, Opened) && s.descs[d].inode !in s.flock
    case WouldBlock(d) => At(s, d, Opened) && s.descs[d].inode in s.flock
    case Check(d) => At(s, d, Locked)
    case Unlink(d) => At(s, d, Held)
    case Release(d) => At(s, d, Held) || At(s, d, Unlinked)
    case Unlock(d) => At(s, d, Held) || At(s, d, Unlinked)
    case Inherit(d, helper) => At(s, d, Held)
    case HelperExit(d, helper) => d in s.descs && helper in s.descs[d].helpers
    case Kill(d) => d in s.descs && !s.descs[d].pc.Closed? && !s.descs[d].pc.Orphan?
    case Reboot => true
  }

  function Put(s: State, d: DescId, desc: Desc): State {
    s.(descs := s.descs[d := desc])
  }

  /** Take a description's flock away and close it. */
  function CloseUnlocked(s: State, d: DescId, unlocked: bool): State
    requires d in s.descs
  {
    Put(s.(flock := s.flock - {s.descs[d].inode}), d, s.descs[d].(pc := Closed, unlocked := unlocked))
  }

  /** The process's descriptor goes, by `release` or by a kill. The flock goes with the
      last descriptor of the description. */
  function CloseDescriptor(s: State, d: DescId): State
    requires d in s.descs
  {
    var desc := s.descs[d];
    if desc.pc.Opened? then Put(s, d, desc.(pc := Closed))
    else if desc.helpers == {} then CloseUnlocked(s, d, desc.unlocked)
    else Put(s, d, desc.(pc := Orphan(desc.pc.Held?)))
  }

  function Apply(s: State, step: Step): State
    requires Enabled(s, step)
  {
    match step
    case Open(d, id, spare) =>
      var inode := if id in s.lockAt then s.lockAt[id] else spare;
      Put(s.(lockAt := s.lockAt[id := inode]), d, Desc(id, inode, Opened, {}, false))
    case Flock(d) =>
      Put(s.(flock := s.flock[s.descs[d].inode := d]), d, s.descs[d].(pc := Locked))
    case WouldBlock(d) => Put(s, d, s.descs[d].(pc := Closed))
    case Check(d) =>
      var desc := s.descs[d];
      if desc.id in s.lockAt && s.lockAt[desc.id] == desc.inode then Put(s, d, desc.(pc := Held))
      else CloseUnlocked(s, d, false)
    case Unlink(d) =>
      Put(s.(lockAt := s.lockAt - {s.descs[d].id}), d, s.descs[d].(pc := Unlinked))
    case Release(d) => CloseDescriptor(s, d)
    case Unlock(d) => CloseUnlocked(s, d, s.descs[d].helpers != {})
    case Inherit(d, helper) => Put(s, d, s.descs[d].(helpers := s.descs[d].helpers + {helper}))
    case HelperExit(d, helper) =>
      var desc := s.descs[d].(helpers := s.descs[d].helpers - {helper});
      if desc.helpers == {} && desc.pc.Orphan? then CloseUnlocked(Put(s, d, desc), d, desc.unlocked)
      else Put(s, d, desc)
    case Kill(d) => CloseDescriptor(s, d)
    case Reboot => s.(flock := map[], descs := map[])
  }

  ghost predicate DescInv(s: State, d: DescId)
    requires d in s.descs
  {
    var desc := s.descs[d];
    && (HasFlock(desc.pc) ==> desc.inode in s.flock && s.flock[desc.inode] == d)
    && (Alive(s, d, desc.id) ==> desc.id in s.lockAt && s.lockAt[desc.id] == desc.inode)
    && (desc.pc.Orphan? ==> desc.helpers != {})
    && (desc.helpers != {} ==> desc.pc.Held? || desc.pc.Unlinked? || desc.pc.Orphan? || desc.unlocked)
    && (desc.unlocked ==> desc.pc.Closed?)
  }

  ghost predicate FlockInv(s: State, i: Inode)
    requires i in s.flock
  {
    s.flock[i] in s.descs && s.descs[s.flock[i]].inode == i && HasFlock(s.descs[s.flock[i]].pc)
  }

  ghost predicate Inv(s: State) {
    && (forall d :: d in s.descs ==> DescInv(s, d))
    && (forall i :: i in s.flock ==> FlockInv(s, i))
  }

  /** A validated lock on `id`, in the hands of its process or of helpers that outlived it. */
  predicate Alive(s: State, d: DescId, id: Id) {
    d in s.descs && s.descs[d].id == id && (s.descs[d].pc.Held? || s.descs[d].pc == Orphan(true))
  }

  /** At most one description is validated for an id, so whoever has checked its lock is
      alone with the owner's record; and the name stays its inode until it unlinks it. */
  lemma MutualExclusion(s: State, d: DescId, e: DescId, id: Id)
    requires Inv(s) && Alive(s, d, id) && Alive(s, e, id)
    ensures d == e
    ensures id in s.lockAt && s.lockAt[id] == s.descs[d].inode
  {
    assert DescInv(s, d) && DescInv(s, e);
  }

  /** No one but the holder itself removes the name or replaces the file at it. */
  lemma HoldersNameIsStable(s: State, step: Step, d: DescId, id: Id)
    requires Inv(s) && Enabled(s, step) && Alive(s, d, id)
    ensures
      var s' := Apply(s, step);
      step != Unlink(d) ==> id in s'.lockAt && s'.lockAt[id] == s.lockAt[id]
  {
    assert DescInv(s, d);
    if step.Unlink? && s.descs[step.d].id == id {
      MutualExclusion(s, d, step.d, id);
    }
  }

  lemma CloseUnlockedKeepsInv(s: State, d: DescId, unlocked: bool)
    requires d in s.descs
    requires forall e :: e in s.descs && e != d ==> DescInv(s, e)
    requires forall i :: i in s.flock ==> FlockInv(s, i)
    requires HasFlock(s.descs[d].pc) && s.descs[d].inode in s.flock && s.flock[s.descs[d].inode] == d
    requires s.descs[d].helpers != {} ==> unlocked
    ensures Inv(CloseUnlocked(s, d, unlocked))
  {
    var s' := CloseUnlocked(s, d, unlocked);
    forall e | e in s'.descs
      ensures DescInv(s', e)
    {
      if e != d {
        assert DescInv(s, e);
        assert Alive(s', e, s'.descs[e].id) ==> Alive(s, e, s.descs[e].id);
      }
    }
    forall i | i in s'.flock
      ensures FlockInv(s', i)
    {
      assert FlockInv(s, i);
    }
  }

  /** Changing one description and no flock. */
  lemma PutKeepsInv(s: State, d: DescId, desc: Desc)
    requires Inv(s)
    requires d in s.descs ==> s.descs[d].inode == desc.inode && (HasFlock(s.descs[d].pc) ==> HasFlock(desc.pc))
    requires DescInv(Put(s, d, desc), d)
    ensures Inv(Put(s, d, desc))
  {
    var s' := Put(s, d, desc);
    forall e | e in s'.descs
      ensures DescInv(s', e)
    {
      if e != d {
        assert DescInv(s, e);
        assert Alive(s', e, s'.descs[e].id) ==> Alive(s, e, s.descs[e].id);
      }
    }
    forall i | i in s'.flock
      ensures FlockInv(s', i)
    {
      assert FlockInv(s, i);
    }
  }

  lemma OpenKeepsInv(s: State, d: DescId, id: Id, spare: Inode)
    requires Inv(s) && Enabled(s, Open(d, id, spare))
    ensures Inv(Apply(s, Open(d, id, spare)))
  {
    var s' := Apply(s, Open(d, id, spare));
    forall e | e in s'.descs
      ensures DescInv(s', e)
    {
      if e != d {
        assert DescInv(s, e);
        assert Alive(s', e, s'.descs[e].id) ==> Alive(s, e, s.descs[e].id);
      }
    }
    forall i | i in s'.flock
      ensures FlockInv(s', i)
    {
      assert FlockInv(s, i);
    }
  }

  lemma FlockKeepsInv(s: State, d: DescId)
    requires Inv(s) && Enabled(s, Flock(d))
    ensures Inv(Apply(s, Flock(d)))
  {
    var s' := Apply(s, Flock(d));
    forall e | e in s'.descs
      ensures DescInv(s', e)
    {
      assert DescInv(s, e);
      assert Alive(s', e, s'.descs[e].id) ==> Alive(s, e, s.descs[e].id);
    }
    forall i | i in s'.flock
      ensures FlockInv(s', i)
    {
      assert i != s.descs[d].inode ==> FlockInv(s, i);
    }
  }

  /** Unlinking takes the name away from no other holder, because there is none. */
  lemma UnlinkKeepsInv(s: State, d: DescId)
    requires Inv(s) && Enabled(s, Unlink(d))
    ensures Inv(Apply(s, Unlink(d)))
  {
    var s' := Apply(s, Unlink(d));
    var id := s.descs[d].id;
    forall e | e in s'.descs
      ensures DescInv(s', e)
    {
      assert DescInv(s, e);
      if e != d && Alive(s', e, s'.descs[e].id) {
        assert Alive(s, e, s.descs[e].id);
        if s.descs[e].id == id {
          MutualExclusion(s, d, e, id);
        }
      }
    }
    forall i | i in s'.flock
      ensures FlockInv(s', i)
    {
      assert FlockInv(s, i);
    }
  }

  lemma CloseDescriptorKeepsInv(s: State, d: DescId)
    requires Inv(s) && d in s.descs && !s.descs[d].pc.Closed? && !s.descs[d].pc.Orphan?
    ensures Inv(CloseDescriptor(s, d))
  {
    var desc := s.descs[d];
    assert DescInv(s, d);
    if desc.pc.Opened? {
      PutKeepsInv(s, d, desc.(pc := Closed));
    } else if desc.helpers == {} {
      CloseUnlockedKeepsInv(s, d, desc.unlocked);
    } else {
      PutKeepsInv(s, d, desc.(pc := Orphan(desc.pc.Held?)));
    }
  }

  lemma StepKeepsInv(s: State, step: Step)
    requires Inv(s) && Enabled(s, step)
    ensures Inv(Apply(s, step))
  {
    match step
    case Open(d, id, spare) => OpenKeepsInv(s, d, id, spare);
    case Flock(d) => FlockKeepsInv(s, d);
    case WouldBlock(d) => assert DescInv(s, d); PutKeepsInv(s, d, s.descs[d].(pc := Closed));
    case Check(d) =>
      assert DescInv(s, d);
      var desc := s.descs[d];
      if desc.id in s.lockAt && s.lockAt[desc.id] == desc.inode {
        PutKeepsInv(s, d, desc.(pc := Held));
      } else {
        CloseUnlockedKeepsInv(s, d, false);
      }
    case Unlink(d) => UnlinkKeepsInv(s, d);
    case Release(d) => CloseDescriptorKeepsInv(s, d);
    case Unlock(d) => assert DescInv(s, d); CloseUnlockedKeepsInv(s, d, s.descs[d].helpers != {});
    case Inherit(d, helper) =>
      assert DescInv(s, d);
      PutKeepsInv(s, d, s.descs[d].(helpers := s.descs[d].helpers + {helper}));
    case HelperExit(d, helper) => HelperExitKeepsInv(s, d, helper);
    case Kill(d) => CloseDescriptorKeepsInv(s, d);
    case Reboot =>
  }

  lemma HelperExitKeepsInv(s: State, d: DescId, helper: nat)
    requires Inv(s) && Enabled(s, HelperExit(d, helper))
    ensures Inv(Apply(s, HelperExit(d, helper)))
  {
    assert DescInv(s, d);
    var desc := s.descs[d].(helpers := s.descs[d].helpers - {helper});
    if desc.helpers == {} && desc.pc.Orphan? {
      var mid := Put(s, d, desc);
      forall e | e in mid.descs && e != d
        ensures DescInv(mid, e)
      {
        assert DescInv(s, e);
        assert Alive(mid, e, mid.descs[e].id) ==> Alive(s, e, s.descs[e].id);
      }
      forall i | i in mid.flock
        ensures FlockInv(mid, i)
      {
        assert FlockInv(s, i);
      }
      CloseUnlockedKeepsInv(mid, d, desc.unlocked);
    } else {
      PutKeepsInv(s, d, desc);
    }
  }

  /** The state after a run, which may interleave any number of processes. */
  ghost predicate Runs(s: State, steps: seq<Step>, s': State)
    decreases |steps|
  {
    if steps == [] then s' == s
    else Enabled(s, steps[0]) && Runs(Apply(s, steps[0]), steps[1..], s')
  }

  lemma {:induction false} RunKeepsInv(s: State, steps: seq<Step>, s': State)
    requires Inv(s) && Runs(s, steps, s')
    ensures Inv(s')
    decreases |steps|
  {
    if steps != [] {
      StepKeepsInv(s, steps[0]);
      RunKeepsInv(Apply(s, steps[0]), steps[1..], s');
    }
  }

  /** In every interleaving, at most one description is validated for an id. */
  lemma AtMostOneHolder(steps: seq<Step>, s: State, d: DescId, e: DescId, id: Id)
    requires Runs(Initial, steps, s) && Alive(s, d, id) && Alive(s, e, id)
    ensures d == e && id in s.lockAt && s.lockAt[id] == s.descs[d].inode
  {
    RunKeepsInv(Initial, steps, s);
    MutualExclusion(s, d, e, id);
  }

  /** The guard of an owner that ends with a failed record write or a failed unlink is
      dropped, not released: with one helper alive, the next pass takes the lock. */
  lemma DroppedGuardExposesAHelper(id: Id)
    ensures exists steps, s ::
      && Runs(Initial, steps, s)
      && 0 in s.descs && s.descs[0].id == id && 7 in s.descs[0].helpers
      && Alive(s, 1, id)
  {
    var s3 := State(map[id := 5], map[5 := 0], map[0 := Desc(id, 5, Held, {7}, false)]);
    var s4 := State(map[id := 5], map[], map[0 := Desc(id, 5, Closed, {7}, true)]);
    var s7 := State(map[id := 5], map[5 := 1], s4.descs[1 := Desc(id, 5, Held, {}, false)]);
    var begin := [Open(0, id, 5), Flock(0), Check(0), Inherit(0, 7)];
    var take := [Open(1, id, 6), Flock(1), Check(1)];
    BeginRun(id, begin, s3);
    assert Apply(s3, Unlock(0)) == s4;
    TakeRun(id, take, s4, s7);
    RunsConcat(Initial, begin, s3, [Unlock(0)] + take, s7) by {
      assert ([Unlock(0)] + take)[1..] == take;
    }
  }

  lemma BeginRun(id: Id, begin: seq<Step>, s: State)
    requires begin == [Open(0, id, 5), Flock(0), Check(0), Inherit(0, 7)]
    requires s == State(map[id := 5], map[5 := 0], map[0 := Desc(id, 5, Held, {7}, false)])
    ensures Runs(Initial, begin, s)
  {
    var s1 := State(map[id := 5], map[], map[0 := Desc(id, 5, Opened, {}, false)]);
    var s2 := State(map[id := 5], map[5 := 0], map[0 := Desc(id, 5, Locked, {}, false)]);
    var s3 := State(map[id := 5], map[5 := 0], map[0 := Desc(id, 5, Held, {}, false)]);
    assert Apply(Initial, begin[0]) == s1;
    assert Apply(s1, begin[1]) == s2;
    assert Apply(s2, begin[2]) == s3;
    assert {} + {7} == {7};
    assert Apply(s3, begin[3]) == s;
    assert begin[1..][0] == begin[1] && begin[1..][1..] == begin[2..];
    assert begin[2..][0] == begin[2] && begin[2..][1..] == begin[3..];
    assert begin[3..][0] == begin[3] && begin[3..][1..] == [];
    assert Runs(s3, begin[3..], s);
    assert Runs(s2, begin[2..], s);
    assert Runs(s1, begin[1..], s);
  }

  lemma TakeRun(id: Id, take: seq<Step>, s: State, s': State)
    requires take == [Open(1, id, 6), Flock(1), Check(1)]
    requires s == State(map[id := 5], map[], map[0 := Desc(id, 5, Closed, {7}, true)])
    requires s' == State(map[id := 5], map[5 := 1], s.descs[1 := Desc(id, 5, Held, {}, false)])
    ensures Runs(s, take, s')
  {
    var s1 := s.(descs := s.descs[1 := Desc(id, 5, Opened, {}, false)]);
    var s2 := State(s.lockAt, map[5 := 1], s.descs[1 := Desc(id, 5, Locked, {}, false)]);
    assert Apply(s, take[0]) == s1;
    assert Apply(s1, take[1]) == s2;
    assert Apply(s2, take[2]) == s';
    assert take[1..][0] == take[1] && take[1..][1..] == take[2..];
    assert take[2..][0] == take[2] && take[2..][1..] == [];
    assert Runs(s2, take[2..], s');
    assert Runs(s1, take[1..], s');
  }

  lemma {:induction false} RunsConcat(s: State, a: seq<Step>, m: State, b: seq<Step>, t: State)
    requires Runs(s, a, m) && Runs(m, b, t)
    ensures Runs(s, a + b, t)
    decreases |a|
  {
    if a == [] {
      assert a + b == b;
    } else {
      RunsConcat(Apply(s, a[0]), a[1..], m, b, t);
      assert (a + b)[1..] == a[1..] + b;
    }
  }
}
