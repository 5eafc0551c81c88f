/** When a live helper keeps everyone else from its owner's id, in `LockProtocol`. */
module LockTakeover {
  import opened LockProtocol

  // ----- which names an open lock file can have -----

  predicate IsOpen(pc: Pc) {
    !pc.Closed?
  }

  /** The holder has unlinked the file, or died after it had. */
  predicate NameGone(pc: Pc) {
    pc.Unlinked? || pc == Orphan(false)
  }

  ghost predicate OneName(lockAt: map<Id, Inode>) {
    forall i, j :: i in lockAt && j in lockAt && lockAt[i] == lockAt[j] ==> i == j
  }

  /** An open file that still has a name has the one it was opened by; an unlinked one has none. */
  ghost predicate NameOk(lockAt: map<Id, Inode>, desc: Desc) {
    forall j :: j in lockAt && lockAt[j] == desc.inode && IsOpen(desc.pc) ==> j == desc.id && !NameGone(desc.pc)
  }

  ghost predicate NamesInv(s: State) {
    OneName(s.lockAt) && forall d :: d in s.descs ==> NameOk(s.lockAt, s.descs[d])
  }

  lemma OpenKeepsNames(s: State, d: DescId, id: Id, spare: Inode)
    requires NamesInv(s) && Enabled(s, Open(d, id, spare))
    ensures NamesInv(Apply(s, Open(d, id, spare)))
  {
    var s' := Apply(s, Open(d, id, spare));
    forall e | e in s'.descs
      ensures NameOk(s'.lockAt, s'.descs[e])
    {
      assert e != d ==> NameOk(s.lockAt, s.descs[e]);
    }
  }

  /** The holder takes away the one name its file has. */
  lemma UnlinkKeepsNames(s: State, d: DescId)
    requires Inv(s) && NamesInv(s) && Enabled(s, Unlink(d))
    ensures NamesInv(Apply(s, Unlink(d)))
  {
    var s' := Apply(s, Unlink(d));
    assert DescInv(s, d);
    forall e | e in s'.descs
      ensures NameOk(s'.lockAt, s'.descs[e])
    {
      assert NameOk(s.lockAt, s.descs[e]);
    }
  }

  /** A step that opens and unlinks nothing may only take a description on or close it. */
  lemma NamesKept(s: State, step: Step, e: DescId)
    requires Inv(s) && Enabled(s, step) && !step.Open? && !step.Unlink? && e in Apply(s, step).descs
    ensures
      var desc, desc' := s.descs[e], Apply(s, step).descs[e];
      && e in s.descs && desc'.id == desc.id && desc'.inode == desc.inode
      && (IsOpen(desc'.pc) ==> IsOpen(desc.pc)) && (NameGone(desc'.pc) ==> NameGone(desc.pc))
  {
  }

  lemma StepKeepsNames(s: State, step: Step)
    requires Inv(s) && NamesInv(s) && Enabled(s, step)
    ensures NamesInv(Apply(s, step))
  {
    if step.Open? {
      OpenKeepsNames(s, step.d, step.id, step.spare);
    } else if step.Unlink? {
      UnlinkKeepsNames(s, step.d);
    } else {
      var s' := Apply(s, step);
      forall e | e in s'.descs
        ensures NameOk(s'.lockAt, s'.descs[e])
      {
        NamesKept(s, step, e);
        assert NameOk(s.lockAt, s.descs[e]);
      }
    }
  }

  lemma {:induction false} RunKeepsNames(s: State, steps: seq<Step>, s': State)
    requires Inv(s) && NamesInv(s) && Runs(s, steps, s')
    ensures Inv(s') && NamesInv(s')
    decreases |steps|
  {
    if steps != [] {
      StepKeepsInv(s, steps[0]);
      StepKeepsNames(s, steps[0]);
      RunKeepsNames(Apply(s, steps[0]), steps[1..], s');
    }
  }

  // ----- who can come to hold the lock beside a helper -----

  /** The owner's description is neither unlocked nor unlinked, the helper stays, and the host
      is not rebooted. */
  predicate LeavesIt(step: Step, d: DescId, helper: nat) {
    step != Unlink(d) && step != Unlock(d) && step != HelperExit(d, helper) && !step.Reboot?
  }

  predicate AllLeaveIt(steps: seq<Step>, d: DescId, helper: nat) {
    forall i :: 0 <= i < |steps| ==> LeavesIt(steps[i], d, helper)
  }

  /** Some run from here ends with another description validated for the owner's id. */
  ghost predicate CanBeTaken(s: State, d: DescId, helper: nat)
    requires d in s.descs
  {
    exists steps, s', e ::
      Runs(s, steps, s') && AllLeaveIt(steps, d, helper) && e != d && Alive(s', e, s.descs[d].id)
  }

  predicate Kept(s: State, d: DescId, helper: nat, id: Id) {
    Alive(s, d, id) && helper in s.descs[d].helpers
  }

  lemma StepKeepsKept(s: State, step: Step, d: DescId, helper: nat, id: Id)
    requires Kept(s, d, helper, id) && Enabled(s, step) && LeavesIt(step, d, helper)
    ensures Kept(Apply(s, step), d, helper, id)
  {
    var helpers := s.descs[d].helpers;
    assert helper in helpers && helpers != {};
    if step.HelperExit? && step.d == d {
      assert helper in helpers - {step.helper};
    }
  }

  lemma {:induction false} HelperKeepsTheLock(s: State, steps: seq<Step>, s': State, d: DescId, helper: nat, id: Id)
    requires Inv(s) && Kept(s, d, helper, id) && Runs(s, steps, s') && AllLeaveIt(steps, d, helper)
    ensures Inv(s') && Kept(s', d, helper, id)
    decreases |steps|
  {
    if steps != [] {
      StepKeepsInv(s, steps[0]);
      StepKeepsKept(s, steps[0], d, helper, id);
      HelperKeepsTheLock(Apply(s, steps[0]), steps[1..], s', d, helper, id);
    }
  }

  lemma FreshNumber(taken: set<nat>) returns (n: nat)
    ensures n !in taken
  {
    n := 0;
    var below: set<nat> := {};
    while n in taken
      invariant below <= taken && |below| == n && forall k: nat :: k in below <==> k < n
      decreases |taken - below|
    {
      below := below + {n};
      assert taken - below < taken - (below - {n});
      n := n + 1;
    }
  }

  lemma FreshInode(s: State) returns (i: Inode)
    ensures InodeFree(s, i)
  {
    i := FreshNumber(s.flock.Keys + (set id | id in s.lockAt :: s.lockAt[id]) + (set d | d in s.descs :: s.descs[d].inode));
  }

  lemma RunsThree(s: State, a: Step, s1: State, b: Step, s2: State, c: Step, s3: State)
    requires Enabled(s, a) && Apply(s, a) == s1
    requires Enabled(s1, b) && Apply(s1, b) == s2
    requires Enabled(s2, c) && Apply(s2, c) == s3
    ensures Runs(s, [a, b, c], s3)
  {
    assert Runs(s2, [c], s3);
    assert [b, c][1..] == [c];
    assert Runs(s1, [b, c], s3);
    assert [a, b, c][1..] == [b, c];
  }

  /** Nobody has the lock of the name: a newcomer opens it, locks it and finds it its own. */
  lemma NewcomerTakes(s: State, id: Id) returns (steps: seq<Step>, s': State, e: DescId)
    requires id in s.lockAt ==> s.lockAt[id] !in s.flock
    ensures Runs(s, steps, s') && e !in s.descs && Alive(s', e, id)
    ensures forall i :: 0 <= i < |steps| ==> steps[i].Open? || (!steps[i].Reboot? && !steps[i].HelperExit? && steps[i].d == e)
  {
    e := FreshNumber(s.descs.Keys);
    var spare := FreshInode(s);
    steps := [Open(e, id, spare), Flock(e), Check(e)];
    var s1 := Apply(s, steps[0]);
    var s2 := Apply(s1, steps[1]);
    s' := Apply(s2, steps[2]);
    RunsThree(s, steps[0], s1, steps[1], s2, steps[2], s');
  }

  lemma Taken(s: State, d: DescId, helper: nat)
    requires Inv(s) && NamesInv(s) && d in s.descs && !Alive(s, d, s.descs[d].id) && s.descs[d].helpers != {}
    ensures CanBeTaken(s, d, helper)
  {
    var id := s.descs[d].id;
    assert DescInv(s, d);
    if id in s.lockAt && s.lockAt[id] in s.flock {
      var h := s.flock[s.lockAt[id]];
      assert FlockInv(s, s.lockAt[id]) && NameOk(s.lockAt, s.descs[h]);
      if s.descs[h].pc.Locked? {
        assert Runs(s, [Check(h)], Apply(s, Check(h)));
        assert AllLeaveIt([Check(h)], d, helper) && Alive(Apply(s, Check(h)), h, id);
      } else {
        assert Runs(s, [], s) && AllLeaveIt([], d, helper) && Alive(s, h, id);
      }
    } else {
      var steps, s', e := NewcomerTakes(s, id);
      assert AllLeaveIt(steps, d, helper);
    }
  }

  /** Beside a live helper another description can come to be validated for the owner's id
      exactly when the owner's guard was dropped (which unlocks for every holder) or its lock
      file was unlinked. */
  lemma HelperKeepsOwnerLiveIff(before: seq<Step>, s: State, d: DescId, helper: nat)
    requires Runs(Initial, before, s) && d in s.descs && helper in s.descs[d].helpers
    ensures CanBeTaken(s, d, helper) <==> s.descs[d].unlocked || NameGone(s.descs[d].pc)
  {
    RunKeepsNames(Initial, before, s);
    assert DescInv(s, d);
    var id := s.descs[d].id;
    if Alive(s, d, id) {
      forall steps, s', e | Runs(s, steps, s') && AllLeaveIt(steps, d, helper) && Alive(s', e, id)
        ensures e == d
      {
        HelperKeepsTheLock(s, steps, s', d, helper, id);
        MutualExclusion(s', d, e, id);
      }
    } else {
      Taken(s, d, helper);
    }
  }
}
