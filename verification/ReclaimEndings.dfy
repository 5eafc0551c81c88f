/** How owners end in `ReclaimSystem`: what a discarded or completed owner can leave behind. */
module ReclaimEndings {
  import opened Resources
  import opened ReclaimSystem
  import opened ReclaimSafety
  import opened ReclaimPaths
  import opened ReclaimTheorems
  import UL = UndoLoop
  import LP = LockProtocol

  predicate Unrecorded(s: Sys, id: Id, r: Resource) {
    r in SlotOf(s, id).paths && r !in ListOf(SlotOf(s, id))
  }

  ghost predicate CanLose(s: Sys, id: Id) {
    exists steps, s', r :: Runs(s, steps, s') && Unrecorded(s', id, r)
  }

  /** Nobody can make a path of the id any more: its owner has begun and is no longer live,
      and no helper that was started for a path lives. */
  ghost predicate Closing(s: Sys, id: Id) {
    && SlotOf(s, id).home.Some?
    && (forall d :: !HasHelper(s, d, id))
    && (forall d :: AtWork(s, d, id) ==> !s.agents[d].work.Live?)
  }

  lemma ClosingOwn(s: Sys, d: DescId, op: Op, id: Id)
    requires Inv(s) && Closing(s, id) && Allowed(s, d, op) && AtWork(s, d, id)
    ensures Closing(Perform(s, d, op), id)
  {
    var s' := Perform(s, d, op);
    AgentLists(s, d, id);
    LocalProper(d, s.agents[d], Mine(s, d), s.boot, op);
    PerformMoves(s, d, op);
    PerformSelf(s, d, op);
    ClosingMoves(s, s', d, id, Local(d, s.agents[d], Mine(s, d), op).value);
  }

  lemma ClosingMoves(s: Sys, s': Sys, d: DescId, id: Id, o: Outcome)
    requires Closing(s, id) && OnlyMoves(s, s', d, id) && SelfMoves(s, s', d, id, o) && AtWork(s, d, id)
    requires Proper(s.agents[d].work, SlotOf(s, id), o.next)
    ensures Closing(s', id)
  {
    forall e
      ensures !HasHelper(s', e, id) && (AtWork(s', e, id) ==> !s'.agents[e].work.Live?)
    {
      assert !HasHelper(s, e, id);
      assert e != d && AtWork(s', e, id) ==> AtWork(s, e, id);
    }
  }

  /** A step that gives the id no helper and no live owner. */
  lemma ClosingUnmoved(s: Sys, s': Sys, id: Id)
    requires Closing(s, id) && SlotOf(s', id).home.Some? && SlotOf(s', id).lent == SlotOf(s, id).lent
    requires forall e :: Lent(s', e, id) ==> Lent(s, e, id)
    requires forall e :: AtWork(s', e, id) && s'.agents[e].work.Live? ==> AtWork(s, e, id) && s.agents[e].work.Live?
    ensures Closing(s', id)
  {
    forall e
      ensures !HasHelper(s', e, id)
    {
      assert !HasHelper(s, e, id);
    }
  }

  lemma ClosingStays(s: Sys, step: Step, id: Id)
    requires Inv(s) && Closing(s, id) && Enabled(s, step)
    ensures Closing(Apply(s, step), id)
  {
    var s' := Apply(s, step);
    match step
    case Lock(l) =>
      forall e | Lent(s', e, id)
        ensures Lent(s, e, id)
      {
        LockHelpers(s.lock, l, e);
      }
      forall e | AtWork(s', e, id)
        ensures AtWork(s, e, id)
      {
        PlainLockFrame(s, l, e);
      }
      ClosingUnmoved(s, s', id);
    case Enter(d, _, _) => ClosingUnmoved(s, s', id);
    case By(d, op) => ClosingBy(s, d, op, id);
    case HelperCreate(_, _) => ClosingUnmoved(s, s', id);
    case Reboot(_) =>
  }

  lemma ClosingBy(s: Sys, d: DescId, op: Op, id: Id)
    requires Inv(s) && Closing(s, id) && Allowed(s, d, op)
    ensures Closing(Perform(s, d, op), id)
  {
    if AtWork(s, d, id) {
      ClosingOwn(s, d, op, id);
    } else {
      var s' := Perform(s, d, op);
      PerformMoves(s, d, op);
      if IdOf(s, d) == id {
        LastStep(s, d, op);
      }
      ClosingElsewhere(s, s', d, IdOf(s, d), id);
    }
  }

  lemma ClosingElsewhere(s: Sys, s': Sys, d: DescId, other: Id, id: Id)
    requires Closing(s, id) && OnlyMoves(s, s', d, other)
    requires other == id ==> SlotOf(s', id) == SlotOf(s, id) && d !in s'.agents
    requires other == id ==> s'.lock.descs[d].helpers == s.lock.descs[d].helpers
    ensures Closing(s', id)
  {
    forall e | AtWork(s', e, id)
      ensures AtWork(s, e, id) && s'.agents[e] == s.agents[e]
    {
      assert e != d;
    }
    ClosingUnmoved(s, s', id);
  }

  lemma {:induction false} ClosedForGood(s: Sys, steps: seq<Step>, s': Sys, id: Id)
    requires Inv(s) && PathInv(s, id) && Closing(s, id) && Runs(s, steps, s')
    ensures Inv(s') && PathInv(s', id)
    decreases |steps|
  {
    if steps != [] {
      StepKeepsInv(s, steps[0]);
      StepKeepsPaths(s, steps[0], id);
      ClosingStays(s, steps[0], id);
      ClosedForGood(Apply(s, steps[0]), steps[1..], s', id);
    }
  }

  // ----- an owner ended while a helper lives -----

  lemma {:induction false} RunsConcat(s: Sys, a: seq<Step>, m: Sys, b: seq<Step>, t: Sys)
    requires Runs(s, a, m) && Runs(m, b, t)
    ensures Runs(s, a + b, t)
    decreases |a|
  {
    if a == [] {
      assert a + b == b;
    } else {
      RunsConcat(Apply(s, a[0]), a[1..], m, b, t);
      assert (a + b)[0] == a[0] && (a + b)[1..] == a[1..] + b;
    }
  }

  lemma RunsOne(s: Sys, step: Step)
    requires Enabled(s, step)
    ensures Runs(s, [step], Apply(s, step))
  {
    assert [step][1..] == [];
  }

  /** What the loop does next when every write and every undo succeeds. */
  function SmoothEvent(l: UL.Loop, sameBoot: bool): UL.Event
    requires l.at.Retired? || l.pending != []
  {
    if l.at.Retired? then UL.Tried(l.at.res, UL.Done)
    else
      var res := l.pending[|l.pending| - 1];
      if !res.IsKernelObject() then UL.Tried(res, UL.Done)
      else if !sameBoot then UL.LeftAlone(res)
      else UL.Persisted(l.pending[..|l.pending| - 1] + UL.Names(l.kept))
  }

  function LoopLeft(l: UL.Loop): nat {
    2 * |l.pending| + if l.at.Retired? then 1 else 0
  }

  predicate Unhindered(l: UL.Loop) {
    l.kept == [] && l.hold.None? && !l.at.Refused?
  }

  lemma SmoothEventHappens(l: UL.Loop, sameBoot: bool)
    requires Unhindered(l) && (l.at.Retired? || l.pending != [])
    ensures
      var next := UL.Next(l, sameBoot, SmoothEvent(l, sameBoot));
      next.Some? && Unhindered(next.value) && LoopLeft(next.value) < LoopLeft(l)
  {
  }

  predicate AtUndo(s: Sys, d: DescId) {
    Working(s, d) && s.agents[d].work.Undoing? && Unhindered(s.agents[d].work.pass.loop)
  }

  /** From anywhere in an unhindered pass, the loop can run to its end and keep nothing. */
  lemma {:induction false} UndoToTheEnd(s: Sys, d: DescId) returns (steps: seq<Step>, s': Sys)
    requires AtUndo(s, d)
    ensures Runs(s, steps, s') && AtUndo(s', d) && s'.lock == s.lock && Mine(s', d).lent == Mine(s, d).lent
    ensures s'.agents[d].work.pass.loop.pending == [] && s'.agents[d].work.pass.loop.at.Head?
    decreases LoopLeft(s.agents[d].work.pass.loop)
  {
    var w := s.agents[d].work;
    var l := w.pass.loop;
    if l.at.Head? && l.pending == [] {
      steps, s' := [], s;
    } else {
      var e := SmoothEvent(l, w.sameBoot);
      SmoothEventHappens(l, w.sameBoot);
      var mid := Perform(s, d, Effect(e));
      RunsOne(s, By(d, Effect(e)));
      var rest;
      rest, s' := UndoToTheEnd(mid, d);
      steps := [By(d, Effect(e))] + rest;
      RunsConcat(s, [By(d, Effect(e))], mid, rest, s');
    }
  }


  predicate AtDelete(s: Sys, d: DescId, stage: Stage) {
    Working(s, d) && s.agents[d].work == Deleting(stage)
  }

  /** An owner at the head of its deletion, with a helper: the record goes first, and then the
      helper makes a path nothing lists. */
  lemma HelperOutlivesTheRecord(s: Sys, d: DescId, id: Id)
    requires AtDelete(s, d, RemoveRecord) && HasHelper(s, d, id)
    ensures CanLose(s, id)
  {
    var r :| r in SlotOf(s, id).lent;
    var gone := By(d, Delete(true));
    var s1 := Apply(s, gone);
    var made := HelperCreate(d, r);
    var s2 := Apply(s1, made);
    RunsOne(s, gone);
    RunsOne(s1, made);
    RunsConcat(s, [gone], s1, [made], s2);
    assert Unrecorded(s2, id, r);
  }

  lemma CanLoseLater(s: Sys, steps: seq<Step>, s': Sys, id: Id)
    requires Runs(s, steps, s') && CanLose(s', id)
    ensures CanLose(s, id)
  {
    var rest, t, r :| Runs(s', rest, t) && Unrecorded(t, id, r);
    RunsConcat(s, steps, s', rest, t);
  }

  /** Ending an owner loses a file or directory to no record, on some run from there, exactly
      when a helper that was started for one still lives. */
  lemma EndingWithAHelper(before: seq<Step>, s: Sys, d: DescId, op: Op, id: Id)
    requires Runs(Initial, before, s) && Careful(Initial, before, id)
    requires Allowed(s, d, op) && Ends(op) && IdOf(s, d) == id
    ensures CanLose(Perform(s, d, op), id) <==> HasHelper(s, d, id)
  {
    CarefulRunKeepsPaths(Initial, before, s, id);
    var s1 := Perform(s, d, op);
    if HasHelper(s, d, id) {
      EndThenLose(s, d, op, id);
    } else {
      EndsClosing(s, d, op, id);
      StepKeepsInv(s, By(d, op));
      StepKeepsPaths(s, By(d, op), id);
      forall steps, t, r | Runs(s1, steps, t)
        ensures !Unrecorded(t, id, r)
      {
        ClosedForGood(s1, steps, t, id);
      }
    }
  }

  lemma EndThenLose(s: Sys, d: DescId, op: Op, id: Id)
    requires Allowed(s, d, op) && Ends(op) && HasHelper(s, d, id)
    ensures CanLose(Perform(s, d, op), id)
  {
    var s1 := Perform(s, d, op);
    if op.Discard? {
      HelperOutlivesTheRecord(s1, d, id);
    } else {
      UndoThenLose(s1, d, id);
    }
  }

  lemma UndoThenLose(s: Sys, d: DescId, id: Id)
    requires AtUndo(s, d) && HasHelper(s, d, id)
    ensures CanLose(s, id)
  {
    var steps, s1 := UndoToTheEnd(s, d);
    FinishThenLose(s1, d, id);
    CanLoseLater(s, steps, s1, id);
  }

  lemma FinishThenLose(s: Sys, d: DescId, id: Id)
    requires AtUndo(s, d) && HasHelper(s, d, id)
    requires s.agents[d].work.pass.loop.pending == [] && s.agents[d].work.pass.loop.at.Head?
    ensures CanLose(s, id)
  {
    var s' := Perform(s, d, Finish);
    HelperOutlivesTheRecord(s', d, id);
    RunsOne(s, By(d, Finish));
    CanLoseLater(s, [By(d, Finish)], s', id);
  }

  lemma EndsClosing(s: Sys, d: DescId, op: Op, id: Id)
    requires Inv(s) && PathInv(s, id) && Allowed(s, d, op) && Ends(op) && IdOf(s, d) == id
    requires !HasHelper(s, d, id)
    ensures Closing(Perform(s, d, op), id)
  {
    AgentHeld(s, d);
    AloneAtWork(s, d, id);
    AgentLists(s, d, id);
    PerformMoves(s, d, op);
    PerformSelf(s, d, op);
    EndsByGoingOn(d, s.agents[d], Mine(s, d), s.boot, op);
    EndedIsClosing(s, Perform(s, d, op), d, id, Local(d, s.agents[d], Mine(s, d), op).value);
  }

  lemma EndsByGoingOn(d: DescId, agent: Agent, slot: Slot, boot: nat, op: Op)
    requires LocalInv(agent, slot, boot) && Local(d, agent, slot, op).Some? && Ends(op)
    ensures
      var next := Local(d, agent, slot, op).value.next;
      slot.home.Some? && next.Go? && !next.work.Live?
  {
  }

  lemma EndedIsClosing(s: Sys, s': Sys, d: DescId, id: Id, o: Outcome)
    requires OnlyMoves(s, s', d, id) && SelfMoves(s, s', d, id, o) && o.next.Go? && !o.next.work.Live?
    requires SlotOf(s, id).home.Some? && !HasHelper(s, d, id)
    requires forall e :: e != d ==> !AtWork(s, e, id) && !HasHelper(s, e, id)
    ensures Closing(s', id)
  {
    forall e
      ensures !HasHelper(s', e, id) && (AtWork(s', e, id) ==> !s'.agents[e].work.Live?)
    {
      assert !HasHelper(s, e, id);
      assert e != d ==> !AtWork(s, e, id);
    }
  }

  lemma AgentHeld(s: Sys, d: DescId)
    requires Inv(s) && Working(s, d) && s.agents[d].work != Deleting(Removed)
    ensures s.lock.descs[d].pc.Held?
  {
    if !s.lock.descs[d].pc.Held? {
      LastPc(s, d);
    }
  }

  predicate Leads(s: Sys, step: Step, s': Sys) {
    Enabled(s, step) && Apply(s, step) == s'
  }

  lemma {:induction false} RunsThrough(states: seq<Sys>, steps: seq<Step>)
    requires |states| == |steps| + 1
    requires forall i :: 0 <= i < |steps| ==> Leads(states[i], steps[i], states[i + 1])
    ensures Runs(states[0], steps, states[|steps|])
    decreases |steps|
  {
    if steps != [] {
      assert Leads(states[0], steps[0], states[0 + 1]);
      RunsThrough(states[1..], steps[1..]);
    }
  }

  /** The one process there is holds the lock of `id`, through description 0 and inode 5. */
  function Sole(id: Id, helpers: set<nat>, work: Work, slot: Slot): Sys {
    Sys(0, LP.State(map[id := 5], map[5 := 0], map[0 := LP.Desc(id, 5, LP.Held, helpers, false)]),
        map[0 := Agent(World(0, 0), work)], map[id := slot])
  }

  lemma SoleGoes(id: Id, helpers: set<nat>, work: Work, slot: Slot, op: Op, next: Work, slot': Slot)
    requires Local(0, Agent(World(0, 0), work), slot, op) == Some(Outcome(slot', Go(next))) && !op.Claim?
    ensures Leads(Sole(id, helpers, work, slot), By(0, op), Sole(id, helpers, next, slot'))
  {
    var s := Sole(id, helpers, work, slot);
    assert Mine(s, 0) == slot;
    assert s.slots[id := slot'] == map[id := slot'];
    assert s.agents[0 := Agent(World(0, 0), next)] == map[0 := Agent(World(0, 0), next)];
  }

  const Fresh := EmptySlot.(home := Some(World(0, 0)))

  lemma SoleBegins(id: Id)
    ensures Leads(Sole(id, {}, Entered(true), EmptySlot).(slots := map[]), By(0, Begin), Sole(id, {}, Live([]), Fresh))
  {
    var s := Sole(id, {}, Entered(true), EmptySlot).(slots := map[]);
    assert s.slots[id := Fresh] == map[id := Fresh];
    assert s.agents[0 := Agent(World(0, 0), Live([]))] == map[0 := Agent(World(0, 0), Live([]))];
  }

  lemma NewOwner(id: Id)
    ensures
      Runs(Initial, [Lock(LP.Open(0, id, 5)), Lock(LP.Flock(0)), Enter(0, true, 0), By(0, Begin)],
           Sole(id, {}, Live([]), Fresh))
  {
    var l1 := LP.State(map[id := 5], map[], map[0 := LP.Desc(id, 5, LP.Opened, {}, false)]);
    var l2 := LP.State(map[id := 5], map[5 := 0], map[0 := LP.Desc(id, 5, LP.Locked, {}, false)]);
    var s3 := Sole(id, {}, Entered(true), EmptySlot).(slots := map[]);
    var states := [Initial, Initial.(lock := l1), Initial.(lock := l2), s3, Sole(id, {}, Live([]), Fresh)];
    var steps := [Lock(LP.Open(0, id, 5)), Lock(LP.Flock(0)), Enter(0, true, 0), By(0, Begin)];
    assert Leads(states[0], steps[0], states[1]);
    assert LP.Apply(l1, LP.Flock(0)) == l2;
    assert Leads(states[1], steps[1], states[2]);
    assert LP.Apply(l2, LP.Check(0)) == s3.lock;
    assert Leads(states[2], steps[2], states[3]);
    SoleBegins(id);
    RunsThrough(states, steps);
  }

  /** A temp's owner is discarded, as `StoreTemp` does on drop, while a helper it started
      lives: the helper makes the temp again, and no record lists it. */
  lemma DiscardedUnderAHelper(id: Id, path: string)
    ensures
      var r := Temp(path);
      exists s ::
        && Runs(Initial,
                [Lock(LP.Open(0, id, 5)), Lock(LP.Flock(0)), Enter(0, true, 0), By(0, Begin),
                 By(0, RecordOne(r, true)), By(0, Lend(7)), By(0, Discard), By(0, Delete(true)),
                 HelperCreate(0, r)], s)
        && Unrecorded(s, id, r)
  {
    var r := Temp(path);
    var begin := [Lock(LP.Open(0, id, 5)), Lock(LP.Flock(0)), Enter(0, true, 0), By(0, Begin)];
    var steps := [By(0, RecordOne(r, true)), By(0, Lend(7)), By(0, Discard), By(0, Delete(true)), HelperCreate(0, r)];
    NewOwner(id);
    var s := LendDiscardMake(id, r, steps);
    RunsConcat(Initial, begin, Sole(id, {}, Live([]), Fresh), steps, s);
    assert begin + steps ==
      [Lock(LP.Open(0, id, 5)), Lock(LP.Flock(0)), Enter(0, true, 0), By(0, Begin),
       By(0, RecordOne(r, true)), By(0, Lend(7)), By(0, Discard), By(0, Delete(true)), HelperCreate(0, r)];
  }

  lemma LendDiscardMake(id: Id, r: Resource, steps: seq<Step>) returns (s: Sys)
    requires r.Temp?
    requires steps ==
      [By(0, RecordOne(r, true)), By(0, Lend(7)), By(0, Discard), By(0, Delete(true)), HelperCreate(0, r)]
    ensures Runs(Sole(id, {}, Live([]), Fresh), steps, s) && Unrecorded(s, id, r)
  {
    var recorded := Booked(Fresh, World(0, 0), [] + [r], true);
    var lent := recorded.(lent := recorded.lent + PathsIn([] + [r]));
    var s0, s1 := Sole(id, {}, Live([]), Fresh), Sole(id, {}, Live([] + [r]), recorded);
    var s2, s3 := Sole(id, {7}, Live([] + [r]), lent), Sole(id, {7}, Deleting(RemoveRecord), lent);
    var s4 := Sole(id, {7}, Deleting(RemoveTemp), lent.(record := None));
    SoleGoes(id, {}, Live([]), Fresh, RecordOne(r, true), Live([] + [r]), recorded);
    SoleLends(id, [] + [r], recorded);
    SoleGoes(id, {7}, Live([] + [r]), lent, Discard, Deleting(RemoveRecord), lent);
    SoleGoes(id, {7}, Deleting(RemoveRecord), lent, Delete(true), Deleting(RemoveTemp), lent.(record := None));
    s := Apply(s4, HelperCreate(0, r));
    assert Leads(s4, steps[4], s);
    RunsThrough([s0, s1, s2, s3, s4, s], steps);
  }

  lemma SoleLends(id: Id, mem: seq<Resource>, slot: Slot)
    ensures Leads(Sole(id, {}, Live(mem), slot), By(0, Lend(7)),
                  Sole(id, {7}, Live(mem), slot.(lent := slot.lent + PathsIn(mem))))
  {
    var s := Sole(id, {}, Live(mem), slot);
    var slot' := slot.(lent := slot.lent + PathsIn(mem));
    assert Mine(s, 0) == slot;
    assert {} + {7} == {7};
    assert s.slots[id := slot'] == map[id := slot'];
    assert s.agents[0 := s.agents[0]] == s.agents;
    assert LP.Apply(s.lock, LP.Inherit(0, 7)) == Sole(id, {7}, Live(mem), slot').lock;
  }

  // ----- an id without a lock file -----

  ghost predicate LeftBehind(s: Sys, id: Id) {
    exists steps, s' :: Runs(s, steps, s') && id !in s'.lock.lockAt && SlotOf(s', id).paths != {}
  }

  /** The lock file goes last: an id without one has no record and no half-written record. Once
      its owner has begun, a file or directory of it is, or can come to be, left without a lock
      file exactly when one is there or a helper started for one lives; neither is the case as
      long as no owner was ended while its helper lived. */
  lemma NoLockFileNothingLeft(before: seq<Step>, s: Sys, id: Id)
    requires Runs(Initial, before, s) && id !in s.lock.lockAt
    ensures SlotOf(s, id).record.None? && !SlotOf(s, id).temp
    ensures SlotOf(s, id).home.Some? ==>
      (LeftBehind(s, id) <==> SlotOf(s, id).paths != {} || exists d :: HasHelper(s, d, id))
    ensures Careful(Initial, before, id) ==> SlotOf(s, id).paths == {} && forall d :: !HasHelper(s, d, id)
  {
    assert Reachable(s);
    ReachableInv(s);
    assert SlotInv(SlotOf(s, id), id in s.lock.lockAt);
    if Careful(Initial, before, id) {
      CarefulRunKeepsPaths(Initial, before, s, id);
      forall d
        ensures !HasHelper(s, d, id)
      {
        if HasHelper(s, d, id) {
          LP.MutualExclusion(s.lock, d, d, id);
        }
      }
    }
    if SlotOf(s, id).home.Some? {
      if SlotOf(s, id).paths != {} {
        assert Runs(s, [], s);
      } else if d :| HasHelper(s, d, id) {
        StaysBehind(s, d, id);
      } else {
        NothingFollows(s, id);
      }
    }
  }

  lemma StaysBehind(s: Sys, d: DescId, id: Id)
    requires id !in s.lock.lockAt && HasHelper(s, d, id)
    ensures LeftBehind(s, id)
  {
    var r :| r in SlotOf(s, id).lent;
    var s' := Apply(s, HelperCreate(d, r));
    RunsOne(s, HelperCreate(d, r));
    assert r in SlotOf(s', id).paths;
  }

  lemma NothingFollows(s: Sys, id: Id)
    requires Inv(s) && id !in s.lock.lockAt && SlotOf(s, id).paths == {} && SlotOf(s, id).home.Some?
    requires forall d :: !HasHelper(s, d, id)
    ensures !LeftBehind(s, id)
  {
    forall d
      ensures !AtWork(s, d, id)
    {
      if AtWork(s, d, id) {
        LP.MutualExclusion(s.lock, d, d, id);
      }
    }
    forall steps, s' | Runs(s, steps, s') && id !in s'.lock.lockAt
      ensures SlotOf(s', id).paths == {}
    {
      ClosedForGood(s, steps, s', id);
      assert SlotInv(SlotOf(s', id), id in s'.lock.lockAt);
    }
  }
}
