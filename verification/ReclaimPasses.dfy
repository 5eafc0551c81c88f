/** Reclaim passes of `ReclaimSystem` that run to their end. */
module ReclaimPasses {
  import opened Resources
  import opened ReclaimSystem
  import opened ReclaimSafety
  import opened ReclaimPaths
  import opened ReclaimTheorems
  import opened ReclaimEndings
  import UL = UndoLoop
  import LP = LockProtocol

  // ----- every full pass cleans up -----

  /** Nothing the process does fails: every write, undo and removal succeeds, and it is not
      killed. */
  predicate SmoothOp(op: Op) {
    op.Read? || op.Finish? || op == Delete(true) || (op.Effect? && UL.Smooth(op.e))
  }

  /** `d` works on without a failure; every other process does whatever it does. */
  predicate SmoothStep(step: Step, d: DescId) {
    !step.Reboot? && (step.By? && step.d == d ==> SmoothOp(step.op))
  }

  /** A pass, or a completing owner, on its way to the deletion, with nothing kept so far. */
  predicate OnCourse(s: Sys, d: DescId, id: Id) {
    && AtWork(s, d, id)
    && match s.agents[d].work
       case Entered(owner) => !owner
       case Undoing(_, _, _, pass) => Unhindered(pass.loop)
       case Deleting(stage) => stage != Removed
       case _ => false
  }

  lemma SmoothStaysUnhindered(l: UL.Loop, sameBoot: bool, e: UL.Event)
    requires Unhindered(l) && UL.Smooth(e) && UL.Next(l, sameBoot, e).Some?
    ensures Unhindered(UL.Next(l, sameBoot, e).value)
  {
  }

  predicate AtLastFile(s: Sys, d: DescId) {
    d in s.agents && s.agents[d].work == Deleting(RemoveLock)
  }

  lemma OwnCourse(s: Sys, d: DescId, op: Op, id: Id)
    requires OnCourse(s, d, id) && Allowed(s, d, op) && SmoothOp(op)
    ensures
      var s' := Perform(s, d, op);
      if AtLastFile(s, d) then id !in s'.lock.lockAt else OnCourse(s', d, id)
  {
    var w := s.agents[d].work;
    if w.Undoing? && op.Effect? {
      SmoothStaysUnhindered(w.pass.loop, w.sameBoot, op.e);
    }
  }

  lemma OthersCourse(s: Sys, step: Step, d: DescId, id: Id)
    requires Inv(s) && OnCourse(s, d, id) && Enabled(s, step) && !step.Reboot? && !(step.By? && step.d == d)
    ensures OnCourse(Apply(s, step), d, id)
  {
    match step
    case Lock(l) => PlainLockFrame(s, l, d);
    case Enter(_, _, _) =>
    case By(e, op) =>
      PerformMoves(s, e, op);
      SameCourse(s, Perform(s, e, op), d, id);
    case HelperCreate(_, _) =>
  }

  lemma SameCourse(s: Sys, s': Sys, d: DescId, id: Id)
    requires OnCourse(s, d, id) && d in s'.agents && s'.agents[d] == s.agents[d]
    requires d in s'.lock.descs && s'.lock.descs[d] == s.lock.descs[d]
    ensures OnCourse(s', d, id)
  {
  }

  /** The work of `d` on the id admits no owner that could be ended under its helper. */
  lemma CourseIsCareful(s: Sys, step: Step, d: DescId, id: Id)
    requires Inv(s) && OnCourse(s, d, id) && Enabled(s, step) && SmoothStep(step, d) && PathInv(s, id)
    ensures !EndsWithHelper(s, step, id)
  {
    if EndsWithHelper(s, step, id) {
      Alone(s, d, step.d, id);
    }
  }

  predicate LastFile(s: Sys, step: Step, d: DescId) {
    step.By? && step.d == d && AtLastFile(s, d)
  }

  lemma CourseStep(s: Sys, step: Step, d: DescId, id: Id)
    requires Inv(s) && OnCourse(s, d, id) && Enabled(s, step) && SmoothStep(step, d)
    ensures Inv(Apply(s, step)) && (PathInv(s, id) ==> PathInv(Apply(s, step), id))
    ensures if LastFile(s, step, d) then id !in Apply(s, step).lock.lockAt else OnCourse(Apply(s, step), d, id)
  {
    StepKeepsInv(s, step);
    if PathInv(s, id) {
      CourseIsCareful(s, step, d, id);
      StepKeepsPaths(s, step, id);
    }
    if step.By? && step.d == d {
      OwnCourse(s, d, step.op, id);
    } else {
      OthersCourse(s, step, d, id);
    }
  }

  /** No owner file of the id is left, and no path if `paths`. */
  ghost predicate Clean(s: Sys, id: Id, paths: bool) {
    && id !in s.lock.lockAt && SlotOf(s, id).record.None? && !SlotOf(s, id).temp
    && (paths ==> SlotOf(s, id).paths == {})
  }

  ghost predicate SomewhereClean(s: Sys, steps: seq<Step>, id: Id, paths: bool)
    decreases |steps|
  {
    || Clean(s, id, paths)
    || (steps != [] && Enabled(s, steps[0]) && SomewhereClean(Apply(s, steps[0]), steps[1..], id, paths))
  }

  ghost predicate Sound(s: Sys, d: DescId, id: Id, paths: bool) {
    Inv(s) && OnCourse(s, d, id) && (paths ==> PathInv(s, id))
  }

  lemma CleanOrOnCourse(s: Sys, step: Step, next: Sys, d: DescId, id: Id, paths: bool)
    requires Sound(s, d, id, paths) && Leads(s, step, next) && SmoothStep(step, d)
    ensures Clean(next, id, paths) || Sound(next, d, id, paths)
  {
    CourseStep(s, step, d, id);
    assert SlotInv(SlotOf(next, id), id in next.lock.lockAt);
  }

  predicate SmoothRun(steps: seq<Step>, d: DescId) {
    forall i :: 0 <= i < |steps| ==> SmoothStep(steps[i], d)
  }

  /** If what is `good` of a state stays so until a clean state is reached, and needs `d` at
      work, then a run that ends without `d` passes a clean state. */
  lemma {:induction false} GoodUntilClean(good: Sys -> bool, s: Sys, steps: seq<Step>, s': Sys,
                                          d: DescId, id: Id, paths: bool)
    requires forall m, step :: good(m) && Enabled(m, step) && SmoothStep(step, d) ==>
               Clean(Apply(m, step), id, paths) || good(Apply(m, step))
    requires forall m :: good(m) ==> d in m.agents
    requires good(s) && Runs(s, steps, s') && d !in s'.agents && SmoothRun(steps, d)
    ensures SomewhereClean(s, steps, id, paths)
    decreases |steps|
  {
    var next := Apply(s, steps[0]);
    if Clean(next, id, paths) {
      assert SomewhereClean(next, steps[1..], id, paths);
    } else {
      GoodUntilClean(good, next, steps[1..], s', d, id, paths);
    }
  }

  lemma CourseEndsClean(s: Sys, steps: seq<Step>, s': Sys, d: DescId, id: Id, paths: bool)
    requires Sound(s, d, id, paths) && Runs(s, steps, s') && d !in s'.agents && SmoothRun(steps, d)
    ensures SomewhereClean(s, steps, id, paths)
  {
    forall m, step | Sound(m, d, id, paths) && Enabled(m, step) && SmoothStep(step, d)
      ensures Clean(Apply(m, step), id, paths) || Sound(Apply(m, step), d, id, paths)
    {
      CleanOrOnCourse(m, step, Apply(m, step), d, id, paths);
    }
    GoodUntilClean(m => Sound(m, d, id, paths), s, steps, s', d, id, paths);
  }

  // ----- and the id stays clean -----

  /** No record is left, and nobody at work on the id has one in hand or can write one. */
  ghost predicate Settled(s: Sys, id: Id) {
    && SlotOf(s, id).home.Some? && SlotOf(s, id).record.None? && !SlotOf(s, id).temp
    && forall d :: AtWork(s, d, id) ==> Settling(s.agents[d].work)
  }

  predicate Settling(work: Work) {
    work.Entered? || work.Deleting?
  }

  lemma SettlingLocal(d: DescId, agent: Agent, slot: Slot, op: Op)
    requires Local(d, agent, slot, op).Some? && Settling(agent.work)
    requires slot.home.Some? && slot.record.None? && !slot.temp
    ensures
      var o := Local(d, agent, slot, op).value;
      && o.slot.record.None? && !o.slot.temp && (!o.next.Quit? ==> Settling(o.next.work))
  {
  }

  lemma SettledOwn(s: Sys, s': Sys, d: DescId, id: Id, o: Outcome)
    requires Settled(s, id) && OnlyMoves(s, s', d, id) && SelfMoves(s, s', d, id, o)
    requires o.slot.record.None? && !o.slot.temp && (!o.next.Quit? ==> Settling(o.next.work))
    ensures Settled(s', id)
  {
    forall e | AtWork(s', e, id)
      ensures Settling(s'.agents[e].work)
    {
      assert e != d ==> AtWork(s, e, id);
    }
  }

  lemma SettledElsewhere(s: Sys, s': Sys, d: DescId, other: Id, id: Id)
    requires Settled(s, id) && OnlyMoves(s, s', d, other)
    requires other == id ==> SlotOf(s', id) == SlotOf(s, id) && d !in s'.agents
    ensures Settled(s', id)
  {
    forall e | AtWork(s', e, id)
      ensures Settling(s'.agents[e].work)
    {
      assert e != d && AtWork(s, e, id);
    }
  }

  lemma SettledBy(s: Sys, d: DescId, op: Op, id: Id)
    requires Inv(s) && Settled(s, id) && Allowed(s, d, op)
    ensures Settled(Perform(s, d, op), id)
  {
    var s' := Perform(s, d, op);
    PerformMoves(s, d, op);
    if AtWork(s, d, id) {
      PerformSelf(s, d, op);
      SettlingLocal(d, s.agents[d], Mine(s, d), op);
      SettledOwn(s, s', d, id, Local(d, s.agents[d], Mine(s, d), op).value);
    } else {
      if IdOf(s, d) == id {
        LastStep(s, d, op);
      }
      SettledElsewhere(s, s', d, IdOf(s, d), id);
    }
  }

  lemma SettledStays(s: Sys, step: Step, id: Id)
    requires Inv(s) && Settled(s, id) && Enabled(s, step)
    ensures Settled(Apply(s, step), id)
  {
    match step
    case Lock(l) => SettledUnderLock(s, l, id);
    case Enter(d, _, _) => SettledBesides(s, Apply(s, step), d, id);
    case By(d, op) => SettledBy(s, d, op, id);
    case HelperCreate(d, _) => SettledBesides(s, Apply(s, step), d, id);
    case Reboot(_) =>
  }

  lemma SettledUnderLock(s: Sys, l: LP.Step, id: Id)
    requires Inv(s) && Settled(s, id) && PlainLockStep(s, l)
    ensures Settled(s.(lock := LP.Apply(s.lock, l)), id)
  {
    var s' := s.(lock := LP.Apply(s.lock, l));
    forall e | AtWork(s', e, id)
      ensures Settling(s'.agents[e].work)
    {
      PlainLockFrame(s, l, e);
      assert AtWork(s, e, id);
    }
  }

  /** Only `d` may have come, or paths been made. */
  lemma SettledBesides(s: Sys, s': Sys, d: DescId, id: Id)
    requires Settled(s, id)
    requires SlotOf(s', id).record == SlotOf(s, id).record && SlotOf(s', id).temp == SlotOf(s, id).temp
    requires SlotOf(s', id).home == SlotOf(s, id).home
    requires forall e :: AtWork(s', e, id) ==>
               (e == d && s'.agents[e].work.Entered?) || (AtWork(s, e, id) && s'.agents[e] == s.agents[e])
    ensures Settled(s', id)
  {
  }

  /** An owner has begun once and for all. */
  lemma HomeStays(s: Sys, step: Step, id: Id)
    requires Enabled(s, step) && SlotOf(s, id).home.Some?
    ensures SlotOf(Apply(s, step), id).home.Some?
  {
    if step.By? {
      LocalFrame(step.d, s.agents[step.d], Mine(s, step.d), step.op);
      PerformMoves(s, step.d, step.op);
    }
  }

  ghost predicate Cleaned(s: Sys, id: Id, paths: bool) {
    Inv(s) && Settled(s, id) && (paths ==> PathInv(s, id) && Closing(s, id))
  }

  lemma CleanedStays(s: Sys, step: Step, id: Id, paths: bool)
    requires Cleaned(s, id, paths) && Enabled(s, step)
    ensures Cleaned(Apply(s, step), id, paths)
  {
    StepKeepsInv(s, step);
    SettledStays(s, step, id);
    if paths {
      ClosingStays(s, step, id);
      assert step.By? ==> !HasHelper(s, step.d, id);
      StepKeepsPaths(s, step, id);
    }
  }

  /** The lock file has just gone. */
  lemma NamelessIsCleaned(s: Sys, id: Id, paths: bool)
    requires Inv(s) && SlotOf(s, id).home.Some? && id !in s.lock.lockAt && (paths ==> PathInv(s, id))
    ensures Cleaned(s, id, paths)
  {
    assert SlotInv(SlotOf(s, id), id in s.lock.lockAt);
    forall d
      ensures !AtWork(s, d, id) && (paths ==> !HasHelper(s, d, id))
    {
      if AtWork(s, d, id) || (paths && HasHelper(s, d, id)) {
        LP.MutualExclusion(s.lock, d, d, id);
      }
    }
  }

  lemma CleanedOrOnCourse(s: Sys, step: Step, d: DescId, id: Id, paths: bool)
    requires Sound(s, d, id, paths) && SlotOf(s, id).home.Some? && Enabled(s, step) && SmoothStep(step, d)
    ensures
      var next := Apply(s, step);
      Cleaned(next, id, paths) || (Sound(next, d, id, paths) && SlotOf(next, id).home.Some?)
  {
    CourseStep(s, step, d, id);
    HomeStays(s, step, id);
    if LastFile(s, step, d) {
      NamelessIsCleaned(Apply(s, step), id, paths);
    }
  }

  lemma {:induction false} CleanedToTheEnd(s: Sys, steps: seq<Step>, s': Sys, id: Id, paths: bool)
    requires Cleaned(s, id, paths) && Runs(s, steps, s')
    ensures Cleaned(s', id, paths)
    decreases |steps|
  {
    if steps != [] {
      CleanedStays(s, steps[0], id, paths);
      CleanedToTheEnd(Apply(s, steps[0]), steps[1..], s', id, paths);
    }
  }

  lemma {:induction false} CourseEndsCleaned(s: Sys, steps: seq<Step>, s': Sys, d: DescId, id: Id, paths: bool)
    requires Sound(s, d, id, paths) && SlotOf(s, id).home.Some?
    requires Runs(s, steps, s') && d !in s'.agents && SmoothRun(steps, d)
    ensures Cleaned(s', id, paths)
    decreases |steps|
  {
    var next := Apply(s, steps[0]);
    CleanedOrOnCourse(s, steps[0], d, id, paths);
    if Cleaned(next, id, paths) {
      CleanedToTheEnd(next, steps[1..], s', id, paths);
    } else {
      CourseEndsCleaned(next, steps[1..], s', d, id, paths);
    }
  }

  /** A pass that fails at nothing and is not killed: whatever the other processes do meanwhile
      and however many passes were killed before, by the time it has ended there was a point
      with no record, temp or lock file of the id; and with no file or directory of it either,
      if no owner had been ended while its helper lived. An id whose owner has begun stays so:
      at the end, too, it has no record, no temp and no such path. */
  lemma EveryFullPassCleansUp(before: seq<Step>, s: Sys, steps: seq<Step>, s': Sys, d: DescId, id: Id)
    requires Runs(Initial, before, s) && OnCourse(s, d, id)
    requires Runs(s, steps, s') && d !in s'.agents && SmoothRun(steps, d)
    ensures SomewhereClean(s, steps, id, Careful(Initial, before, id))
    ensures SlotOf(s, id).home.Some? ==>
      && SlotOf(s', id).record.None? && !SlotOf(s', id).temp
      && (Careful(Initial, before, id) ==> SlotOf(s', id).paths == {})
  {
    var careful := Careful(Initial, before, id);
    FromInitial(before, s, id);
    CourseEndsClean(s, steps, s', d, id, careful);
    if SlotOf(s, id).home.Some? {
      CourseEndsCleaned(s, steps, s', d, id, careful);
    }
  }

  // ----- a full pass is always possible -----

  /** What the process does next when nothing fails. */
  function SmoothMove(w: Work): Op
    requires w.Entered? || w.Undoing? || w.Deleting?
  {
    match w
    case Entered(_) => Read
    case Undoing(_, sameBoot, _, pass) =>
      if pass.loop.at.Retired? || pass.loop.pending != [] then Effect(SmoothEvent(pass.loop, sameBoot)) else Finish
    case Deleting(_) => Delete(true)
  }

  function WorkLeft(w: Work): nat {
    match w
    case Undoing(_, _, _, pass) => LoopLeft(pass.loop)
    case Deleting(stage) => (match stage case RemoveRecord => 3 case RemoveTemp => 2 case RemoveLock => 1 case Removed => 0)
    case _ => 0
  }

  function Phase(w: Work): nat {
    match w
    case Undoing(_, _, _, _) => 1
    case Deleting(_) => 0
    case _ => 2
  }

  predicate AtRemoved(s: Sys, d: DescId) {
    Working(s, d) && s.agents[d].work == Deleting(Removed) && s.lock.descs[d].pc.Unlinked?
  }

  lemma SmoothMoveHappens(s: Sys, d: DescId, id: Id)
    requires OnCourse(s, d, id)
    ensures
      var op := SmoothMove(s.agents[d].work);
      && Allowed(s, d, op) && SmoothOp(op)
      && if AtLastFile(s, d) then AtRemoved(Perform(s, d, op), d)
         else
           var w, w' := s.agents[d].work, Perform(s, d, op).agents[d].work;
           && OnCourse(Perform(s, d, op), d, id)
           && (Phase(w') < Phase(w) || (Phase(w') == Phase(w) && WorkLeft(w') < WorkLeft(w)))
  {
    var w := s.agents[d].work;
    if w.Undoing? && SmoothMove(w).Effect? {
      SmoothEventHappens(w.pass.loop, w.sameBoot);
    }
    OwnCourse(s, d, SmoothMove(w), id);
  }

  lemma {:induction false} PassCanEnd(s: Sys, d: DescId, id: Id) returns (steps: seq<Step>, s': Sys)
    requires OnCourse(s, d, id)
    ensures Runs(s, steps, s') && SmoothRun(steps, d) && d !in s'.agents
    decreases Phase(s.agents[d].work), WorkLeft(s.agents[d].work)
  {
    var step := By(d, SmoothMove(s.agents[d].work));
    SmoothMoveHappens(s, d, id);
    RunsOne(s, step);
    var next := Apply(s, step);
    var rest;
    if AtLastFile(s, d) {
      rest, s' := [By(d, Delete(true))], Apply(next, By(d, Delete(true)));
      RunsOne(next, By(d, Delete(true)));
    } else {
      rest, s' := PassCanEnd(next, d, id);
    }
    RunsConcat(s, [step], next, rest, s');
    steps := [step] + rest;
  }

  /** A pass takes a free lock on `id`. */
  lemma TakeTheLock(s: Sys, d: DescId, id: Id, namespace: nat) returns (steps: seq<Step>, s': Sys)
    requires id in s.lock.lockAt && s.lock.lockAt[id] !in s.lock.flock
    requires d !in s.lock.descs && d !in s.agents
    ensures Runs(s, steps, s') && SmoothRun(steps, d) && Careful(s, steps, id) && OnCourse(s', d, id)
  {
    steps := [Lock(LP.Open(d, id, 0)), Lock(LP.Flock(d)), Enter(d, false, namespace)];
    var s1 := Apply(s, steps[0]);
    var s2 := Apply(s1, steps[1]);
    s' := Apply(s2, steps[2]);
    assert Leads(s, steps[0], s1) && Leads(s1, steps[1], s2) && Leads(s2, steps[2], s');
    RunsThrough([s, s1, s2, s'], steps);
    QuietIsCareful(s, steps, s', id);
  }

  lemma {:induction false} QuietIsCareful(s: Sys, steps: seq<Step>, s': Sys, id: Id)
    requires Runs(s, steps, s') && forall i :: 0 <= i < |steps| ==> !steps[i].By?
    ensures Careful(s, steps, id)
    decreases |steps|
  {
    if steps != [] {
      QuietIsCareful(Apply(s, steps[0]), steps[1..], s', id);
    }
  }

  lemma {:induction false} CleanLater(s: Sys, a: seq<Step>, m: Sys, b: seq<Step>, id: Id, paths: bool)
    requires Runs(s, a, m) && SomewhereClean(m, b, id, paths)
    ensures SomewhereClean(s, a + b, id, paths)
    decreases |a|
  {
    if a == [] {
      assert a + b == b;
    } else {
      CleanLater(Apply(s, a[0]), a[1..], m, b, id, paths);
      assert (a + b)[0] == a[0] && (a + b)[1..] == a[1..] + b;
    }
  }

  /** From every reachable state, a pass can take a lock nobody holds and run to its end. */
  lemma AFullPassIsPossible(before: seq<Step>, s: Sys, d: DescId, id: Id, namespace: nat)
    returns (steps: seq<Step>, s': Sys)
    requires Runs(Initial, before, s)
    requires id in s.lock.lockAt && s.lock.lockAt[id] !in s.lock.flock
    requires d !in s.lock.descs && d !in s.agents
    ensures Runs(s, steps, s') && SmoothRun(steps, d) && d !in s'.agents
    ensures SomewhereClean(s, steps, id, Careful(Initial, before, id))
  {
    var paths := Careful(Initial, before, id);
    FromInitial(before, s, id);
    var taken, s1 := TakeTheLock(s, d, id, namespace);
    var rest;
    rest, s' := PassCanEnd(s1, d, id);
    RunKeepsInv(s, taken, s1);
    if paths {
      CarefulRunKeepsPaths(s, taken, s1, id);
    }
    CourseEndsClean(s1, rest, s', d, id, paths);
    CleanLater(s, taken, s1, rest, id, paths);
    RunsConcat(s, taken, s1, rest, s');
    steps := taken + rest;
  }
}
