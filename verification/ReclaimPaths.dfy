/** Files and directories in `ReclaimSystem`: recorded before they are made, and unrecorded
    only once they are gone, as long as no owner is ended while a helper it started lives. */
module ReclaimPaths {
  import opened Resources
  import opened ReclaimSystem
  import opened ReclaimSafety
  import UL = UndoLoop
  import LP = LockProtocol

  predicate AllIn(set_: set<Resource>, list: seq<Resource>) {
    forall r :: r in set_ ==> r in list
  }

  /** What the process that has the lock still answers for covers whatever exists. */
  ghost predicate PathWork(work: Work, slot: Slot) {
    match work
    case Entered(_) => true
    case Live(_) => AllIn(slot.lent, ListOf(slot))
    case Undoing(_, _, _, pass) => UL.PathsOnDisk(pass) && AllIn(slot.paths, UL.Listed(pass.loop))
    case Finishing(_, list) => AllIn(slot.paths, list)
    case Deleting(stage) => slot.paths == {}
  }

  /** A description with a live helper: its lock is still the validated one, its owner is live
      or died so, and what the helper may make is on record. */
  ghost predicate Lending(s: Sys, d: DescId)
    requires d in s.lock.descs
  {
    && LP.Alive(s.lock, d, s.lock.descs[d].id)
    && (d in s.agents ==> s.agents[d].work.Live?)
    && AllIn(SlotOf(s, s.lock.descs[d].id).lent, ListOf(SlotOf(s, s.lock.descs[d].id)))
  }

  /** A live helper of the id that was started for some file or directory. */
  predicate HasHelper(s: Sys, d: DescId, id: Id) {
    Lent(s, d, id) && SlotOf(s, id).lent != {}
  }

  predicate AtWork(s: Sys, d: DescId, id: Id) {
    Working(s, d) && IdOf(s, d) == id && s.lock.descs[d].pc.Held?
  }

  predicate Lent(s: Sys, e: DescId, id: Id) {
    e in s.lock.descs && s.lock.descs[e].id == id && s.lock.descs[e].helpers != {}
  }

  /** Only an owner that has begun lends its lock, and an id has one owner. */
  ghost predicate LendersInv(s: Sys, id: Id) {
    forall e :: Lent(s, e, id) ==>
      SlotOf(s, id).home.Some? && forall d :: AtWork(s, d, id) && s.agents[d].work.Live? ==> d == e
  }

  ghost predicate PathInv(s: Sys, id: Id) {
    && LendersInv(s, id)
    && AllIn(SlotOf(s, id).paths, ListOf(SlotOf(s, id)))
    && (forall d :: HasHelper(s, d, id) ==> Lending(s, d))
    && (forall d :: AtWork(s, d, id) ==> PathWork(s.agents[d].work, SlotOf(s, id)))
  }

  predicate Ends(op: Op) {
    op.Discard? || op.Complete?
  }

  /** An owner is discarded or completed while a helper it started still lives. */
  predicate EndsWithHelper(s: Sys, step: Step, id: Id) {
    step.By? && Ends(step.op) && HasHelper(s, step.d, id)
  }

  // ----- one process and its slot -----

  lemma EffectPaths(world: World, w: Work, slot: Slot, e: UL.Event)
    requires w.Undoing? && UL.Advance(w.pass, w.sameBoot, e).Some? && w.pass.disk == ListOf(slot)
    requires PathWork(w, slot) && AllIn(slot.paths, ListOf(slot)) && forall r :: r in slot.paths ==> r.IsPath()
    ensures
      var slot', w' := AfterEffect(slot, world, w.pass.loop, e), w.(pass := UL.Advance(w.pass, w.sameBoot, e).value);
      PathWork(w', slot') && AllIn(slot'.paths, ListOf(slot'))
  {
    DiskFollows(world, w, slot, e);
    var slot', pass' := AfterEffect(slot, world, w.pass.loop, e), UL.Advance(w.pass, w.sameBoot, e).value;
    UL.PathStep(w.sameBoot, w.pass, e);
    UL.NextShape(w.pass.loop, w.sameBoot, e);
    LeftAloneIsKernel(w.pass.loop, w.sameBoot, e);
    forall r | r in slot'.paths
      ensures r in UL.Listed(pass'.loop)
    {
      assert r in UL.Listed(w.pass.loop) && r.IsPath();
    }
  }

  /** The record on disk is what the pass last wrote. */
  lemma DiskFollows(world: World, w: Work, slot: Slot, e: UL.Event)
    requires w.Undoing? && UL.Advance(w.pass, w.sameBoot, e).Some? && w.pass.disk == ListOf(slot)
    ensures UL.Advance(w.pass, w.sameBoot, e).value.disk == ListOf(AfterEffect(slot, world, w.pass.loop, e))
  {
  }

  lemma LeftAloneIsKernel(l: UL.Loop, sameBoot: bool, e: UL.Event)
    requires UL.Next(l, sameBoot, e).Some?
    ensures e.LeftAlone? ==> e.res.IsKernelObject()
  {
  }

  /** What an operation owes the paths of its slot. `lending` says its owner has a helper. */
  ghost predicate PathKeeps(o: Outcome, lending: bool) {
    && AllIn(o.slot.paths, ListOf(o.slot))
    && (!o.next.Quit? ==> PathWork(o.next.work, o.slot) && (lending ==> o.next.work.Live?))
    && (o.next.Quit? && lending ==> !o.next.step.Unlock?)
    && (lending || Lends(o.next) ==> AllIn(o.slot.lent, ListOf(o.slot)))
  }

  predicate Lends(next: Then) {
    next.GoAfter? && next.step.Inherit?
  }

  /** What the paths of a slot depend on: the lists agree with the record. */
  ghost predicate ListsAgree(work: Work, slot: Slot) {
    && (forall r :: r in slot.paths + slot.lent ==> r.IsPath())
    && (slot.home.None? ==> slot.lent == {})
    && (work.Live? ==> work.mem == ListOf(slot))
    && (work.Undoing? ==> work.pass.disk == ListOf(slot))
  }

  lemma LivePaths(d: DescId, world: World, mem: seq<Resource>, slot: Slot, op: Op, lending: bool)
    requires mem == ListOf(slot) && LiveOp(d, world, mem, slot, op).Some? && AllIn(slot.paths, mem)
    requires forall r :: r in slot.paths + slot.lent ==> r.IsPath()
    requires AllIn(slot.lent, mem) && (lending ==> !Ends(op))
    ensures PathKeeps(LiveOp(d, world, mem, slot, op).value, lending)
  {
    match op
    case Forget(gone, _) => assert forall r :: r in mem && r.IsPath() ==> r in Dropping(gone, mem);
    case Complete => assert UL.Listed(UL.Begin(mem).loop) == mem;
    case _ =>
  }

  lemma UndoPaths(world: World, w: Work, slot: Slot, op: Op)
    requires w.Undoing? && UndoOp(world, w, slot, op).Some? && ListsAgree(w, slot)
    requires PathWork(w, slot) && AllIn(slot.paths, ListOf(slot))
    ensures PathKeeps(UndoOp(world, w, slot, op).value, false)
  {
    if op.Effect? {
      EffectPaths(world, w, slot, op.e);
    } else {
      FinishPaths(world, w, slot);
    }
  }

  lemma FinishPaths(world: World, w: Work, slot: Slot)
    requires w.Undoing? && UndoOp(world, w, slot, Finish).Some?
    requires PathWork(w, slot) && AllIn(slot.paths, ListOf(slot))
    ensures PathKeeps(UndoOp(world, w, slot, Finish).value, false)
  {
    UL.ListedAtTheEnd(w.pass.loop);
  }

  lemma ReadPaths(world: World, slot: Slot)
    requires AllIn(slot.paths, ListOf(slot))
    ensures PathKeeps(ReadRecord(world, slot), false)
  {
    if slot.record.Some? {
      assert UL.Listed(UL.Begin(slot.record.value.resources).loop) == slot.record.value.resources;
    }
  }

  lemma LocalPaths(d: DescId, agent: Agent, slot: Slot, op: Op, lending: bool)
    requires ListsAgree(agent.work, slot) && Local(d, agent, slot, op).Some?
    requires AllIn(slot.paths, ListOf(slot)) && PathWork(agent.work, slot)
    requires lending ==> agent.work.Live? && !Ends(op)
    ensures PathKeeps(Local(d, agent, slot, op).value, lending)
  {
    if !op.Die? {
      match agent.work
      case Entered(owner) =>
        if !owner && op.Read? {
          ReadPaths(agent.world, slot);
        }
      case Live(mem) => LivePaths(d, agent.world, mem, slot, op, lending);
      case Undoing(_, _, _, _) => UndoPaths(agent.world, agent.work, slot, op);
      case Finishing(_, _) =>
      case Deleting(_) =>
    }
  }

  // ----- the whole system -----

  lemma AgentLists(s: Sys, d: DescId, id: Id)
    requires Inv(s) && AtWork(s, d, id)
    ensures LocalInv(s.agents[d], SlotOf(s, id), s.boot) && ListsAgree(s.agents[d].work, SlotOf(s, id))
  {
    SlotFacts(s, d);
  }

  /** Only one description of an id is at work or lends. */
  lemma Alone(s: Sys, d: DescId, e: DescId, id: Id)
    requires Inv(s) && PathInv(s, id) && AtWork(s, d, id) && (AtWork(s, e, id) || HasHelper(s, e, id))
    ensures e == d
  {
    LP.MutualExclusion(s.lock, d, e, id);
  }

  /** A step that leaves one id's slot alone, and its descriptions but for helpers that exit. */
  lemma PathsUnmoved(s: Sys, s': Sys, id: Id)
    requires PathInv(s, id) && SlotOf(s', id) == SlotOf(s, id)
    requires forall d :: Lent(s', d, id) ==> Lent(s, d, id)
    requires forall d :: HasHelper(s', d, id) ==> LP.Alive(s'.lock, d, id)
    requires forall d :: Lent(s', d, id) && d in s'.agents ==> d in s.agents && s'.agents[d].work == s.agents[d].work
    requires forall d :: AtWork(s', d, id) ==>
               s'.agents[d].work.Entered? || (AtWork(s, d, id) && s'.agents[d].work == s.agents[d].work)
    ensures PathInv(s', id)
  {
    forall d | HasHelper(s', d, id)
      ensures Lending(s', d)
    {
      assert HasHelper(s, d, id);
      assert Lending(s, d);
    }
  }

  lemma LockPaths(s: Sys, step: LP.Step, id: Id)
    requires Inv(s) && PlainLockStep(s, step) && PathInv(s, id)
    ensures PathInv(s.(lock := LP.Apply(s.lock, step)), id)
  {
    var s' := s.(lock := LP.Apply(s.lock, step));
    forall d | Lent(s', d, id)
      ensures Lent(s, d, id) && (HasHelper(s', d, id) ==> LP.Alive(s'.lock, d, id))
    {
      LockHelpers(s.lock, step, d);
      assert HasHelper(s, d, id) ==> Lending(s, d);
    }
    forall d | AtWork(s', d, id)
      ensures AtWork(s, d, id)
    {
      PlainLockFrame(s, step, d);
    }
    PathsUnmoved(s, s', id);
  }

  /** A plain lock step gives no description a helper, and leaves a validated lock validated
      as long as a helper has it. */
  lemma LockHelpers(l: LP.State, step: LP.Step, d: DescId)
    requires LP.Inv(l) && LP.Enabled(l, step) && !step.Inherit? && !step.Unlink? && !step.Unlock?
    requires d in LP.Apply(l, step).descs && LP.Apply(l, step).descs[d].helpers != {}
    ensures d in l.descs && l.descs[d].helpers != {} && l.descs[d].id == LP.Apply(l, step).descs[d].id
    ensures LP.Alive(l, d, l.descs[d].id) ==> LP.Alive(LP.Apply(l, step), d, l.descs[d].id)
  {
    if d in l.descs {
      assert LP.DescInv(l, d);
    }
  }

  lemma EnterPaths(s: Sys, d: DescId, owner: bool, namespace: nat, id: Id)
    requires Inv(s) && Enabled(s, Enter(d, owner, namespace)) && PathInv(s, id)
    ensures PathInv(Apply(s, Enter(d, owner, namespace)), id)
  {
    var s' := Apply(s, Enter(d, owner, namespace));
    assert LP.DescInv(s.lock, d);
    forall e | Lent(s', e, id)
      ensures Lent(s, e, id) && e != d && (HasHelper(s', e, id) ==> LP.Alive(s'.lock, e, id))
    {
      assert HasHelper(s, e, id) ==> Lending(s, e);
    }
    PathsUnmoved(s, s', id);
  }

  /** Only `d`'s own description moves. */
  ghost predicate DescMoves(l: LP.State, l': LP.State, d: DescId, id: Id) {
    && (forall e :: e != d ==> (e in l'.descs <==> e in l.descs))
    && (forall e :: e != d && e in l.descs ==> l'.descs[e] == l.descs[e])
    && d in l.descs && d in l'.descs && l.descs[d].id == id == l'.descs[d].id
  }

  /** Only `d`'s own description, program point and slot move. */
  ghost predicate OnlyMoves(s: Sys, s': Sys, d: DescId, id: Id) {
    && DescMoves(s.lock, s'.lock, d, id)
    && (forall e :: e != d ==> (e in s'.agents <==> e in s.agents))
    && (forall e :: e != d && e in s.agents ==> s'.agents[e] == s.agents[e])
    && (forall j :: j != id ==> SlotOf(s', j) == SlotOf(s, j))
  }

  lemma LockStepMoves(l: LP.State, next: Then, d: DescId)
    requires d in l.descs && LockAllows(l, next) && OwnLockStep(next, d) && !next.Go?
    ensures DescMoves(l, LP.Apply(l, next.step), d, l.descs[d].id)
  {
  }

  /** The lock step of an outcome is one of the description that performs it. */
  predicate OwnLockStep(next: Then, d: DescId) {
    && (next.Quit? ==> next.step == LP.Unlock(d) || next.step == LP.Release(d) || next.step == LP.Kill(d))
    && (next.GoAfter? ==> next.step == LP.Unlink(d) || (next.step.Inherit? && next.step.d == d))
  }

  lemma ContinueMoves(s: Sys, d: DescId, o: Outcome)
    requires Working(s, d) && LockAllows(s.lock, o.next) && OwnLockStep(o.next, d)
    ensures OnlyMoves(s, Continue(SetSlot(s, IdOf(s, d), o.slot), d, o.next), d, IdOf(s, d))
  {
    if !o.next.Go? {
      LockStepMoves(s.lock, o.next, d);
    }
  }

  lemma PerformMoves(s: Sys, d: DescId, op: Op)
    requires Allowed(s, d, op)
    ensures OnlyMoves(s, Perform(s, d, op), d, IdOf(s, d))
  {
    LocalLockStep(d, s.agents[d], Mine(s, d), op);
    ContinueMoves(s, d, Local(d, s.agents[d], Mine(s, d), op).value);
  }

  lemma OtherPaths(s: Sys, s': Sys, d: DescId, other: Id, id: Id)
    requires PathInv(s, id) && OnlyMoves(s, s', d, other) && id != other
    ensures PathInv(s', id)
  {
    forall e | Lent(s', e, id)
      ensures Lent(s, e, id) && e != d && (HasHelper(s', e, id) ==> LP.Alive(s'.lock, e, id))
    {
      assert Lent(s, e, id);
      assert HasHelper(s, e, id) ==> Lending(s, e);
    }
    PathsUnmoved(s, s', id);
  }

  /** A helper makes a path: nothing but the slot's paths moves. */
  lemma MadePaths(s: Sys, s': Sys, id: Id, made: set<Resource>)
    requires PathInv(s, id) && s'.lock == s.lock && s'.agents == s.agents
    requires SlotOf(s', id) == SlotOf(s, id).(paths := SlotOf(s, id).paths + made)
    requires AllIn(made, ListOf(SlotOf(s, id)))
    requires made != {} ==> forall d :: AtWork(s, d, id) ==> s.agents[d].work.Live?
    ensures PathInv(s', id)
  {
    forall e | HasHelper(s', e, id)
      ensures Lending(s', e)
    {
      assert HasHelper(s, e, id);
      assert Lending(s, e);
    }
    forall e | AtWork(s', e, id)
      ensures PathWork(s'.agents[e].work, SlotOf(s', id))
    {
      assert AtWork(s, e, id);
    }
    assert forall e :: Lent(s', e, id) ==> Lent(s, e, id);
  }

  lemma HelperPaths(s: Sys, d: DescId, r: Resource, id: Id)
    requires Inv(s) && Enabled(s, HelperCreate(d, r)) && PathInv(s, id)
    ensures PathInv(Apply(s, HelperCreate(d, r)), id)
  {
    var s' := Apply(s, HelperCreate(d, r));
    if s.lock.descs[d].id != id {
      assert SlotOf(s, id).paths + {} == SlotOf(s, id).paths;
      MadePaths(s, s', id, {});
    } else {
      assert HasHelper(s, d, id) && Lending(s, d);
      forall e | AtWork(s, e, id)
        ensures s.agents[e].work.Live?
      {
        Alone(s, e, d, id);
      }
      MadePaths(s, s', id, {r});
    }
  }

  /** A step of the description at work on the id, when nobody else is. */
  lemma OwnMoves(s: Sys, s': Sys, d: DescId, id: Id)
    requires PathInv(s, id) && OnlyMoves(s, s', d, id)
    requires forall e :: e != d ==> !AtWork(s, e, id) && !HasHelper(s', e, id)
    requires AllIn(SlotOf(s', id).paths, ListOf(SlotOf(s', id))) && LendersInv(s', id)
    requires HasHelper(s', d, id) ==> Lending(s', d)
    requires AtWork(s', d, id) ==> PathWork(s'.agents[d].work, SlotOf(s', id))
    ensures PathInv(s', id)
  {
    forall e | e != d
      ensures !AtWork(s', e, id)
    {
      assert !AtWork(s, e, id);
    }
  }

  /** What becomes of `d` itself by an outcome. */
  ghost predicate SelfMoves(s: Sys, s': Sys, d: DescId, id: Id, o: Outcome) {
    && SlotOf(s', id) == o.slot
    && (d in s'.agents <==> !o.next.Quit?)
    && (!o.next.Quit? ==> s'.agents[d].work == o.next.work)
    && (Lent(s', d, id) ==> Lent(s, d, id) || Lends(o.next))
    && (Lent(s', d, id) && !GivesUp(o.next) ==> LP.Alive(s'.lock, d, id))
    && (o.slot.lent == SlotOf(s, id).lent || Lends(o.next))
    && (SlotOf(s, id).home.Some? ==> o.slot.home.Some?)
  }

  /** The lock's name or the lock itself is given up. */
  predicate GivesUp(next: Then) {
    (next.GoAfter? && next.step.Unlink?) || (next.Quit? && next.step.Unlock?)
  }

  lemma PerformSelf(s: Sys, d: DescId, op: Op)
    requires Allowed(s, d, op) && s.lock.descs[d].pc.Held?
    ensures SelfMoves(s, Perform(s, d, op), d, IdOf(s, d), Local(d, s.agents[d], Mine(s, d), op).value)
  {
    LocalLockStep(d, s.agents[d], Mine(s, d), op);
    LocalFrame(d, s.agents[d], Mine(s, d), op);
    ContinueSelf(s, d, Local(d, s.agents[d], Mine(s, d), op).value);
  }

  lemma ContinueSelf(s: Sys, d: DescId, o: Outcome)
    requires Working(s, d) && s.lock.descs[d].pc.Held? && LockAllows(s.lock, o.next) && OwnLockStep(o.next, d)
    requires o.slot.lent == Mine(s, d).lent || Lends(o.next)
    requires Mine(s, d).home.Some? ==> o.slot.home.Some?
    ensures SelfMoves(s, Continue(SetSlot(s, IdOf(s, d), o.slot), d, o.next), d, IdOf(s, d), o)
  {
  }

  /** Becoming live, or lending, is for an owner alone on its id. */
  ghost predicate Proper(work: Work, slot: Slot, next: Then) {
    && (Lends(next) ==> work.Live? && next.work.Live? && slot.home.Some?)
    && (!next.Quit? && next.work.Live? ==> work.Live? || slot.home.None?)
    && (GivesUp(next) && !next.Quit? ==> !next.work.Live?)
  }

  lemma OwnLenders(s: Sys, s': Sys, d: DescId, id: Id, o: Outcome)
    requires LendersInv(s, id) && OnlyMoves(s, s', d, id) && SelfMoves(s, s', d, id, o) && AtWork(s, d, id)
    requires Proper(s.agents[d].work, SlotOf(s, id), o.next) && forall e :: e != d ==> !AtWork(s, e, id)
    ensures LendersInv(s', id)
  {
    forall e | Lent(s', e, id)
      ensures SlotOf(s', id).home.Some? && forall c :: AtWork(s', c, id) && s'.agents[c].work.Live? ==> c == e
    {
      assert e != d ==> Lent(s, e, id);
      forall c | AtWork(s', c, id) && s'.agents[c].work.Live?
        ensures c == e
      {
        assert c != d ==> AtWork(s, c, id);
        assert c == d;
      }
    }
  }

  lemma OwnSettles(s: Sys, s': Sys, d: DescId, id: Id, o: Outcome, lending: bool)
    requires PathInv(s, id) && OnlyMoves(s, s', d, id) && SelfMoves(s, s', d, id, o) && AtWork(s, d, id)
    requires forall e :: e != d ==> !AtWork(s, e, id) && !HasHelper(s, e, id)
    requires PathKeeps(o, lending) && lending == HasHelper(s, d, id)
    requires Proper(s.agents[d].work, SlotOf(s, id), o.next)
    ensures PathInv(s', id)
  {
    OwnLenders(s, s', d, id, o);
    forall e | e != d
      ensures !HasHelper(s', e, id)
    {
      if Lent(s', e, id) {
        assert Lent(s, e, id);
        assert !Lends(o.next);
        assert !HasHelper(s, e, id);
      }
    }
    OwnMoves(s, s', d, id);
  }

  lemma AloneAtWork(s: Sys, d: DescId, id: Id)
    requires Inv(s) && PathInv(s, id) && AtWork(s, d, id)
    ensures forall e :: e != d ==> !AtWork(s, e, id) && !HasHelper(s, e, id)
  {
    forall e | e != d && (AtWork(s, e, id) || HasHelper(s, e, id))
      ensures false
    {
      Alone(s, d, e, id);
    }
  }

  lemma WorkIsKept(s: Sys, d: DescId, op: Op, id: Id)
    requires Inv(s) && Allowed(s, d, op) && PathInv(s, id) && AtWork(s, d, id)
    requires HasHelper(s, d, id) ==> !Ends(op)
    ensures PathKeeps(Local(d, s.agents[d], Mine(s, d), op).value, HasHelper(s, d, id))
  {
    AgentLists(s, d, id);
    assert HasHelper(s, d, id) ==> Lending(s, d);
    LocalPaths(d, s.agents[d], Mine(s, d), op, HasHelper(s, d, id));
  }

  lemma OwnPaths(s: Sys, d: DescId, op: Op, id: Id)
    requires Inv(s) && Allowed(s, d, op) && PathInv(s, id) && AtWork(s, d, id)
    requires HasHelper(s, d, id) ==> !Ends(op)
    ensures PathInv(Perform(s, d, op), id)
  {
    WorkIsKept(s, d, op, id);
    AgentLists(s, d, id);
    LocalProper(d, s.agents[d], Mine(s, d), s.boot, op);
    PerformMoves(s, d, op);
    PerformSelf(s, d, op);
    AloneAtWork(s, d, id);
    OwnSettles(s, Perform(s, d, op), d, id, Local(d, s.agents[d], Mine(s, d), op).value, HasHelper(s, d, id));
  }

  /** What no operation changes: an owner has begun once, and only lending adds to `lent`. */
  lemma LocalFrame(d: DescId, agent: Agent, slot: Slot, op: Op)
    requires Local(d, agent, slot, op).Some?
    ensures
      var o := Local(d, agent, slot, op).value;
      && (o.slot.lent == slot.lent || Lends(o.next))
      && (slot.home.Some? ==> o.slot.home == slot.home)
  {
    if op.Effect? {
      AfterEffectFrame(slot, agent.world, agent.work.pass.loop, op.e);
    }
  }

  lemma LocalProper(d: DescId, agent: Agent, slot: Slot, boot: nat, op: Op)
    requires LocalInv(agent, slot, boot) && Local(d, agent, slot, op).Some?
    ensures Proper(agent.work, slot, Local(d, agent, slot, op).value.next)
  {
  }

  /** The last step of a process that has unlinked its lock file: it has no helper. */
  lemma LastPaths(s: Sys, d: DescId, op: Op, id: Id)
    requires Inv(s) && Allowed(s, d, op) && PathInv(s, id) && IdOf(s, d) == id && !s.lock.descs[d].pc.Held?
    ensures PathInv(Perform(s, d, op), id)
  {
    var s' := Perform(s, d, op);
    PerformMoves(s, d, op);
    LastStep(s, d, op);
    assert !HasHelper(s, d, id) by {
      assert HasHelper(s, d, id) ==> Lending(s, d);
      LastPc(s, d);
    }
    Departed(s, s', d, id);
  }

  lemma LastPc(s: Sys, d: DescId)
    requires Inv(s) && Working(s, d) && !s.lock.descs[d].pc.Held?
    ensures s.lock.descs[d].pc.Unlinked? && s.agents[d].work == Deleting(Removed)
  {
    SlotFacts(s, d);
  }

  lemma LastStep(s: Sys, d: DescId, op: Op)
    requires Inv(s) && Allowed(s, d, op) && !s.lock.descs[d].pc.Held?
    ensures
      var s' := Perform(s, d, op);
      && SlotOf(s', IdOf(s, d)) == SlotOf(s, IdOf(s, d)) && d !in s'.agents
      && s'.lock.descs[d].helpers == s.lock.descs[d].helpers
  {
    LastPc(s, d);
    LocalLockStep(d, s.agents[d], Mine(s, d), op);
  }

  lemma Departed(s: Sys, s': Sys, d: DescId, id: Id)
    requires PathInv(s, id) && OnlyMoves(s, s', d, id) && SlotOf(s', id) == SlotOf(s, id)
    requires d !in s'.agents && s'.lock.descs[d].helpers == s.lock.descs[d].helpers && !HasHelper(s', d, id)
    ensures PathInv(s', id)
  {
    forall e | Lent(s', e, id)
      ensures Lent(s, e, id) && (HasHelper(s', e, id) ==> LP.Alive(s'.lock, e, id))
    {
      assert Lent(s, e, id);
      assert HasHelper(s, e, id) ==> Lending(s, e);
    }
    PathsUnmoved(s, s', id);
  }

  /** Every step keeps every id's paths on record, but for the end of an owner that still has
      a helper. */
  lemma StepKeepsPaths(s: Sys, step: Step, id: Id)
    requires Inv(s) && Enabled(s, step) && PathInv(s, id) && !EndsWithHelper(s, step, id)
    ensures PathInv(Apply(s, step), id)
  {
    match step
    case Lock(l) => LockPaths(s, l, id);
    case Enter(d, owner, namespace) => EnterPaths(s, d, owner, namespace, id);
    case By(d, op) =>
      if IdOf(s, d) != id {
        PerformMoves(s, d, op);
        OtherPaths(s, Perform(s, d, op), d, IdOf(s, d), id);
      } else if s.lock.descs[d].pc.Held? {
        OwnPaths(s, d, op, id);
      } else {
        LastPaths(s, d, op, id);
      }
    case HelperCreate(d, r) => HelperPaths(s, d, r, id);
    case Reboot(_) =>
  }
}
