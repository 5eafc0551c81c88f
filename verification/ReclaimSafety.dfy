/** What every step of `ReclaimSystem` keeps, and the protocol's safety over whole runs. */
module ReclaimSafety {
  import opened Resources
  import opened ReclaimSystem
  import UL = UndoLoop
  import LP = LockProtocol

  /** The kernel objects in `list`, read as a record of `world`, are the oldest of those its
      owner recorded there, none of them deleted by an undo, and their names are names the
      owner still has. A list without kernel objects names nothing. */
  ghost predicate KernelSound(world: World, list: seq<Resource>, slot: Slot) {
    || Select(AnyKernel, list) == []
    || (&& slot.home == Some(world)
        && Select(AnyKernel, list) <= slot.book
        && Behind(slot.undone, |Select(AnyKernel, list)|)
        && Select(OwnerNamed, list) <= slot.claims)
  }

  ghost predicate Behind(undone: set<nat>, k: nat) {
    forall p :: p in undone ==> k <= p
  }

  ghost predicate SlotInv(slot: Slot, locked: bool) {
    // Retired first: whatever kernel object is listed is still this owner's.
    && (slot.record.Some? ==> KernelSound(slot.record.value.world, slot.record.value.resources, slot))
    && (forall p :: p in slot.undone ==> p < |slot.book|)
    && (forall r :: r in slot.paths + slot.lent ==> r.IsPath())
    && (slot.home.None? ==> slot == EmptySlot)
    // The lock file goes last.
    && (!locked ==> slot.record.None? && !slot.temp)
  }

  /** A pass in progress and the slot it works on. */
  ghost predicate Accounted(world: World, sameBoot: bool, pass: UL.Pass, slot: Slot) {
    pass.disk == ListOf(slot) && (sameBoot ==> KernelSound(world, UL.Listed(pass.loop), slot))
  }

  ghost predicate AgentInv(agent: Agent, pc: LP.Pc, slot: Slot, boot: nat) {
    && agent.world.boot == boot
    && match agent.work
       case Entered(_) => pc.Held?
       case Live(mem) =>
         && pc.Held? && slot.home == Some(agent.world)
         && mem == ListOf(slot)
         && (slot.record.Some? ==> slot.record.value.world == agent.world)
         && slot.book == Select(AnyKernel, mem) && slot.undone == {}
         && Select(OwnerNamed, mem) <= slot.claims
       case Undoing(owner, sameBoot, input, pass) =>
         && pc.Held? && slot.home.Some?
         && (owner ==> sameBoot && slot.home == Some(agent.world))
         && UL.KernelSide(input, sameBoot, pass)
         && Accounted(agent.world, sameBoot, pass, slot)
       case Finishing(_, list) => pc.Held? && slot.home.Some? && KernelSound(agent.world, list, slot)
       case Deleting(stage) =>
         if stage.Removed? then pc.Unlinked?
         else pc.Held? && (!stage.RemoveRecord? ==> slot.record.None?) && (stage.RemoveLock? ==> !slot.temp)
  }

  ghost predicate AgentOk(s: Sys, d: DescId)
    requires d in s.agents
  {
    d in s.lock.descs && AgentInv(s.agents[d], s.lock.descs[d].pc, SlotOf(s, s.lock.descs[d].id), s.boot)
  }

  predicate SameWorld(s: Sys, a: Id, b: Id) {
    a in s.slots && b in s.slots && a != b && s.slots[a].home.Some? && s.slots[a].home == s.slots[b].home
  }

  /** No kernel name is two owners' in one world. */
  ghost predicate Exclusive(s: Sys) {
    forall a, b, r :: SameWorld(s, a, b) && r in s.slots[a].claims ==> r !in s.slots[b].claims
  }

  ghost predicate SlotsInv(s: Sys) {
    forall id :: SlotInv(SlotOf(s, id), id in s.lock.lockAt)
  }

  ghost predicate AgentsInv(s: Sys) {
    forall d :: d in s.agents ==> AgentOk(s, d)
  }

  ghost predicate Inv(s: Sys) {
    LP.Inv(s.lock) && SlotsInv(s) && AgentsInv(s) && Exclusive(s)
  }

  /** One process at work on `id` changes its own slot, its own program point and its own
      description: the others cannot be on the same id. */
  lemma WorkStepKeepsInv(s: Sys, s': Sys, d: DescId)
    requires Inv(s) && Working(s, d)
    requires s.lock.descs[d].pc.Held? || SlotOf(s', IdOf(s, d)) == SlotOf(s, IdOf(s, d))
    requires s'.boot == s.boot && LP.Inv(s'.lock)
    requires forall e :: e in s'.agents && e != d ==> e in s.agents && s'.agents[e] == s.agents[e]
    requires forall e :: e in s.lock.descs && e != d ==> e in s'.lock.descs && s'.lock.descs[e] == s.lock.descs[e]
    requires forall j :: j != IdOf(s, d) ==> SlotOf(s', j) == SlotOf(s, j)
    requires forall j :: j != IdOf(s, d) ==> (j in s'.lock.lockAt <==> j in s.lock.lockAt)
    requires SlotInv(SlotOf(s', IdOf(s, d)), IdOf(s, d) in s'.lock.lockAt)
    requires d in s'.agents ==> AgentOk(s', d)
    requires Exclusive(s')
    ensures Inv(s')
  {
    var id := IdOf(s, d);
    forall e | e in s'.agents
      ensures AgentOk(s', e)
    {
      if e != d {
        assert AgentOk(s, e);
        if s.lock.descs[e].id == id && s.lock.descs[e].pc.Held? && s.lock.descs[d].pc.Held? {
          LP.MutualExclusion(s.lock, d, e, id);
        }
      }
    }
    forall j
      ensures SlotInv(SlotOf(s', j), j in s'.lock.lockAt)
    {
      if j != id {
        assert SlotInv(SlotOf(s, j), j in s.lock.lockAt);
      }
    }
  }

  /** Shrinking one owner's claims cannot create a conflict. */
  lemma ExclusiveShrinks(s: Sys, id: Id, slot: Slot)
    requires Exclusive(s)
    requires slot.claims != [] ==> id in s.slots && slot.home == s.slots[id].home
    requires forall r :: r in slot.claims ==> id in s.slots && r in s.slots[id].claims
    ensures Exclusive(SetSlot(s, id, slot))
  {
    var s' := SetSlot(s, id, slot);
    forall a, b, r | SameWorld(s', a, b) && r in s'.slots[a].claims
      ensures r !in s'.slots[b].claims
    {
      if r in s'.slots[b].claims {
        assert a in s.slots && r in s.slots[a].claims;
        assert b in s.slots && r in s.slots[b].claims;
        assert SameWorld(s, a, b);
      }
    }
  }

  lemma ExclusiveSame(s: Sys, s': Sys)
    requires Exclusive(s) && s'.slots == s.slots
    ensures Exclusive(s')
  {
  }

  lemma SlotFacts(s: Sys, d: DescId)
    requires Inv(s) && d in s.agents
    ensures Working(s, d) && AgentOk(s, d)
    ensures SlotInv(Mine(s, d), IdOf(s, d) in s.lock.lockAt)
    ensures s.lock.descs[d].pc.Held? ==> IdOf(s, d) in s.lock.lockAt
    ensures Mine(s, d).home.Some? ==> IdOf(s, d) in s.slots
  {
    assert AgentOk(s, d);
    assert LP.DescInv(s.lock, d);
    assert SlotInv(SlotOf(s, s.lock.descs[d].id), s.lock.descs[d].id in s.lock.lockAt);
  }

  lemma HelperCreateKeepsInv(s: Sys, d: DescId, r: Resource)
    requires Inv(s) && Enabled(s, HelperCreate(d, r))
    ensures Inv(Apply(s, HelperCreate(d, r)))
  {
    var id := s.lock.descs[d].id;
    var s' := Apply(s, HelperCreate(d, r));
    assert SlotInv(SlotOf(s, id), id in s.lock.lockAt);
    forall e | e in s'.agents
      ensures AgentOk(s', e)
    {
      assert AgentOk(s, e);
    }
    forall j
      ensures SlotInv(SlotOf(s', j), j in s'.lock.lockAt)
    {
      assert SlotInv(SlotOf(s, j), j in s.lock.lockAt);
    }
    ExclusiveShrinks(s, id, SlotOf(s', id));
  }

  /** A plain lock step moves no process that is at work, and takes no name away. */
  lemma PlainLockFrame(s: Sys, step: LP.Step, e: DescId)
    requires PlainLockStep(s, step) && AgentsInv(s) && e in s.agents
    ensures
      var l := LP.Apply(s.lock, step);
      && e in l.descs && e in s.lock.descs
      && l.descs[e].pc == s.lock.descs[e].pc && l.descs[e].id == s.lock.descs[e].id
  {
    assert AgentOk(s, e);
  }

  lemma PlainLockNames(s: Sys, step: LP.Step)
    requires PlainLockStep(s, step)
    ensures forall j :: j in s.lock.lockAt ==> j in LP.Apply(s.lock, step).lockAt
  {
  }

  lemma PlainLockKeepsInv(s: Sys, step: LP.Step)
    requires Inv(s) && PlainLockStep(s, step)
    ensures Inv(s.(lock := LP.Apply(s.lock, step)))
  {
    var s' := s.(lock := LP.Apply(s.lock, step));
    LP.StepKeepsInv(s.lock, step);
    PlainLockNames(s, step);
    forall e | e in s'.agents
      ensures AgentOk(s', e)
    {
      assert AgentOk(s, e);
      PlainLockFrame(s, step, e);
    }
    forall j
      ensures SlotInv(SlotOf(s', j), j in s'.lock.lockAt)
    {
      assert SlotInv(SlotOf(s, j), j in s.lock.lockAt);
    }
    ExclusiveSame(s, s');
  }

  lemma EnterKeepsInv(s: Sys, d: DescId, owner: bool, namespace: nat)
    requires Inv(s) && Enabled(s, Enter(d, owner, namespace))
    ensures Inv(Apply(s, Enter(d, owner, namespace)))
  {
    LP.StepKeepsInv(s.lock, LP.Check(d));
    NewcomerKeepsInv(s, Apply(s, Enter(d, owner, namespace)), d);
  }

  /** A process comes to an id it has locked, and changes nothing there yet. */
  lemma NewcomerKeepsInv(s: Sys, s': Sys, d: DescId)
    requires Inv(s) && LP.Inv(s'.lock)
    requires s'.boot == s.boot && s'.slots == s.slots && s'.lock.lockAt == s.lock.lockAt
    requires forall e :: e in s'.agents && e != d ==> e in s.agents && s'.agents[e] == s.agents[e]
    requires forall e :: e in s.lock.descs && e != d ==> e in s'.lock.descs && s'.lock.descs[e] == s.lock.descs[e]
    requires d in s'.agents ==> AgentOk(s', d)
    ensures Inv(s')
  {
    forall e | e in s'.agents
      ensures AgentOk(s', e)
    {
      if e != d {
        assert AgentOk(s, e);
      }
    }
    forall j
      ensures SlotInv(SlotOf(s', j), j in s'.lock.lockAt)
    {
      assert SlotInv(SlotOf(s, j), j in s.lock.lockAt);
    }
    ExclusiveSame(s, s');
  }

  lemma NoKernelNoOwnerNamed(list: seq<Resource>)
    requires Select(AnyKernel, list) == []
    ensures Select(OwnerNamed, list) == []
  {
    SelectNested(list);
  }

  lemma OwnerNamedPrefix(a: seq<Resource>, b: seq<Resource>)
    requires Select(AnyKernel, a) <= Select(AnyKernel, b)
    ensures Select(OwnerNamed, a) <= Select(OwnerNamed, b)
  {
    SelectNested(a);
    SelectNested(b);
    SelectPrefix(OwnerNamed, Select(AnyKernel, a), Select(AnyKernel, b));
  }

  /** A list with fewer kernel objects, cut off at the end, is as sound. */
  lemma SoundPrefix(world: World, a: seq<Resource>, b: seq<Resource>, slot: Slot)
    requires KernelSound(world, b, slot) && Select(AnyKernel, a) <= Select(AnyKernel, b)
    ensures KernelSound(world, a, slot)
  {
    OwnerNamedPrefix(a, b);
  }

  /** The slot after the undo of the kernel object behind `pending`. */
  function Undone(slot: Slot, pending: seq<Resource>, r: Resource): Slot {
    slot.(undone := slot.undone + {|Select(AnyKernel, pending)|},
          claims := if r.IsOwnerNamed() then TakeFirst(slot.claims, |Select(OwnerNamed, pending)|) else slot.claims)
  }

  /** Deleting the retired object frees its name and the names taken after it. Neither it nor
      they are in a list of the kernel objects before it. */
  lemma UndoneIsOffTheList(world: World, pending: seq<Resource>, r: Resource, kept: seq<Resource>, list: seq<Resource>, slot: Slot)
    requires r.IsKernelObject() && Select(AnyKernel, kept) == []
    requires KernelSound(world, pending + [r] + kept, slot)
    requires Select(AnyKernel, list) <= Select(AnyKernel, pending)
    ensures KernelSound(world, list, Undone(slot, pending, r))
  {
    UL.SelectAround(AnyKernel, pending, r, kept);
    UL.SelectAround(OwnerNamed, pending, r, kept);
    NoKernelNoOwnerNamed(kept);
    OwnerNamedPrefix(list, pending);
    assert Select(OwnerNamed, pending) <= slot.claims;
  }

  /** A sound list of some world is sound only of its owner's. */
  lemma SoundElsewhere(world: World, recorded: World, a: seq<Resource>, b: seq<Resource>, slot: Slot)
    requires KernelSound(world, a, slot) && KernelSound(recorded, b, slot)
    requires Select(AnyKernel, a) != [] && Select(AnyKernel, b) != []
    ensures recorded == world
  {
  }

  lemma EffectHere(world: World, input: seq<Resource>, pass: UL.Pass, slot: Slot, e: UL.Event)
    requires UL.Advance(pass, true, e).Some? && UL.KernelInv(input, pass.loop, pass.disk)
    requires UL.KernelInv(input, UL.Advance(pass, true, e).value.loop, UL.Advance(pass, true, e).value.disk)
    requires Accounted(world, true, pass, slot) && SlotSound(slot)
    ensures Accounted(world, true, UL.Advance(pass, true, e).value, AfterEffect(slot, world, pass.loop, e))
    ensures SlotSound(AfterEffect(slot, world, pass.loop, e))
  {
    UL.NextShape(pass.loop, true, e);
    if KernelUndo(e) {
      UndoHere(world, input, pass, slot, e);
    } else if UL.Removes(e) {
      PathUndoHere(world, pass, slot, e);
    } else if e.Persisted? {
      var pass' := UL.Advance(pass, true, e).value;
      SoundPrefix(world, pass'.disk, UL.Listed(pass'.loop), slot);
    }
  }

  predicate KernelUndo(e: UL.Event) {
    e.Tried? && e.answer.Done? && e.res.IsKernelObject()
  }

  /** A kernel object is deleted: it was retired, so the disk lists only older ones. */
  lemma UndoHere(world: World, input: seq<Resource>, pass: UL.Pass, slot: Slot, e: UL.Event)
    requires UL.Advance(pass, true, e).Some? && UL.KernelInv(input, pass.loop, pass.disk) && KernelUndo(e)
    requires Accounted(world, true, pass, slot) && SlotSound(slot)
    ensures Accounted(world, true, UL.Advance(pass, true, e).value, AfterEffect(slot, world, pass.loop, e))
    ensures SlotSound(AfterEffect(slot, world, pass.loop, e))
  {
    UL.UndoneFromRetired(pass.loop, true, e);
    var l := pass.loop;
    UL.SelectAround(AnyKernel, l.pending, e.res, UL.Names(l.kept));
    UndoneIsOffTheList(world, l.pending, e.res, UL.Names(l.kept), UL.RecordList(l), slot);
    if slot.record.Some? && Select(AnyKernel, pass.disk) != [] {
      SoundElsewhere(world, slot.record.value.world, UL.Listed(l), pass.disk, slot);
    }
  }

  lemma PathUndoHere(world: World, pass: UL.Pass, slot: Slot, e: UL.Event)
    requires UL.Advance(pass, true, e).Some? && UL.Removes(e) && !KernelUndo(e)
    requires Accounted(world, true, pass, slot) && SlotSound(slot)
    ensures Accounted(world, true, UL.Advance(pass, true, e).value, AfterEffect(slot, world, pass.loop, e))
    ensures SlotSound(AfterEffect(slot, world, pass.loop, e))
  {
    var l, pass' := pass.loop, UL.Advance(pass, true, e).value;
    var slot' := AfterEffect(slot, world, l, e);
    PathUndoSelects(l, e, pass'.loop);
    assert slot'.record == slot.record && pass'.disk == pass.disk;
    SoundCarries(world, UL.Listed(l), UL.Listed(pass'.loop), slot, slot');
    if slot.record.Some? {
      SoundCarries(slot.record.value.world, pass.disk, pass.disk, slot, slot');
    }
  }

  lemma PathUndoSelects(l: UL.Loop, e: UL.Event, l': UL.Loop)
    requires UL.Next(l, true, e) == Some(l') && UL.Removes(e) && !KernelUndo(e)
    ensures Select(AnyKernel, UL.Listed(l')) == Select(AnyKernel, UL.Listed(l))
    ensures Select(OwnerNamed, UL.Listed(l')) == Select(OwnerNamed, UL.Listed(l))
  {
    UL.NextShape(l, true, e);
    RemovesNoKernelObject(l, e);
    SelectsWithout(l'.pending, e.res, UL.Names(l.kept));
  }

  lemma RemovesNoKernelObject(l: UL.Loop, e: UL.Event)
    requires UL.Next(l, true, e).Some? && UL.Removes(e) && !KernelUndo(e)
    ensures !e.res.IsKernelObject()
  {
  }

  lemma SelectsWithout(a: seq<Resource>, r: Resource, b: seq<Resource>)
    requires !r.IsKernelObject()
    ensures Select(AnyKernel, a + b) == Select(AnyKernel, a + [r] + b)
    ensures Select(OwnerNamed, a + b) == Select(OwnerNamed, a + [r] + b)
  {
    UL.SelectAround(AnyKernel, a, r, b);
    UL.SelectAround(OwnerNamed, a, r, b);
  }

  lemma SoundCarries(world: World, a: seq<Resource>, b: seq<Resource>, slot: Slot, slot': Slot)
    requires KernelSound(world, a, slot)
    requires Select(AnyKernel, b) == Select(AnyKernel, a) && Select(OwnerNamed, b) == Select(OwnerNamed, a)
    requires slot'.home == slot.home && slot'.book == slot.book
    requires slot'.undone == slot.undone && slot'.claims == slot.claims
    ensures KernelSound(world, b, slot')
  {
  }

  lemma ForeignNeverPersists(input: seq<Resource>, pass: UL.Pass, e: UL.Event)
    requires UL.ForeignInv(input, pass.loop, pass.disk)
    requires UL.Advance(pass, false, e).Some?
    ensures !e.Persisted? && !e.PersistFailed? && (e.Tried? ==> !e.res.IsKernelObject())
  {
  }

  /** The part of a slot's invariant an undo could break. */
  ghost predicate SlotSound(slot: Slot) {
    && (slot.record.Some? ==> KernelSound(slot.record.value.world, slot.record.value.resources, slot))
    && (forall p :: p in slot.undone ==> p < |slot.book|)
  }

  lemma EffectIsAccounted(world: World, sameBoot: bool, input: seq<Resource>, pass: UL.Pass, slot: Slot, e: UL.Event)
    requires UL.KernelSide(input, sameBoot, pass) && UL.Advance(pass, sameBoot, e).Some?
    requires Accounted(world, sameBoot, pass, slot) && SlotSound(slot)
    ensures UL.KernelSide(input, sameBoot, UL.Advance(pass, sameBoot, e).value)
    ensures Accounted(world, sameBoot, UL.Advance(pass, sameBoot, e).value, AfterEffect(slot, world, pass.loop, e))
    ensures SlotSound(AfterEffect(slot, world, pass.loop, e))
  {
    UL.KernelSideStep(input, sameBoot, pass, e);
    if sameBoot {
      EffectHere(world, input, pass, slot, e);
    } else {
      ForeignNeverPersists(input, pass, e);
    }
  }

  lemma AfterEffectFrame(slot: Slot, world: World, l: UL.Loop, e: UL.Event)
    ensures
      var slot' := AfterEffect(slot, world, l, e);
      && slot'.home == slot.home && slot'.claims <= slot.claims && slot'.book == slot.book
      && slot'.lent == slot.lent && slot'.paths <= slot.paths
  {
  }

  /** The invariant of a process with the lock on the slot it works on. */
  ghost predicate LocalInv(agent: Agent, slot: Slot, boot: nat) {
    SlotInv(slot, true) && AgentInv(agent, LP.Held, slot, boot)
  }

  /** What an operation owes: the slot stays sound, the process's own invariant holds at its
      next point, no claim appears or moves to another world, and the name of the lock is
      given up only when nothing is left. */
  ghost predicate Keeps(agent: Agent, slot: Slot, boot: nat, o: Outcome) {
    && SlotInv(o.slot, true)
    && (o.next.Go? ==> AgentInv(agent.(work := o.next.work), LP.Held, o.slot, boot))
    && (o.next.GoAfter? ==>
          if o.next.step.Unlink? then o.next.work == Deleting(Removed) && SlotInv(o.slot, false)
          else o.next.step.Inherit? && AgentInv(agent.(work := o.next.work), LP.Held, o.slot, boot))
  }

  lemma BeginKeeps(d: DescId, agent: Agent, slot: Slot, boot: nat)
    requires LocalInv(agent, slot, boot) && BeginOwner(d, agent.world, slot).Some?
    ensures Keeps(agent, slot, boot, BeginOwner(d, agent.world, slot).value)
  {
  }

  /** Writing the record of a live owner: the disk and the memory list move together. */
  lemma WriteKeeps(agent: Agent, slot: Slot, boot: nat, list: seq<Resource>, ok: bool)
    requires LocalInv(agent, slot, boot) && agent.work.Live?
    requires Select(OwnerNamed, list) <= slot.claims
    ensures Keeps(agent, slot, boot,
                  Outcome(Booked(slot, agent.world, list, ok), Go(Live(if ok then list else agent.work.mem))))
  {
  }

  lemma RecordKeeps(d: DescId, agent: Agent, slot: Slot, boot: nat, r: Resource, ok: bool)
    requires LocalInv(agent, slot, boot) && agent.work.Live?
    requires LiveOp(d, agent.world, agent.work.mem, slot, RecordOne(r, ok)).Some?
    ensures Keeps(agent, slot, boot, LiveOp(d, agent.world, agent.work.mem, slot, RecordOne(r, ok)).value)
  {
    var mem := agent.work.mem;
    UL.SelectAround(OwnerNamed, mem, r, []);
    assert mem + [r] + [] == mem + [r];
    WriteKeeps(agent, slot, boot, mem + [r], ok);
  }

  lemma BeginPassSound(world: World, sameBoot: bool, input: seq<Resource>, slot: Slot)
    requires input == ListOf(slot)
    requires sameBoot ==> KernelSound(world, input, slot)
    ensures UL.KernelSide(input, sameBoot, UL.Begin(input))
    ensures Accounted(world, sameBoot, UL.Begin(input), slot)
  {
    UL.BeginInv(input, sameBoot);
    assert UL.Listed(UL.Begin(input).loop) == input;
  }

  /** What a live owner does without writing its record or starting to undo it. */
  predicate LeavesTheRecord(op: Op) {
    !op.RecordOne? && !op.Forget? && !op.Complete?
  }

  lemma LiveKeeps(d: DescId, agent: Agent, slot: Slot, boot: nat, op: Op)
    requires LocalInv(agent, slot, boot) && agent.work.Live?
    requires LiveOp(d, agent.world, agent.work.mem, slot, op).Some?
    ensures Keeps(agent, slot, boot, LiveOp(d, agent.world, agent.work.mem, slot, op).value)
  {
    if LeavesTheRecord(op) {
      QuietKeeps(d, agent, slot, boot, op);
    } else {
      match op
      case RecordOne(r, ok) => RecordKeeps(d, agent, slot, boot, r, ok);
      case Forget(gone, ok) => WriteKeeps(agent, slot, boot, Dropping(gone, agent.work.mem), ok);
      case Complete => BeginPassSound(agent.world, true, agent.work.mem, slot);
    }
  }

  lemma QuietKeeps(d: DescId, agent: Agent, slot: Slot, boot: nat, op: Op)
    requires LocalInv(agent, slot, boot) && agent.work.Live? && LeavesTheRecord(op)
    requires LiveOp(d, agent.world, agent.work.mem, slot, op).Some?
    ensures Keeps(agent, slot, boot, LiveOp(d, agent.world, agent.work.mem, slot, op).value)
  {
  }

  lemma ReadKeeps(agent: Agent, slot: Slot, boot: nat)
    requires LocalInv(agent, slot, boot)
    ensures Keeps(agent, slot, boot, ReadRecord(agent.world, slot))
  {
    if slot.record.Some? {
      var record := slot.record.value;
      BeginPassSound(agent.world, record.world == agent.world, record.resources, slot);
    }
  }

  lemma EffectKeeps(agent: Agent, slot: Slot, boot: nat, e: UL.Event)
    requires LocalInv(agent, slot, boot) && agent.work.Undoing?
    requires UL.Advance(agent.work.pass, agent.work.sameBoot, e).Some?
    ensures UndoOp(agent.world, agent.work, slot, Effect(e)).Some?
    ensures Keeps(agent, slot, boot, UndoOp(agent.world, agent.work, slot, Effect(e)).value)
  {
    var w := agent.work;
    EffectIsAccounted(agent.world, w.sameBoot, w.input, w.pass, slot, e);
    AfterEffectFrame(slot, agent.world, w.pass.loop, e);
  }

  lemma FinishKeeps(agent: Agent, slot: Slot, boot: nat)
    requires LocalInv(agent, slot, boot) && agent.work.Undoing?
    requires UndoOp(agent.world, agent.work, slot, Finish).Some?
    ensures Keeps(agent, slot, boot, UndoOp(agent.world, agent.work, slot, Finish).value)
  {
    var w := agent.work;
    KeptIsSound(agent.world, w.sameBoot, w.input, w.pass, slot);
  }

  /** What a finished pass keeps names, in this world, only what is still the owner's. */
  lemma KeptIsSound(world: World, sameBoot: bool, input: seq<Resource>, pass: UL.Pass, slot: Slot)
    requires UL.KernelSide(input, sameBoot, pass) && Accounted(world, sameBoot, pass, slot)
    requires pass.loop.pending == [] && pass.loop.at.Head?
    ensures KernelSound(world, UL.Names(pass.loop.kept), slot)
  {
    UL.ListedAtTheEnd(pass.loop);
  }

  lemma DeleteKeeps(d: DescId, agent: Agent, slot: Slot, boot: nat, ok: bool)
    requires LocalInv(agent, slot, boot) && agent.work.Deleting?
    ensures Keeps(agent, slot, boot, DeleteFile(d, agent.work.stage, slot, ok))
  {
  }

  /** Every operation of every process keeps its slot sound and itself on course. */
  lemma LocalKeeps(d: DescId, agent: Agent, slot: Slot, boot: nat, op: Op)
    requires LocalInv(agent, slot, boot) && Local(d, agent, slot, op).Some?
    ensures Keeps(agent, slot, boot, Local(d, agent, slot, op).value)
  {
    if !op.Die? {
      match agent.work
      case Entered(owner) =>
        if owner {
          BeginKeeps(d, agent, slot, boot);
        } else {
          ReadKeeps(agent, slot, boot);
        }
      case Live(_) => LiveKeeps(d, agent, slot, boot, op);
      case Undoing(_, _, _, _) =>
        if op.Effect? {
          EffectKeeps(agent, slot, boot, op.e);
        } else {
          FinishKeeps(agent, slot, boot);
        }
      case Finishing(_, _) =>
      case Deleting(_) => DeleteKeeps(d, agent, slot, boot, op.ok);
    }
  }

  /** An operation takes a name only by `Claim`. */
  lemma LocalClaims(d: DescId, agent: Agent, slot: Slot, op: Op)
    requires Local(d, agent, slot, op).Some?
    requires slot.home.None? ==> slot.claims == []
    ensures
      var slot' := Local(d, agent, slot, op).value.slot;
      if op.Claim? then agent.work.Live? && slot' == slot.(claims := slot.claims + [op.r])
      else slot'.claims <= slot.claims && (slot'.home == slot.home || slot'.claims == [])
  {
    if op.Effect? {
      AfterEffectFrame(slot, agent.world, agent.work.pass.loop, op.e);
    }
  }

  lemma ExclusiveKept(s: Sys, d: DescId, op: Op)
    requires Inv(s) && Allowed(s, d, op) && s.lock.descs[d].pc.Held?
    ensures Exclusive(SetSlot(s, IdOf(s, d), Local(d, s.agents[d], Mine(s, d), op).value.slot))
  {
    SlotFacts(s, d);
    var id, slot := IdOf(s, d), Local(d, s.agents[d], Mine(s, d), op).value.slot;
    LocalClaims(d, s.agents[d], Mine(s, d), op);
    if op.Claim? {
      ExclusiveGrows(s, id, op.r);
    } else {
      ExclusiveShrinks(s, id, slot);
    }
  }

  lemma ExclusiveGrows(s: Sys, id: Id, r: Resource)
    requires Exclusive(s) && id in s.slots && s.slots[id].home.Some?
    requires NameFree(s, id, s.slots[id].home.value, r)
    ensures Exclusive(SetSlot(s, id, s.slots[id].(claims := s.slots[id].claims + [r])))
  {
    var s' := SetSlot(s, id, s.slots[id].(claims := s.slots[id].claims + [r]));
    forall a, b, q | SameWorld(s', a, b) && q in s'.slots[a].claims
      ensures q !in s'.slots[b].claims
    {
      assert SameWorld(s, a, b);
      assert SameWorld(s, b, a);
    }
  }

  lemma GoKeepsInv(s: Sys, d: DescId, slot: Slot, work: Work)
    requires Inv(s) && Working(s, d) && s.lock.descs[d].pc.Held?
    requires SlotInv(slot, true)
    requires AgentInv(s.agents[d].(work := work), LP.Held, slot, s.boot)
    requires Exclusive(SetSlot(s, IdOf(s, d), slot))
    ensures Inv(SetWork(SetSlot(s, IdOf(s, d), slot), d, work))
  {
    SlotFacts(s, d);
    var s' := SetWork(SetSlot(s, IdOf(s, d), slot), d, work);
    ExclusiveSame(SetSlot(s, IdOf(s, d), slot), s');
    WorkStepKeepsInv(s, s', d);
  }

  lemma LockEnds(l: LP.State, d: DescId, step: LP.Step)
    requires LP.Enabled(l, step) && (step == LP.Unlock(d) || step == LP.Release(d) || step == LP.Kill(d))
    ensures LP.Apply(l, step).lockAt == l.lockAt
    ensures forall e :: e in l.descs && e != d ==> e in LP.Apply(l, step).descs && LP.Apply(l, step).descs[e] == l.descs[e]
  {
  }

  /** A step that changes the lock as well: every other description stays, and so does
      every other lock file. */
  ghost predicate LockMoves(l: LP.State, l': LP.State, d: DescId, id: Id) {
    && LP.Inv(l')
    && (forall e :: e in l.descs && e != d ==> e in l'.descs && l'.descs[e] == l.descs[e])
    && (forall j :: j != id ==> (j in l'.lockAt <==> j in l.lockAt))
  }

  lemma QuitWith(s: Sys, d: DescId, slot: Slot, l': LP.State)
    requires Inv(s) && Working(s, d) && (s.lock.descs[d].pc.Held? || slot == Mine(s, d))
    requires LockMoves(s.lock, l', d, IdOf(s, d)) && SlotInv(slot, IdOf(s, d) in l'.lockAt)
    requires Exclusive(SetSlot(s, IdOf(s, d), slot))
    ensures Inv(SetSlot(s, IdOf(s, d), slot).(lock := l', agents := s.agents - {d}))
  {
    SlotFacts(s, d);
    var s' := SetSlot(s, IdOf(s, d), slot).(lock := l', agents := s.agents - {d});
    ExclusiveSame(SetSlot(s, IdOf(s, d), slot), s');
    WorkStepKeepsInv(s, s', d);
  }

  lemma QuitKeepsInv(s: Sys, d: DescId, slot: Slot, step: LP.Step)
    requires Inv(s) && Working(s, d)
    requires s.lock.descs[d].pc.Held? || slot == Mine(s, d)
    requires step == LP.Unlock(d) || step == LP.Release(d) || step == LP.Kill(d)
    requires LP.Enabled(s.lock, step)
    requires SlotInv(slot, IdOf(s, d) in s.lock.lockAt)
    requires Exclusive(SetSlot(s, IdOf(s, d), slot))
    ensures Inv(Continue(SetSlot(s, IdOf(s, d), slot), d, Quit(step)))
  {
    LP.StepKeepsInv(s.lock, step);
    LockEnds(s.lock, d, step);
    QuitWith(s, d, slot, LP.Apply(s.lock, step));
  }

  lemma GoneOn(s: Sys, s': Sys, d: DescId, id: Id)
    requires Inv(s) && Working(s, d) && IdOf(s, d) == id && s.lock.descs[d].pc.Held?
    requires LockMoves(s.lock, s'.lock, d, id) && SlotInv(SlotOf(s', id), id in s'.lock.lockAt)
    requires s'.boot == s.boot && d in s'.agents && AgentOk(s', d) && Exclusive(s')
    requires s'.agents.Keys == s.agents.Keys && forall e :: e in s.agents && e != d ==> s'.agents[e] == s.agents[e]
    requires s'.slots == s.slots[id := SlotOf(s', id)]
    ensures Inv(s')
  {
    WorkStepKeepsInv(s, s', d);
  }

  /** The same for a step the process goes on from. */
  lemma GoOnWith(s: Sys, d: DescId, slot: Slot, work: Work, l': LP.State)
    requires Inv(s) && Working(s, d) && s.lock.descs[d].pc.Held?
    requires LockMoves(s.lock, l', d, IdOf(s, d)) && SlotInv(slot, IdOf(s, d) in l'.lockAt)
    requires d in l'.descs && l'.descs[d].id == IdOf(s, d)
    requires AgentInv(s.agents[d].(work := work), l'.descs[d].pc, slot, s.boot)
    requires Exclusive(SetSlot(s, IdOf(s, d), slot))
    ensures Inv(SetWork(SetSlot(s, IdOf(s, d), slot).(lock := l'), d, work))
  {
    var s' := SetWork(SetSlot(s, IdOf(s, d), slot).(lock := l'), d, work);
    ExclusiveSame(SetSlot(s, IdOf(s, d), slot), s');
    GoneOn(s, s', d, IdOf(s, d));
  }

  lemma UnlinkKeepsInv(s: Sys, d: DescId, slot: Slot)
    requires Inv(s) && Working(s, d) && s.lock.descs[d].pc.Held? && LP.Enabled(s.lock, LP.Unlink(d))
    requires SlotInv(slot, false) && Exclusive(SetSlot(s, IdOf(s, d), slot))
    ensures Inv(Continue(SetSlot(s, IdOf(s, d), slot), d, GoAfter(LP.Unlink(d), Deleting(Removed))))
  {
    SlotFacts(s, d);
    LP.StepKeepsInv(s.lock, LP.Unlink(d));
    GoOnWith(s, d, slot, Deleting(Removed), LP.Apply(s.lock, LP.Unlink(d)));
  }

  lemma LendKeepsInv(s: Sys, d: DescId, slot: Slot, work: Work, helper: nat)
    requires Inv(s) && Working(s, d) && s.lock.descs[d].pc.Held? && LP.Enabled(s.lock, LP.Inherit(d, helper))
    requires SlotInv(slot, true) && AgentInv(s.agents[d].(work := work), LP.Held, slot, s.boot)
    requires Exclusive(SetSlot(s, IdOf(s, d), slot))
    ensures Inv(Continue(SetSlot(s, IdOf(s, d), slot), d, GoAfter(LP.Inherit(d, helper), work)))
  {
    SlotFacts(s, d);
    LP.StepKeepsInv(s.lock, LP.Inherit(d, helper));
    GoOnWith(s, d, slot, work, LP.Apply(s.lock, LP.Inherit(d, helper)));
  }

  /** The lock step an operation makes is one of its own description. */
  lemma LocalLockStep(d: DescId, agent: Agent, slot: Slot, op: Op)
    requires Local(d, agent, slot, op).Some?
    ensures
      var next := Local(d, agent, slot, op).value.next;
      && (next.Quit? ==> next.step == LP.Unlock(d) || next.step == LP.Release(d) || next.step == LP.Kill(d))
      && (next.GoAfter? ==> next.step == LP.Unlink(d) || (next.step.Inherit? && next.step.d == d))
  {
  }

  lemma PerformKeepsInv(s: Sys, d: DescId, op: Op)
    requires Inv(s) && Allowed(s, d, op) && s.lock.descs[d].pc.Held?
    ensures Inv(Perform(s, d, op))
  {
    SlotFacts(s, d);
    var o := Local(d, s.agents[d], Mine(s, d), op).value;
    LocalKeeps(d, s.agents[d], Mine(s, d), s.boot, op);
    LocalLockStep(d, s.agents[d], Mine(s, d), op);
    ExclusiveKept(s, d, op);
    match o.next
    case Go(work) => GoKeepsInv(s, d, o.slot, work);
    case GoAfter(step, work) =>
      if step.Unlink? {
        UnlinkKeepsInv(s, d, o.slot);
      } else {
        LendKeepsInv(s, d, o.slot, work, step.helper);
      }
    case Quit(step) => QuitKeepsInv(s, d, o.slot, step);
  }

  /** The last step of a process that has unlinked its lock file. */
  lemma LastStepKeepsInv(s: Sys, d: DescId, op: Op)
    requires Inv(s) && Allowed(s, d, op) && !s.lock.descs[d].pc.Held?
    ensures Inv(Perform(s, d, op))
  {
    SlotFacts(s, d);
    var o := Local(d, s.agents[d], Mine(s, d), op).value;
    LocalLockStep(d, s.agents[d], Mine(s, d), op);
    SameSlotExclusive(s, IdOf(s, d));
    QuitKeepsInv(s, d, o.slot, o.next.step);
  }

  lemma SameSlotExclusive(s: Sys, id: Id)
    requires Exclusive(s)
    ensures Exclusive(SetSlot(s, id, SlotOf(s, id)))
  {
    ExclusiveShrinks(s, id, SlotOf(s, id));
  }

  lemma RebootKeepsInv(s: Sys, boot: nat)
    requires Inv(s) && boot > s.boot
    ensures Inv(Apply(s, Reboot(boot)))
  {
    var s' := Apply(s, Reboot(boot));
    LP.StepKeepsInv(s.lock, LP.Reboot);
    forall j
      ensures SlotInv(SlotOf(s', j), j in s'.lock.lockAt)
    {
      assert SlotInv(SlotOf(s, j), j in s.lock.lockAt);
    }
    ExclusiveSame(s, s');
  }

  lemma StepKeepsInv(s: Sys, step: Step)
    requires Inv(s) && Enabled(s, step)
    ensures Inv(Apply(s, step))
  {
    match step
    case Lock(l) => PlainLockKeepsInv(s, l);
    case Enter(d, owner, namespace) => EnterKeepsInv(s, d, owner, namespace);
    case By(d, op) =>
      if s.lock.descs[d].pc.Held? {
        PerformKeepsInv(s, d, op);
      } else {
        LastStepKeepsInv(s, d, op);
      }
    case HelperCreate(d, r) => HelperCreateKeepsInv(s, d, r);
    case Reboot(boot) => RebootKeepsInv(s, boot);
  }

  lemma {:induction false} RunKeepsInv(s: Sys, steps: seq<Step>, s': Sys)
    requires Inv(s) && Runs(s, steps, s')
    ensures Inv(s')
    decreases |steps|
  {
    if steps != [] {
      StepKeepsInv(s, steps[0]);
      RunKeepsInv(Apply(s, steps[0]), steps[1..], s');
    }
  }

  ghost predicate Reachable(s: Sys) {
    exists steps :: Runs(Initial, steps, s)
  }

  lemma ReachableInv(s: Sys)
    requires Reachable(s)
    ensures Inv(s)
  {
    var steps :| Runs(Initial, steps, s);
    RunKeepsInv(Initial, steps, s);
  }
}
