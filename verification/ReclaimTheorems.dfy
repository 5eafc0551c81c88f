/** The promises of src/reclaim.rs over every run of `ReclaimSystem`: crashes at any step,
    failed writes, helpers, reboots and passes from other namespaces included. */
module ReclaimTheorems {
  import opened Resources
  import opened ReclaimSystem
  import opened ReclaimSafety
  import opened ReclaimPaths
  import UL = UndoLoop
  import LP = LockProtocol

  /** Whoever is at work on an owner's record is alone with it: no other process has a
      validated lock on the id, and no helper of another description keeps it. In
      particular no pass reads or undoes the record of a live owner. */
  lemma NoOneElseHasTheRecord(s: Sys, d: DescId, e: DescId)
    requires Reachable(s) && Working(s, d) && s.lock.descs[d].pc.Held?
    requires LP.Alive(s.lock, e, IdOf(s, d))
    ensures e == d
  {
    ReachableInv(s);
    LP.MutualExclusion(s.lock, d, e, IdOf(s, d));
  }

  /** A description at work on a record, other than in its very last step, is validated. */
  lemma WorkIsUnderTheLock(s: Sys, d: DescId)
    requires Reachable(s) && d in s.agents && s.agents[d].work != Deleting(Removed)
    ensures Working(s, d) && LP.Alive(s.lock, d, IdOf(s, d))
  {
    ReachableInv(s);
    SlotFacts(s, d);
  }

  /** Between a live owner's operations, its memory and its record on disk agree. */
  lemma LiveOwnerMirrorsDisk(s: Sys, d: DescId)
    requires Reachable(s) && Working(s, d) && s.agents[d].work.Live?
    ensures s.agents[d].work.mem == ListOf(Mine(s, d))
    ensures Mine(s, d).record.Some? ==> Mine(s, d).record.value.world == s.agents[d].world
  {
    ReachableInv(s);
    SlotFacts(s, d);
  }

  /** A record that names a kernel object is of its owner's world and lists the oldest of
      what the owner recorded there; whatever an undo has deleted lies behind them, so no
      record names it. Owner-named objects are still this owner's, and no other's. */
  lemma RecordsNameOnlyTheirOwn(s: Sys, id: Id, other: Id, r: Resource)
    requires Reachable(s) && SlotOf(s, id).record.Some?
    requires r in SlotOf(s, id).record.value.resources && r.IsKernelObject()
    ensures
      var slot := SlotOf(s, id);
      var named := Select(AnyKernel, slot.record.value.resources);
      && slot.home == Some(slot.record.value.world)
      && r in named && named <= slot.book
      && (forall p :: p in slot.undone ==> |named| <= p < |slot.book|)
      && Select(OwnerNamed, slot.record.value.resources) <= slot.claims
      && (r.IsOwnerNamed() ==> r in slot.claims)
      && (r.IsOwnerNamed() && other != id && SlotOf(s, other).home == slot.home ==> r !in SlotOf(s, other).claims)
  {
    ReachableInv(s);
    var slot := SlotOf(s, id);
    var list := slot.record.value.resources;
    assert SlotInv(slot, id in s.lock.lockAt);
    SelectMember(AnyKernel, list, r);
    SelectMember(OwnerNamed, list, r);
    if r.IsOwnerNamed() {
      ClaimIsExclusive(s, id, other, r);
    }
  }

  /** A record stamped with a world its owner did not begin in holds no kernel object, so
      stamping it anew never makes an old one actionable. */
  lemma RestampedRecordsHoldNoKernelObject(s: Sys, id: Id)
    requires Reachable(s) && SlotOf(s, id).record.Some?
    requires SlotOf(s, id).home != Some(SlotOf(s, id).record.value.world)
    ensures forall r :: r in SlotOf(s, id).record.value.resources ==> !r.IsKernelObject()
  {
    ReachableInv(s);
    var list := SlotOf(s, id).record.value.resources;
    assert SlotInv(SlotOf(s, id), id in s.lock.lockAt);
    forall r | r in list
      ensures !r.IsKernelObject()
    {
      SelectMember(AnyKernel, list, r);
    }
  }

  /** Whoever undoes a kernel object undoes its own owner's, once: it is the next of what the
      owner recorded in this world behind what the record still lists, no undo has deleted it
      before, and an owner-named one is nobody else's. */
  lemma NoNamesakeIsUndone(s: Sys, d: DescId, r: Resource, answer: UL.Answer, other: Id)
    requires Reachable(s) && r.IsKernelObject()
    requires Allowed(s, d, Effect(UL.Tried(r, answer)))
    ensures
      var slot := Mine(s, d);
      var named := Select(AnyKernel, ListOf(slot));
      && slot.home == Some(s.agents[d].world)
      && named + [r] <= slot.book && |named| !in slot.undone
      && (r.IsOwnerNamed() ==> Select(OwnerNamed, ListOf(slot)) + [r] <= slot.claims)
      && (r.IsOwnerNamed() && other != IdOf(s, d) && SlotOf(s, other).home == slot.home ==>
            r !in SlotOf(s, other).claims)
  {
    UndoingIsUnderTheLock(s, d);
    TriedIsOwn(d, s.agents[d], Mine(s, d), s.boot, r, answer);
    if r.IsOwnerNamed() {
      var claims := Mine(s, d).claims;
      assert claims[|Select(OwnerNamed, ListOf(Mine(s, d)))|] == r;
      ClaimIsExclusive(s, IdOf(s, d), other, r);
    }
  }

  lemma UndoingIsUnderTheLock(s: Sys, d: DescId)
    requires Reachable(s) && Working(s, d) && s.agents[d].work.Undoing?
    ensures AgentInv(s.agents[d], LP.Held, Mine(s, d), s.boot) && Exclusive(s)
  {
    ReachableInv(s);
    SlotFacts(s, d);
  }

  lemma ClaimIsExclusive(s: Sys, id: Id, other: Id, r: Resource)
    requires Exclusive(s) && r in SlotOf(s, id).claims && SlotOf(s, id).home.Some?
    ensures other != id && SlotOf(s, other).home == SlotOf(s, id).home ==> r !in SlotOf(s, other).claims
  {
    if other != id && SlotOf(s, other).home == SlotOf(s, id).home && other in s.slots {
      assert SameWorld(s, id, other);
    }
  }

  lemma TriedIsOwn(d: DescId, agent: Agent, slot: Slot, boot: nat, r: Resource, answer: UL.Answer)
    requires AgentInv(agent, LP.Held, slot, boot) && r.IsKernelObject()
    requires Local(d, agent, slot, Effect(UL.Tried(r, answer))).Some?
    ensures
      var named := Select(AnyKernel, ListOf(slot));
      && slot.home == Some(agent.world) && named + [r] <= slot.book && |named| !in slot.undone
      && (r.IsOwnerNamed() ==> Select(OwnerNamed, ListOf(slot)) + [r] <= slot.claims)
  {
    var w := agent.work;
    UL.UndoneFromRetired(w.pass.loop, w.sameBoot, UL.Tried(r, answer));
    RetiredIsNext(w.input, w.pass, r);
    OwnInBook(agent.world, UL.Listed(w.pass.loop), w.pass.disk, r, slot);
  }

  /** The retired object comes right behind what the record still lists. */
  lemma RetiredIsNext(input: seq<Resource>, pass: UL.Pass, r: Resource)
    requires UL.KernelInv(input, pass.loop, pass.disk) && pass.loop.at == UL.Retired(r)
    ensures Select(AnyKernel, UL.Listed(pass.loop)) == Select(AnyKernel, pass.disk) + [r]
    ensures Select(OwnerNamed, UL.Listed(pass.loop)) ==
            Select(OwnerNamed, pass.disk) + if r.IsOwnerNamed() then [r] else []
  {
    var l := pass.loop;
    UL.SelectAround(AnyKernel, l.pending, r, UL.Names(l.kept));
    UL.SelectAround(OwnerNamed, l.pending, r, UL.Names(l.kept));
    NoKernelNoOwnerNamed(UL.Names(l.kept));
  }

  lemma OwnInBook(world: World, listed: seq<Resource>, disk: seq<Resource>, r: Resource, slot: Slot)
    requires KernelSound(world, listed, slot) && Select(AnyKernel, listed) == Select(AnyKernel, disk) + [r]
    requires Select(OwnerNamed, listed) == Select(OwnerNamed, disk) + if r.IsOwnerNamed() then [r] else []
    ensures slot.home == Some(world) && Select(AnyKernel, disk) + [r] <= slot.book
    ensures |Select(AnyKernel, disk)| !in slot.undone
    ensures r.IsOwnerNamed() ==> Select(OwnerNamed, disk) + [r] <= slot.claims
  {
  }

  // Files and directories.

  /** No owner of `id` is ended, along a run, while a helper it started still lives. */
  ghost predicate Careful(s: Sys, steps: seq<Step>, id: Id)
    decreases |steps|
  {
    steps == [] ||
    (Enabled(s, steps[0]) && !EndsWithHelper(s, steps[0], id) && Careful(Apply(s, steps[0]), steps[1..], id))
  }

  lemma {:induction false} CarefulRunKeepsPaths(s: Sys, steps: seq<Step>, s': Sys, id: Id)
    requires Inv(s) && PathInv(s, id) && Runs(s, steps, s') && Careful(s, steps, id)
    ensures Inv(s') && PathInv(s', id)
    decreases |steps|
  {
    if steps != [] {
      StepKeepsInv(s, steps[0]);
      StepKeepsPaths(s, steps[0], id);
      CarefulRunKeepsPaths(Apply(s, steps[0]), steps[1..], s', id);
    }
  }

  lemma FromInitial(steps: seq<Step>, s: Sys, id: Id)
    requires Runs(Initial, steps, s)
    ensures Inv(s) && (Careful(Initial, steps, id) ==> PathInv(s, id))
  {
    assert Reachable(s);
    ReachableInv(s);
    if Careful(Initial, steps, id) {
      CarefulRunKeepsPaths(Initial, steps, s, id);
    }
  }

  /** Write-ahead: as long as no owner of the id was ended while a helper it started lived,
      every runtime directory and temporary that exists is listed in the record on disk. */
  lemma ExistingPathsAreRecorded(steps: seq<Step>, s: Sys, id: Id)
    requires Runs(Initial, steps, s) && Careful(Initial, steps, id)
    ensures forall r :: r in SlotOf(s, id).paths ==>
              SlotOf(s, id).record.Some? && r in SlotOf(s, id).record.value.resources
  {
    CarefulRunKeepsPaths(Initial, steps, s, id);
  }
}
