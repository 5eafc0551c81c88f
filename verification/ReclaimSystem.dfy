/** The owner-record protocol of src/reclaim.rs as one transition system: any number of
    owners, helpers and reclaim passes, over the locks of `LockProtocol`, the on-disk
    records, the files and directories that exist, and the kernel names each owner has.
    Every step of every process can be its last. */
module ReclaimSystem {
  import opened Resources
  import UL = UndoLoop
  import LP = LockProtocol

  type Id = LP.Id
  type DescId = LP.DescId

  /** Where kernel objects live: one boot, and one user namespace's view of it. */
  datatype World = World(boot: nat, namespace: nat)

  datatype Record = Record(world: World, resources: seq<Resource>)

  /** What exists under one owner id, and what became of it so far. */
  datatype Slot = Slot(
    record: Option<Record>,
    temp: bool,
    paths: set<Resource>,
    home: Option<World>,      // the world its owner began in
    claims: seq<Resource>,    // the kernel names that are this owner's, oldest first: a name is freed
                              // when its object, or an older object it is named from, is deleted
    book: seq<Resource>,      // the kernel objects the live owner last had on record, in order
    undone: set<nat>,         // the places in `book` whose objects an undo has deleted
    lent: set<Resource>)      // the files and directories on record whenever a helper was started

  datatype Stage = RemoveRecord | RemoveTemp | RemoveLock | Removed

  /** What the process holding an owner lock is doing. */
  datatype Work =
    | Entered(owner: bool)
    | Live(mem: seq<Resource>)
    | Undoing(owner: bool, sameBoot: bool, input: seq<Resource>, pass: UL.Pass)
    | Finishing(owner: bool, list: seq<Resource>)
    | Deleting(stage: Stage)

  datatype Agent = Agent(world: World, work: Work)

  datatype Sys = Sys(boot: nat, lock: LP.State, agents: map<DescId, Agent>, slots: map<Id, Slot>)

  const EmptySlot := Slot(None, false, {}, None, [], [], {}, {})
  const Initial := Sys(0, LP.Initial, map[], map[])

  function SlotOf(s: Sys, id: Id): Slot {
    if id in s.slots then s.slots[id] else EmptySlot
  }

  function ListOf(slot: Slot): seq<Resource> {
    if slot.record.Some? then slot.record.value.resources else []
  }

  predicate Working(s: Sys, d: DescId) {
    d in s.agents && d in s.lock.descs
  }

  function IdOf(s: Sys, d: DescId): Id
    requires Working(s, d)
  {
    s.lock.descs[d].id
  }

  function Mine(s: Sys, d: DescId): Slot
    requires Working(s, d)
  {
    SlotOf(s, IdOf(s, d))
  }

  /** One operation of the process that has an owner's lock, up to its next visible effect.
      `ok` is whether the write or removal it makes succeeds. */
  datatype Op =
    // An owner.
    | Begin
    | Claim(r: Resource)
    | RecordOne(r: Resource, ok: bool)
    | Create(r: Resource)
    | Remove(r: Resource)
    | Forget(gone: set<Resource>, ok: bool)
    | Teardown(n: nat)
    | Lend(helper: nat)
    | Discard
    | Drop
    | Complete
    // A pass.
    | Read
    | Unreadable
    // Undoing and ending, for both.
    | Effect(e: UL.Event)
    | Finish
    | Rewrite(ok: bool)
    | Delete(ok: bool)
    | Die

  datatype Step =
    | Lock(step: LP.Step)
    | Enter(d: DescId, owner: bool, namespace: nat)
    | By(d: DescId, op: Op)
    | HelperCreate(d: DescId, r: Resource)   // a live helper makes a path it was started for
    | Reboot(boot: nat)

  /** What an operation does besides changing the slot. `Quit` ends the work on the id. */
  datatype Then = Go(work: Work) | GoAfter(step: LP.Step, work: Work) | Quit(step: LP.Step)

  datatype Outcome = Outcome(slot: Slot, next: Then)

  /** `write_record` in this world. A failed write leaves the record and may leave a temp. */
  function Written(slot: Slot, world: World, list: seq<Resource>, ok: bool): Slot {
    if ok then slot.(record := Some(Record(world, list)), temp := false) else slot.(temp := true)
  }

  /** A live owner's write: the record is what its list now is. */
  function Booked(slot: Slot, world: World, list: seq<Resource>, ok: bool): Slot {
    Written(if ok then slot.(book := Select(AnyKernel, list)) else slot, world, list, ok)
  }

  /** `list` without the resources in `gone`. */
  function Dropping(gone: set<Resource>, list: seq<Resource>): (kept: seq<Resource>)
    ensures forall r :: r in kept <==> r in list && r !in gone
  {
    if list == [] then []
    else
      var front, last := list[..|list| - 1], list[|list| - 1];
      assert list == front + [last];
      Dropping(gone, front) + if last in gone then [] else [last]
  }

  function PathsIn(list: seq<Resource>): set<Resource> {
    set r | r in list && r.IsPath()
  }

  function TakeFirst<T>(list: seq<T>, n: nat): seq<T> {
    if n <= |list| then list[..n] else list
  }

  /** The slot after one effect of an undo in `world`, with the loop at `l` before it. */
  function AfterEffect(slot: Slot, world: World, l: UL.Loop, e: UL.Event): Slot {
    match e
    case Persisted(list) => Written(slot, world, list, true)
    case PersistFailed(list) => Written(slot, world, list, false)
    case Tried(r, answer) =>
      if !answer.Done? then slot
      else if r.IsKernelObject() then
        slot.(undone := slot.undone + {|Select(AnyKernel, l.pending)|},
              claims := if r.IsOwnerNamed() then TakeFirst(slot.claims, |Select(OwnerNamed, l.pending)|)
                        else slot.claims)
      else slot.(paths := slot.paths - {r})
    case HeldBack(_) => slot
    case LeftAlone(_) => slot
  }

  /** `begin_in` after the lock: an id that has a record is refused, and the guard dropped.
      Ids are never reused, so no owner began on it before. */
  function BeginOwner(d: DescId, world: World, slot: Slot): Option<Outcome> {
    if slot.record.Some? then Some(Outcome(slot, Quit(LP.Unlock(d))))
    else if slot.home.None? then Some(Outcome(slot.(home := Some(world)), Go(Live([]))))
    else None
  }

  /** An operation of a live owner whose list in memory is `mem`. */
  function LiveOp(d: DescId, world: World, mem: seq<Resource>, slot: Slot, op: Op): Option<Outcome> {
    match op
    case Claim(r) =>
      if r.IsOwnerNamed() then Some(Outcome(slot.(claims := slot.claims + [r]), Go(Live(mem)))) else None
    case RecordOne(r, ok) =>
      if (!r.Rule? && r in mem)
         || (r.IsOwnerNamed() && !(Select(OwnerNamed, mem) + [r] <= slot.claims)) then None
      else Some(Outcome(Booked(slot, world, mem + [r], ok), Go(Live(if ok then mem + [r] else mem))))
    case Create(r) =>
      if r.IsPath() && r in mem then Some(Outcome(slot.(paths := slot.paths + {r}), Go(Live(mem)))) else None
    case Remove(r) => Some(Outcome(slot.(paths := slot.paths - {r}), Go(Live(mem))))
    case Forget(gone, ok) =>
      var kept := Dropping(gone, mem);
      if PathsIn(mem) !! gone && Select(OwnerNamed, kept) <= Select(OwnerNamed, mem)
      then Some(Outcome(Booked(slot, world, kept, ok), Go(Live(if ok then kept else mem))))
      else None
    case Teardown(n) =>
      if |Select(OwnerNamed, mem)| <= n <= |slot.claims|
      then Some(Outcome(slot.(claims := slot.claims[..n]), Go(Live(mem))))
      else None
    case Lend(helper) =>
      Some(Outcome(slot.(lent := slot.lent + PathsIn(mem)), GoAfter(LP.Inherit(d, helper), Live(mem))))
    case Discard => if slot.paths == {} then Some(Outcome(slot, Go(Deleting(RemoveRecord)))) else None
    case Drop => Some(Outcome(slot, Quit(LP.Release(d))))
    case Complete => Some(Outcome(slot, Go(Undoing(true, true, mem, UL.Begin(mem)))))
    case _ => None
  }

  /** A pass that has the lock reads the record. */
  function ReadRecord(world: World, slot: Slot): Outcome {
    if slot.record.None? then Outcome(slot, Go(Deleting(RemoveRecord)))
    else
      var record := slot.record.value;
      Outcome(slot, Go(Undoing(false, record.world == world, record.resources, UL.Begin(record.resources))))
  }

  /** One turn of `undo_all`, or its end. */
  function UndoOp(world: World, w: Work, slot: Slot, op: Op): Option<Outcome>
    requires w.Undoing?
  {
    match op
    case Effect(e) =>
      (match UL.Advance(w.pass, w.sameBoot, e)
       case None => None
       case Some(pass) => Some(Outcome(AfterEffect(slot, world, w.pass.loop, e), Go(w.(pass := pass)))))
    case Finish =>
      if w.pass.loop.pending != [] || !w.pass.loop.at.Head? then None
      else if w.pass.loop.kept == [] then Some(Outcome(slot, Go(Deleting(RemoveRecord))))
      else Some(Outcome(slot, Go(Finishing(w.owner, UL.Names(w.pass.loop.kept)))))
    case _ => None
  }

  /** `delete_owner_files`: the record, then the temp, then the lock file; on an error the
      guard is dropped. */
  function DeleteFile(d: DescId, stage: Stage, slot: Slot, ok: bool): Outcome {
    match stage
    case Removed => Outcome(slot, Quit(LP.Release(d)))
    case RemoveRecord =>
      if ok then Outcome(slot.(record := None), Go(Deleting(RemoveTemp))) else Outcome(slot, Quit(LP.Unlock(d)))
    case RemoveTemp =>
      if ok then Outcome(slot.(temp := false), Go(Deleting(RemoveLock))) else Outcome(slot, Quit(LP.Unlock(d)))
    case RemoveLock =>
      if ok then Outcome(slot, GoAfter(LP.Unlink(d), Deleting(Removed))) else Outcome(slot, Quit(LP.Unlock(d)))
  }

  /** The outcome of an operation for the process and the slot it works on. When the last
      write of a completing owner fails, `?` drops its guard; a pass releases the lock. */
  function Local(d: DescId, agent: Agent, slot: Slot, op: Op): Option<Outcome> {
    if op.Die? then Some(Outcome(slot, Quit(LP.Kill(d))))
    else
      match agent.work
      case Entered(owner) =>
        if owner then if op.Begin? then BeginOwner(d, agent.world, slot) else None
        else if op.Read? then Some(ReadRecord(agent.world, slot))
        else if op.Unreadable? then Some(Outcome(slot, Quit(LP.Unlock(d))))
        else None
      case Live(mem) => LiveOp(d, agent.world, mem, slot, op)
      case Undoing(_, _, _, _) => UndoOp(agent.world, agent.work, slot, op)
      case Finishing(owner, list) =>
        if !op.Rewrite? then None
        else Some(Outcome(Written(slot, agent.world, list, op.ok),
                          Quit(if owner && !op.ok then LP.Unlock(d) else LP.Release(d))))
      case Deleting(stage) => if op.Delete? then Some(DeleteFile(d, stage, slot, op.ok)) else None
  }

  /** Lock steps that concern no process at work on a record. */
  predicate PlainLockStep(s: Sys, step: LP.Step) {
    && LP.Enabled(s.lock, step)
    && match step
       case Open(d, _, _) => d !in s.agents
       case Flock(_) => true
       case WouldBlock(_) => true
       case Check(d) => LP.Apply(s.lock, step).descs[d].pc.Closed?
       case HelperExit(_, _) => true
       case Kill(d) => d !in s.agents
       case _ => false
  }

  /** The kernel name `r` is no other owner's in this world. */
  predicate NameFree(s: Sys, id: Id, world: World, r: Resource) {
    forall other :: other in s.slots && other != id && s.slots[other].home == Some(world)
      ==> r !in s.slots[other].claims
  }

  predicate LockAllows(l: LP.State, next: Then) {
    next.Go? || LP.Enabled(l, next.step)
  }

  predicate Allowed(s: Sys, d: DescId, op: Op) {
    && Working(s, d)
    && Local(d, s.agents[d], Mine(s, d), op).Some?
    && LockAllows(s.lock, Local(d, s.agents[d], Mine(s, d), op).value.next)
    && (op.Claim? ==> NameFree(s, IdOf(s, d), s.agents[d].world, op.r))
  }

  predicate Enabled(s: Sys, step: Step) {
    match step
    case Lock(l) => PlainLockStep(s, l)
    case Enter(d, _, _) =>
      LP.Enabled(s.lock, LP.Check(d)) && LP.Apply(s.lock, LP.Check(d)).descs[d].pc.Held? && d !in s.agents
    case By(d, op) => Allowed(s, d, op)
    case HelperCreate(d, r) =>
      d in s.lock.descs && s.lock.descs[d].helpers != {} && r in SlotOf(s, s.lock.descs[d].id).lent
    case Reboot(boot) => boot > s.boot
  }

  function SetSlot(s: Sys, id: Id, slot: Slot): Sys {
    s.(slots := s.slots[id := slot])
  }

  function SetWork(s: Sys, d: DescId, work: Work): Sys
    requires d in s.agents
  {
    s.(agents := s.agents[d := s.agents[d].(work := work)])
  }

  function Continue(s: Sys, d: DescId, next: Then): Sys
    requires d in s.agents && LockAllows(s.lock, next)
  {
    match next
    case Go(work) => SetWork(s, d, work)
    case GoAfter(step, work) => SetWork(s.(lock := LP.Apply(s.lock, step)), d, work)
    case Quit(step) => s.(lock := LP.Apply(s.lock, step), agents := s.agents - {d})
  }

  function Perform(s: Sys, d: DescId, op: Op): Sys
    requires Allowed(s, d, op)
  {
    var outcome := Local(d, s.agents[d], Mine(s, d), op).value;
    Continue(SetSlot(s, IdOf(s, d), outcome.slot), d, outcome.next)
  }

  function Apply(s: Sys, step: Step): Sys
    requires Enabled(s, step)
  {
    match step
    case Lock(l) => s.(lock := LP.Apply(s.lock, l))
    case Enter(d, owner, namespace) =>
      s.(lock := LP.Apply(s.lock, LP.Check(d)),
         agents := s.agents[d := Agent(World(s.boot, namespace), Entered(owner))])
    case By(d, op) => Perform(s, d, op)
    case HelperCreate(d, r) =>
      var id := s.lock.descs[d].id;
      SetSlot(s, id, SlotOf(s, id).(paths := SlotOf(s, id).paths + {r}))
    case Reboot(boot) => s.(boot := boot, lock := LP.Apply(s.lock, LP.Reboot), agents := map[])
  }

  ghost predicate Runs(s: Sys, steps: seq<Step>, s': Sys)
    decreases |steps|
  {
    if steps == [] then s' == s
    else Enabled(s, steps[0]) && Runs(Apply(s, steps[0]), steps[1..], s')
  }
}
