/** `undo_all` (src/reclaim.rs): undo a record newest first, retiring each kernel object
    from the on-disk record before deleting it.

    The loop is given twice. `Next` is its small-step form, one visible effect at a time,
    so that a kill at any point is a prefix of a trace. `UndoAll` is the loop itself, and
    it is proved to produce such a trace. */
module UndoLoop {
  import opened Resources

  /** What an undo answers. `Done` means gone; the others mean nothing was deleted. */
  datatype Answer = Done | Kept | InUse

  /** Why a resource stays: `Busy` is the `in use: ` tag, `Stuck` any other reason. */
  datatype Why = Stuck | Busy

  datatype Left = Left(res: Resource, why: Why)

  /** Where the loop is: at its head, holding a retired kernel object it is about to undo,
      or about to record again one whose undo was refused. */
  datatype Point = Head | Retired(res: Resource) | Refused

  /** `kept` is the source's `remaining` read backwards, that is in recorded order. */
  datatype Loop = Loop(pending: seq<Resource>, at: Point, kept: seq<Left>, hold: Option<Why>)

  datatype Event =
    | Tried(res: Resource, answer: Answer)
    | Persisted(list: seq<Resource>)
    | PersistFailed(list: seq<Resource>)
    | HeldBack(res: Resource)
    | LeftAlone(res: Resource)

  function Names(kept: seq<Left>): seq<Resource> {
    seq(|kept|, i requires 0 <= i < |kept| => kept[i].res)
  }

  /** The list `persist` is given. */
  function RecordList(l: Loop): seq<Resource> {
    l.pending + Names(l.kept)
  }

  /** Everything this pass still answers for, in recorded order. */
  function Listed(l: Loop): seq<Resource> {
    if l.at.Retired? then l.pending + [l.at.res] + Names(l.kept) else RecordList(l)
  }

  function WhyOf(answer: Answer): Why {
    if answer.InUse? then Busy else Stuck
  }

  /** The loop's state after the effect `e`, or `None` when the loop does not do that next. */
  function Next(l: Loop, sameBoot: bool, e: Event): Option<Loop> {
    match l.at
    case Retired(res) =>
      (match e
       case Tried(r, answer) =>
         if r != res then None
         else if answer.Done? then Some(l.(at := Head))
         else Some(l.(at := Refused, kept := [Left(res, WhyOf(answer))] + l.kept, hold := Some(Busy)))
       case _ => None)
    case Refused =>
      (match e
       case Persisted(list) => if list == RecordList(l) then Some(l.(at := Head)) else None
       case PersistFailed(list) => if list == RecordList(l) then Some(l.(at := Head)) else None
       case _ => None)
    case Head =>
      if l.pending == [] then None
      else
        var res := l.pending[|l.pending| - 1];
        var popped := l.(pending := l.pending[..|l.pending| - 1]);
        if !res.IsKernelObject() then
          (match e
           case Tried(r, answer) =>
             if r != res then None
             else if answer.Done? then Some(popped)
             else Some(popped.(kept := [Left(res, WhyOf(answer))] + l.kept))
           case _ => None)
        else if !sameBoot then
          if e == LeftAlone(res) then Some(popped) else None
        else if l.hold.Some? then
          if e == HeldBack(res) then Some(popped.(kept := [Left(res, l.hold.value)] + l.kept)) else None
        else
          (match e
           case Persisted(list) =>
             if list == RecordList(popped) then Some(popped.(at := Retired(res))) else None
           case PersistFailed(list) =>
             if list == RecordList(popped)
             then Some(popped.(kept := [Left(res, Stuck)] + l.kept, hold := Some(Stuck)))
             else None
           case _ => None)
  }

  /** A pass over one record: the loop, the record on disk, and what became of the rest. */
  datatype Pass = Pass(loop: Loop, disk: seq<Resource>, gone: multiset<Resource>, abandoned: multiset<Resource>)

  function Begin(input: seq<Resource>): Pass {
    Pass(Loop(input, Head, [], None), input, multiset{}, multiset{})
  }

  function Advance(p: Pass, sameBoot: bool, e: Event): Option<Pass> {
    match Next(p.loop, sameBoot, e)
    case None => None
    case Some(l) => Some(Pass(
      l,
      if e.Persisted? then e.list else p.disk,
      if e.Tried? && e.answer.Done? then p.gone + multiset{e.res} else p.gone,
      if e.LeftAlone? then p.abandoned + multiset{e.res} else p.abandoned))
  }

  /** The pass after the effects `es`, or `None` when they are not a prefix of one. */
  function After(input: seq<Resource>, sameBoot: bool, es: seq<Event>): Option<Pass> {
    if es == [] then Some(Begin(input))
    else
      match After(input, sameBoot, es[..|es| - 1])
      case None => None
      case Some(p) => Advance(p, sameBoot, es[|es| - 1])
  }

  /** Every file or directory the pass still answers for is on disk. */
  ghost predicate PathsOnDisk(p: Pass) {
    forall r :: r in Listed(p.loop) && !r.IsKernelObject() ==> r in p.disk
  }

  /** What a pass accounts for: a subsequence of the record, with every path it still
      answers for on disk, and each resource either listed, gone or left alone. */
  ghost predicate ListInv(input: seq<Resource>, p: Pass) {
    && p.loop.pending <= input
    && IsSubsequence(Listed(p.loop), input)
    && IsSubsequence(p.disk, input)
    && PathsOnDisk(p)
    && multiset(input) == multiset(Listed(p.loop)) + p.gone + p.abandoned
  }

  /** The kernel objects of a record of this boot and namespace. */
  ghost predicate KernelInv(input: seq<Resource>, l: Loop, disk: seq<Resource>) {
    && Select(AnyKernel, Listed(l)) <= Select(AnyKernel, input)
    && Select(AnyKernel, disk) <= Select(AnyKernel, Listed(l))
    && |Select(AnyKernel, Listed(l))| <= |Select(AnyKernel, disk)| + 1
    && (l.hold.None? ==> Select(AnyKernel, Names(l.kept)) == [])
    && (l.hold.None? && l.at.Head? ==> Select(AnyKernel, disk) == Select(AnyKernel, Listed(l)))
    && (l.at.Retired? ==> l.hold.None? && l.at.res.IsKernelObject() && disk == RecordList(l))
    && (l.at.Refused? ==> l.hold.Some?)
  }

  /** The kernel objects of another boot's or namespace's record: never kept or persisted. */
  ghost predicate ForeignInv(input: seq<Resource>, l: Loop, disk: seq<Resource>) {
    && l.at.Head? && l.hold.None?
    && disk == input
    && Select(AnyKernel, Names(l.kept)) == []
  }

  ghost predicate KernelSide(input: seq<Resource>, sameBoot: bool, p: Pass) {
    if sameBoot then KernelInv(input, p.loop, p.disk) else ForeignInv(input, p.loop, p.disk)
  }

  ghost predicate PassInv(input: seq<Resource>, sameBoot: bool, p: Pass) {
    ListInv(input, p) && KernelSide(input, sameBoot, p)
  }

  lemma SelectOne(sort: Sort, r: Resource)
    ensures Select(sort, [r]) == if Is(sort, r) then [r] else []
  {
    assert [r][..0] == [];
  }

  lemma SelectAround(sort: Sort, a: seq<Resource>, r: Resource, b: seq<Resource>)
    ensures Select(sort, a + [r] + b) == Select(sort, a) + (if Is(sort, r) then [r] else []) + Select(sort, b)
    ensures Select(sort, a + b) == Select(sort, a) + Select(sort, b)
  {
    SelectOne(sort, r);
    SelectConcat(sort, a, [r]);
    SelectConcat(sort, a + [r], b);
    SelectConcat(sort, a, b);
  }

  lemma SubsequenceAround(a: seq<Resource>, r: Resource, b: seq<Resource>, input: seq<Resource>)
    requires IsSubsequence(a + [r] + b, input)
    ensures IsSubsequence(a + b, input)
  {
    assert Without(a + [r] + b, |a|) == a + b;
    SubsequenceWithout(a + [r] + b, input, |a|);
  }

  lemma MultisetAround(a: seq<Resource>, r: Resource, b: seq<Resource>)
    ensures multiset(a + [r] + b) == multiset(a + b) + multiset{r}
  {
  }

  /** The resource an effect takes off the list, when it takes one. */
  predicate Removes(e: Event) {
    (e.Tried? && e.answer.Done?) || e.LeftAlone?
  }

  lemma NamesPush(x: Left, kept: seq<Left>)
    ensures Names([x] + kept) == [x.res] + Names(kept)
  {
  }

  lemma Regroup(a: seq<Resource>, r: Resource, b: seq<Resource>)
    ensures a + ([r] + b) == a + [r] + b
  {
  }

  /** One effect either leaves the list alone or takes out the resource it names, which
      stands right behind what is still pending. */
  ghost predicate Shaped(l: Loop, e: Event, l': Loop) {
    && l'.pending <= l.pending
    && (if Removes(e)
        then l'.at.Head? && l'.kept == l.kept
             && Listed(l) == l'.pending + [e.res] + Names(l.kept)
             && Listed(l') == l'.pending + Names(l.kept)
        else Listed(l') == Listed(l))
  }

  lemma NextShape(l: Loop, sameBoot: bool, e: Event)
    requires Next(l, sameBoot, e).Some?
    ensures Shaped(l, e, Next(l, sameBoot, e).value)
  {
    var l' := Next(l, sameBoot, e).value;
    match l.at
    case Refused =>
    case Retired(res) =>
      if !Removes(e) {
        KeptShape(l, l.pending, res, l'.kept[0], e, l');
      }
    case Head =>
      var n := |l.pending| - 1;
      assert l.pending == l.pending[..n] + [l.pending[n]];
      if !Removes(e) && !l'.at.Retired? {
        KeptShape(l, l.pending[..n], l.pending[n], l'.kept[0], e, l');
      }
  }

  /** A resource that was not removed goes to the front of what is kept. */
  lemma KeptShape(l: Loop, pending: seq<Resource>, res: Resource, x: Left, e: Event, l': Loop)
    requires Listed(l) == pending + [res] + Names(l.kept) && pending <= l.pending && !Removes(e)
    requires l'.pending == pending && l'.kept == [x] + l.kept && x.res == res && !l'.at.Retired?
    ensures Shaped(l, e, l')
  {
    NamesPush(x, l.kept);
    Regroup(pending, res, Names(l.kept));
  }

  /** A persisted list is everything the pass still answers for, short of the kernel
      object it is about to undo. */
  lemma PersistShape(l: Loop, sameBoot: bool, e: Event)
    requires Next(l, sameBoot, e).Some? && e.Persisted?
    ensures
      var l' := Next(l, sameBoot, e).value;
      && e.list == RecordList(l')
      && (l'.at.Retired? ==> l'.at.res.IsKernelObject())
  {
  }

  lemma ListStep(input: seq<Resource>, sameBoot: bool, p: Pass, e: Event)
    requires ListInv(input, p)
    requires Advance(p, sameBoot, e).Some?
    ensures ListInv(input, Advance(p, sameBoot, e).value)
  {
    NextShape(p.loop, sameBoot, e);
    if Removes(e) {
      var l, l' := p.loop, Next(p.loop, sameBoot, e).value;
      SubsequenceAround(l'.pending, e.res, Names(l.kept), input);
      MultisetAround(l'.pending, e.res, Names(l.kept));
    } else if e.Persisted? {
      PersistIsSubsequence(input, sameBoot, p, e);
    }
    PathStep(sameBoot, p, e);
  }

  lemma PersistIsSubsequence(input: seq<Resource>, sameBoot: bool, p: Pass, e: Event)
    requires IsSubsequence(Listed(p.loop), input) && Advance(p, sameBoot, e).Some? && e.Persisted?
    ensures IsSubsequence(e.list, input)
  {
    var l' := Next(p.loop, sameBoot, e).value;
    NextShape(p.loop, sameBoot, e);
    PersistShape(p.loop, sameBoot, e);
    if l'.at.Retired? {
      SubsequenceAround(l'.pending, l'.at.res, Names(l'.kept), input);
    }
  }

  lemma PathStep(sameBoot: bool, p: Pass, e: Event)
    requires PathsOnDisk(p) && Advance(p, sameBoot, e).Some?
    ensures PathsOnDisk(Advance(p, sameBoot, e).value)
  {
    NextShape(p.loop, sameBoot, e);
    if e.Persisted? {
      PersistShape(p.loop, sameBoot, e);
    }
  }

  lemma KernelStepPersist(input: seq<Resource>, p: Pass, e: Event)
    requires KernelInv(input, p.loop, p.disk) && p.loop.at.Head? && e.Persisted?
    requires Advance(p, true, e).Some?
    ensures KernelInv(input, Advance(p, true, e).value.loop, Advance(p, true, e).value.disk)
  {
    var l' := Next(p.loop, true, e).value;
    NextShape(p.loop, true, e);
    SelectAround(AnyKernel, l'.pending, l'.at.res, Names(l'.kept));
  }

  lemma KernelStepKeep(input: seq<Resource>, p: Pass, e: Event)
    requires KernelInv(input, p.loop, p.disk) && p.loop.at.Head? && !e.Persisted? && !Removes(e)
    requires Advance(p, true, e).Some?
    ensures KernelInv(input, Advance(p, true, e).value.loop, Advance(p, true, e).value.disk)
  {
    var l, l' := p.loop, Next(p.loop, true, e).value;
    NextShape(l, true, e);
    if e.Tried? {
      assert Names(l'.kept) == [] + [e.res] + Names(l.kept);
      SelectAround(AnyKernel, [], e.res, Names(l.kept));
    }
  }

  lemma KernelStepRemove(input: seq<Resource>, p: Pass, e: Event)
    requires KernelInv(input, p.loop, p.disk) && p.loop.at.Head? && Removes(e)
    requires Advance(p, true, e).Some?
    ensures KernelInv(input, Advance(p, true, e).value.loop, Advance(p, true, e).value.disk)
  {
    var l' := Next(p.loop, true, e).value;
    NextShape(p.loop, true, e);
    SelectAround(AnyKernel, l'.pending, e.res, Names(l'.kept));
  }

  lemma KernelStepRetired(input: seq<Resource>, p: Pass, e: Event)
    requires KernelInv(input, p.loop, p.disk) && p.loop.at.Retired?
    requires Advance(p, true, e).Some?
    ensures KernelInv(input, Advance(p, true, e).value.loop, Advance(p, true, e).value.disk)
  {
    NextShape(p.loop, true, e);
    SelectAround(AnyKernel, p.loop.pending, p.loop.at.res, Names(p.loop.kept));
  }

  lemma KernelStepRefused(input: seq<Resource>, p: Pass, e: Event)
    requires KernelInv(input, p.loop, p.disk) && p.loop.at.Refused?
    requires Advance(p, true, e).Some?
    ensures KernelInv(input, Advance(p, true, e).value.loop, Advance(p, true, e).value.disk)
  {
  }

  lemma ForeignStep(input: seq<Resource>, p: Pass, e: Event)
    requires ForeignInv(input, p.loop, p.disk)
    requires Advance(p, false, e).Some?
    ensures ForeignInv(input, Advance(p, false, e).value.loop, Advance(p, false, e).value.disk)
  {
    var l, l' := p.loop, Next(p.loop, false, e).value;
    if |l'.kept| > |l.kept| {
      assert Names(l'.kept) == [] + [e.res] + Names(l.kept);
      SelectAround(AnyKernel, [], e.res, Names(l.kept));
    }
  }

  lemma KernelSideStep(input: seq<Resource>, sameBoot: bool, p: Pass, e: Event)
    requires KernelSide(input, sameBoot, p)
    requires Advance(p, sameBoot, e).Some?
    ensures KernelSide(input, sameBoot, Advance(p, sameBoot, e).value)
  {
    if !sameBoot {
      ForeignStep(input, p, e);
    } else {
      match p.loop.at
      case Head =>
        if e.Persisted? {
          KernelStepPersist(input, p, e);
        } else if Removes(e) {
          KernelStepRemove(input, p, e);
        } else {
          KernelStepKeep(input, p, e);
        }
      case Retired(_) => KernelStepRetired(input, p, e);
      case Refused => KernelStepRefused(input, p, e);
    }
  }

  lemma BeginInv(input: seq<Resource>, sameBoot: bool)
    ensures PassInv(input, sameBoot, Begin(input))
  {
    assert Listed(Begin(input).loop) == input;
    SubsequenceReflexive(input);
  }

  /** The invariant holds however far a pass gets, whatever its undos and writes answer. */
  lemma {:induction false} EveryPrefixKeepsInv(input: seq<Resource>, sameBoot: bool, es: seq<Event>)
    requires After(input, sameBoot, es).Some?
    ensures PassInv(input, sameBoot, After(input, sameBoot, es).value)
  {
    if es == [] {
      BeginInv(input, sameBoot);
    } else {
      var front := es[..|es| - 1];
      EveryPrefixKeepsInv(input, sameBoot, front);
      var p := After(input, sameBoot, front).value;
      ListStep(input, sameBoot, p, es[|es| - 1]);
      KernelSideStep(input, sameBoot, p, es[|es| - 1]);
    }
  }

  /** The kernel objects deleted so far, in recorded order. */
  function UndoneKernel(es: seq<Event>): seq<Resource> {
    if es == [] then []
    else
      var e := es[|es| - 1];
      KernelGone(e) + UndoneKernel(es[..|es| - 1])
  }

  /** The kernel object an effect deletes. */
  function KernelGone(e: Event): seq<Resource> {
    if e.Tried? && e.answer.Done? && e.res.IsKernelObject() then [e.res] else []
  }

  lemma KernelAccountStep(input: seq<Resource>, p: Pass, e: Event)
    requires KernelInv(input, p.loop, p.disk)
    requires Next(p.loop, true, e).Some?
    ensures Select(AnyKernel, Listed(p.loop)) ==
            Select(AnyKernel, Listed(Next(p.loop, true, e).value)) + KernelGone(e)
  {
    NextShape(p.loop, true, e);
    if Removes(e) {
      RemovedIsGone(p.loop, e, Next(p.loop, true, e).value);
    }
  }

  /** A removed kernel object was the newest one listed. */
  lemma RemovedIsGone(l: Loop, e: Event, l': Loop)
    requires Next(l, true, e) == Some(l') && Removes(e) && Shaped(l, e, l')
    requires e.res.IsKernelObject() ==> Select(AnyKernel, Names(l.kept)) == []
    ensures Select(AnyKernel, Listed(l)) == Select(AnyKernel, Listed(l')) + KernelGone(e)
  {
    SelectCut(l'.pending, e.res, Names(l.kept));
  }

  lemma SelectCut(a: seq<Resource>, r: Resource, b: seq<Resource>)
    requires r.IsKernelObject() ==> Select(AnyKernel, b) == []
    ensures Select(AnyKernel, a + [r] + b) ==
            Select(AnyKernel, a + b) + if r.IsKernelObject() then [r] else []
  {
    SelectAround(AnyKernel, a, r, b);
  }

  /** At the end of a pass, what it answers for is what it kept. */
  lemma ListedAtTheEnd(l: Loop)
    requires l.pending == [] && !l.at.Retired?
    ensures Listed(l) == Names(l.kept)
  {
    assert [] + Names(l.kept) == Names(l.kept);
  }

  lemma Reassociate<T>(whole: seq<T>, left: seq<T>, tail: seq<T>, shorter: seq<T>, cut: seq<T>)
    requires whole == left + tail && left == shorter + cut
    ensures whole == shorter + (cut + tail)
  {
  }

  lemma SameBootInv(input: seq<Resource>, es: seq<Event>)
    requires After(input, true, es).Some?
    ensures KernelInv(input, After(input, true, es).value.loop, After(input, true, es).value.disk)
  {
    EveryPrefixKeepsInv(input, true, es);
  }

  /** What is listed and what was deleted make up the recorded kernel objects, in order. */
  lemma {:induction false} KernelAccount(input: seq<Resource>, es: seq<Event>)
    requires After(input, true, es).Some?
    ensures Select(AnyKernel, input) == Select(AnyKernel, Listed(After(input, true, es).value.loop)) + UndoneKernel(es)
  {
    if es == [] {
      assert Listed(Begin(input).loop) == input;
    } else {
      var front, e := es[..|es| - 1], es[|es| - 1];
      var p := After(input, true, front).value;
      KernelAccount(input, front);
      SameBootInv(input, front);
      KernelAccountStep(input, p, e);
      Reassociate(Select(AnyKernel, input), Select(AnyKernel, Listed(p.loop)), UndoneKernel(front),
                  Select(AnyKernel, Listed(Next(p.loop, true, e).value)), KernelGone(e));
    }
  }

  /** However far a pass over a record of this boot gets, the record on disk holds a prefix
      of the recorded kernel objects, the deleted ones are a suffix, and at most one object
      is in neither: the one retired and not yet deleted, or refused and not recorded again. */
  lemma DiskHoldsAKernelPrefix(input: seq<Resource>, es: seq<Event>)
    requires After(input, true, es).Some?
    ensures
      var disk := After(input, true, es).value.disk;
      exists unrecorded :: |unrecorded| <= 1
        && Select(AnyKernel, input) == Select(AnyKernel, disk) + unrecorded + UndoneKernel(es)
  {
    var p := After(input, true, es).value;
    SameBootInv(input, es);
    KernelAccount(input, es);
    var listed, disk := Select(AnyKernel, Listed(p.loop)), Select(AnyKernel, p.disk);
    var unrecorded := listed[|disk|..];
    assert listed == disk + unrecorded;
  }

  /** Every list on disk, and the list returned, is the record with resources left out, in
      the recorded order; and every file or directory not yet undone is on disk. */
  lemma ListsAreSubsequences(input: seq<Resource>, sameBoot: bool, es: seq<Event>)
    requires After(input, sameBoot, es).Some?
    ensures
      var p := After(input, sameBoot, es).value;
      && IsSubsequence(p.disk, input)
      && IsSubsequence(Listed(p.loop), input)
      && (forall r :: r in input && !r.IsKernelObject() && r !in p.gone ==> r in p.disk)
  {
    EveryPrefixKeepsInv(input, sameBoot, es);
    var p := After(input, sameBoot, es).value;
    AbandonedAreKernel(input, sameBoot, es);
    forall r | r in input && !r.IsKernelObject() && r !in p.gone
      ensures r in p.disk
    {
      assert r in multiset(input);
      assert r in multiset(Listed(p.loop)) + p.gone + p.abandoned;
    }
  }

  lemma {:induction false} AbandonedAreKernel(input: seq<Resource>, sameBoot: bool, es: seq<Event>)
    requires After(input, sameBoot, es).Some?
    ensures forall r :: r in After(input, sameBoot, es).value.abandoned ==> r.IsKernelObject() && !sameBoot
  {
    if es != [] {
      AbandonedAreKernel(input, sameBoot, es[..|es| - 1]);
    }
  }

  /** Only a retired kernel object is undone. */
  lemma UndoneFromRetired(l: Loop, sameBoot: bool, e: Event)
    requires Next(l, sameBoot, e).Some? && e.Tried? && e.res.IsKernelObject()
    ensures l.at == Retired(e.res)
  {
  }

  lemma RetiredListsTheOlder(input: seq<Resource>, p: Pass)
    requires KernelInv(input, p.loop, p.disk) && p.loop.at.Retired?
    ensures Select(AnyKernel, Listed(p.loop)) == Select(AnyKernel, p.disk) + [p.loop.at.res]
  {
    SelectAround(AnyKernel, p.loop.pending, p.loop.at.res, Names(p.loop.kept));
  }

  /** When a kernel object is undone, the record on disk already lists only the older ones:
      a kill from here on leaks the object, and never leaves a record of a deleted one. */
  lemma RetiredBeforeUndone(input: seq<Resource>, sameBoot: bool, es: seq<Event>, r: Resource, answer: Answer)
    requires r.IsKernelObject()
    requires After(input, sameBoot, es).Some?
    requires Advance(After(input, sameBoot, es).value, sameBoot, Tried(r, answer)).Some?
    ensures sameBoot
    ensures Select(AnyKernel, input) ==
            Select(AnyKernel, After(input, sameBoot, es).value.disk) + [r] + UndoneKernel(es)
  {
    var p := After(input, sameBoot, es).value;
    EveryPrefixKeepsInv(input, sameBoot, es);
    UndoneFromRetired(p.loop, sameBoot, Tried(r, answer));
    KernelAccount(input, es);
    RetiredListsTheOlder(input, p);
  }

  /** A pass over another boot's or namespace's record deletes no kernel object, writes
      nothing before its end, and returns none, so re-stamping what it returns never makes
      an old kernel object actionable. */
  lemma ForeignPassTouchesNoKernelObject(input: seq<Resource>, es: seq<Event>)
    requires After(input, false, es).Some?
    ensures
      var p := After(input, false, es).value;
      && p.disk == input
      && UndoneKernel(es) == []
      && (p.loop.pending == [] ==> Select(AnyKernel, Listed(p.loop)) == [])
  {
    EveryPrefixKeepsInv(input, false, es);
    ForeignUndoesNoKernel(input, es);
    var l := After(input, false, es).value.loop;
    if l.pending == [] {
      assert Listed(l) == Names(l.kept);
    }
  }

  lemma {:induction false} ForeignUndoesNoKernel(input: seq<Resource>, es: seq<Event>)
    requires After(input, false, es).Some?
    ensures UndoneKernel(es) == []
  {
    if es != [] {
      var front, e := es[..|es| - 1], es[|es| - 1];
      ForeignUndoesNoKernel(input, front);
      EveryPrefixKeepsInv(input, false, front);
      if e.Tried? && e.res.IsKernelObject() {
        UndoneFromRetired(After(input, false, front).value.loop, false, e);
      }
    }
  }

  /** No write failed and every undo answered `Done`. */
  predicate Smooth(e: Event) {
    !e.PersistFailed? && (e.Tried? ==> e.answer.Done?)
  }

  lemma SmoothStep(l: Loop, sameBoot: bool, e: Event)
    requires Next(l, sameBoot, e).Some? && Smooth(e) && l.kept == [] && l.hold.None?
    ensures Next(l, sameBoot, e).value.kept == [] && Next(l, sameBoot, e).value.hold.None?
  {
  }

  /** A pass whose writes and undos all succeed keeps nothing. */
  lemma {:induction false} SmoothPassKeepsNothing(input: seq<Resource>, sameBoot: bool, es: seq<Event>)
    requires After(input, sameBoot, es).Some?
    requires forall i :: 0 <= i < |es| ==> Smooth(es[i])
    ensures After(input, sameBoot, es).value.loop.kept == []
    ensures After(input, sameBoot, es).value.loop.hold.None?
  {
    if es != [] {
      var front, e := es[..|es| - 1], es[|es| - 1];
      SmoothPassKeepsNothing(input, sameBoot, front);
      SmoothStep(After(input, sameBoot, front).value.loop, sameBoot, e);
    }
  }

  function Reversed<T>(s: seq<T>): (r: seq<T>)
    ensures |r| == |s|
  {
    seq(|s|, i requires 0 <= i < |s| => s[|s| - 1 - i])
  }

  lemma ReversedPush<T>(s: seq<T>, x: T)
    ensures Reversed(s + [x]) == [x] + Reversed(s)
  {
  }

  lemma NamesOfReversed(kept: seq<Left>)
    ensures Names(Reversed(kept)) == Reversed(Names(kept))
  {
  }

  /** What the host will answer, by the number of calls made so far: to an undo, to a record
      write, and to the removal of a file. */
  datatype Answers = Answers(undo: nat -> Answer, write: nat -> bool, remove: nat -> bool)

  predicate IsCall(e: Event) {
    e.Tried? || e.Persisted? || e.PersistFailed?
  }

  function Calls(es: seq<Event>): nat {
    if es == [] then 0 else Calls(es[..|es| - 1]) + if IsCall(es[|es| - 1]) then 1 else 0
  }

  /** `e` says what the host answers to the call with number `n`. */
  predicate Answered(a: Answers, n: nat, e: Event) {
    match e
    case Tried(_, answer) => answer == a.undo(n)
    case Persisted(_) => a.write(n)
    case PersistFailed(_) => !a.write(n)
    case _ => true
  }

  /** Every effect logged is the host's own answer, with the first call numbered `base`. */
  predicate Truthful(a: Answers, base: nat, es: seq<Event>) {
    es == [] ||
    (Truthful(a, base, es[..|es| - 1]) && Answered(a, base + Calls(es[..|es| - 1]), es[|es| - 1]))
  }

  lemma TruthfulPush(a: Answers, base: nat, es: seq<Event>, e: Event)
    requires Truthful(a, base, es) && Answered(a, base + Calls(es), e)
    ensures Truthful(a, base, es + [e]) && Calls(es + [e]) == Calls(es) + if IsCall(e) then 1 else 0
  {
    assert (es + [e])[..|es|] == es;
  }

  /** Whether `delete_owner_files` removes the record, the temp and the lock file. */
  predicate Deletes(a: Answers, n: nat) {
    a.remove(n) && a.remove(n + 1) && a.remove(n + 2)
  }

  /** The host a pass runs on: its answers, the record on disk, and the effects so far. */
  class Host {
    const answers: Answers
    var calls: nat
    var disk: seq<Resource>
    ghost var log: seq<Event>

    constructor (answers: Answers, disk: seq<Resource>)
      ensures this.disk == disk && log == [] && calls == 0 && this.answers == answers
    {
      this.answers, this.disk := answers, disk;
      calls, log := 0, [];
    }

    ghost predicate Logged(base: nat)
      reads this
    {
      Truthful(answers, base, log) && calls == base + Calls(log)
    }

    /** `write_record`: published by a rename, so the record is the old or the new one. */
    method Persist(list: seq<Resource>, ghost base: nat) returns (ok: bool)
      requires Logged(base)
      modifies this
      ensures Logged(base)
      ensures log == old(log) + [if ok then Persisted(list) else PersistFailed(list)]
      ensures disk == if ok then list else old(disk)
      ensures ok == answers.write(old(calls)) && calls == old(calls) + 1
    {
      ok := answers.write(calls);
      calls := calls + 1;
      if ok {
        disk := list;
      }
      TruthfulPush(answers, base, log, if ok then Persisted(list) else PersistFailed(list));
      log := log + [if ok then Persisted(list) else PersistFailed(list)];
    }

    method Undo(r: Resource, ghost base: nat) returns (answer: Answer)
      requires Logged(base)
      modifies this`calls, this`log
      ensures Logged(base)
      ensures log == old(log) + [Tried(r, answer)]
      ensures answer == answers.undo(old(calls)) && calls == old(calls) + 1
    {
      answer := answers.undo(calls);
      calls := calls + 1;
      TruthfulPush(answers, base, log, Tried(r, answer));
      log := log + [Tried(r, answer)];
    }

    /** A resource passed over without an effect on the host. */
    method Note(e: Event, ghost base: nat)
      requires Logged(base) && (e.HeldBack? || e.LeftAlone?)
      modifies this`log
      ensures Logged(base)
      ensures log == old(log) + [e]
    {
      TruthfulPush(answers, base, log, e);
      log := log + [e];
    }

    /** `delete_owner_files`: in that order, up to the first that fails. */
    method DeleteFiles() returns (ok: bool)
      modifies this`calls, this`disk
      ensures ok == Deletes(answers, old(calls))
      ensures disk == if answers.remove(old(calls)) then [] else old(disk)
      ensures old(calls) < calls <= old(calls) + 3
    {
      calls := calls + 1;
      if !answers.remove(calls - 1) {
        return false;
      }
      disk := [];
      calls := calls + 1;
      if !answers.remove(calls - 1) {
        return false;
      }
      calls := calls + 1;
      return answers.remove(calls - 1);
    }
  }

  /** `es` are the effects of a pass that is now at `l` with `disk` on disk. */
  ghost predicate Traced(input: seq<Resource>, sameBoot: bool, es: seq<Event>, l: Loop, disk: seq<Resource>) {
    match After(input, sameBoot, es)
    case None => false
    case Some(p) => p.loop == l && p.disk == disk
  }

  lemma TracePush(input: seq<Resource>, sameBoot: bool, es: seq<Event>, e: Event, l: Loop, disk: seq<Resource>)
    requires Traced(input, sameBoot, es, l, disk)
    requires Next(l, sameBoot, e).Some?
    ensures Traced(input, sameBoot, es + [e], Next(l, sameBoot, e).value, if e.Persisted? then e.list else disk)
  {
    assert (es + [e])[..|es|] == es;
  }

  /** One turn of the loop for a kernel object of this boot that nothing holds back. */
  method RetireAndUndo(ghost input: seq<Resource>, resource: Resource, pending: seq<Resource>,
                       remaining: seq<Left>, host: Host, ghost base: nat)
    returns (remaining': seq<Left>, holdKernel: Option<Why>)
    requires resource.IsKernelObject() && host.Logged(base)
    requires Traced(input, true, host.log, Loop(pending + [resource], Head, Reversed(remaining), None), host.disk)
    modifies host
    ensures host.Logged(base)
    ensures Traced(input, true, host.log, Loop(pending, Head, Reversed(remaining'), holdKernel), host.disk)
  {
    ghost var l := Loop(pending + [resource], Head, Reversed(remaining), None);
    assert l.pending[..|pending|] == pending;
    NamesOfReversed(remaining);
    var list := pending + Reversed(Names(remaining));
    var ok := host.Persist(list, base);
    TracePush(input, true, old(host.log), if ok then Persisted(list) else PersistFailed(list), l, old(host.disk));
    if !ok {
      ReversedPush(remaining, Left(resource, Stuck));
      return remaining + [Left(resource, Stuck)], Some(Stuck);
    }
    l := Loop(pending, Retired(resource), Reversed(remaining), None);
    ghost var log := host.log;
    var answer := host.Undo(resource, base);
    TracePush(input, true, log, Tried(resource, answer), l, host.disk);
    if answer.Done? {
      return remaining, None;
    }
    ReversedPush(remaining, Left(resource, WhyOf(answer)));
    remaining', holdKernel := remaining + [Left(resource, WhyOf(answer))], Some(Busy);
    RecordAgain(input, pending, remaining', host, base);
  }

  /** A kernel object whose undo was refused is still this owner's: record it again. */
  method RecordAgain(ghost input: seq<Resource>, pending: seq<Resource>, remaining: seq<Left>, host: Host,
                     ghost base: nat)
    requires host.Logged(base)
    requires Traced(input, true, host.log, Loop(pending, Refused, Reversed(remaining), Some(Busy)), host.disk)
    modifies host
    ensures host.Logged(base)
    ensures Traced(input, true, host.log, Loop(pending, Head, Reversed(remaining), Some(Busy)), host.disk)
  {
    NamesOfReversed(remaining);
    var list := pending + Reversed(Names(remaining));
    var ok := host.Persist(list, base);
    TracePush(input, true, old(host.log), if ok then Persisted(list) else PersistFailed(list),
              Loop(pending, Refused, Reversed(remaining), Some(Busy)), old(host.disk));
  }

  /** `undo_all` itself. Its effects are a whole trace of the small-step form, each with the
      host's own answer, and what it returns is what that trace keeps, in recorded order. */
  method UndoAll(resources: seq<Resource>, sameBoot: bool, host: Host) returns (kept: seq<Left>)
    requires host.disk == resources && host.log == []
    modifies host
    ensures host.Logged(old(host.calls))
    ensures exists hold :: Traced(resources, sameBoot, host.log, Loop([], Head, kept, hold), host.disk)
  {
    var pending, remaining, holdKernel: Option<Why> := resources, [], None;
    ghost var base := host.calls;
    while pending != []
      invariant host.Logged(base)
      invariant Traced(resources, sameBoot, host.log, Loop(pending, Head, Reversed(remaining), holdKernel), host.disk)
      decreases |pending|
    {
      ghost var l, disk, log := Loop(pending, Head, Reversed(remaining), holdKernel), host.disk, host.log;
      var resource := pending[|pending| - 1];
      assert pending == pending[..|pending| - 1] + [resource];
      pending := pending[..|pending| - 1];
      if !resource.IsKernelObject() {
        var answer := host.Undo(resource, base);
        TracePush(resources, sameBoot, log, Tried(resource, answer), l, disk);
        if !answer.Done? {
          ReversedPush(remaining, Left(resource, WhyOf(answer)));
          remaining := remaining + [Left(resource, WhyOf(answer))];
        }
      } else if !sameBoot {
        host.Note(LeftAlone(resource), base);
        TracePush(resources, sameBoot, log, LeftAlone(resource), l, disk);
      } else if holdKernel.Some? {
        host.Note(HeldBack(resource), base);
        TracePush(resources, sameBoot, log, HeldBack(resource), l, disk);
        ReversedPush(remaining, Left(resource, holdKernel.value));
        remaining := remaining + [Left(resource, holdKernel.value)];
      } else {
        remaining, holdKernel := RetireAndUndo(resources, resource, pending, remaining, host, base);
      }
    }
    kept := Reversed(remaining);
  }

  /** Where a loop is and what the host answers next, its next effect is determined. */
  lemma NextIsDetermined(l: Loop, sameBoot: bool, a: Answers, n: nat, e: Event, f: Event)
    requires Next(l, sameBoot, e).Some? && Next(l, sameBoot, f).Some?
    requires Answered(a, n, e) && Answered(a, n, f)
    ensures e == f
  {
  }

  function Front<T>(xs: seq<T>): seq<T>
    requires xs != []
  {
    xs[..|xs| - 1]
  }

  /** If a log can be cut short, and its next entry never has two values, then any two logs
      are the same as far as both go. */
  lemma {:induction false} Deterministic(log: seq<Event> -> bool, xs: seq<Event>, ys: seq<Event>)
    requires forall zs :: log(zs) && zs != [] ==> log(Front(zs))
    requires forall zs, ws :: log(zs) && log(ws) && zs != [] && ws != [] && Front(zs) == Front(ws) ==> zs == ws
    requires log(xs) && log(ys)
    ensures xs <= ys || ys <= xs
    decreases |xs| + |ys|
  {
    if xs != [] && ys != [] && Front(xs) != Front(ys) {
      assert Front(xs) <= xs && Front(ys) <= ys;
      Deterministic(log, Front(xs), ys);
      Deterministic(log, xs, Front(ys));
    }
  }

  ghost predicate LogOf(a: Answers, base: nat, input: seq<Resource>, sameBoot: bool, es: seq<Event>) {
    Truthful(a, base, es) && After(input, sameBoot, es).Some?
  }

  lemma OneNextEntry(a: Answers, base: nat, input: seq<Resource>, sameBoot: bool, es: seq<Event>, fs: seq<Event>)
    requires LogOf(a, base, input, sameBoot, es) && LogOf(a, base, input, sameBoot, fs)
    requires es != [] && fs != [] && Front(es) == Front(fs)
    ensures es == fs
  {
    var l := After(input, sameBoot, Front(es)).value.loop;
    NextIsDetermined(l, sameBoot, a, base + Calls(Front(es)), es[|es| - 1], fs[|fs| - 1]);
    assert es == Front(es) + [es[|es| - 1]] && fs == Front(fs) + [fs[|fs| - 1]];
  }

  lemma LogsAgree(a: Answers, base: nat, input: seq<Resource>, sameBoot: bool, es: seq<Event>, fs: seq<Event>)
    requires LogOf(a, base, input, sameBoot, es) && LogOf(a, base, input, sameBoot, fs)
    ensures es <= fs || fs <= es
  {
    forall zs, ws | LogOf(a, base, input, sameBoot, zs) && LogOf(a, base, input, sameBoot, ws)
                    && zs != [] && ws != [] && Front(zs) == Front(ws)
      ensures zs == ws
    {
      OneNextEntry(a, base, input, sameBoot, zs, ws);
    }
    Deterministic(zs => LogOf(a, base, input, sameBoot, zs), es, fs);
  }

  lemma {:induction false} NothingAfterTheEnd(input: seq<Resource>, sameBoot: bool, es: seq<Event>, fs: seq<Event>)
    requires es <= fs && After(input, sameBoot, es).Some? && After(input, sameBoot, fs).Some?
    requires AtEnd(After(input, sameBoot, es).value.loop)
    ensures es == fs
    decreases |fs|
  {
    if es != fs {
      NothingAfterTheEnd(input, sameBoot, es, fs[..|fs| - 1]);
    }
  }

  /** A host's answers determine a whole pass: no other log of it is truthful. */
  lemma PassIsDetermined(a: Answers, base: nat, input: seq<Resource>, sameBoot: bool, es: seq<Event>, fs: seq<Event>)
    requires Truthful(a, base, es) && Truthful(a, base, fs)
    requires After(input, sameBoot, es).Some? && After(input, sameBoot, fs).Some?
    requires AtEnd(After(input, sameBoot, es).value.loop) && AtEnd(After(input, sameBoot, fs).value.loop)
    ensures es == fs
  {
    LogsAgree(a, base, input, sameBoot, es, fs);
    if es <= fs {
      NothingAfterTheEnd(input, sameBoot, es, fs);
    } else {
      NothingAfterTheEnd(input, sameBoot, fs, es);
    }
  }

  predicate AtEnd(l: Loop) {
    l.pending == [] && l.at.Head?
  }

  /** Every resource of the record ends up returned, undone, or left alone as another
      boot's, so what a pass counts as undone is the total less what it returns. */
  lemma NothingIsLost(input: seq<Resource>, sameBoot: bool, es: seq<Event>)
    requires After(input, sameBoot, es).Some?
    requires After(input, sameBoot, es).value.loop.pending == []
    requires After(input, sameBoot, es).value.loop.at.Head?
    ensures
      var p := After(input, sameBoot, es).value;
      && multiset(input) == multiset(Names(p.loop.kept)) + p.gone + p.abandoned
      && |input| - |p.loop.kept| == |p.gone| + |p.abandoned|
  {
    var p := After(input, sameBoot, es).value;
    AllAccountedFor(input, sameBoot, es);
    assert Listed(p.loop) == Names(p.loop.kept);
    CountParts(input, Names(p.loop.kept), p.gone, p.abandoned);
  }

  lemma AllAccountedFor(input: seq<Resource>, sameBoot: bool, es: seq<Event>)
    requires After(input, sameBoot, es).Some?
    ensures
      var p := After(input, sameBoot, es).value;
      multiset(input) == multiset(Listed(p.loop)) + p.gone + p.abandoned
  {
    EveryPrefixKeepsInv(input, sameBoot, es);
  }

  lemma CountParts(input: seq<Resource>, kept: seq<Resource>, gone: multiset<Resource>, abandoned: multiset<Resource>)
    requires multiset(input) == multiset(kept) + gone + abandoned
    ensures |input| - |kept| == |gone| + |abandoned|
  {
    assert |multiset(input)| == |input| && |multiset(kept)| == |kept|;
  }
}
