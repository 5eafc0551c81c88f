/** `Owner` (src/reclaim.rs): the state one live owner keeps under its mutex, and what its
    operations make of it, of the record on disk and of its lock. */
module OwnerState {
  import opened Resources
  import opened UndoLoop

  /** The owner's lock: still held, its file deleted, released with the record kept, or its
      guard dropped by an error, which unlocks it for helpers too. */
  datatype LockEnd = Held | Deleted | Released | Dropped

  /** `HostError` is a record write or a removal that failed. */
  datatype Result = Ok | AlreadyCompleted | HostError | Remains

  /** What is left of a list, in order, when the entries `matches` selects are dropped. */
  function Unmatched(matches: Resource -> bool, list: seq<Resource>): (kept: seq<Resource>)
    ensures |kept| <= |list|
    ensures |kept| == |list| ==> kept == list
    ensures forall r :: r in kept <==> r in list && !matches(r)
  {
    if list == [] then []
    else
      var front, last := list[..|list| - 1], list[|list| - 1];
      assert list == front + [last];
      Unmatched(matches, front) + if matches(last) then [] else [last]
  }

  class Owner {
    const host: Host
    var resources: seq<Resource>
    var completed: bool
    var lock: LockEnd

    /** Between operations the list in memory is the list on disk. */
    ghost predicate Valid()
      reads this, host
    {
      !completed ==> lock.Held? && host.disk == resources
    }

    constructor (host: Host)
      requires host.disk == []
      ensures this.host == host && resources == [] && Valid() && !completed
    {
      this.host, resources, completed, lock := host, [], false, Held;
    }

    /** Record `resource` before creating it. A failed write leaves both lists alone. */
    method Record(resource: Resource) returns (result: Result)
      requires Valid()
      modifies this`resources, host
      ensures Valid()
      ensures result == if completed then AlreadyCompleted
                        else if !resource.Rule? && resource in old(resources) then Ok
                        else if host.answers.write(old(host.calls)) then Ok else HostError
      ensures !completed && result.Ok? ==> resource in host.disk
      ensures if !completed && result.Ok? && (resource.Rule? || resource !in old(resources))
              then resources == old(resources) + [resource]
              else resources == old(resources) && host.disk == old(host.disk)
    {
      if completed {
        return AlreadyCompleted;
      }
      if !resource.Rule? && resource in resources {
        return Ok;
      }
      resources := resources + [resource];
      host.log := [];
      var ok := host.Persist(resources, host.calls);
      if !ok {
        resources := resources[..|resources| - 1];
        return HostError;
      }
      return Ok;
    }

    /** Drop the records `matches` selects, on disk first: after a failed write they are
        still recorded, and the caller must not delete the objects. */
    method Forget(matches: Resource -> bool) returns (result: Result)
      requires Valid()
      modifies this`resources, host
      ensures Valid()
      ensures !completed && result.Ok? ==>
        resources == Unmatched(matches, old(resources)) && host.disk == resources
      ensures completed || result.HostError? ==> resources == old(resources) && host.disk == old(host.disk)
      ensures result == if completed || Unmatched(matches, old(resources)) == old(resources) ||
                           host.answers.write(old(host.calls)) then Ok else HostError
    {
      if completed {
        return Ok;
      }
      var kept := Unmatched(matches, resources);
      if |kept| == |resources| {
        return Ok;
      }
      host.log := [];
      var ok := host.Persist(kept, host.calls);
      if !ok {
        return HostError;
      }
      resources := kept;
      return Ok;
    }

    /** Delete the record without undoing anything. An owner that has ended has no lock to
        give up, and its files are left alone. */
    method Discard() returns (result: Result)
      requires Valid()
      modifies this, host`calls, host`disk
      ensures completed && resources == []
      ensures old(completed) ==>
        result.AlreadyCompleted? && lock == old(lock) && host.disk == old(host.disk)
      ensures !old(completed) ==>
        && host.disk == (if host.answers.remove(old(host.calls)) then [] else old(host.disk))
        && (if Deletes(host.answers, old(host.calls)) then result.Ok? && lock.Deleted? else result.HostError? && lock.Dropped?)
    {
      var ended := completed;
      completed, resources := true, [];
      if ended {
        return AlreadyCompleted;
      }
      var removed := host.DeleteFiles();
      if removed {
        lock := Deleted;
        return Ok;
      }
      lock := Dropped;
      return HostError;
    }

    /** Undo what is still recorded. The pass is the one the host's answers determine; how the
        owner ends is what the pass keeps and the host's next answers say. Whatever it meets,
        each file or directory it was given is gone or still on disk in the record, and the
        kernel objects on disk are the oldest of the recorded ones. */
    method Complete() returns (result: Result, ghost es: seq<Event>, ghost pass: Pass)
      requires Valid()
      modifies this, host
      ensures completed
      ensures old(completed) ==> result.Ok? && host.disk == old(host.disk) && lock == old(lock)
      ensures !old(completed) ==>
        && WholePass(host.answers, old(host.calls), old(resources), es, pass)
        && Safe(old(resources), pass, host.disk)
        && Ends(host.answers, old(host.calls) + Calls(es), pass, result, lock, host.disk)
    {
      if completed {
        es, pass := [], Begin([]);
        return Ok, es, pass;
      }
      var taken := resources;
      ghost var base := host.calls;
      resources := [];
      var kept;
      kept, es, pass := UndoTaken(taken);
      completed := true;
      result := EndWith(kept, base, pass);
      EndIsSafe(taken, host.answers, base + Calls(es), pass, result, lock, host.disk);
    }

    method UndoTaken(taken: seq<Resource>) returns (kept: seq<Left>, ghost es: seq<Event>, ghost pass: Pass)
      requires host.disk == taken
      modifies host
      ensures WholePass(host.answers, old(host.calls), taken, es, pass)
      ensures host.Logged(old(host.calls)) && host.calls == old(host.calls) + Calls(es)
      ensures pass.loop.kept == kept && pass.disk == host.disk
      ensures Safe(taken, pass, pass.disk) && Safe(taken, pass, Names(kept))
    {
      host.log := [];
      kept := UndoAll(taken, true, host);
      es := host.log;
      pass := PassIsSafe(taken, es, kept, host.disk);
    }

    /** Delete the owner's files, or record what is left and release the lock. */
    method EndWith(kept: seq<Left>, ghost base: nat, ghost pass: Pass) returns (result: Result)
      requires host.Logged(base) && pass.loop.kept == kept && pass.disk == host.disk
      modifies this`lock, host
      ensures Ends(host.answers, old(host.calls), pass, result, lock, host.disk)
    {
      if kept == [] {
        var removed := host.DeleteFiles();
        lock := if removed then Deleted else Dropped;
        return if removed then Ok else HostError;
      }
      var ok := host.Persist(Names(kept), base);
      if !ok {
        lock := Dropped;
        return HostError;
      }
      lock := Released;
      return if AllBusy(kept) then Ok else Remains;
    }
  }

  /** How an owner ends after `pass`, by the host's answers to the calls from number `n` on.
      With nothing kept the owner's files are deleted; otherwise what is kept is recorded, the
      lock is released with the record, and only what is merely in use is no error. A call that
      fails drops the guard. */
  ghost predicate Ends(a: Answers, n: nat, pass: Pass, result: Result, lock: LockEnd, disk: seq<Resource>) {
    var kept := pass.loop.kept;
    if kept == [] then
      && disk == (if a.remove(n) then [] else pass.disk)
      && (if Deletes(a, n) then result.Ok? && lock.Deleted? else result.HostError? && lock.Dropped?)
    else if a.write(n) then
      && disk == Names(kept) && lock.Released?
      && result == if AllBusy(kept) then Ok else Remains
    else disk == pass.disk && result.HostError? && lock.Dropped?
  }

  /** A whole pass over `taken`, as the host's answers from call `base` on determine it. */
  ghost predicate WholePass(a: Answers, base: nat, taken: seq<Resource>, es: seq<Event>, pass: Pass) {
    Truthful(a, base, es) && After(taken, true, es) == Some(pass) && AtEnd(pass.loop)
  }

  /** A list that may be on disk after `pass`: nothing that exists is missing from it, and
      its kernel objects are the oldest recorded ones. */
  ghost predicate Safe(taken: seq<Resource>, pass: Pass, list: seq<Resource>) {
    && (forall r :: r in taken && !r.IsKernelObject() && r !in pass.gone ==> r in list)
    && Select(AnyKernel, list) <= Select(AnyKernel, taken)
  }

  lemma PassIsSafe(taken: seq<Resource>, es: seq<Event>, kept: seq<Left>, disk: seq<Resource>) returns (pass: Pass)
    requires exists hold :: Traced(taken, true, es, Loop([], Head, kept, hold), disk)
    ensures After(taken, true, es) == Some(pass) && AtEnd(pass.loop) && pass.loop.kept == kept && pass.disk == disk
    ensures Safe(taken, pass, disk) && Safe(taken, pass, Names(kept))
  {
    pass := After(taken, true, es).value;
    SafeDisk(taken, es);
    SafeKept(taken, es);
    assert Listed(pass.loop) == Names(kept);
  }

  lemma EndIsSafe(taken: seq<Resource>, a: Answers, n: nat, pass: Pass, result: Result, lock: LockEnd,
                  disk: seq<Resource>)
    requires Safe(taken, pass, pass.disk) && Safe(taken, pass, Names(pass.loop.kept))
    requires Ends(a, n, pass, result, lock, disk)
    ensures Safe(taken, pass, disk)
  {
  }

  lemma SafeDisk(taken: seq<Resource>, es: seq<Event>)
    requires After(taken, true, es).Some?
    ensures Safe(taken, After(taken, true, es).value, After(taken, true, es).value.disk)
  {
    ListsAreSubsequences(taken, true, es);
    SameBootInv(taken, es);
  }

  lemma SafeKept(taken: seq<Resource>, es: seq<Event>)
    requires After(taken, true, es).Some?
    ensures Safe(taken, After(taken, true, es).value, Listed(After(taken, true, es).value.loop))
  {
    var p := After(taken, true, es).value;
    SameBootInv(taken, es);
    AbandonedAreKernel(taken, true, es);
    EveryPrefixKeepsInv(taken, true, es);
    forall r | r in taken && !r.IsKernelObject() && r !in p.gone
      ensures r in Listed(p.loop)
    {
      assert r in multiset(taken);
      assert r in multiset(Listed(p.loop)) + p.gone + p.abandoned;
    }
  }

  predicate AllBusy(kept: seq<Left>) {
    forall i :: 0 <= i < |kept| ==> kept[i].why.Busy?
  }
}
