/** VM scopes (src/cgroup.rs): each fcvm enters a cgroup named by its pid and start time,
    and every entry sweeps the scopes whose owner is gone, under one lock on the parent. */
module Cgroup {
  import opened Resources
  import Decimal

  /** A pid and a start time, which together name one process. */
  datatype Key = Key(pid: nat, start: nat)

  const PID_BOUND: nat := 0x1_0000_0000
  const START_BOUND: nat := 0x1_0000_0000_0000_0000

  const PREFIX := "fcvm-"
  const SUFFIX := ".scope"

  function ScopeName(k: Key): string {
    PREFIX + Decimal.Print(k.pid) + "-" + Decimal.Print(k.start) + SUFFIX
  }

  datatype ScopeOwner = Process(key: Key) | Legacy

  function IndexOf(s: string, c: char): (i: nat)
    ensures i <= |s|
    ensures forall j :: 0 <= j < i ==> s[j] != c
    ensures i < |s| ==> s[i] == c
  {
    if s == [] || s[0] == c then 0 else 1 + IndexOf(s[1..], c)
  }

  /** What is between the prefix and the suffix of one of fcvm's names. */
  function Middle(name: string): Option<string> {
    if !(PREFIX <= name) || |name| < |PREFIX| + |SUFFIX| || name[|name| - |SUFFIX|..] != SUFFIX then None
    else Some(name[|PREFIX|..|name| - |SUFFIX|])
  }

  function OwnerIn(middle: string): Option<ScopeOwner> {
    var dash := IndexOf(middle, '-');
    if dash == |middle| then
      if Decimal.Parse(middle, PID_BOUND).Some? then Some(Legacy) else None
    else
      match (Decimal.Parse(middle[..dash], PID_BOUND), Decimal.Parse(middle[dash + 1..], START_BOUND))
      case (Some(pid), Some(start)) => Some(Process(Key(pid, start)))
      case _ => None
  }

  /** Who the scope of this name belongs to, if it is one of fcvm's. */
  function OwnerOf(name: string): Option<ScopeOwner> {
    match Middle(name)
    case None => None
    case Some(middle) => OwnerIn(middle)
  }

  predicate IsKey(k: Key) {
    k.pid < PID_BOUND && k.start < START_BOUND
  }

  /** The name is its owner's record: reading it back gives the process. */
  lemma NameRoundTrip(k: Key)
    requires IsKey(k)
    ensures OwnerOf(ScopeName(k)) == Some(Process(k))
  {
    var middle := Decimal.Print(k.pid) + "-" + Decimal.Print(k.start);
    MiddleOf(middle);
    OwnerInMiddle(k);
    OwnerByMiddle(k, middle);
  }

  lemma OwnerByMiddle(k: Key, middle: string)
    requires middle == Decimal.Print(k.pid) + "-" + Decimal.Print(k.start)
    requires Middle(PREFIX + middle + SUFFIX) == Some(middle)
    ensures OwnerOf(ScopeName(k)) == OwnerIn(middle)
  {
    assert ScopeName(k) == PREFIX + middle + SUFFIX;
  }

  lemma MiddleOf(middle: string)
    ensures Middle(PREFIX + middle + SUFFIX) == Some(middle)
  {
    var name := PREFIX + middle + SUFFIX;
    assert name[|name| - |SUFFIX|..] == SUFFIX && name[|PREFIX|..|name| - |SUFFIX|] == middle;
  }

  lemma OwnerInMiddle(k: Key)
    requires IsKey(k)
    ensures OwnerIn(Decimal.Print(k.pid) + "-" + Decimal.Print(k.start)) == Some(Process(k))
  {
    Decimal.ReadPrint(k.pid);
    Decimal.ReadPrint(k.start);
    FirstDash(Decimal.Print(k.pid), Decimal.Print(k.start));
  }

  lemma FirstDash(pid: string, start: string)
    requires Decimal.AllDigits(pid)
    ensures
      var middle := pid + "-" + start;
      IndexOf(middle, '-') == |pid| && middle[..|pid|] == pid && middle[|pid| + 1..] == start
  {
    var middle := pid + "-" + start;
    assert middle[|pid|] == '-';
    assert forall i :: 0 <= i < |pid| ==> middle[i] == pid[i];
  }

  lemma NamesDiffer(j: Key, k: Key)
    requires IsKey(j) && IsKey(k) && ScopeName(j) == ScopeName(k)
    ensures j == k
  {
    NameRoundTrip(j);
    NameRoundTrip(k);
  }

  /** A scope: the processes in it, and whether its swap limit is zero. */
  datatype Scope = Scope(members: set<Key>, noSwap: bool)

  datatype SweepCount = SweepCount(removed: nat, populated: nat)

  /** The parent directory of the scopes. */
  class Parent {
    var scopes: map<string, Scope>

    constructor (scopes: map<string, Scope>)
      ensures this.scopes == scopes
    {
      this.scopes := scopes;
    }

    /** The kernel's rmdir: it refuses a populated cgroup. */
    method RemoveDir(name: string) returns (found: bool, removed: bool)
      modifies this
      ensures found == (name in old(scopes))
      ensures removed == (found && old(scopes)[name].members == {})
      ensures scopes == if removed then old(scopes) - {name} else old(scopes)
    {
      found := name in scopes;
      removed := found && scopes[name].members == {};
      if removed {
        scopes := scopes - {name};
      }
    }
  }

  /** A sweep passes over a name that is not fcvm's, and a scope whose owner it sees alive.
      A legacy name holds no start time, so only the kernel decides about it. */
  predicate Spared(name: string, startOf: nat -> Option<nat>) {
    match OwnerOf(name)
    case None => true
    case Some(Process(k)) => startOf(k.pid) == Some(k.start)
    case Some(Legacy) => false
  }

  predicate Keeps(name: string, scope: Scope, startOf: nat -> Option<nat>) {
    Spared(name, startOf) || scope.members != {}
  }

  /** The scopes left once the names in `done` are swept. */
  function Pruned(scopes: map<string, Scope>, done: seq<string>, startOf: nat -> Option<nat>): map<string, Scope> {
    map name | name in scopes && (name !in done || Keeps(name, scopes[name], startOf)) :: scopes[name]
  }

  /** The names in `done` that were not spared and are still there. */
  function Refused(scopes: map<string, Scope>, done: seq<string>, startOf: nat -> Option<nat>): set<string> {
    set name | name in done && name in scopes && !Spared(name, startOf) && scopes[name].members != {}
  }

  lemma PruneOne(scopes: map<string, Scope>, done: seq<string>, name: string, startOf: nat -> Option<nat>)
    requires name in scopes && name !in done
    ensures
      var now, next := Pruned(scopes, done, startOf), Pruned(scopes, done + [name], startOf);
      && name in now && now[name] == scopes[name]
      && (if Keeps(name, scopes[name], startOf) then next == now else next == now - {name} && |next| == |now| - 1)
  {
    var now, next := Pruned(scopes, done, startOf), Pruned(scopes, done + [name], startOf);
    if Keeps(name, scopes[name], startOf) {
      assert next == now;
    } else {
      assert next == now - {name};
      assert next.Keys == now.Keys - {name};
    }
  }

  lemma RefuseOne(scopes: map<string, Scope>, done: seq<string>, name: string, startOf: nat -> Option<nat>)
    requires name in scopes && name !in done
    ensures
      var now, next := Refused(scopes, done, startOf), Refused(scopes, done + [name], startOf);
      if !Spared(name, startOf) && scopes[name].members != {} then |next| == |now| + 1 else next == now
  {
    var now, next := Refused(scopes, done, startOf), Refused(scopes, done + [name], startOf);
    if !Spared(name, startOf) && scopes[name].members != {} {
      assert next == now + {name};
    } else {
      assert next == now;
    }
  }

  lemma SweepOne(scopes: map<string, Scope>, entries: seq<string>, i: nat, startOf: nat -> Option<nat>)
    requires i < |entries| && entries[i] in scopes
    requires forall i, j :: 0 <= i < j < |entries| ==> entries[i] != entries[j]
    ensures
      var name, now, next := entries[i], Pruned(scopes, entries[..i], startOf), Pruned(scopes, entries[..i + 1], startOf);
      var refused, refused' := Refused(scopes, entries[..i], startOf), Refused(scopes, entries[..i + 1], startOf);
      && name in now && now[name] == scopes[name]
      && (if Spared(name, startOf) then next == now && |refused'| == |refused|
          else if now[name].members != {} then next == now && |refused'| == |refused| + 1
          else next == now - {name} && |next| == |now| - 1 && |refused'| == |refused|)
  {
    assert entries[..i + 1] == entries[..i] + [entries[i]];
    PruneOne(scopes, entries[..i], entries[i], startOf);
    RefuseOne(scopes, entries[..i], entries[i], startOf);
  }

  /** `sweep` with nothing else running: what is left is exactly what is not fcvm's, what
      has an owner it sees alive and what still holds a process, and the counts are those
      of the removed and of the refused. `entries` is what `read_dir` lists. */
  method Sweep(parent: Parent, entries: seq<string>, startOf: nat -> Option<nat>) returns (count: SweepCount)
    requires forall name :: name in parent.scopes <==> name in entries
    requires forall i, j :: 0 <= i < j < |entries| ==> entries[i] != entries[j]
    modifies parent
    ensures forall name :: name in parent.scopes <==>
              name in old(parent.scopes) && Keeps(name, old(parent.scopes)[name], startOf)
    ensures forall name :: name in parent.scopes ==> parent.scopes[name] == old(parent.scopes)[name]
    ensures count.removed == |old(parent.scopes)| - |parent.scopes|
    ensures count.populated == |Refused(old(parent.scopes), entries, startOf)|
  {
    count := SweepCount(0, 0);
    ghost var before := parent.scopes;
    assert Pruned(before, entries[..0], startOf) == before;
    for i := 0 to |entries|
      invariant parent.scopes == Pruned(before, entries[..i], startOf)
      invariant count.removed == |before| - |parent.scopes|
      invariant count.populated == |Refused(before, entries[..i], startOf)|
    {
      var name := entries[i];
      SweepOne(before, entries, i, startOf);
      if !Spared(name, startOf) {
        var found, removed := parent.RemoveDir(name);
        if removed {
          count := count.(removed := count.removed + 1);
        } else if found {
          count := count.(populated := count.populated + 1);
        }
      }
    }
    assert entries[..|entries|] == entries;
  }
}
