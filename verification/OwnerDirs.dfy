/** Choosing the owner directory (`pick_owner_dir`, src/reclaim.rs:211-250): one of 64 slots
    of a name, found if this uid owns one and otherwise made. */
module OwnerDirs {
  import opened Resources

  const SLOTS := 64

  type Uid = nat
  type ProcId = nat

  // ----- any number of processes at once -----

  /** A process looks at every slot for its own, then goes through them again trying to make
      one, and reads the owner of a slot that was there already. */
  datatype Pc = Looking(n: nat) | Making(n: nat) | Reading(n: nat) | Got(n: nat) | Full | Failed

  datatype Proc = Proc(uid: Uid, pc: Pc)

  datatype Sys = Sys(owners: map<nat, Uid>, procs: map<ProcId, Proc>)

  datatype Step = Begin(p: ProcId, uid: Uid) | Look(p: ProcId) | Make(p: ProcId) | Read(p: ProcId) | Fail(p: ProcId)

  predicate Enabled(s: Sys, step: Step) {
    match step
    case Begin(p, _) => p !in s.procs
    case Look(p) => p in s.procs && s.procs[p].pc.Looking?
    case Make(p) => p in s.procs && s.procs[p].pc.Making?
    case Read(p) => p in s.procs && s.procs[p].pc.Reading?
    case Fail(p) => p in s.procs && s.procs[p].pc.Making?
  }

  function Mine(s: Sys, n: nat, uid: Uid): bool {
    n in s.owners && s.owners[n] == uid
  }

  function Go(s: Sys, p: ProcId, pc: Pc): Sys
    requires p in s.procs
  {
    s.(procs := s.procs[p := s.procs[p].(pc := pc)])
  }

  function Apply(s: Sys, step: Step): Sys
    requires Enabled(s, step)
  {
    match step
    case Begin(p, uid) => s.(procs := s.procs[p := Proc(uid, Looking(0))])
    case Look(p) =>
      var n := s.procs[p].pc.n;
      Go(s, p, if Mine(s, n, s.procs[p].uid) then Got(n) else if n + 1 < SLOTS then Looking(n + 1) else Making(0))
    case Make(p) =>
      var n := s.procs[p].pc.n;
      if n in s.owners then Go(s, p, Reading(n))
      else Go(s, p, Got(n)).(owners := s.owners[n := s.procs[p].uid])
    case Read(p) =>
      var n := s.procs[p].pc.n;
      Go(s, p, if Mine(s, n, s.procs[p].uid) then Got(n) else if n + 1 < SLOTS then Making(n + 1) else Full)
    case Fail(p) => Go(s, p, Failed)
  }

  ghost predicate Runs(s: Sys, steps: seq<Step>, s': Sys)
    decreases |steps|
  {
    if steps == [] then s' == s
    else Enabled(s, steps[0]) && Runs(Apply(s, steps[0]), steps[1..], s')
  }

  /** The slots below `n` are all other uids'. */
  ghost predicate Passed(owners: map<nat, Uid>, uid: Uid, n: nat) {
    forall k :: 0 <= k < n ==> k in owners && owners[k] != uid
  }

  /** Whichever of the slots below `n` exist are other uids'. */
  ghost predicate NoneBelow(owners: map<nat, Uid>, uid: Uid, n: nat) {
    forall k :: 0 <= k < n && k in owners ==> owners[k] != uid
  }

  /** A process, with `before` the slots there were when all began. */
  ghost predicate ProcInv(before: map<nat, Uid>, owners: map<nat, Uid>, p: Proc) {
    match p.pc
    case Looking(n) => n < SLOTS && NoneBelow(before, p.uid, n)
    case Making(n) => n < SLOTS && NoneBelow(before, p.uid, SLOTS) && Passed(owners, p.uid, n)
    case Reading(n) => n < SLOTS && NoneBelow(before, p.uid, SLOTS) && Passed(owners, p.uid, n) && n in owners
    case Got(n) => n < SLOTS && n in owners && owners[n] == p.uid && NoneBelow(owners, p.uid, n)
    case Full => Passed(owners, p.uid, SLOTS)
    case Failed => true
  }

  ghost predicate Kept(before: map<nat, Uid>, owners: map<nat, Uid>) {
    forall n :: n in before ==> n in owners && owners[n] == before[n]
  }

  /** A slot made since is of a uid that had none, and comes after none but others'. */
  ghost predicate NewOk(before: map<nat, Uid>, owners: map<nat, Uid>, n: nat)
    requires n in owners
  {
    n < SLOTS && NoneBelow(before, owners[n], SLOTS) && Passed(owners, owners[n], n)
  }

  ghost predicate Inv(before: map<nat, Uid>, s: Sys) {
    && Kept(before, s.owners)
    && (forall n :: n in s.owners && n !in before ==> NewOk(before, s.owners, n))
    && (forall p :: p in s.procs ==> ProcInv(before, s.owners, s.procs[p]))
  }

  /** A process that finds a slot of its uid's has passed no other of them. */
  lemma FoundIsTheFirst(before: map<nat, Uid>, s: Sys, uid: Uid, n: nat)
    requires Inv(before, s) && n < SLOTS && NoneBelow(before, uid, n) && Mine(s, n, uid)
    ensures NoneBelow(s.owners, uid, n)
  {
    forall k | 0 <= k < n && k in s.owners
      ensures s.owners[k] != uid
    {
      assert k !in before ==> NewOk(before, s.owners, k);
      assert n !in before ==> NewOk(before, s.owners, n);
    }
  }

  lemma MakeKeepsInv(before: map<nat, Uid>, s: Sys, p: ProcId)
    requires Inv(before, s) && Enabled(s, Make(p)) && s.procs[p].pc.n !in s.owners
    ensures Inv(before, Apply(s, Make(p)))
  {
    var s', n, uid := Apply(s, Make(p)), s.procs[p].pc.n, s.procs[p].uid;
    assert ProcInv(before, s.owners, s.procs[p]);
    forall k | k in s'.owners && k !in before
      ensures NewOk(before, s'.owners, k)
    {
      assert k != n ==> NewOk(before, s.owners, k);
    }
    forall q | q in s'.procs
      ensures ProcInv(before, s'.owners, s'.procs[q])
    {
      if q != p {
        assert ProcInv(before, s.owners, s.procs[q]);
        OthersKeep(before, s, s.procs[q], n, uid);
      }
    }
  }

  /** Making a uid's first slot disturbs no other process, whatever its uid. */
  lemma OthersKeep(before: map<nat, Uid>, s: Sys, q: Proc, n: nat, uid: Uid)
    requires Inv(before, s) && ProcInv(before, s.owners, q) && n < SLOTS && n !in s.owners
    requires NoneBelow(before, uid, SLOTS) && Passed(s.owners, uid, n)
    ensures ProcInv(before, s.owners[n := uid], q)
  {
    assert q.pc.Got? && q.pc.n !in before ==> NewOk(before, s.owners, q.pc.n);
  }

  lemma StepKeepsInv(before: map<nat, Uid>, s: Sys, step: Step)
    requires Inv(before, s) && Enabled(s, step)
    ensures Inv(before, Apply(s, step))
  {
    if step.Make? && s.procs[step.p].pc.n !in s.owners {
      MakeKeepsInv(before, s, step.p);
    } else {
      assert !step.Begin? ==> ProcInv(before, s.owners, s.procs[step.p]);
      if (step.Look? || step.Read?) && Mine(s, s.procs[step.p].pc.n, s.procs[step.p].uid) {
        FoundIsTheFirst(before, s, s.procs[step.p].uid, s.procs[step.p].pc.n);
      }
    }
  }

  lemma {:induction false} RunKeepsInv(before: map<nat, Uid>, s: Sys, steps: seq<Step>, s': Sys)
    requires Inv(before, s) && Runs(s, steps, s')
    ensures Inv(before, s')
    decreases |steps|
  {
    if steps != [] {
      StepKeepsInv(before, s, steps[0]);
      RunKeepsInv(before, Apply(s, steps[0]), steps[1..], s');
    }
  }

  /** Whatever slots there are, whoever owns them; nobody is choosing yet. */
  ghost predicate Initial(s: Sys) {
    s.procs == map[]
  }

  /** However the processes interleave, two that succeed share a slot exactly when they
      share a uid, and it is the first slot their uid owns. */
  lemma SameSlotIffSameUid(s0: Sys, steps: seq<Step>, s: Sys, p: ProcId, q: ProcId)
    requires Initial(s0) && Runs(s0, steps, s)
    requires p in s.procs && q in s.procs && s.procs[p].pc.Got? && s.procs[q].pc.Got?
    ensures s.procs[p].pc.n == s.procs[q].pc.n <==> s.procs[p].uid == s.procs[q].uid
    ensures Mine(s, s.procs[p].pc.n, s.procs[p].uid) && NoneBelow(s.owners, s.procs[p].uid, s.procs[p].pc.n)
  {
    RunKeepsInv(s0.owners, s0, steps, s);
    assert ProcInv(s0.owners, s.owners, s.procs[p]) && ProcInv(s0.owners, s.owners, s.procs[q]);
  }

  /** No slot goes or changes hands, and none is made for a uid that has another. */
  lemma NeverASecond(s0: Sys, steps: seq<Step>, s: Sys, n: nat, k: nat)
    requires Initial(s0) && Runs(s0, steps, s)
    ensures n in s0.owners ==> n in s.owners && s.owners[n] == s0.owners[n]
    ensures
      n in s.owners && n !in s0.owners && k < SLOTS && k in s.owners && s.owners[k] == s.owners[n] ==> k == n
  {
    RunKeepsInv(s0.owners, s0, steps, s);
    if n in s.owners && n !in s0.owners {
      assert NewOk(s0.owners, s.owners, n);
      assert k in s.owners && k !in s0.owners ==> NewOk(s0.owners, s.owners, k);
    }
  }

  /** A process gives up for want of slots only when all of them are other uids'. */
  lemma FullMeansFull(s0: Sys, steps: seq<Step>, s: Sys, p: ProcId, n: nat)
    requires Initial(s0) && Runs(s0, steps, s) && p in s.procs && s.procs[p].pc.Full? && n < SLOTS
    ensures n in s.owners && s.owners[n] != s.procs[p].uid
  {
    RunKeepsInv(s0.owners, s0, steps, s);
    assert ProcInv(s0.owners, s.owners, s.procs[p]);
  }

  // ----- one process -----

  /** The directory the slots are in. */
  class Shared {
    var owners: map<nat, Uid>

    constructor (owners: map<nat, Uid>)
      ensures this.owners == owners
    {
      this.owners := owners;
    }

    /** `mkdir`: whether it was made. */
    method MakeDir(n: nat, uid: Uid) returns (made: bool)
      modifies this
      ensures made == (n !in old(owners))
      ensures owners == if made then old(owners)[n := uid] else old(owners)
    {
      made := n !in owners;
      if made {
        owners := owners[n := uid];
      }
    }

    /** `pick_owner_dir`, undisturbed: the uid's first slot if it has one, and then nothing
        is made; otherwise the first free slot, made; none only if all are others'. */
    method Pick(uid: Uid) returns (slot: Option<nat>)
      modifies this
      ensures slot.Some? ==> slot.value < SLOTS && slot.value in owners && owners[slot.value] == uid
      ensures slot.Some? && slot.value in old(owners) ==>
                owners == old(owners) && forall k :: 0 <= k < slot.value && k in owners ==> owners[k] != uid
      ensures slot.Some? && slot.value !in old(owners) ==>
                owners == old(owners)[slot.value := uid] && Passed(old(owners), uid, slot.value)
                && forall k :: 0 <= k < SLOTS && k in old(owners) ==> old(owners)[k] != uid
      ensures slot.None? <==> Passed(old(owners), uid, SLOTS)
      ensures slot.None? ==> owners == old(owners)
    {
      var n := 0;
      while n < SLOTS
        invariant n <= SLOTS && owners == old(owners)
        invariant forall k :: 0 <= k < n && k in owners ==> owners[k] != uid
      {
        if n in owners && owners[n] == uid {
          return Some(n);
        }
        n := n + 1;
      }
      n := 0;
      while n < SLOTS
        invariant n <= SLOTS && owners == old(owners) && Passed(owners, uid, n)
      {
        var made := MakeDir(n, uid);
        if made || owners[n] == uid {
          return Some(n);
        }
        n := n + 1;
      }
      return None;
    }
  }
}
