/** What every step of `DigestSystem` keeps: both layers of the cache hold only true
    digests, and a call that has a digest has a true one. */
module DigestSafety {
  import opened Resources
  import opened KeyEncoding
  import opened Fingerprint
  import opened VersionCache
  import opened DigestSystem

  /** The version the call's first stat saw is still the current one. */
  predicate Current(versions: seq<Version>, k: nat) {
    k == |versions| - 1
  }

  predicate UnderInv(under: Option<Stamp>) {
    under.Some? ==> FitsStamp(under.value)
  }

  /** What holds of a call: as long as its version is current, all it has read came from
      that version; and once it has a digest, the digest is true. */
  ghost predicate CallInv(h: Hashes, s: Sys, call: Call) {
    && (call.path, call.ino) in s.placed && 0 !in call.path
    && call.ino in s.files && s.files[call.ino] != []
    && var vs := s.files[call.ino];
       && PcInRange(call.pc, vs)
       && match call.pc
          case Opened => true
          case Failed => true
          case Sampling(k, parts) =>
            |parts| <= 2 + BLOCKS && (Current(vs, k) ==> parts == Parts(vs[k].bytes)[..|parts|])
          case Looking(k, fp, under) => UnderInv(under) && (Current(vs, k) ==> fp == Print(h, vs[k].bytes))
          case Missed(k, fp, under) => UnderInv(under) && (Current(vs, k) ==> fp == Print(h, vs[k].bytes))
          case Hashing(k, fp, stamp, read) =>
            stamp == vs[k].stamp && (Current(vs, k) ==> fp == Print(h, vs[k].bytes) && read <= vs[k].bytes)
          case AtEnd(k, fp, stamp, read) =>
            stamp == vs[k].stamp && (Current(vs, k) ==> fp == Print(h, vs[k].bytes) && read == vs[k].bytes)
          case Storing(fp, stamp, digest) => True(h, s, IdOf(h, call.path, stamp, fp), digest)
          case Stored(fp, stamp, digest) => True(h, s, IdOf(h, call.path, stamp, fp), digest)
          case Answered(fp, stamp, digest) =>
            CollisionFree(h.slots) ==> True(h, s, IdOf(h, call.path, stamp, fp), digest)
  }

  ghost predicate FilesInv(s: Sys) {
    && (forall ino :: ino in s.files ==> FileInv(s.files[ino]))
    && (forall path :: path in s.at ==> (path, s.at[path]) in s.placed)
    && (forall path, ino :: (path, ino) in s.placed ==> 0 !in path && ino in s.files)
  }

  /** A file has a version, and no stamp twice. */
  ghost predicate FileInv(versions: seq<Version>) {
    && versions != []
    && (forall v :: v in versions ==> RealVersion(v))
    && (forall i, j :: 0 <= i < j < |versions| ==> versions[i].stamp != versions[j].stamp)
  }

  /** Both layers hold only true digests. */
  ghost predicate CacheInv(h: Hashes, s: Sys) {
    && (forall proc :: proc in s.memos ==> MemoInv(h, s, s.memos[proc]))
    && (forall key :: key in s.disk ==> True(h, s, s.disk[key].id, s.disk[key].stdout))
  }

  ghost predicate MemoInv(h: Hashes, s: Sys, memo: Memo) {
    forall key :: key in memo ==> exists id :: h.slots(id) == key && True(h, s, id, memo[key])
  }

  ghost predicate Inv(h: Hashes, s: Sys) {
    FilesInv(s) && CacheInv(h, s) && forall c :: c in s.calls ==> CallInv(h, s, s.calls[c])
  }

  // ----- what each step keeps -----

  ghost predicate Grows(s: Sys, s': Sys) {
    s.placed <= s'.placed && forall ino :: ino in s.files ==> ino in s'.files && s.files[ino] <= s'.files[ino]
  }

  lemma TrueGrows(h: Hashes, s: Sys, s': Sys, id: Identity, digest: Bytes)
    requires Grows(s, s') && True(h, s, id, digest)
    ensures True(h, s', id, digest)
  {
    var ino: Ino, k: nat :| TrueOf(h, s, id, digest, ino, k);
    assert s.files[ino] <= s'.files[ino];
    assert TrueOf(h, s', id, digest, ino, k);
  }

  lemma CacheGrows(h: Hashes, s: Sys, s': Sys)
    requires CacheInv(h, s) && Grows(s, s') && s'.memos == s.memos && s'.disk == s.disk
    ensures CacheInv(h, s')
  {
    forall proc | proc in s.memos
      ensures MemoInv(h, s', s.memos[proc])
    {
      MemoGrows(h, s, s', s.memos[proc]);
    }
    forall key | key in s.disk
      ensures True(h, s', s.disk[key].id, s.disk[key].stdout)
    {
      TrueGrows(h, s, s', s.disk[key].id, s.disk[key].stdout);
    }
  }

  lemma MemoGrows(h: Hashes, s: Sys, s': Sys, memo: Memo)
    requires MemoInv(h, s, memo) && Grows(s, s')
    ensures MemoInv(h, s', memo)
  {
    forall key | key in memo
      ensures exists id :: h.slots(id) == key && True(h, s', id, memo[key])
    {
      var id :| h.slots(id) == key && True(h, s, id, memo[key]);
      TrueGrows(h, s, s', id, memo[key]);
    }
  }

  lemma CallGrows(h: Hashes, s: Sys, s': Sys, call: Call)
    requires CallInv(h, s, call) && Grows(s, s')
    ensures CallInv(h, s', call)
  {
    var vs, vs' := s.files[call.ino], s'.files[call.ino];
    assert vs <= vs';
    match call.pc
    case Storing(fp, stamp, digest) => TrueGrows(h, s, s', IdOf(h, call.path, stamp, fp), digest);
    case Stored(fp, stamp, digest) => TrueGrows(h, s, s', IdOf(h, call.path, stamp, fp), digest);
    case Answered(fp, stamp, digest) =>
      if CollisionFree(h.slots) {
        TrueGrows(h, s, s', IdOf(h, call.path, stamp, fp), digest);
      }
    case _ =>
  }

  lemma WorldStepKeepsInv(h: Hashes, s: Sys, step: Step)
    requires Inv(h, s) && Enabled(h, s, step) && !step.By? && !step.Open?
    ensures Inv(h, Apply(h, s, step))
  {
    var s' := Apply(h, s, step);
    WorldStepKeepsFiles(h, s, step);
    CacheGrows(h, s, s');
    forall c | c in s'.calls
      ensures CallInv(h, s', s'.calls[c])
    {
      CallGrows(h, s, s', s.calls[c]);
    }
  }

  lemma WorldStepKeepsFiles(h: Hashes, s: Sys, step: Step)
    requires Inv(h, s) && Enabled(h, s, step) && !step.By? && !step.Open?
    ensures FilesInv(Apply(h, s, step)) && Grows(s, Apply(h, s, step))
  {
    if step.Rewrite? {
      RewriteKeepsFile(s.files[step.ino], step.version);
    }
  }

  lemma RewriteKeepsFile(versions: seq<Version>, v: Version)
    requires FileInv(versions) && RealVersion(v) && forall w :: w in versions ==> w.stamp != v.stamp
    ensures FileInv(versions + [v])
  {
  }

  // ----- what each operation of a call keeps -----

  /** What an outcome must satisfy for the invariant to survive it. */
  ghost predicate Keeps(h: Hashes, s: Sys, call: Call, o: Outcome) {
    && CallInv(h, s, call.(pc := o.pc))
    && (o.memo.Some? ==> True(h, s, o.memo.value.0, o.memo.value.1))
    && (o.disk.Some? ==> True(h, s, o.disk.value.0, o.disk.value.1))
  }

  lemma SampleKeeps(h: Hashes, s: Sys, call: Call)
    requires FilesInv(s) && CallInv(h, s, call) && call.pc.Sampling? && |call.pc.parts| < 2 + BLOCKS
    ensures
      var vs := s.files[call.ino];
      var o := SampleNext(call.pc.k, call.pc.parts, vs[call.pc.k].stamp.len, vs[|vs| - 1].bytes);
      o.Some? && Keeps(h, s, call, o.value)
  {
    var vs, k, parts := s.files[call.ino], call.pc.k, call.pc.parts;
    assert FileInv(vs);
    if Current(vs, k) {
      assert RealVersion(vs[k]);
      RangesFit(|vs[k].bytes|, |parts|);
      assert Parts(vs[k].bytes)[..|parts| + 1] == parts + [Parts(vs[k].bytes)[|parts|]];
    }
  }

  lemma StatPathKeeps(h: Hashes, s: Sys, call: Call, named: Option<Stamp>)
    requires FilesInv(s) && CallInv(h, s, call) && call.pc.Sampling? && |call.pc.parts| == 2 + BLOCKS
    requires UnderInv(named)
    ensures
      var len := s.files[call.ino][call.pc.k].stamp.len;
      Keeps(h, s, call, Just(Looking(call.pc.k, h.sample(len, call.pc.parts), named)))
  {
    var vs, k := s.files[call.ino], call.pc.k;
    assert FileInv(vs) && vs[k] in vs;
    if Current(vs, k) {
      assert Parts(vs[k].bytes)[..2 + BLOCKS] == Parts(vs[k].bytes);
    }
  }

  lemma TrueIsKeyed(h: Hashes, s: Sys, id: Identity, digest: Bytes)
    requires FilesInv(s) && True(h, s, id, digest)
    ensures Keyed(id)
  {
    var ino: Ino, k: nat :| TrueOf(h, s, id, digest, ino, k);
    assert TrueOf(h, s, id, digest, ino, k);
    var vs := s.files[ino];
    assert FileInv(vs);
    assert vs[k] in vs;
  }

  lemma TryDiskKeeps(h: Hashes, s: Sys, call: Call, readable: bool, usable: bool)
    requires FilesInv(s) && CacheInv(h, s) && CallInv(h, s, call) && call.pc.Missed?
    ensures
      var seen := s.files[call.ino][call.pc.k].stamp;
      Keeps(h, s, call, TryTheDisk(h, call, s.disk, call.pc.k, call.pc.fp, call.pc.under, seen, readable, usable))
  {
    if call.pc.under.Some? {
      var key := h.slots(IdOf(h, call.path, call.pc.under.value, call.pc.fp));
      assert key in s.disk ==> True(h, s, s.disk[key].id, s.disk[key].stdout);
    }
  }

  lemma ReadKeeps(h: Hashes, s: Sys, call: Call, n: nat)
    requires CallInv(h, s, call) && call.pc.Hashing?
    ensures
      var vs := s.files[call.ino];
      var o := ReadOn(call.pc, vs[|vs| - 1].bytes, n);
      o.Some? ==> Keeps(h, s, call, o.value)
  {
  }

  /** A digest leaves the read loop only when the open file still has the stamp it was
      opened with, and then every byte read was of that one version. */
  lemma VerifyKeeps(h: Hashes, s: Sys, call: Call)
    requires FilesInv(s) && CallInv(h, s, call) && call.pc.AtEnd?
    ensures
      var vs, k := s.files[call.ino], call.pc.k;
      vs[|vs| - 1].stamp == vs[k].stamp ==>
        Keeps(h, s, call, Just(Storing(call.pc.fp, call.pc.stamp, h.sha(call.pc.read))))
  {
    var vs, k := s.files[call.ino], call.pc.k;
    assert FileInv(vs);
    if vs[|vs| - 1].stamp == vs[k].stamp {
      assert Current(vs, k);
      assert TrueOf(h, s, IdOf(h, call.path, call.pc.stamp, call.pc.fp), h.sha(call.pc.read), call.ino, k);
    }
  }

  lemma SamplingKeeps(h: Hashes, s: Sys, c: CallId, op: Op)
    requires Inv(h, s) && c in s.calls && Result(h, s, c, op).Some? && (op.Fstat? || op.Sample? || op.StatPath?)
    ensures Keeps(h, s, s.calls[c], Result(h, s, c, op).value)
  {
    var call := s.calls[c];
    assert CallInv(h, s, call);
    match op
    case Fstat =>
    case Sample => SampleKeeps(h, s, call);
    case StatPath =>
      StampFits(s, call.path);
      StatPathKeeps(h, s, call, StampAt(s, call.path));
  }

  lemma StoringKeeps(h: Hashes, s: Sys, c: CallId, op: Op)
    requires Inv(h, s) && c in s.calls && Result(h, s, c, op).Some? && (op.StoreMemo? || op.StoreDisk?)
    ensures Keeps(h, s, s.calls[c], Result(h, s, c, op).value)
  {
    assert CallInv(h, s, s.calls[c]);
  }

  lemma LocalKeeps(h: Hashes, s: Sys, c: CallId, op: Op)
    requires Inv(h, s) && c in s.calls && Result(h, s, c, op).Some?
    ensures Keeps(h, s, s.calls[c], Result(h, s, c, op).value)
  {
    var call := s.calls[c];
    if op.Fstat? || op.Sample? || op.StatPath? {
      SamplingKeeps(h, s, c, op);
    } else if op.StoreMemo? || op.StoreDisk? {
      StoringKeeps(h, s, c, op);
    } else {
      assert CallInv(h, s, call);
      match op
      case TryMemo(usable) => TryMemoKeeps(h, s, call, usable);
      case TryDisk(readable, usable) => TryDiskKeeps(h, s, call, readable, usable);
      case Read(n) => ReadKeeps(h, s, call, n);
      case Verify => VerifyKeeps(h, s, call);
    }
  }

  lemma StampFits(s: Sys, path: Bytes)
    requires FilesInv(s)
    ensures UnderInv(StampAt(s, path))
  {
    if StampAt(s, path).Some? {
      var vs := s.files[s.at[path]];
      assert FileInv(vs) && vs[|vs| - 1] in vs;
    }
  }

  lemma CommitKeepsInv(h: Hashes, s: Sys, c: CallId, o: Outcome)
    requires Inv(h, s) && c in s.calls && Keeps(h, s, s.calls[c], o)
    ensures Inv(h, Commit(h, s, c, o))
  {
    var s', call := Commit(h, s, c, o), s.calls[c];
    assert Grows(s, s');
    forall proc | proc in s'.memos
      ensures MemoInv(h, s', s'.memos[proc])
    {
      if proc == call.proc {
        PutKeeps(h, s, Memoised(s, proc), o.memo);
      }
      MemoGrows(h, s, s', s'.memos[proc]);
    }
    forall key | key in s'.disk
      ensures True(h, s', s'.disk[key].id, s'.disk[key].stdout)
    {
      TrueGrows(h, s, s', s'.disk[key].id, s'.disk[key].stdout);
    }
    forall c' | c' in s'.calls
      ensures CallInv(h, s', s'.calls[c'])
    {
      CallGrows(h, s, s', s'.calls[c']);
    }
  }

  lemma PutKeeps(h: Hashes, s: Sys, memo: Memo, put: Option<(Identity, Bytes)>)
    requires MemoInv(h, s, memo) && (put.Some? ==> True(h, s, put.value.0, put.value.1))
    ensures MemoInv(h, s, Put(h, memo, put))
  {
  }

  lemma OpenKeepsInv(h: Hashes, s: Sys, step: Step)
    requires Inv(h, s) && Enabled(h, s, step) && step.Open?
    ensures Inv(h, Apply(h, s, step))
  {
    var s' := Apply(h, s, step);
    CacheGrows(h, s, s');
    assert FileInv(s.files[s.at[step.path]]);
    forall c | c in s'.calls
      ensures CallInv(h, s', s'.calls[c])
    {
      if c != step.c {
        CallGrows(h, s, s', s.calls[c]);
      }
    }
  }

  lemma StepKeepsInv(h: Hashes, s: Sys, step: Step)
    requires Inv(h, s) && Enabled(h, s, step)
    ensures Inv(h, Apply(h, s, step))
  {
    if step.By? {
      LocalKeeps(h, s, step.c, step.op);
      CommitKeepsInv(h, s, step.c, Result(h, s, step.c, step.op).value);
    } else if step.Open? {
      OpenKeepsInv(h, s, step);
    } else {
      WorldStepKeepsInv(h, s, step);
    }
  }

  lemma EmptyInv(h: Hashes)
    ensures Inv(h, EMPTY)
  {
  }

  lemma {:induction false} RunKeepsInv(h: Hashes, s: Sys, steps: seq<Step>, s': Sys)
    requires Inv(h, s) && Runs(h, s, steps, s')
    ensures Inv(h, s')
    decreases |steps|
  {
    if steps != [] {
      StepKeepsInv(h, s, steps[0]);
      RunKeepsInv(h, Apply(h, s, steps[0]), steps[1..], s');
    }
  }

  lemma TryMemoKeeps(h: Hashes, s: Sys, call: Call, usable: bool)
    requires FilesInv(s) && CacheInv(h, s) && CallInv(h, s, call) && call.pc.Looking?
    ensures Keeps(h, s, call, TryTheMemo(h, call, Memoised(s, call.proc), call.pc.k, call.pc.fp, call.pc.under, usable))
  {
    if call.pc.under.Some? {
      HitIsTrue(h, s, Memoised(s, call.proc), IdOf(h, call.path, call.pc.under.value, call.pc.fp));
    }
  }

  /** With collision-free slots, what the memo has under an identity's slot is true of it. */
  lemma HitIsTrue(h: Hashes, s: Sys, memo: Memo, id: Identity)
    requires FilesInv(s) && MemoInv(h, s, memo) && Keyed(id)
    ensures CollisionFree(h.slots) && InMemo(h.slots, memo, id).Some? ==> True(h, s, id, InMemo(h.slots, memo, id).value)
  {
    if CollisionFree(h.slots) && InMemo(h.slots, memo, id).Some? {
      var key := h.slots(id);
      var id' :| h.slots(id') == key && True(h, s, id', memo[key]);
      TrueIsKeyed(h, s, id', memo[key]);
      assert id' == id;
    }
  }
}
