/** What `image_disk_digest` and its cache promise, in every reachable state of
    `DigestSystem`. */
module DigestTheorems {
  import opened Resources
  import opened KeyEncoding
  import opened VersionCache
  import opened DigestSystem
  import opened DigestSafety

  lemma ReachableInv(h: Hashes, s: Sys)
    requires Reachable(h, s)
    ensures Inv(h, s)
  {
    EmptyInv(h);
    var steps :| Runs(h, EMPTY, steps, s);
    RunKeepsInv(h, EMPTY, steps, s);
  }

  /** In every reachable state, whatever either layer would hand back for an identity is
      the digest of bytes a file at that path had, under that stamp and fingerprint. */
  lemma CachedDigestsAreTrue(h: Hashes, s: Sys, proc: Proc, id: Identity)
    requires Reachable(h, s) && Keyed(id)
    ensures OnDisk(h.slots, s.disk, id).Some? ==> True(h, s, id, OnDisk(h.slots, s.disk, id).value)
    ensures CollisionFree(h.slots) && InMemo(h.slots, Memoised(s, proc), id).Some? ==>
              True(h, s, id, InMemo(h.slots, Memoised(s, proc), id).value)
  {
    ReachableInv(h, s);
    HitIsTrue(h, s, Memoised(s, proc), id);
  }

  /** And so is every answer a call gives. */
  lemma AnswersAreTrue(h: Hashes, s: Sys, c: CallId)
    requires Reachable(h, s) && c in s.calls && s.calls[c].pc.Answered?
    ensures
      var pc := s.calls[c].pc;
      CollisionFree(h.slots) ==> True(h, s, IdOf(h, s.calls[c].path, pc.stamp, pc.fp), pc.digest)
  {
    ReachableInv(h, s);
    assert CallInv(h, s, s.calls[c]);
  }

  /** The fingerprint tells apart the versions that have been at one path with one stamp. */
  ghost predicate FaithfulPrints(h: Hashes, s: Sys, path: Bytes) {
    forall a: Ino, b: Ino, i: nat, j: nat :: AtPath(s, path, a, i) && AtPath(s, path, b, j) ==>
      var v, w := s.files[a][i], s.files[b][j];
      v.stamp == w.stamp && Print(h, v.bytes) == Print(h, w.bytes) ==> v.bytes == w.bytes
  }

  ghost predicate AtPath(s: Sys, path: Bytes, ino: Ino, k: nat) {
    (path, ino) in s.placed && ino in s.files && k < |s.files[ino]|
  }

  /** Where fingerprints are faithful, an answer is the digest of every version the path
      has had with the answer's stamp and fingerprint: what hashing it would give. */
  lemma AnswersAgreeWithHashing(h: Hashes, s: Sys, c: CallId, ino: Ino, k: nat)
    requires Reachable(h, s) && c in s.calls && s.calls[c].pc.Answered?
    requires AtPath(s, s.calls[c].path, ino, k)
    requires s.files[ino][k].stamp == s.calls[c].pc.stamp && Print(h, s.files[ino][k].bytes) == s.calls[c].pc.fp
    ensures CollisionFree(h.slots) && FaithfulPrints(h, s, s.calls[c].path) ==>
              s.calls[c].pc.digest == h.sha(s.files[ino][k].bytes)
  {
    var path, pc := s.calls[c].path, s.calls[c].pc;
    AnswersAreTrue(h, s, c);
    if CollisionFree(h.slots) && FaithfulPrints(h, s, path) {
      var id := IdOf(h, path, pc.stamp, pc.fp);
      var ino': Ino, k': nat :| TrueOf(h, s, id, pc.digest, ino', k');
      assert TrueOf(h, s, id, pc.digest, ino', k');
      SamePrefix(h.prefix, pc.fp, Print(h, s.files[ino'][k'].bytes));
      assert AtPath(s, path, ino', k');
    }
  }

  lemma SamePrefix(prefix: Bytes, a: Bytes, b: Bytes)
    requires prefix + a == prefix + b
    ensures a == b
  {
    assert a == (prefix + a)[|prefix|..] && b == (prefix + b)[|prefix|..];
  }

  ghost predicate SameLayers(s: Sys, s': Sys) {
    s'.disk == s.disk && forall proc :: Memoised(s', proc) == Memoised(s, proc)
  }

  predicate Settled(pc: Pc) {
    pc.Stored? || pc.Answered?
  }

  /** An operation that stores something settles the call. */
  lemma StoringSettles(h: Hashes, s: Sys, c: CallId, op: Op)
    requires c in s.calls && Result(h, s, c, op).Some?
    ensures
      var o := Result(h, s, c, op).value;
      Settled(o.pc) || o == Just(o.pc)
    ensures Settled(s.calls[c].pc) ==> Settled(Result(h, s, c, op).value.pc)
  {
  }

  lemma {:induction false} SettledStays(h: Hashes, s: Sys, steps: seq<Step>, s': Sys, c: CallId)
    requires Runs(h, s, steps, s') && c in s.calls && Settled(s.calls[c].pc)
    ensures c in s'.calls && Settled(s'.calls[c].pc)
    decreases |steps|
  {
    if steps != [] {
      if steps[0].By? && steps[0].c == c {
        StoringSettles(h, s, c, steps[0].op);
      }
      SettledStays(h, Apply(h, s, steps[0]), steps[1..], s', c);
    }
  }

  lemma {:induction false} RunsOnFrom(h: Hashes, s: Sys, steps: seq<Step>, s': Sys, i: nat, m: Sys)
    requires Runs(h, s, steps, s') && i < |steps| && Runs(h, s, steps[..i], m)
    ensures Enabled(h, m, steps[i]) && Runs(h, Apply(h, m, steps[i]), steps[i + 1..], s')
    decreases i
  {
    if i > 0 {
      assert steps[..i][0] == steps[0] && steps[..i][1..] == steps[1..][..i - 1];
      RunsOnFrom(h, Apply(h, s, steps[0]), steps[1..], s', i - 1, m);
      assert steps[1..][i..] == steps[i + 1..];
    }
  }

  lemma JustMovesOn(h: Hashes, s: Sys, c: CallId, pc: Pc)
    requires c in s.calls
    ensures SameLayers(s, Commit(h, s, c, Just(pc)))
  {
  }

  lemma FailingStepStoresNothing(h: Hashes, m: Sys, c: CallId, op: Op, rest: seq<Step>, s': Sys)
    requires Enabled(h, m, By(c, op)) && Runs(h, Apply(h, m, By(c, op)), rest, s')
    requires c in s'.calls && s'.calls[c].pc.Failed?
    ensures SameLayers(m, Apply(h, m, By(c, op)))
  {
    StoringSettles(h, m, c, op);
    var o := Result(h, m, c, op).value;
    if Settled(o.pc) {
      SettledStays(h, Apply(h, m, By(c, op)), rest, s', c);
    } else {
      JustMovesOn(h, m, c, o.pc);
    }
  }

  /** Whatever else goes on meanwhile, a call that fails has changed neither layer by any of
      its operations, from its first to the one that fails. */
  lemma FailuresAreNotCached(h: Hashes, s: Sys, steps: seq<Step>, s': Sys, c: CallId, i: nat, m: Sys)
    requires Runs(h, s, steps, s') && c in s'.calls && s'.calls[c].pc.Failed?
    requires i < |steps| && Runs(h, s, steps[..i], m) && steps[i].By? && steps[i].c == c
    ensures Enabled(h, m, steps[i]) && SameLayers(m, Apply(h, m, steps[i]))
  {
    RunsOnFrom(h, s, steps, s', i, m);
    FailingStepStoresNothing(h, m, c, steps[i].op, steps[i + 1..], s');
  }
}
