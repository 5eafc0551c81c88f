/** Image digests while the images change (`image_disk_digest`, src/utils.rs:2276-2293,
    2311-2375, with the cache of src/version_cache.rs:198-270): any number of calls in any
    number of processes, one system call at a time, between replacements of the file at a
    path and writes to it in place. A crash is a call that takes no further step.

    Hypothesis: a write in place gives the file a stamp that file has not had before. Two
    files may share a stamp. */
module DigestSystem {
  import opened Resources
  import opened KeyEncoding
  import opened Fingerprint
  import opened VersionCache

  /** The hash of an image and of its samples, the cache's slots, and the namespace's fixed
      part. */
  datatype Hashes = Hashes(sha: Bytes -> Bytes, sample: (nat, seq<Bytes>) -> Bytes, slots: Slots, prefix: Bytes)

  datatype Version = Version(stamp: Stamp, bytes: Bytes)

  type Ino = nat
  type CallId = nat
  type Proc = nat

  /** A call of `image_disk_digest`, after its open. `k` is the version the first stat saw,
      `under` the stamp its path had when the cache was asked, and `stamp` that stamp once
      something is to be stored or was found under it. */
  datatype Pc =
    | Opened
    | Sampling(k: nat, parts: seq<Bytes>)
    | Looking(k: nat, fp: Bytes, under: Option<Stamp>)
    | Missed(k: nat, fp: Bytes, under: Option<Stamp>)
    | Hashing(k: nat, fp: Bytes, stamp: Stamp, read: Bytes)
    | AtEnd(k: nat, fp: Bytes, stamp: Stamp, read: Bytes)
    | Storing(fp: Bytes, stamp: Stamp, digest: Bytes)
    | Stored(fp: Bytes, stamp: Stamp, digest: Bytes)
    | Answered(fp: Bytes, stamp: Stamp, digest: Bytes)
    | Failed

  datatype Call = Call(proc: Proc, path: Bytes, ino: Ino, pc: Pc)

  datatype Sys = Sys(
    files: map<Ino, seq<Version>>,        // every version each file has had, the last current
    at: map<Bytes, Ino>,
    placed: set<(Bytes, Ino)>,            // every file each path has named
    memos: map<Proc, Memo>,
    disk: Disk,
    calls: map<CallId, Call>)

  datatype Op =
    | Fstat
    | Sample
    | StatPath
    | TryMemo(usable: bool)
    | TryDisk(readable: bool, usable: bool)
    | Read(n: nat)
    | Verify
    | StoreMemo(usable: bool)
    | StoreDisk(ok: bool)

  datatype Step =
    | Create(path: Bytes, ino: Ino, version: Version)
    | Rename(path: Bytes, ino: Ino)
    | Unlink(path: Bytes)
    | Rewrite(ino: Ino, version: Version)
    | Open(c: CallId, proc: Proc, path: Bytes)
    | By(c: CallId, op: Op)

  predicate RealVersion(v: Version) {
    v.stamp.len == |v.bytes| && FitsStamp(v.stamp)
  }

  function Part(bytes: Bytes, r: Range): Bytes
    requires r.start <= r.end <= |bytes|
  {
    bytes[r.start..r.end]
  }

  function Parts(bytes: Bytes): (parts: seq<Bytes>)
    ensures |parts| == 2 + BLOCKS
  {
    seq(2 + BLOCKS, j requires 0 <= j < 2 + BLOCKS => RangesFit(|bytes|, j); Part(bytes, Ranges(|bytes|)[j]))
  }

  function Print(h: Hashes, bytes: Bytes): Bytes {
    h.sample(|bytes|, Parts(bytes))
  }

  function IdOf(h: Hashes, path: Bytes, stamp: Stamp, fp: Bytes): Identity {
    Identity(path, stamp, h.prefix + fp)
  }

  /** `digest` is the hash of bytes a file named `id.path` had while it had the stamp and
      the fingerprint `id` is keyed under. */
  ghost predicate True(h: Hashes, s: Sys, id: Identity, digest: Bytes) {
    exists ino, k :: TrueOf(h, s, id, digest, ino, k)
  }

  ghost predicate TrueOf(h: Hashes, s: Sys, id: Identity, digest: Bytes, ino: Ino, k: nat) {
    && (id.path, ino) in s.placed && ino in s.files && k < |s.files[ino]|
    && var v := s.files[ino][k];
       id == IdOf(h, id.path, v.stamp, Print(h, v.bytes)) && digest == h.sha(v.bytes)
  }

  function Latest(s: Sys, ino: Ino): Version
    requires ino in s.files && s.files[ino] != []
  {
    s.files[ino][|s.files[ino]| - 1]
  }

  function Memoised(s: Sys, proc: Proc): Memo {
    if proc in s.memos then s.memos[proc] else map[]
  }

  /** What one operation does: where the call goes, and what it leaves in its process's
      memo and on disk. */
  datatype Outcome = Outcome(pc: Pc, memo: Option<(Identity, Bytes)>, disk: Option<(Identity, Bytes)>)

  function Just(pc: Pc): Outcome {
    Outcome(pc, None, None)
  }

  /** The next range, read from what the file holds now; a read past its end fails. */
  function SampleNext(k: nat, parts: seq<Bytes>, len: nat, now: Bytes): Option<Outcome> {
    if |parts| >= 2 + BLOCKS then None else
    var r := Ranges(len)[|parts|];
    if r.start <= r.end <= |now| then Some(Just(Sampling(k, parts + [Part(now, r)]))) else Some(Just(Failed))
  }

  function TryTheMemo(h: Hashes, call: Call, memo: Memo, k: nat, fp: Bytes, under: Option<Stamp>, usable: bool): Outcome {
    if under.None? || !usable then Just(Missed(k, fp, under))
    else match InMemo(h.slots, memo, IdOf(h, call.path, under.value, fp))
      case Some(hit) => Just(Answered(fp, under.value, hit))
      case None => Just(Missed(k, fp, under))
  }

  /** On a miss in both layers the digest is to be stored under `under`: refused unless the
      open file had that stamp. */
  function TryTheDisk(h: Hashes, call: Call, disk: Disk, k: nat, fp: Bytes, under: Option<Stamp>, seen: Stamp,
                      readable: bool, usable: bool): Outcome {
    if under.None? then Just(Failed) else
    var id := IdOf(h, call.path, under.value, fp);
    match if readable then OnDisk(h.slots, disk, id) else None
    case Some(hit) => Outcome(Answered(fp, under.value, hit), if usable then Some((id, hit)) else None, None)
    case None => Just(if under.value != seen then Failed else Hashing(k, fp, under.value, []))
  }

  /** Up to `n` further bytes; none only at the end of the file. */
  function ReadOn(pc: Pc, now: Bytes, n: nat): Option<Outcome>
    requires pc.Hashing?
  {
    var read := pc.read;
    if n == 0 then (if |read| < |now| then None else Some(Just(AtEnd(pc.k, pc.fp, pc.stamp, read))))
    else if |read| + n > |now| then None
    else Some(Just(Hashing(pc.k, pc.fp, pc.stamp, read + now[|read|..|read| + n])))
  }

  /** One operation of a call, on a file with these versions, whose path names a file with
      the stamp `named`, if any. */
  function Local(h: Hashes, call: Call, memo: Memo, disk: Disk, versions: seq<Version>, named: Option<Stamp>, op: Op)
    : Option<Outcome>
  {
    if versions == [] || !PcInRange(call.pc, versions) then None else
    var now := versions[|versions| - 1];
    match (call.pc, op)
    case (Opened, Fstat) => Some(Just(Sampling(|versions| - 1, [])))
    case (Sampling(k, parts), Sample) => SampleNext(k, parts, versions[k].stamp.len, now.bytes)
    case (Sampling(k, parts), StatPath) =>
      if |parts| != 2 + BLOCKS then None
      else Some(Just(Looking(k, h.sample(versions[k].stamp.len, parts), named)))
    case (Looking(k, fp, under), TryMemo(usable)) => Some(TryTheMemo(h, call, memo, k, fp, under, usable))
    case (Missed(k, fp, under), TryDisk(readable, usable)) =>
      Some(TryTheDisk(h, call, disk, k, fp, under, versions[k].stamp, readable, usable))
    case (Hashing(_, _, _, _), Read(n)) => ReadOn(call.pc, now.bytes, n)
    case (AtEnd(k, fp, stamp, read), Verify) =>
      Some(Just(if now.stamp != versions[k].stamp then Failed else Storing(fp, stamp, h.sha(read))))
    case (Storing(fp, stamp, digest), StoreMemo(usable)) =>
      var id := IdOf(h, call.path, stamp, fp);
      Some(Outcome(Stored(fp, stamp, digest), if usable then Some((id, digest)) else None, None))
    case (Stored(fp, stamp, digest), StoreDisk(ok)) =>
      var id := IdOf(h, call.path, stamp, fp);
      Some(Outcome(Answered(fp, stamp, digest), None, if ok then Some((id, digest)) else None))
    case _ => None
  }

  predicate HasVersion(pc: Pc) {
    pc.Sampling? || pc.Looking? || pc.Missed? || pc.Hashing? || pc.AtEnd?
  }

  predicate PcInRange(pc: Pc, versions: seq<Version>) {
    HasVersion(pc) ==> pc.k < |versions|
  }

  // ----- the system -----

  function StampAt(s: Sys, path: Bytes): Option<Stamp> {
    if path in s.at && s.at[path] in s.files && s.files[s.at[path]] != [] then Some(Latest(s, s.at[path]).stamp)
    else None
  }

  ghost predicate Enabled(h: Hashes, s: Sys, step: Step) {
    match step
    case Create(path, ino, v) => ino !in s.files && RealVersion(v) && 0 !in path
    case Rename(path, ino) => ino in s.files && 0 !in path
    case Unlink(path) => path in s.at
    case Rewrite(ino, v) =>
      ino in s.files && RealVersion(v) && forall w :: w in s.files[ino] ==> w.stamp != v.stamp
    case Open(c, _, path) => c !in s.calls && path in s.at
    case By(c, op) => c in s.calls && Result(h, s, c, op).Some?
  }

  ghost function Result(h: Hashes, s: Sys, c: CallId, op: Op): Option<Outcome>
    requires c in s.calls
  {
    var call := s.calls[c];
    if call.ino !in s.files then None
    else Local(h, call, Memoised(s, call.proc), s.disk, s.files[call.ino], StampAt(s, call.path), op)
  }

  /** What an outcome does to the layers. */
  function Put(h: Hashes, memo: Memo, put: Option<(Identity, Bytes)>): Memo {
    if put.Some? then memo[h.slots(put.value.0) := put.value.1] else memo
  }

  function PutDisk(h: Hashes, disk: Disk, put: Option<(Identity, Bytes)>): Disk {
    if put.Some? then disk[h.slots(put.value.0) := Entry(put.value.0, put.value.1)] else disk
  }

  function Commit(h: Hashes, s: Sys, c: CallId, o: Outcome): Sys
    requires c in s.calls
  {
    var call := s.calls[c];
    s.(memos := s.memos[call.proc := Put(h, Memoised(s, call.proc), o.memo)],
       disk := PutDisk(h, s.disk, o.disk),
       calls := s.calls[c := call.(pc := o.pc)])
  }

  ghost function Apply(h: Hashes, s: Sys, step: Step): Sys
    requires Enabled(h, s, step)
  {
    match step
    case Create(path, ino, v) =>
      s.(files := s.files[ino := [v]], at := s.at[path := ino], placed := s.placed + {(path, ino)})
    case Rename(path, ino) => s.(at := s.at[path := ino], placed := s.placed + {(path, ino)})
    case Unlink(path) => s.(at := s.at - {path})
    case Rewrite(ino, v) => s.(files := s.files[ino := s.files[ino] + [v]])
    case Open(c, proc, path) => s.(calls := s.calls[c := Call(proc, path, s.at[path], Opened)])
    case By(c, op) => Commit(h, s, c, Result(h, s, c, op).value)
  }

  /** Each state follows from the one before by an enabled step. */
  ghost predicate Runs(h: Hashes, s: Sys, steps: seq<Step>, s': Sys)
    decreases |steps|
  {
    if steps == [] then s' == s
    else Enabled(h, s, steps[0]) && Runs(h, Apply(h, s, steps[0]), steps[1..], s')
  }

  /** No files yet, and empty caches. */
  const EMPTY := Sys(map[], map[], {}, map[], map[], map[])

  ghost predicate Reachable(h: Hashes, s: Sys) {
    exists steps :: Runs(h, EMPTY, steps, s)
  }
}
