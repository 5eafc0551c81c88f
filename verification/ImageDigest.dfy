/** The read loop of an image digest (`sha256_of_open_file`, src/utils.rs:2338-2375) over a
    file that may be written while it is read. */
module ImageDigest {
  import opened Resources
  import opened KeyEncoding
  import opened DigestSystem

  const CHUNK := 1048576

  /** The open file at each moment, by the number of calls made on it so far, and what a
      read returns then: an error, or at most so many bytes. */
  datatype OpenFile = OpenFile(now: nat -> Version, read: nat -> Option<nat>)

  /** Writes change the stamp and never bring an old one back. */
  ghost predicate Steady(f: OpenFile) {
    forall a, b, c :: 0 <= a <= b <= c && f.now(a).stamp == f.now(c).stamp ==> f.now(b) == f.now(a)
  }

  ghost predicate Untouched(f: OpenFile, t: nat) {
    forall u :: 0 <= u <= t ==> f.now(u) == f.now(0)
  }

  /** Nothing is written to the file, and no read fails. */
  ghost predicate Quiet(f: OpenFile) {
    forall t: nat :: f.now(t) == f.now(0) && f.read(t).Some?
  }

  function Least(a: nat, b: nat): nat {
    if a < b then a else b
  }

  /** The digest, refused unless the file was opened with the stamp it will be cached under
      and still has it after the last read. `limit` bounds the file's size. */
  method DigestOf(sha: Bytes -> Bytes, f: OpenFile, under: Option<Stamp>, limit: nat) returns (r: Option<Bytes>)
    requires forall t: nat :: |f.now(t).bytes| <= limit
    ensures r.Some? ==> under == Some(f.now(0).stamp)
    ensures r.Some? && Steady(f) ==> r.value == sha(f.now(0).bytes)
    ensures under == Some(f.now(0).stamp) && Quiet(f) ==> r.Some?
  {
    if under != Some(f.now(0).stamp) {
      return None;
    }
    var read: Bytes, t: nat := [], 0;
    while true
      invariant |read| <= limit
      invariant Untouched(f, t) ==> read <= f.now(0).bytes
      decreases limit - |read|
    {
      t := t + 1;
      var bytes := f.now(t).bytes;
      assert Untouched(f, t) ==> Untouched(f, t - 1) && f.now(t) == f.now(0);
      var left := if |read| < |bytes| then |bytes| - |read| else 0;
      var most := Least(CHUNK, left);
      if f.read(t).None? {
        return None;
      }
      // a read makes progress unless it is at the end
      var n := if most == 0 then 0 else Least(most, f.read(t).value + 1);
      if n == 0 {
        break;
      }
      read := read + bytes[|read|..|read| + n];
    }
    if f.now(t + 1).stamp != f.now(0).stamp {
      return None;
    }
    if Steady(f) {
      UntouchedUpTo(f, t + 1);
      assert Untouched(f, t);
      assert read == f.now(0).bytes;
    }
    return Some(sha(read));
  }

  lemma UntouchedUpTo(f: OpenFile, t: nat)
    requires Steady(f) && f.now(t).stamp == f.now(0).stamp
    ensures Untouched(f, t)
  {
    forall u | 0 <= u <= t
      ensures f.now(u) == f.now(0)
    {
      assert f.now(0).stamp == f.now(t).stamp;
    }
  }
}
