/** The byte string a cache key is the hash of (`BinaryIdentity::key`,
    src/version_cache.rs:111-119): path, NUL, modification time, length, namespace. */
module KeyEncoding {
  import opened Resources

  type Byte = x: int | 0 <= x < 256
  type Bytes = seq<Byte>

  /** The stamp a cache entry is valid for: an i128 of nanoseconds and a u64 length. */
  datatype Stamp = Stamp(mtime: int, len: nat)

  datatype Identity = Identity(path: Bytes, stamp: Stamp, namespace: Bytes)

  const I128_HALF := 0x8000_0000_0000_0000_0000_0000_0000_0000
  const U64_LIMIT := 0x1_0000_0000_0000_0000

  predicate FitsStamp(s: Stamp) {
    -I128_HALF <= s.mtime < I128_HALF && s.len < U64_LIMIT
  }

  /** Paths hold no NUL; the integers fit their types. */
  predicate Keyed(id: Identity) {
    0 !in id.path && FitsStamp(id.stamp)
  }

  function Pow256(width: nat): nat {
    if width == 0 then 1 else 256 * Pow256(width - 1)
  }

  lemma Widths()
    ensures Pow256(16) == 2 * I128_HALF && Pow256(8) == U64_LIMIT
  {
    assert Pow256(4) == 0x1_0000_0000;
    assert Pow256(8) == 0x1_0000_0000_0000_0000;
    assert Pow256(12) == 0x1_0000_0000_0000_0000_0000_0000;
  }

  /** Two's complement when `n` is negative. */
  function LittleEndian(n: int, width: nat): (s: Bytes)
    ensures |s| == width
    decreases width
  {
    if width == 0 then [] else [n % 256] + LittleEndian(n / 256, width - 1)
  }

  function Value(s: Bytes): nat {
    if s == [] then 0 else s[0] + 256 * Value(s[1..])
  }

  lemma {:induction false} ValueOfLittleEndian(n: int, width: nat)
    requires -1 * Pow256(width) <= n < Pow256(width)
    ensures Value(LittleEndian(n, width)) == if n < 0 then n + Pow256(width) else n
    decreases width
  {
    if width > 0 {
      ValueOfLittleEndian(n / 256, width - 1);
    }
  }

  function Signed(u: nat): int {
    if u < I128_HALF then u else u - 2 * I128_HALF
  }

  function Key(id: Identity): Bytes {
    id.path + [0]
    + LittleEndian(id.stamp.mtime, 16)
    + LittleEndian(id.stamp.len, 8)
    + id.namespace
  }

  /** Up to the first NUL, if there is one. */
  function UntilNul(s: Bytes): (n: nat)
    ensures n <= |s| && (forall k :: 0 <= k < n ==> s[k] != 0) && (n < |s| ==> s[n] == 0)
  {
    if s == [] || s[0] == 0 then 0 else
      assert forall k :: 0 < k < |s| ==> s[k] == s[1..][k - 1];
      1 + UntilNul(s[1..])
  }

  /** The reader the encoding is unambiguous for. */
  function ReadKey(s: Bytes): (id: Option<Identity>) {
    var n := UntilNul(s);
    if |s| < n + 25 then None
    else Some(Identity(s[..n], Stamp(Signed(Value(s[n + 1..n + 17])), Value(s[n + 17..n + 25])), s[n + 25..]))
  }

  lemma Layout(path: Bytes, mtime: Bytes, len: Bytes, namespace: Bytes)
    requires 0 !in path && |mtime| == 16 && |len| == 8
    ensures
      var s, n := path + [0] + mtime + len + namespace, |path|;
      && UntilNul(s) == n && s[..n] == path
      && s[n + 1..n + 17] == mtime && s[n + 17..n + 25] == len && s[n + 25..] == namespace
  {
    var s, n := path + [0] + mtime + len + namespace, |path|;
    assert s[n] == 0 && forall k :: 0 <= k < n ==> s[k] == path[k];
  }

  /** The key's bytes determine path, modification time, length and namespace. */
  lemma KeyRoundTrip(id: Identity)
    requires Keyed(id)
    ensures ReadKey(Key(id)) == Some(id)
  {
    Layout(id.path, LittleEndian(id.stamp.mtime, 16), LittleEndian(id.stamp.len, 8), id.namespace);
    Widths();
    ValueOfLittleEndian(id.stamp.mtime, 16);
    ValueOfLittleEndian(id.stamp.len, 8);
  }

  lemma KeysDiffer(a: Identity, b: Identity)
    requires Keyed(a) && Keyed(b) && Key(a) == Key(b)
    ensures a == b
  {
    KeyRoundTrip(a);
    KeyRoundTrip(b);
  }
}
