/** What a disk image's sampled fingerprint reads (`sampled_fingerprint`,
    src/utils.rs:2311-2331): its two edges and evenly spaced blocks between. */
module Fingerprint {
  import opened KeyEncoding

  const EDGE := 1048576
  const BLOCK := 4096
  const BLOCKS := 64

  /** A half-open range of file offsets. */
  datatype Range = Range(start: nat, end: nat)

  function BlockAt(len: nat, i: nat): nat {
    len / BLOCKS * i / BLOCK * BLOCK
  }

  function Min(a: nat, b: nat): nat {
    if a < b then a else b
  }

  function Block(len: nat, i: nat): Range {
    Range(BlockAt(len, i), Min(BlockAt(len, i) + BLOCK, len))
  }

  function Ranges(len: nat): (r: seq<Range>)
    ensures |r| == 2 + BLOCKS
  {
    [Range(0, Min(EDGE, len)), Range(if len < EDGE then 0 else len - EDGE, len)] + seq(BLOCKS, i requires 0 <= i < BLOCKS => Block(len, i))
  }

  /** No step of the offset's arithmetic leaves 64 bits, and a block starts inside. */
  lemma BlockFits(len: nat, i: nat)
    requires i < BLOCKS
    ensures len / BLOCKS * i <= len && BlockAt(len, i) <= len
    ensures len < U64_LIMIT ==> BlockAt(len, i) + BLOCK < U64_LIMIT
  {
    var q := len / BLOCKS;
    assert q * i <= q * 63 by {
      Scale(q, i, 63);
    }
  }

  lemma Scale(q: nat, i: nat, j: nat)
    requires i <= j
    ensures q * i <= q * j
  {
    assert q * j == q * i + q * (j - i);
  }

  /** Every range lies in the file and fits the 1 MiB buffer it is read into. */
  lemma RangesFit(len: nat, k: nat)
    requires k < 2 + BLOCKS
    ensures Ranges(len)[k].start <= Ranges(len)[k].end <= len
    ensures Ranges(len)[k].end - Ranges(len)[k].start <= EDGE
  {
    if k >= 2 {
      assert Ranges(len)[k] == Block(len, k - 2);
      BlockFits(len, k - 2);
    }
  }

  ghost predicate Sampled(len: nat, offset: nat) {
    exists k :: 0 <= k < 2 + BLOCKS && Ranges(len)[k].start <= offset < Ranges(len)[k].end
  }

  /** An image of at most two edges is read whole. */
  lemma SmallImagesAreReadWhole(len: nat, offset: nat)
    requires offset < len <= 2 * EDGE
    ensures Sampled(len, offset)
  {
    var k := if offset < EDGE then 0 else 1;
    assert Ranges(len)[k].start <= offset < Ranges(len)[k].end;
  }

  /** The ranges as the loop builds them. */
  method SampleRanges(len: nat) returns (ranges: seq<Range>)
    requires len < U64_LIMIT
    ensures ranges == Ranges(len)
    ensures forall k :: 0 <= k < |ranges| ==> ranges[k].start <= ranges[k].end <= len
    ensures forall k :: 0 <= k < |ranges| ==> ranges[k].end - ranges[k].start <= EDGE
  {
    ranges := [Range(0, Min(EDGE, len)), Range(if len < EDGE then 0 else len - EDGE, len)];
    for i := 0 to BLOCKS
      invariant |ranges| == 2 + i
      invariant ranges[0] == Range(0, Min(EDGE, len))
      invariant ranges[1] == Range(if len < EDGE then 0 else len - EDGE, len)
      invariant forall k :: 2 <= k < |ranges| ==> ranges[k] == Block(len, k - 2)
    {
      var start := len / BLOCKS * i / BLOCK * BLOCK;
      ranges := ranges + [Range(start, Min(start + BLOCK, len))];
    }
    assert ranges == Ranges(len);
    forall k | 0 <= k < |ranges|
      ensures ranges[k].start <= ranges[k].end <= len && ranges[k].end - ranges[k].start <= EDGE
    {
      RangesFit(len, k);
    }
  }
}
