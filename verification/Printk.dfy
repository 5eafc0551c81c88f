/** Finding printk records in a guest console line (`printk_timestamps` and
    `is_kernel_crash_headline`, src/utils.rs:430-515). A line is a string of bytes. */
module Printk {
  import opened Resources

  const TIMESTAMP_MAX := 24
  const COMM_LEN := 15
  const TRAPS := "traps: "

  predicate IsDigit(c: char) {
    '0' <= c <= '9'
  }

  // ----- what a timestamp is -----

  /** `s` spaces, `d` digits, a dot and exactly six digits. */
  ghost predicate Columns(p: string, s: nat, d: nat) {
    && d >= 1 && |p| == s + d + 7
    && (forall k :: 0 <= k < s ==> p[k] == ' ')
    && (forall k :: s <= k < s + d ==> IsDigit(p[k]))
    && p[s + d] == '.'
    && (forall k :: s + d < k < |p| ==> IsDigit(p[k]))
  }

  ghost predicate IsColumns(p: string) {
    exists s: nat, d: nat :: Columns(p, s, d)
  }

  /** A timestamp from the `[` at `open` to the message at `start`: at least twelve columns
      in brackets and a space, all of it within the window. */
  ghost predicate IsStamp(line: string, open: nat, start: nat) {
    && open + 15 <= start <= open + 1 + TIMESTAMP_MAX && start <= |line|
    && line[open] == '[' && line[start - 2] == ']' && line[start - 1] == ' '
    && IsColumns(line[open + 1..start - 2])
  }

  // ----- how the scanner reads one -----

  /** The first `] ` of the window from `k` on. */
  function Close(w: string, k: nat): (r: Option<nat>)
    ensures r.Some? ==> k <= r.value && r.value + 1 < |w| && w[r.value] == ']' && w[r.value + 1] == ' '
    decreases |w| - k
  {
    if k + 1 >= |w| then None
    else if w[k] == ']' && w[k + 1] == ' ' then Some(k)
    else Close(w, k + 1)
  }

  lemma {:induction false} CloseIs(w: string, k: nat, n: nat)
    requires k <= n && n + 1 < |w| && w[n] == ']' && w[n + 1] == ' '
    requires forall i :: k <= i < n ==> w[i] != ']'
    ensures Close(w, k) == Some(n)
    decreases n - k
  {
    if k < n {
      CloseIs(w, k + 1, n);
    }
  }

  /** The first position from `k` on that is not a space. */
  function Spaces(p: string, k: nat): (n: nat)
    requires k <= |p|
    ensures k <= n <= |p| && (forall i :: k <= i < n ==> p[i] == ' ') && (n < |p| ==> p[n] != ' ')
    decreases |p| - k
  {
    if k == |p| || p[k] != ' ' then k else Spaces(p, k + 1)
  }

  /** The first dot from `k` on, or the end. */
  function Dot(p: string, k: nat): (n: nat)
    requires k <= |p|
    ensures k <= n <= |p| && (forall i :: k <= i < n ==> p[i] != '.') && (n < |p| ==> p[n] == '.')
    decreases |p| - k
  {
    if k == |p| || p[k] == '.' then k else Dot(p, k + 1)
  }

  predicate Digits(p: string, lo: nat, hi: nat)
    requires hi <= |p|
  {
    forall k :: lo <= k < hi ==> IsDigit(p[k])
  }

  predicate Shaped(p: string) {
    var s := Spaces(p, 0);
    var dot := Dot(p, s);
    |p| >= 12 && dot > s && |p| - dot - 1 == 6 && Digits(p, s, dot) && Digits(p, dot + 1, |p|)
  }

  function Window(line: string, after: nat): string
    requires after <= |line|
  {
    line[after..if |line| < after + TIMESTAMP_MAX then |line| else after + TIMESTAMP_MAX]
  }

  /** The length of the timestamp a window starts with, up to its `] `. */
  function ReadWindow(w: string): Option<nat> {
    match Close(w, 0)
    case None => None
    case Some(close) => if Shaped(w[..close]) then Some(close) else None
  }

  /** Where the message after the timestamp opened at `open` starts, if one is there. */
  function MessageStart(line: string, open: nat): Option<nat>
    requires open < |line|
  {
    if line[open] != '[' then None
    else match ReadWindow(Window(line, open + 1))
      case None => None
      case Some(close) => Some(open + 1 + close + 2)
  }

  lemma ShapedIsColumns(p: string)
    ensures Shaped(p) <==> |p| >= 12 && IsColumns(p)
  {
    if Shaped(p) {
      var s := Spaces(p, 0);
      assert Columns(p, s, Dot(p, s) - s);
    }
    if |p| >= 12 && IsColumns(p) {
      var s: nat, d: nat :| Columns(p, s, d);
      assert p[s] != ' ' && Spaces(p, 0) == s;
      assert p[s + d] == '.' && Dot(p, s) == s + d;
    }
  }

  lemma NoBracketInColumns(p: string)
    requires IsColumns(p)
    ensures '[' !in p && ']' !in p
  {
    var s: nat, d: nat :| Columns(p, s, d);
    forall k | 0 <= k < |p|
      ensures p[k] != '[' && p[k] != ']'
    {
      if k >= s && k != s + d {
        assert IsDigit(p[k]);
      }
    }
  }

  /** A window starts with a timestamp of `n` columns. */
  ghost predicate StartsWithStamp(w: string, n: nat) {
    12 <= n && n + 1 < |w| && w[n] == ']' && w[n + 1] == ' ' && IsColumns(w[..n])
  }

  lemma WindowIsRead(w: string, n: nat)
    requires StartsWithStamp(w, n)
    ensures ReadWindow(w) == Some(n)
  {
    NoBracketInColumns(w[..n]);
    assert forall i :: 0 <= i < n ==> w[i] == w[..n][i];
    CloseIs(w, 0, n);
    ShapedIsColumns(w[..n]);
  }

  lemma ReadIsStamp(w: string)
    requires ReadWindow(w).Some?
    ensures StartsWithStamp(w, ReadWindow(w).value)
  {
    ShapedIsColumns(w[..Close(w, 0).value]);
  }

  lemma ReadsAStamp(line: string, open: nat)
    requires open < |line| && MessageStart(line, open).Some?
    ensures IsStamp(line, open, MessageStart(line, open).value)
  {
    var w := Window(line, open + 1);
    ReadIsStamp(w);
    var n := ReadWindow(w).value;
    assert w[..n] == line[open + 1..open + 1 + n];
  }

  lemma StampIsRead(line: string, open: nat, start: nat)
    requires open < |line| && IsStamp(line, open, start)
    ensures MessageStart(line, open) == Some(start)
  {
    var w, n := Window(line, open + 1), start - open - 3;
    assert w[..n] == line[open + 1..start - 2];
    WindowIsRead(w, n);
  }

  /** The reader accepts exactly the timestamps. */
  lemma ReaderIsExact(line: string, open: nat, start: nat)
    requires open < |line|
    ensures MessageStart(line, open) == Some(start) <==> IsStamp(line, open, start)
  {
    if MessageStart(line, open) == Some(start) {
      ReadsAStamp(line, open);
    } else if IsStamp(line, open, start) {
      StampIsRead(line, open, start);
    }
  }

  // ----- the records of a line -----

  /** A timestamp, and where its message starts. */
  datatype Stamp = Stamp(open: nat, start: nat)

  /** Where a line has timestamps, and where its user fault reports start. */
  datatype Marks = Marks(starts: seq<Option<nat>>, traps: set<nat>)

  ghost function MarksOf(line: string): Marks {
    Marks(seq(|line|, i requires 0 <= i < |line| => MessageStart(line, i)),
          set k | 0 <= k <= |line| && TRAPS <= line[k..])
  }

  ghost predicate Describes(m: Marks, line: string) {
    && |m.starts| == |line|
    && (forall i {:trigger MessageStart(line, i)} :: 0 <= i < |line| ==> m.starts[i] == MessageStart(line, i))
    && (forall k :: k in m.traps <==> 0 <= k <= |line| && TRAPS <= line[k..])
  }

  /** `at` is in the comm field of the report that starts at `start`. */
  ghost predicate InComm(m: Marks, start: nat, at: nat) {
    start in m.traps && at < start + |TRAPS| + COMM_LEN
  }

  /** A record opens where there is a timestamp that is not in the comm field of a record
      before it. */
  ghost predicate Opens(m: Marks, open: nat)
    decreases open
  {
    && open < |m.starts| && m.starts[open].Some?
    && !exists p :: 0 <= p < open && Opens(m, p) && InComm(m, m.starts[p].value, open)
  }

  /** The records that open before `n`, in order. */
  ghost function Records(m: Marks, n: nat): (r: seq<Stamp>)
    requires n <= |m.starts|
  {
    if n == 0 then []
    else if Opens(m, n - 1) then Records(m, n - 1) + [Stamp(n - 1, m.starts[n - 1].value)]
    else Records(m, n - 1)
  }

  lemma {:induction false} NoneBetween(m: Marks, a: nat, b: nat)
    requires a <= b <= |m.starts| && forall k :: a <= k < b ==> m.starts[k].None?
    ensures Records(m, b) == Records(m, a)
    decreases b
  {
    if a < b {
      NoneBetween(m, a, b - 1);
    }
  }

  /** The last record before `n`. */
  ghost predicate IsLast(m: Marks, n: nat, last: Stamp) {
    && last.open < n <= |m.starts| && Opens(m, last.open) && m.starts[last.open] == Some(last.start)
    && forall p :: last.open < p < n ==> !Opens(m, p)
  }

  lemma {:induction false} LastRecord(m: Marks, n: nat)
    requires n <= |m.starts|
    ensures Records(m, n) == [] ==> forall p :: 0 <= p < n ==> !Opens(m, p)
    ensures Records(m, n) != [] ==> IsLast(m, n, Records(m, n)[|Records(m, n)| - 1])
  {
    if n > 0 {
      LastRecord(m, n - 1);
    }
  }

  /** Only the last record before a timestamp can hold it in its comm field: an earlier one
      would hold the last one too. */
  lemma OnlyTheLastMatters(m: Marks, at: nat)
    requires at < |m.starts| && m.starts[at].Some?
    ensures
      var r := Records(m, at);
      Opens(m, at) <==> r == [] || !InComm(m, r[|r| - 1].start, at)
  {
    LastRecord(m, at);
    var r := Records(m, at);
    if r != [] {
      var last := r[|r| - 1];
      forall p | 0 <= p < at && Opens(m, p) && InComm(m, m.starts[p].value, at)
        ensures p == last.open
      {
        assert p <= last.open;
      }
    }
  }

  /** The records are the positions where records open, in order and without overlap when
      no timestamp opens inside another. */
  lemma {:induction false} RecordsAreThePlaces(m: Marks, n: nat, open: nat, start: nat)
    requires n <= |m.starts|
    ensures Stamp(open, start) in Records(m, n) <==> open < n && Opens(m, open) && m.starts[open] == Some(start)
  {
    if n > 0 {
      RecordsAreThePlaces(m, n - 1, open, start);
    }
  }

  lemma {:induction false} RecordsAscend(m: Marks, n: nat, i: nat, j: nat)
    requires n <= |m.starts| && i < j < |Records(m, n)|
    ensures Records(m, n)[i].open < Records(m, n)[j].open < n
  {
    if Opens(m, n - 1) {
      if j < |Records(m, n - 1)| {
        RecordsAscend(m, n - 1, i, j);
      } else {
        var s := Records(m, n - 1)[i];
        RecordsAreThePlaces(m, n - 1, s.open, s.start);
      }
    } else {
      RecordsAscend(m, n - 1, i, j);
    }
  }

  /** No `[` lies inside a timestamp, so the next record opens after this one's stamp. */
  lemma StampsDoNotOverlap(line: string, a: nat, b: nat)
    requires a < b < |line| && MessageStart(line, a).Some? && MessageStart(line, b).Some?
    ensures MessageStart(line, a).value <= b
  {
    var start := MessageStart(line, a).value;
    ReadsAStamp(line, a);
    var columns := line[a + 1..start - 2];
    NoBracketInColumns(columns);
    assert forall k :: a < k < start - 2 ==> line[k] == columns[k - a - 1];
  }

  lemma NextRecords(m: Marks, open: nat)
    requires open < |m.starts|
    ensures
      var r := Records(m, open);
      Records(m, open + 1) ==
        if r != [] && InComm(m, r[|r| - 1].start, open) then r
        else match m.starts[open] case None => r case Some(start) => r + [Stamp(open, start)]
  {
    if m.starts[open].Some? {
      OnlyTheLastMatters(m, open);
    }
  }

  lemma NoStampsBetween(line: string, m: Marks, a: nat, b: nat)
    requires Describes(m, line) && a <= b <= |line| && forall k :: a <= k < b ==> line[k] != '['
    ensures Records(m, b) == Records(m, a)
  {
    forall k | a <= k < b
      ensures m.starts[k].None?
    {
      assert MessageStart(line, k).None?;
    }
    NoneBetween(m, a, b);
  }

  // ----- the scanner -----

  /** A line and how often a byte of it has been read. The methods below read `bytes` only through
      `At`, which counts; contracts and ghost code mention it without reading. */
  class Line {
    const bytes: string
    var seen: nat

    constructor (bytes: string)
      ensures this.bytes == bytes && seen == 0
    {
      this.bytes, seen := bytes, 0;
    }

    method At(i: nat) returns (c: char)
      requires i < |bytes|
      modifies this`seen
      ensures c == bytes[i] && seen == old(seen) + 1
    {
      c := bytes[i];
      seen := seen + 1;
    }

    method FindOpen(from: nat) returns (open: Option<nat>)
      requires from <= |bytes|
      modifies this`seen
      ensures open.None? ==> forall k :: from <= k < |bytes| ==> bytes[k] != '['
      ensures open.Some? ==> from <= open.value < |bytes| && bytes[open.value] == '['
      ensures open.Some? ==> forall k :: from <= k < open.value ==> bytes[k] != '['
      ensures seen == old(seen) + if open.Some? then open.value + 1 - from else |bytes| - from
    {
      var at := from;
      while at < |bytes|
        invariant from <= at <= |bytes| && seen == old(seen) + at - from
        invariant forall k :: from <= k < at ==> bytes[k] != '['
      {
        var c := At(at);
        if c == '[' {
          return Some(at);
        }
        at := at + 1;
      }
      return None;
    }

    method StartsWithTraps(start: nat) returns (r: bool)
      requires start <= |bytes|
      modifies this`seen
      ensures r <==> TRAPS <= bytes[start..]
      ensures seen <= old(seen) + 7
    {
      if |bytes| - start < |TRAPS| {
        return false;
      }
      for k := 0 to |TRAPS|
        invariant seen == old(seen) + k && TRAPS[..k] == bytes[start..][..k]
      {
        var c := At(start + k);
        if c != TRAPS[k] {
          return false;
        }
      }
      assert TRAPS[..|TRAPS|] == TRAPS;
      return true;
    }

    /** Two bytes at each place, as the source's windows of two are compared. */
    method FindClose(lo: nat, hi: nat) returns (close: Option<nat>)
      requires lo <= hi <= |bytes|
      modifies this`seen
      ensures close == Close(bytes[lo..hi], 0)
      ensures seen <= old(seen) + 2 * (hi - lo)
    {
      ghost var w := bytes[lo..hi];
      var k := 0;
      while lo + k + 1 < hi
        invariant k <= hi - lo && Close(w, 0) == Close(w, k) && seen <= old(seen) + 2 * k
      {
        var a := At(lo + k);
        var b := At(lo + k + 1);
        if a == ']' && b == ' ' {
          return Some(k);
        }
        k := k + 1;
      }
      return None;
    }

    /** The bytes without the leading spaces. */
    method SkipSpaces(lo: nat, hi: nat) returns (s: nat)
      requires lo <= hi <= |bytes|
      modifies this`seen
      ensures lo <= s <= hi && s - lo == Spaces(bytes[lo..hi], 0)
      ensures seen <= old(seen) + (hi - lo)
    {
      ghost var w := bytes[lo..hi];
      s := lo;
      while s < hi
        invariant lo <= s <= hi && Spaces(w, 0) == Spaces(w, s - lo) && seen == old(seen) + s - lo
      {
        var c := At(s);
        if c != ' ' {
          return;
        }
        s := s + 1;
      }
    }

    method FindDot(lo: nat, from: nat, hi: nat) returns (dot: nat)
      requires lo <= from <= hi <= |bytes|
      modifies this`seen
      ensures from <= dot <= hi && dot - lo == Dot(bytes[lo..hi], from - lo)
      ensures seen <= old(seen) + (hi - lo)
    {
      ghost var w := bytes[lo..hi];
      dot := from;
      while dot < hi
        invariant from <= dot <= hi && Dot(w, from - lo) == Dot(w, dot - lo) && seen == old(seen) + dot - from
      {
        var c := At(dot);
        if c == '.' {
          return;
        }
        dot := dot + 1;
      }
    }

    method AllDigits(lo: nat, hi: nat) returns (r: bool)
      requires lo <= hi <= |bytes|
      modifies this`seen
      ensures r <==> forall k :: lo <= k < hi ==> IsDigit(bytes[k])
      ensures seen <= old(seen) + (hi - lo)
    {
      for k := lo to hi
        invariant seen == old(seen) + k - lo && forall i :: lo <= i < k ==> IsDigit(bytes[i])
      {
        var c := At(k);
        if !IsDigit(c) {
          return false;
        }
      }
      return true;
    }

    method HasShape(lo: nat, hi: nat) returns (r: bool)
      requires lo <= hi <= |bytes|
      modifies this`seen
      ensures r <==> Shaped(bytes[lo..hi])
      ensures seen <= old(seen) + 4 * (hi - lo)
    {
      ghost var w := bytes[lo..hi];
      var s := SkipSpaces(lo, hi);
      var dot := FindDot(lo, s, hi);
      if !(hi - lo >= 12 && dot > s && hi - dot - 1 == 6) {
        return false;
      }
      var whole := AllDigits(s, dot);
      assert whole <==> Digits(w, s - lo, dot - lo) by {
        assert forall k :: s <= k < dot ==> bytes[k] == w[k - lo];
        assert forall k :: s - lo <= k < dot - lo ==> w[k] == bytes[k + lo];
      }
      if !whole {
        return false;
      }
      r := AllDigits(dot + 1, hi);
      assert r <==> Digits(w, dot - lo + 1, hi - lo) by {
        assert forall k :: dot < k < hi ==> bytes[k] == w[k - lo];
        assert forall k :: dot - lo < k < hi - lo ==> w[k] == bytes[k + lo];
      }
    }

    /** The timestamp opened at `open`, if one is there. */
    method ReadStamp(open: nat) returns (start: Option<nat>)
      requires open < |bytes| && bytes[open] == '['
      modifies this`seen
      ensures start == MessageStart(bytes, open)
      ensures seen <= old(seen) + 144   // six times a window's 24 bytes
    {
      var after := open + 1;
      var hi := if |bytes| < after + TIMESTAMP_MAX then |bytes| else after + TIMESTAMP_MAX;
      assert bytes[after..hi] == Window(bytes, after);
      var close := FindClose(after, hi);
      if close.None? {
        return None;
      }
      var shaped := HasShape(after, after + close.value);
      assert bytes[after..hi][..close.value] == bytes[after..after + close.value];
      return if shaped then Some(after + close.value + 2) else None;
    }

    /** Whether `open` is in the comm field of the last record found. */
    method InLastComm(ghost m: Marks, open: nat, found: seq<Stamp>) returns (r: bool)
      requires Describes(m, bytes) && open < |bytes| && found == Records(m, open)
      modifies this`seen
      ensures r <==> found != [] && InComm(m, found[|found| - 1].start, open)
      ensures seen <= old(seen) + 7
    {
      if found == [] {
        return false;
      }
      var start := found[|found| - 1].start;
      LastRecord(m, open);
      ReadsAStamp(bytes, found[|found| - 1].open);
      r := StartsWithTraps(start);
      r := r && open < start + |TRAPS| + COMM_LEN;
    }

    /** The scanner at a `[`: nothing inside the comm field of the last record, otherwise a
        record if there is a timestamp. */
    method TakeOpen(ghost m: Marks, open: nat, found: seq<Stamp>) returns (found': seq<Stamp>)
      requires Describes(m, bytes) && open < |bytes| && bytes[open] == '[' && found == Records(m, open)
      modifies this`seen
      ensures found' == Records(m, open + 1)
      ensures seen <= old(seen) + PER_OPEN
    {
      NextRecords(m, open);
      var inside := InLastComm(m, open, found);
      if inside {
        return found;
      }
      var start := ReadStamp(open);
      assert m.starts[open] == start;
      return if start.Some? then found + [Stamp(open, start.value)] else found;
    }

    /** One turn of the scan: on to the next `[`, and past it. */
    method NextOpen(ghost m: Marks, from: nat, found: seq<Stamp>) returns (open: Option<nat>, found': seq<Stamp>)
      requires Describes(m, bytes) && from <= |bytes| && found == Records(m, from)
      modifies this`seen
      ensures open.Some? ==> from <= open.value < |bytes| && found' == Records(m, open.value + 1)
      ensures open.None? ==> found' == Records(m, |bytes|)
      ensures seen + ReadsFor(from) <= old(seen) + ReadsFor(if open.Some? then open.value + 1 else |bytes|)
    {
      open := FindOpen(from);
      CostOfABit(from, if open.Some? then open.value + 1 else |bytes|);
      if open.None? {
        NoStampsBetween(bytes, m, from, |bytes|);
        return open, found;
      }
      NoStampsBetween(bytes, m, from, open.value);
      found' := TakeOpen(m, open.value, found);
    }

    /** `printk_timestamps`: the records of the line, with at most a fixed number of bytes read
        for each byte of it, also when it holds many `[`. */
    method PrintkTimestamps(ghost m: Marks) returns (found: seq<Stamp>)
      requires Describes(m, bytes)
      modifies this`seen
      ensures found == Records(m, |bytes|)
      ensures seen <= old(seen) + ReadsFor(|bytes|)
    {
      found := [];
      var from := 0;
      while true
        invariant from <= |bytes|
        invariant found == Records(m, from)
        invariant seen <= old(seen) + ReadsFor(from)
        decreases |bytes| - from
      {
        var next;
        next, found := NextOpen(m, from, found);
        if next.None? {
          return;
        }
        from := next.value + 1;
      }
    }
  }

  /** What one `[` costs at most: the prefix of the record it may be in, and six passes over
      its window. */
  const PER_OPEN := 151

  /** What `n` bytes cost at most: each is looked at once for a `[`, and may be one. */
  function ReadsFor(n: nat): nat {
    152 * n
  }

  lemma CostOfABit(a: nat, b: nat)
    requires a <= b
    ensures ReadsFor(a) + (b - a) <= ReadsFor(b)
    ensures a < b ==> ReadsFor(a) + (b - a) + PER_OPEN <= ReadsFor(b)
  {
  }

  // ----- crash headlines -----

  /** Where the record at `i` ends: where the next one opens, or at the end of the line. */
  function EndOf(stamps: seq<Stamp>, i: nat, length: nat): nat
    requires i < |stamps|
  {
    if i + 1 < |stamps| then stamps[i + 1].open else length
  }

  /** A record: it opens at `open`, its message runs from `start` to `end`, and no record
      opens in between. */
  ghost predicate IsRecord(m: Marks, open: nat, start: nat, end: nat) {
    && Opens(m, open) && m.starts[open] == Some(start)
    && open < end <= |m.starts| && (end < |m.starts| ==> Opens(m, end))
    && forall p :: open < p < end ==> !Opens(m, p)
  }

  lemma ListedIsRecord(m: Marks, i: nat)
    requires i < |Records(m, |m.starts|)|
    ensures
      var r := Records(m, |m.starts|);
      IsRecord(m, r[i].open, r[i].start, EndOf(r, i, |m.starts|))
  {
    var n, r := |m.starts|, Records(m, |m.starts|);
    RecordsAreThePlaces(m, n, r[i].open, r[i].start);
    var end := EndOf(r, i, n);
    if i + 1 < |r| {
      RecordsAreThePlaces(m, n, end, r[i + 1].start);
      RecordsAscend(m, n, i, i + 1);
    }
    forall p | r[i].open < p < end && Opens(m, p)
      ensures false
    {
      RecordsAreThePlaces(m, n, p, m.starts[p].value);
      var j :| 0 <= j < |r| && r[j] == Stamp(p, m.starts[p].value);
      Between(m, i, j);
    }
  }

  lemma Between(m: Marks, i: nat, j: nat)
    requires i < |Records(m, |m.starts|)| && j < |Records(m, |m.starts|)|
    ensures
      var r := Records(m, |m.starts|);
      !(r[i].open < r[j].open < EndOf(r, i, |m.starts|))
  {
    var n := |m.starts|;
    if j < i {
      RecordsAscend(m, n, j, i);
    } else if i + 1 < j {
      RecordsAscend(m, n, i + 1, j);
    } else if i < j {
      RecordsAscend(m, n, i, j);
    }
  }

  lemma RecordIsListed(m: Marks, open: nat, start: nat, end: nat) returns (i: nat)
    requires IsRecord(m, open, start, end)
    ensures
      var r := Records(m, |m.starts|);
      i < |r| && r[i] == Stamp(open, start) && EndOf(r, i, |m.starts|) == end
  {
    var r := Records(m, |m.starts|);
    RecordsAreThePlaces(m, |m.starts|, open, start);
    i :| 0 <= i < |r| && r[i] == Stamp(open, start);
    ListedIsRecord(m, i);
  }

  predicate Continuation(c: char) {
    0x80 <= c as int < 0xC0
  }

  /** True of every UTF-8 string: a continuation byte follows a non-ASCII byte. */
  ghost predicate WellEncoded(line: string) {
    forall i :: 0 <= i < |line| && Continuation(line[i]) ==> i > 0 && line[i - 1] as int >= 0x80
  }

  ghost predicate Boundary(line: string, i: nat) {
    i <= |line| && (i < |line| ==> !Continuation(line[i]))
  }

  /** Every message slice is in range and cut on character boundaries. */
  lemma SlicesAreSafe(line: string, m: Marks, open: nat, start: nat, end: nat)
    requires WellEncoded(line) && Describes(m, line) && IsRecord(m, open, start, end)
    ensures start <= end <= |line| && Boundary(line, start) && Boundary(line, end)
  {
    ReadsAStamp(line, open);
    assert start <= |line| && line[start - 1] == ' ';
    if end < |line| {
      StampsDoNotOverlap(line, open, end);
    }
  }

  const HEADLINES := [
    "Kernel panic - not syncing", "Rebooting in ", "BUG: ", "kernel BUG at ", "Oops: ",
    "Unable to handle kernel ", "general protection fault", "hard LOCKUP", "WARNING: CPU: ",
    "INFO: task ", "rcu: INFO: ", ": Killed process "]

  predicate Contains(message: string, word: string) {
    exists k :: 0 <= k <= |message| && word <= message[k..]
  }

  /** A message that holds one of `words` and is neither a user program's fault report nor a
      panic's closing line. */
  predicate IsHeadline(words: seq<string>, message: string) {
    && !(TRAPS <= message) && !("---[ end " <= message)
    && exists k :: 0 <= k < |words| && Contains(message, words[k])
  }

  /** A record of the line is a headline. */
  ghost predicate HasHeadline(words: seq<string>, line: string, m: Marks) {
    exists open, start, end :: IsHeadlineRecord(words, line, m, open, start, end)
  }

  ghost predicate IsHeadlineRecord(words: seq<string>, line: string, m: Marks, open: nat, start: nat, end: nat) {
    IsRecord(m, open, start, end) && start <= end <= |line| && IsHeadline(words, line[start..end])
  }

  ghost predicate HeadlineAt(words: seq<string>, line: string, m: Marks, i: nat) {
    var r := Records(m, |m.starts|);
    i < |r| && IsHeadlineRecord(words, line, m, r[i].open, r[i].start, EndOf(r, i, |m.starts|))
  }

  lemma HeadlineIsListed(words: seq<string>, line: string, m: Marks)
    requires HasHeadline(words, line, m)
    ensures exists i :: HeadlineAt(words, line, m, i)
  {
    var open: nat, start: nat, end: nat :| IsHeadlineRecord(words, line, m, open, start, end);
    var i := RecordIsListed(m, open, start, end);
    assert HeadlineAt(words, line, m, i);
  }

  method JudgeRecord(words: seq<string>, line: string, ghost m: Marks, stamps: seq<Stamp>, i: nat) returns (r: bool)
    requires WellEncoded(line) && Describes(m, line) && stamps == Records(m, |line|) && i < |stamps|
    ensures r <==> HeadlineAt(words, line, m, i)
    ensures r ==> HasHeadline(words, line, m)
  {
    var start, end := stamps[i].start, EndOf(stamps, i, |line|);
    ListedIsRecord(m, i);
    SlicesAreSafe(line, m, stamps[i].open, start, end);
    r := IsHeadline(words, line[start..end]);
    assert r <==> IsHeadlineRecord(words, line, m, stamps[i].open, start, end);
  }

  method AnyHeadline(words: seq<string>, line: string, ghost m: Marks, stamps: seq<Stamp>) returns (r: bool)
    requires WellEncoded(line) && Describes(m, line) && stamps == Records(m, |line|)
    ensures r <==> HasHeadline(words, line, m)
  {
    for i := 0 to |stamps|
      invariant forall k :: 0 <= k < i ==> !HeadlineAt(words, line, m, k)
    {
      r := JudgeRecord(words, line, m, stamps, i);
      if r {
        return;
      }
    }
    if HasHeadline(words, line, m) {
      HeadlineIsListed(words, line, m);
    }
    return false;
  }

  /** `is_kernel_crash_headline`. */
  method IsKernelCrashHeadline(line: string) returns (r: bool)
    requires WellEncoded(line)
    ensures r <==> HasHeadline(HEADLINES, line, MarksOf(line))
  {
    var scanned := new Line(line);
    var stamps := scanned.PrintkTimestamps(MarksOf(line));
    r := AnyHeadline(HEADLINES, line, MarksOf(line), stamps);
  }
}
