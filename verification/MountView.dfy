/** The mount namespace of a restored clone (`MountRedirects`, `create_mount_targets` and
    the bind loop of `install_namespace_pre_exec`, src/utils.rs:908-958, 1026-1045,
    1225-1275): an empty tmpfs over the view, directories made in it, then one bind per pair
    in order. Paths are absolute, without `.`, `..` or symbolic links. */
module MountView {
  import opened Resources

  type Path = seq<string>

  /** `source` is bound over `mountpoint`. */
  datatype Pair = Pair(mountpoint: Path, source: Path)

  datatype Redirects = Redirects(view: Path, pairs: seq<Pair>, keep: seq<Path>)

  predicate Inside(p: Path, dir: Path) {
    dir < p
  }

  /** The mountpoint of the pair at `index` lies inside an earlier pair's. */
  predicate Nested(r: Redirects, index: nat)
    requires index < |r.pairs|
  {
    exists e :: 0 <= e < index && Inside(r.pairs[index].mountpoint, r.pairs[e].mountpoint)
  }

  predicate InView(r: Redirects, index: nat)
    requires index < |r.pairs|
  {
    r.view <= r.pairs[index].mountpoint
  }

  // ----- the directories of the tmpfs -----

  /** The directories the tmpfs needs: from the view down to each mountpoint inside it that
      is not nested, and the kept directories directly inside the view. */
  ghost predicate Needed(r: Redirects, d: Path) {
    NeededByPair(r, |r.pairs|, d) || NeededByKeep(r, |r.keep|, d)
  }

  ghost predicate NeededByPair(r: Redirects, n: nat, d: Path)
    requires n <= |r.pairs|
  {
    exists i :: 0 <= i < n && InView(r, i) && !Nested(r, i) && r.view < d <= r.pairs[i].mountpoint
  }

  ghost predicate NeededByKeep(r: Redirects, n: nat, d: Path)
    requires n <= |r.keep|
  {
    d in r.keep[..n] && DirectlyIn(d, r.view)
  }

  predicate DirectlyIn(d: Path, dir: Path) {
    d != [] && d[..|d| - 1] == dir
  }

  /** Each directory is inside the view, not in the list before, and its parent is the view
      or in the list before. */
  ghost predicate ParentsFirst(view: Path, dirs: seq<Path>) {
    if dirs == [] then true else
      var front, d := dirs[..|dirs| - 1], dirs[|dirs| - 1];
      ParentsFirst(view, front) && CanFollow(view, front, d)
  }

  ghost predicate CanFollow(view: Path, made: seq<Path>, d: Path) {
    view < d && d !in made && (DirectlyIn(d, view) || d[..|d| - 1] in made)
  }

  lemma ParentsFirstPush(view: Path, dirs: seq<Path>, d: Path)
    requires ParentsFirst(view, dirs) && CanFollow(view, dirs, d)
    ensures ParentsFirst(view, dirs + [d])
  {
    assert (dirs + [d])[..|dirs|] == dirs;
  }

  /** No directory comes twice. */
  lemma {:induction false} ParentsFirstDistinct(view: Path, dirs: seq<Path>, i: nat, j: nat)
    requires ParentsFirst(view, dirs) && i < j < |dirs|
    ensures dirs[i] != dirs[j]
  {
    var front := dirs[..|dirs| - 1];
    if j < |front| {
      ParentsFirstDistinct(view, front, i, j);
    } else {
      assert dirs[i] in front;
    }
  }

  ghost predicate OnChain(view: Path, mountpoint: Path, n: nat, d: Path) {
    view < d <= mountpoint && |d| <= n
  }

  /** The chain from the view down to one mountpoint. */
  method AddChain(view: Path, mountpoint: Path, dirs: seq<Path>) returns (dirs': seq<Path>)
    requires view <= mountpoint && ParentsFirst(view, dirs)
    ensures ParentsFirst(view, dirs')
    ensures forall d :: d in dirs' <==> d in dirs || OnChain(view, mountpoint, |mountpoint|, d)
  {
    dirs' := dirs;
    var dir := view;
    for n := |view| to |mountpoint|
      invariant dir == mountpoint[..n]
      invariant ParentsFirst(view, dirs')
      invariant forall d :: d in dirs' <==> d in dirs || OnChain(view, mountpoint, n, d)
    {
      var parent := dir;
      dir := dir + [mountpoint[n]];
      assert dir == mountpoint[..n + 1] && dir[..|dir| - 1] == parent;
      forall d
        ensures OnChain(view, mountpoint, n + 1, d) <==> OnChain(view, mountpoint, n, d) || d == dir
      {
        assert d <= mountpoint && |d| == n + 1 ==> d == mountpoint[..n + 1];
      }
      if dir !in dirs' {
        ParentsFirstPush(view, dirs', dir);
        dirs' := dirs' + [dir];
      }
    }
  }

  /** `view_dirs`. */
  method ViewDirs(r: Redirects) returns (dirs: seq<Path>)
    ensures ParentsFirst(r.view, dirs)
    ensures forall d :: d in dirs <==> Needed(r, d)
  {
    dirs := [];
    for i := 0 to |r.pairs|
      invariant ParentsFirst(r.view, dirs)
      invariant forall d :: d in dirs <==> NeededByPair(r, i, d)
    {
      if InView(r, i) && !Nested(r, i) {
        dirs := AddChain(r.view, r.pairs[i].mountpoint, dirs);
      }
    }
    for k := 0 to |r.keep|
      invariant ParentsFirst(r.view, dirs)
      invariant forall d :: d in dirs <==> NeededByPair(r, |r.pairs|, d) || NeededByKeep(r, k, d)
    {
      var d := r.keep[k];
      assert r.keep[..k + 1] == r.keep[..k] + [d];
      if DirectlyIn(d, r.view) && d !in dirs {
        ParentsFirstPush(r.view, dirs, d);
        dirs := dirs + [d];
      }
    }
    assert r.keep[..|r.keep|] == r.keep;
  }

  /** `mkdir` of each in turn, in an empty tmpfs over the view: it needs the parent there
      and the name free. */
  function Mkdirs(view: Path, dirs: seq<Path>): Option<set<Path>> {
    if dirs == [] then Some({view})
    else
      var d := dirs[|dirs| - 1];
      match Mkdirs(view, dirs[..|dirs| - 1])
      case None => None
      case Some(made) => if d != [] && d[..|d| - 1] in made && d !in made then Some(made + {d}) else None
  }

  /** Every mkdir of such a list succeeds. */
  lemma {:induction false} MkdirsSucceed(view: Path, dirs: seq<Path>)
    requires ParentsFirst(view, dirs)
    ensures Mkdirs(view, dirs).Some?
    ensures forall d :: d in Mkdirs(view, dirs).value <==> d == view || d in dirs
  {
    if dirs != [] {
      var front, d := dirs[..|dirs| - 1], dirs[|dirs| - 1];
      MkdirsSucceed(view, front);
      assert dirs == front + [d];
    }
  }

  // ----- where a path leads -----

  /** A directory of the tmpfs, or of the host. */
  datatype Place = Tmpfs(path: Path) | Host(path: Path)

  /** The last pair bound so far whose mountpoint the path runs through: it covers whatever
      was bound there or below before it. */
  function Cover(pairs: seq<Pair>, p: Path): (c: Option<nat>)
    ensures c.Some? ==> c.value < |pairs| && pairs[c.value].mountpoint <= p
  {
    if pairs == [] then None
    else if pairs[|pairs| - 1].mountpoint <= p then Some(|pairs| - 1)
    else Cover(pairs[..|pairs| - 1], p)
  }

  lemma {:induction false} CoverIsLast(pairs: seq<Pair>, p: Path, k: nat)
    requires k < |pairs| && pairs[k].mountpoint <= p
    ensures Cover(pairs, p).Some? && k <= Cover(pairs, p).value
  {
    if k < |pairs| - 1 {
      CoverIsLast(pairs[..|pairs| - 1], p, k);
    }
  }

  /** Where a path leads once `pairs` are bound over the covered view. A source is opened
      before the view is covered, so it is a directory of the host. */
  function Resolve(view: Path, pairs: seq<Pair>, p: Path): Place {
    match Cover(pairs, p)
    case Some(j) => Host(pairs[j].source + p[|pairs[j].mountpoint|..])
    case None => if view <= p then Tmpfs(p) else Host(p)
  }

  // ----- the planner's view of a mountpoint -----

  function ByteLength(p: Path): nat {
    if p == [] then 0 else ByteLength(p[..|p| - 1]) + 1 + |p[|p| - 1]|
  }

  lemma {:induction false} LongerInside(p: Path, q: Path)
    requires p < q
    ensures ByteLength(p) < ByteLength(q)
    decreases |q|
  {
    if p == q[..|q| - 1] {
    } else {
      LongerInside(p, q[..|q| - 1]);
    }
  }

  /** The earlier pair with the longest mountpoint strictly around this one, the last of
      equals (`max_by_key`). */
  function Innermost(r: Redirects, index: nat, n: nat): (best: Option<nat>)
    requires n <= index < |r.pairs|
    ensures best.Some? ==> best.value < n && Inside(r.pairs[index].mountpoint, r.pairs[best.value].mountpoint)
  {
    if n == 0 then None
    else
      var best := Innermost(r, index, n - 1);
      if !Inside(r.pairs[index].mountpoint, r.pairs[n - 1].mountpoint) then best
      else if best.Some? && ByteLength(r.pairs[n - 1].mountpoint) < ByteLength(r.pairs[best.value].mountpoint) then best
      else Some(n - 1)
  }

  lemma {:induction false} InnermostIsLongest(r: Redirects, index: nat, n: nat, k: nat)
    requires k < n <= index < |r.pairs| && Inside(r.pairs[index].mountpoint, r.pairs[k].mountpoint)
    ensures Innermost(r, index, n).Some?
    ensures
      var best := Innermost(r, index, n).value;
      && ByteLength(r.pairs[k].mountpoint) <= ByteLength(r.pairs[best].mountpoint)
      && (best < k ==> ByteLength(r.pairs[k].mountpoint) < ByteLength(r.pairs[best].mountpoint))
  {
    if k < n - 1 {
      InnermostIsLongest(r, index, n - 1, k);
    }
  }

  lemma NestedHasInnermost(r: Redirects, index: nat)
    requires index < |r.pairs|
    ensures Nested(r, index) <==> Innermost(r, index, index).Some?
  {
    if Nested(r, index) {
      var k :| 0 <= k < index && Inside(r.pairs[index].mountpoint, r.pairs[k].mountpoint);
      InnermostIsLongest(r, index, index, k);
    }
  }

  predicate InIdentity(r: Redirects, index: nat)
    requires index < |r.pairs|
  {
    var best := Innermost(r, index, index);
    best.Some? && r.pairs[best.value].mountpoint == r.pairs[best.value].source
  }

  /** Made on the host by `create_mount_targets`. */
  predicate MadeOnHost(r: Redirects, index: nat)
    requires index < |r.pairs|
  {
    InIdentity(r, index) || (!InView(r, index) && !Nested(r, index))
  }

  /** Made in the tmpfs. */
  predicate MadeInTmpfs(r: Redirects, index: nat)
    requires index < |r.pairs|
  {
    InView(r, index) && !Nested(r, index) && r.pairs[index].mountpoint != r.view
  }

  /** Inside the source of the innermost earlier pair, which is not bound onto itself: the
      caller makes the directory there. */
  predicate InSource(r: Redirects, index: nat)
    requires index < |r.pairs|
  {
    Nested(r, index) && !InIdentity(r, index)
  }

  /** Every mountpoint but the view itself is in exactly one class. */
  lemma ExactlyOneClass(r: Redirects, index: nat)
    requires index < |r.pairs|
    ensures !(MadeOnHost(r, index) && MadeInTmpfs(r, index))
    ensures !(MadeOnHost(r, index) && InSource(r, index))
    ensures !(MadeInTmpfs(r, index) && InSource(r, index))
    ensures r.pairs[index].mountpoint != r.view ==>
              MadeOnHost(r, index) || MadeInTmpfs(r, index) || InSource(r, index)
  {
    NestedHasInnermost(r, index);
  }

  /** No mountpoint is a proper ancestor of an earlier one. */
  ghost predicate InOrder(r: Redirects) {
    forall i, j :: 0 <= i < j < |r.pairs| ==> !Inside(r.pairs[i].mountpoint, r.pairs[j].mountpoint)
  }

  /** The same mountpoint was bound before. */
  predicate Rebinds(r: Redirects, index: nat)
    requires index < |r.pairs|
  {
    exists k :: 0 <= k < index && r.pairs[k].mountpoint == r.pairs[index].mountpoint
  }

  /** A pair around this mountpoint was bound inside the later pair `c`, which covers it. */
  predicate Overlaid(r: Redirects, index: nat, c: nat)
    requires c <= index < |r.pairs|
  {
    exists j :: 0 <= j < c && Inside(r.pairs[j].mountpoint, r.pairs[c].mountpoint)
                && Inside(r.pairs[index].mountpoint, r.pairs[j].mountpoint)
  }

  /** Where the bind of a mountpoint really leads, and when that is where the planner takes it
      to be: the planner looks at the innermost earlier pair, the kernel at the last one, and
      they are the same exactly when none lies between them. */
  lemma PlannerAgrees(r: Redirects, index: nat)
    requires index < |r.pairs|
    ensures
      match Cover(r.pairs[..index], r.pairs[index].mountpoint)
      case None => !Nested(r, index) && !Rebinds(r, index)
      case Some(c) =>
        if r.pairs[c].mountpoint == r.pairs[index].mountpoint then Rebinds(r, index)
        else Nested(r, index) && (Innermost(r, index, index) == Some(c) <==> !Overlaid(r, index, c))
  {
    var m, earlier := r.pairs[index].mountpoint, r.pairs[..index];
    match Cover(earlier, m)
    case None =>
      forall k | 0 <= k < index
        ensures !(r.pairs[k].mountpoint <= m)
      {
        if earlier[k].mountpoint <= m {
          CoverIsLast(earlier, m, k);
        }
      }
    case Some(c) =>
      assert earlier[c] == r.pairs[c];
      if r.pairs[c].mountpoint != m {
        NestedHasInnermost(r, index);
        CoverIsInnermostIff(r, index, c);
      }
  }

  lemma CoverIsInnermostIff(r: Redirects, index: nat, c: nat)
    requires index < |r.pairs| && c < index
    requires Cover(r.pairs[..index], r.pairs[index].mountpoint) == Some(c)
    requires Inside(r.pairs[index].mountpoint, r.pairs[c].mountpoint)
    ensures Innermost(r, index, index) == Some(c) <==> !Overlaid(r, index, c)
  {
    InnermostIsLongest(r, index, index, c);
    var best := Innermost(r, index, index).value;
    if best == c {
      forall j | 0 <= j < c && Inside(r.pairs[j].mountpoint, r.pairs[c].mountpoint)
                 && Inside(r.pairs[index].mountpoint, r.pairs[j].mountpoint)
        ensures false
      {
        InnermostIsLongest(r, index, index, j);
        LongerInside(r.pairs[c].mountpoint, r.pairs[j].mountpoint);
      }
    } else {
      BestIsBefore(r, index, c, best);
      LongerIsInside(r.pairs[c].mountpoint, r.pairs[best].mountpoint, r.pairs[index].mountpoint);
    }
  }

  lemma BestIsBefore(r: Redirects, index: nat, c: nat, best: nat)
    requires index < |r.pairs| && best < index
    requires Cover(r.pairs[..index], r.pairs[index].mountpoint) == Some(c)
    requires r.pairs[best].mountpoint <= r.pairs[index].mountpoint
    ensures best <= c
  {
    assert r.pairs[..index][best] == r.pairs[best];
    CoverIsLast(r.pairs[..index], r.pairs[index].mountpoint, best);
  }

  /** Of two prefixes of one path, the one longer in bytes is inside the other. */
  lemma LongerIsInside(a: Path, b: Path, p: Path)
    requires a <= p && b <= p && ByteLength(a) < ByteLength(b)
    ensures Inside(b, a)
  {
    if |b| < |a| {
      assert b == a[..|b|];
      LongerInside(b, a);
    } else {
      assert a == b[..|a|];
    }
  }

  /** In that order nothing is overlaid, and a mountpoint bound before is what its bind finds. */
  lemma InOrderAgrees(r: Redirects, index: nat, c: nat)
    requires InOrder(r) && index < |r.pairs| && Cover(r.pairs[..index], r.pairs[index].mountpoint) == Some(c)
    ensures c < index && !Overlaid(r, index, c)
    ensures Rebinds(r, index) ==> r.pairs[c].mountpoint == r.pairs[index].mountpoint
  {
    var m := r.pairs[index].mountpoint;
    assert r.pairs[..index][c] == r.pairs[c];
    if Rebinds(r, index) {
      var k :| 0 <= k < index && r.pairs[k].mountpoint == m;
      BestIsBefore(r, index, c, k);
    }
  }

  // ----- making the targets, and binding -----

  function CreateDirAll(host: set<Path>, p: Path): (host': set<Path>)
    ensures p in host' && host <= host'
    ensures forall d :: d in host' <==> d in host || d <= p
  {
    assert p[..|p|] == p && forall d :: d <= p ==> d == p[..|d|];
    host + set k | 0 <= k <= |p| :: p[..k]
  }

  /** A directory on the way to a mountpoint that belongs on the host. */
  ghost predicate Wanted(r: Redirects, d: Path) {
    exists i {:trigger MadeOnHost(r, i)} :: 0 <= i < |r.pairs| && MadeOnHost(r, i) && d <= r.pairs[i].mountpoint
  }

  ghost predicate HostTargetsMade(r: Redirects, n: nat, host: set<Path>)
    requires n <= |r.pairs|
  {
    forall i {:trigger MadeOnHost(r, i)} :: 0 <= i < n && MadeOnHost(r, i) ==> r.pairs[i].mountpoint in host
  }

  /** `create_mount_targets`, on a host that may refuse a new directory. */
  method CreateMountTargets(r: Redirects, host: set<Path>, refused: set<Path>) returns (ok: bool, host': set<Path>)
    ensures host <= host'
    ensures ok ==> HostTargetsMade(r, |r.pairs|, host')
    ensures !ok ==> exists p :: p in refused && Wanted(r, p)
    ensures forall d :: d in host' ==> d in host || Wanted(r, d)
  {
    ok, host' := true, host;
    for i := 0 to |r.pairs|
      invariant host <= host'
      invariant HostTargetsMade(r, i, host')
      invariant forall d :: d in host' ==> d in host || Wanted(r, d)
    {
      var mountpoint := r.pairs[i].mountpoint;
      if !InIdentity(r, i) && (InView(r, i) || Nested(r, i)) {
        continue;
      }
      assert MadeOnHost(r, i);
      if mountpoint !in host' {
        if mountpoint in refused {
          return false, host';
        }
        host' := CreateDirAll(host', mountpoint);
      }
    }
  }

  predicate There(host: set<Path>, tmpfs: set<Path>, place: Place) {
    match place
    case Host(p) => p in host
    case Tmpfs(p) => p in tmpfs
  }

  /** The bind of the pair at `index` finds its mountpoint. */
  predicate BindFinds(r: Redirects, host: set<Path>, tmpfs: set<Path>, index: nat)
    requires index < |r.pairs|
  {
    There(host, tmpfs, Resolve(r.view, r.pairs[..index], r.pairs[index].mountpoint))
  }

  /** Where the caller makes the directory of a mountpoint inside a source. */
  function Backing(r: Redirects, index: nat): Path
    requires index < |r.pairs| && Nested(r, index)
  {
    NestedHasInnermost(r, index);
    var best := Innermost(r, index, index).value;
    r.pairs[best].source + r.pairs[index].mountpoint[|r.pairs[best].mountpoint|..]
  }

  /** What the plan leaves for the binds: every source is there, `create_mount_targets` has
      made its directories, and the tmpfs holds the view's. */
  ghost predicate Prepared(r: Redirects, host: set<Path>, tmpfs: set<Path>) {
    && (forall i :: 0 <= i < |r.pairs| ==> r.pairs[i].source in host)
    && HostTargetsMade(r, |r.pairs|, host)
    && (forall d :: d in tmpfs <==> d == r.view || Needed(r, d))
  }

  lemma FindsUncovered(r: Redirects, host: set<Path>, tmpfs: set<Path>, index: nat)
    requires Prepared(r, host, tmpfs) && index < |r.pairs| && !Nested(r, index)
    requires Cover(r.pairs[..index], r.pairs[index].mountpoint).None?
    ensures BindFinds(r, host, tmpfs, index)
  {
    var m := r.pairs[index].mountpoint;
    if InView(r, index) {
      assert m == r.view || NeededByPair(r, |r.pairs|, m);
    } else {
      assert MadeOnHost(r, index);
    }
  }

  lemma FindsUnder(r: Redirects, host: set<Path>, tmpfs: set<Path>, index: nat, j: nat)
    requires j < index < |r.pairs|
    requires Cover(r.pairs[..index], r.pairs[index].mountpoint) == Some(j)
    ensures r.pairs[j].mountpoint <= r.pairs[index].mountpoint
    ensures BindFinds(r, host, tmpfs, index) <==>
              r.pairs[j].source + r.pairs[index].mountpoint[|r.pairs[j].mountpoint|..] in host
  {
    assert r.pairs[..index][j] == r.pairs[j];
  }

  lemma FindsNested(r: Redirects, host: set<Path>, tmpfs: set<Path>, index: nat, j: nat)
    requires Prepared(r, host, tmpfs) && j < index < |r.pairs| && Nested(r, index)
    requires Cover(r.pairs[..index], r.pairs[index].mountpoint) == Some(j) && Innermost(r, index, index) == Some(j)
    ensures BindFinds(r, host, tmpfs, index) <==> (InSource(r, index) ==> Backing(r, index) in host)
  {
    FindsUnder(r, host, tmpfs, index, j);
    if InIdentity(r, index) {
      var m, around := r.pairs[index].mountpoint, r.pairs[j].mountpoint;
      assert around + m[|around|..] == m;
      assert MadeOnHost(r, index);
    }
  }

  /** With the mountpoints in order, every bind finds its mountpoint, except one inside a
      source whose directory the caller did not make. */
  lemma BindsFind(r: Redirects, host: set<Path>, tmpfs: set<Path>, index: nat)
    requires InOrder(r) && Prepared(r, host, tmpfs) && index < |r.pairs|
    ensures BindFinds(r, host, tmpfs, index) <==>
              (InSource(r, index) && !Rebinds(r, index) ==> Backing(r, index) in host)
  {
    PlannerAgrees(r, index);
    match Cover(r.pairs[..index], r.pairs[index].mountpoint)
    case None => FindsUncovered(r, host, tmpfs, index);
    case Some(j) =>
      InOrderAgrees(r, index, j);
      if Rebinds(r, index) {
        FindsUnder(r, host, tmpfs, index, j);
        var m := r.pairs[index].mountpoint;
        assert r.pairs[j].source + m[|m|..] == r.pairs[j].source;
      } else {
        FindsNested(r, host, tmpfs, index, j);
      }
  }

  /** The caller made every directory that is left to it. */
  ghost predicate Backed(r: Redirects, n: nat, host: set<Path>)
    requires n <= |r.pairs|
  {
    forall i {:trigger InSource(r, i)} ::
      0 <= i < n && InSource(r, i) && !Rebinds(r, i) ==> Backing(r, i) in host
  }

  ghost predicate AllFind(r: Redirects, n: nat, host: set<Path>, tmpfs: set<Path>)
    requires n <= |r.pairs|
  {
    forall i {:trigger BindFinds(r, host, tmpfs, i)} :: 0 <= i < n ==> BindFinds(r, host, tmpfs, i)
  }

  /** So a prepared plan works exactly when the caller did its part. */
  lemma PlanWorks(r: Redirects, host: set<Path>, tmpfs: set<Path>)
    requires InOrder(r) && Prepared(r, host, tmpfs)
    ensures AllFind(r, |r.pairs|, host, tmpfs) <==> Backed(r, |r.pairs|, host)
  {
    forall i | 0 <= i < |r.pairs|
      ensures BindFinds(r, host, tmpfs, i) <==> (InSource(r, i) && !Rebinds(r, i) ==> Backing(r, i) in host)
    {
      BindsFind(r, host, tmpfs, i);
    }
  }

  /** The bind loop: it stops at the first mountpoint that is not there. */
  method BindAll(r: Redirects, host: set<Path>, tmpfs: set<Path>) returns (ok: bool)
    ensures ok <==> AllFind(r, |r.pairs|, host, tmpfs)
  {
    for i := 0 to |r.pairs|
      invariant AllFind(r, i, host, tmpfs)
    {
      if !BindFinds(r, host, tmpfs, i) {
        return false;
      }
    }
    return true;
  }

  /** Overlaid, they disagree: a mountpoint is made on the host inside a directory bound onto
      itself, but its bind leads into a pair bound later around both. No plan made for a clone
      has this shape (`ClonePlan`). */
  lemma OutOfOrderMisplans()
    ensures
      var view: Path := ["v"];
      var pairs := [Pair(["v", "a", "b"], ["v", "a", "b"]), Pair(["v", "a"], ["y"]), Pair(["v", "a", "b", "c"], ["z"])];
      var r := Redirects(view, pairs, []);
      && !InOrder(r) && MadeOnHost(r, 2)
      && Resolve(view, pairs[..2], pairs[2].mountpoint) == Host(["y", "b", "c"])
  {
    var view: Path := ["v"];
    var pairs := [Pair(["v", "a", "b"], ["v", "a", "b"]), Pair(["v", "a"], ["y"]), Pair(["v", "a", "b", "c"], ["z"])];
    var r := Redirects(view, pairs, []);
    assert Inside(pairs[0].mountpoint, pairs[1].mountpoint);
    LongerInside(pairs[1].mountpoint, pairs[0].mountpoint);
    assert Inside(pairs[2].mountpoint, pairs[0].mountpoint) && Inside(pairs[2].mountpoint, pairs[1].mountpoint);
    assert Innermost(r, 2, 2) == Some(0);
    assert pairs[..2][1] == pairs[1];
    assert Cover(pairs[..2], pairs[2].mountpoint) == Some(1);
    assert pairs[2].mountpoint[2..] == ["b", "c"];
  }
}
