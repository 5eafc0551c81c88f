/** The binds of a restored clone's mount namespace (`clone_source_dirs`,
    `build_clone_mount_redirects` and `clone_mount_view`, src/commands/common.rs:2762-2770,
    3105-3162, 3204-3260): which directories of the source VMs are redirected where, and what
    else of the view is bound so that it stays reachable. */
module ClonePlan {
  import opened Resources
  import opened MountView

  // ----- where a list of pairs leads -----

  /** Where the last pair that covers `p` leads. */
  function Lead(pairs: seq<Pair>, p: Path): Option<Path> {
    match Cover(pairs, p)
    case None => None
    case Some(j) => Some(pairs[j].source + p[|pairs[j].mountpoint|..])
  }

  predicate Covers(pairs: seq<Pair>, p: Path) {
    exists i :: 0 <= i < |pairs| && pairs[i].mountpoint <= p
  }

  lemma LeadPush(pairs: seq<Pair>, x: Pair, p: Path)
    ensures Lead(pairs + [x], p) ==
            if x.mountpoint <= p then Some(x.source + p[|x.mountpoint|..]) else Lead(pairs, p)
  {
    assert (pairs + [x])[..|pairs|] == pairs;
    if Cover(pairs, p).Some? {
      assert (pairs + [x])[Cover(pairs, p).value] == pairs[Cover(pairs, p).value];
    }
  }

  lemma {:induction false} LeadConcat(a: seq<Pair>, b: seq<Pair>, p: Path)
    ensures Lead(a + b, p) == if Lead(b, p).Some? then Lead(b, p) else Lead(a, p)
  {
    if b == [] {
      assert a + b == a;
    } else {
      var front, x := b[..|b| - 1], b[|b| - 1];
      assert b == front + [x] && a + b == (a + front) + [x];
      LeadConcat(a, front, p);
      LeadPush(a + front, x, p);
      LeadPush(front, x, p);
    }
  }

  lemma LeadsIffCovers(pairs: seq<Pair>, p: Path)
    ensures Lead(pairs, p).Some? <==> Covers(pairs, p)
  {
    if Covers(pairs, p) {
      var i :| 0 <= i < |pairs| && pairs[i].mountpoint <= p;
      CoverIsLast(pairs, p, i);
    }
  }

  lemma Comparable(a: Path, b: Path, p: Path)
    requires a <= p && b <= p
    ensures a <= b || b < a
  {
    if |a| <= |b| {
      assert a == b[..|a|];
    } else {
      assert b == a[..|b|];
    }
  }

  // ----- the redirects -----

  /** Runtime directories of different VMs: different directories directly in the view. */
  predicate VmDirs(view: Path, dirs: seq<Path>) {
    && (forall i :: 0 <= i < |dirs| ==> DirectlyIn(dirs[i], view))
    && (forall i, j :: 0 <= i < j < |dirs| ==> dirs[i] != dirs[j])
  }

  /** The VM a snapshot's lineage started from, and the VM it was taken of. */
  function CloneSourceDirs(view: Path, original: string, snapshot: Option<string>): (dirs: seq<Path>)
    ensures VmDirs(view, dirs) && dirs != []
    ensures view + [original] in dirs && (snapshot.Some? ==> view + [snapshot.value] in dirs)
  {
    var first := view + [original];
    if snapshot.Some? && snapshot.value != original then
      var second := view + [snapshot.value];
      assert first[|view|] != second[|view|];
      [first, second]
    else [first]
  }

  predicate Nests(a: Path, b: Path) {
    a != b && (a <= b || b <= a)
  }

  predicate Apart(dirs: seq<Path>, src: Option<Path>) {
    src.Some? ==> forall i :: 0 <= i < |dirs| ==> !Nests(dirs[i], src.value)
  }

  /** A VM directory goes to the clone's; one that also held the source's vsock socket, if the
      clone's is elsewhere, goes there, with the clone's disks bound back into it. */
  function PairsFor(dir: Path, src: Option<Path>, clone: Path, target: Path): seq<Pair> {
    if src == Some(dir) && target != clone
    then [Pair(dir, target), Pair(dir + ["disks"], clone + ["disks"])]
    else [Pair(dir, clone)]
  }

  function DiskPairs(dirs: seq<Path>, src: Option<Path>, clone: Path, target: Path): seq<Pair> {
    if dirs == [] then []
    else DiskPairs(dirs[..|dirs| - 1], src, clone, target) + PairsFor(dirs[|dirs| - 1], src, clone, target)
  }

  function VsockPairs(dirs: seq<Path>, src: Option<Path>, target: Path): seq<Pair> {
    if src.Some? && src.value !in dirs && src.value != target then [Pair(src.value, target)] else []
  }

  function RedirectPairs(dirs: seq<Path>, src: Option<Path>, clone: Path, target: Path): seq<Pair> {
    DiskPairs(dirs, src, clone, target) + VsockPairs(dirs, src, target)
  }

  /** The source's vsock directory, when the load does not override the socket's path. */
  function SourceDir(socket: Path, redirected: bool): Option<Path> {
    if redirected && socket != [] then Some(socket[..|socket| - 1]) else None
  }

  /** `build_clone_mount_redirects`: refused exactly when the socket's directory and a disk
      directory lie one inside the other. */
  method BuildRedirects(dirs: seq<Path>, socket: Path, clone: Path, target: Path, redirected: bool)
    returns (r: Option<seq<Pair>>)
    ensures r.None? <==> redirected && (socket == [] || !Apart(dirs, SourceDir(socket, redirected)))
    ensures r.Some? ==> r.value == RedirectPairs(dirs, SourceDir(socket, redirected), clone, target)
  {
    var src := SourceDir(socket, redirected);
    if redirected {
      if src.None? {
        return None;
      }
      for i := 0 to |dirs|
        invariant forall k :: 0 <= k < i ==> !Nests(dirs[k], src.value)
      {
        if Nests(dirs[i], src.value) {
          return None;
        }
      }
    }
    var pairs := [];
    for i := 0 to |dirs|
      invariant pairs == DiskPairs(dirs[..i], src, clone, target)
    {
      assert dirs[..i + 1][..i] == dirs[..i];
      pairs := pairs + PairsFor(dirs[i], src, clone, target);
    }
    assert dirs[..|dirs|] == dirs;
    if src.Some? && src.value !in dirs && src.value != target {
      pairs := pairs + [Pair(src.value, target)];
    }
    return Some(pairs);
  }

  // ----- the view around them -----

  predicate Holds(pairs: seq<Pair>, dir: Path) {
    exists i :: 0 <= i < |pairs| && Inside(pairs[i].mountpoint, dir)
  }

  predicate Holder(pairs: seq<Pair>, dir: Path) {
    !Covers(pairs, dir) && Holds(pairs, dir)
  }

  /** Directories of the view that hold a redirect's mountpoint, bound onto themselves first. */
  function Holders(pairs: seq<Pair>, entries: seq<Path>): seq<Pair> {
    if entries == [] then []
    else
      var dir := entries[|entries| - 1];
      Holders(pairs, entries[..|entries| - 1]) + if Holder(pairs, dir) then [Pair(dir, dir)] else []
  }

  /** A directory of the clone's own, bound onto itself unless it is outside the view or under a
      pair; refused if a pair is inside it. */
  function AddOwn(view: Path, pairs: seq<Pair>, own: Path): Option<seq<Pair>> {
    if !(view <= own) || Covers(pairs, own) then Some(pairs)
    else if Holds(pairs, own) then None
    else Some(pairs + [Pair(own, own)])
  }

  function Uncovered(pairs: seq<Pair>, entries: seq<Path>): seq<Path> {
    if entries == [] then []
    else
      var dir := entries[|entries| - 1];
      Uncovered(pairs, entries[..|entries| - 1]) + if Covers(pairs, dir) then [] else [dir]
  }

  function Planned(view: Path, pairs: seq<Pair>, clone: Path, target: Path, entries: seq<Path>): Option<Redirects> {
    match AddOwn(view, Holders(pairs, entries) + pairs, clone)
    case None => None
    case Some(mid) =>
      match AddOwn(view, mid, target)
      case None => None
      case Some(all) => Some(Redirects(view, all, Uncovered(all, entries)))
  }

  /** `clone_mount_view`. */
  method CloneMountView(view: Path, pairs: seq<Pair>, clone: Path, target: Path, entries: seq<Path>)
    returns (r: Option<Redirects>)
    ensures r == Planned(view, pairs, clone, target, entries)
  {
    var first := [];
    for i := 0 to |entries|
      invariant first == Holders(pairs, entries[..i])
    {
      assert entries[..i + 1][..i] == entries[..i];
      if !Covers(pairs, entries[i]) && Holds(pairs, entries[i]) {
        first := first + [Pair(entries[i], entries[i])];
      }
    }
    assert entries[..|entries|] == entries;
    var all := first + pairs;
    var owns := [clone, target];
    ghost var mid := AddOwn(view, all, clone);
    for i := 0 to 2
      invariant i == 0 ==> all == first + pairs
      invariant i >= 1 ==> mid.Some?
      invariant i == 1 ==> all == mid.value
      invariant i == 2 ==> AddOwn(view, mid.value, target) == Some(all)
    {
      var own := owns[i];
      if !(view <= own) || Covers(all, own) {
        continue;
      }
      if Holds(all, own) {
        return None;
      }
      all := all + [Pair(own, own)];
    }
    var keep := [];
    for i := 0 to |entries|
      invariant keep == Uncovered(all, entries[..i])
    {
      assert entries[..i + 1][..i] == entries[..i];
      if !Covers(all, entries[i]) {
        keep := keep + [entries[i]];
      }
    }
    return Some(Redirects(view, all, keep));
  }

  lemma {:induction false} HoldersAre(pairs: seq<Pair>, entries: seq<Path>, x: Pair)
    ensures x in Holders(pairs, entries) <==> x.mountpoint == x.source && x.source in entries && Holder(pairs, x.source)
  {
    if entries != [] {
      HoldersAre(pairs, entries[..|entries| - 1], x);
      assert entries == entries[..|entries| - 1] + [entries[|entries| - 1]];
    }
  }

  lemma {:induction false} UncoveredAre(pairs: seq<Pair>, entries: seq<Path>, dir: Path)
    ensures dir in Uncovered(pairs, entries) <==> dir in entries && !Covers(pairs, dir)
  {
    if entries != [] {
      UncoveredAre(pairs, entries[..|entries| - 1], dir);
      assert entries == entries[..|entries| - 1] + [entries[|entries| - 1]];
    }
  }

  // ----- nothing else undoes a redirect -----

  /** Kept directories that still exist as the VMM starts: any of them, each bound onto itself. */
  predicate KeptOf(r: Redirects, kept: seq<Pair>) {
    forall i :: 0 <= i < |kept| ==> kept[i].mountpoint == kept[i].source && kept[i].source in r.keep
  }

  lemma OwnKeepsLead(view: Path, pairs: seq<Pair>, own: Path, p: Path)
    requires AddOwn(view, pairs, own).Some? && Covers(pairs, p)
    ensures Lead(AddOwn(view, pairs, own).value, p) == Lead(pairs, p)
    ensures Covers(AddOwn(view, pairs, own).value, p)
  {
    var i :| 0 <= i < |pairs| && pairs[i].mountpoint <= p;
    LeadPush(pairs, Pair(own, own), p);
    assert (pairs + [Pair(own, own)])[i] == pairs[i];
    if own <= p {
      Comparable(pairs[i].mountpoint, own, p);
    }
  }

  /** A kept directory is neither under nor around a redirect's mountpoint. */
  lemma KeptIsApart(view: Path, pairs: seq<Pair>, clone: Path, target: Path, entries: seq<Path>, r: Redirects,
                    dir: Path, p: Path)
    requires Planned(view, pairs, clone, target, entries) == Some(r) && dir in r.keep && Covers(pairs, p)
    ensures !(dir <= p)
  {
    UncoveredAre(r.pairs, entries, dir);
    AllIncludes(view, pairs, clone, target, entries, r);
    var i :| 0 <= i < |pairs| && pairs[i].mountpoint <= p;
    assert pairs[i] in r.pairs;
    HoldersAre(pairs, entries, Pair(dir, dir));
    if dir <= p {
      Comparable(pairs[i].mountpoint, dir, p);
      if k :| 0 <= k < |pairs| && pairs[k].mountpoint <= dir {
        assert pairs[k] in r.pairs;
        CoveredBy(r.pairs, pairs[k], dir);
      } else {
        CoveredBy(r.pairs, Pair(dir, dir), dir);
      }
    }
  }

  lemma CoveredBy(pairs: seq<Pair>, x: Pair, p: Path)
    requires x in pairs && x.mountpoint <= p
    ensures Covers(pairs, p)
  {
  }

  lemma AllIncludes(view: Path, pairs: seq<Pair>, clone: Path, target: Path, entries: seq<Path>, r: Redirects)
    requires Planned(view, pairs, clone, target, entries) == Some(r)
    ensures forall x :: x in pairs || x in Holders(pairs, entries) ==> x in r.pairs
    ensures forall x :: x in r.pairs ==>
              x in pairs || x in Holders(pairs, entries) || x == Pair(clone, clone) || x == Pair(target, target)
  {
  }

  lemma {:induction false} KeptKeepsLead(view: Path, pairs: seq<Pair>, clone: Path, target: Path, entries: seq<Path>,
                                         r: Redirects, kept: seq<Pair>, p: Path)
    requires Planned(view, pairs, clone, target, entries) == Some(r) && KeptOf(r, kept) && Covers(pairs, p)
    ensures Lead(r.pairs + kept, p) == Lead(r.pairs, p)
    decreases |kept|
  {
    if kept == [] {
      assert r.pairs + kept == r.pairs;
    } else {
      var front, x := kept[..|kept| - 1], kept[|kept| - 1];
      KeptKeepsLead(view, pairs, clone, target, entries, r, front, p);
      KeptIsApart(view, pairs, clone, target, entries, r, x.source, p);
      LeadPush(r.pairs + front, x, p);
      assert r.pairs + kept == r.pairs + front + [x];
    }
  }

  /** Whatever is bound around the redirects, a path under one leads where the redirects alone
      would lead it. */
  lemma RedirectsStand(view: Path, pairs: seq<Pair>, clone: Path, target: Path, entries: seq<Path>,
                       r: Redirects, kept: seq<Pair>, p: Path)
    requires Planned(view, pairs, clone, target, entries) == Some(r) && KeptOf(r, kept) && Covers(pairs, p)
    ensures Lead(r.pairs + kept, p) == Lead(pairs, p)
  {
    var first := Holders(pairs, entries) + pairs;
    LeadsIffCovers(pairs, p);
    LeadConcat(Holders(pairs, entries), pairs, p);
    LeadsIffCovers(first, p);
    OwnKeepsLead(view, first, clone, p);
    OwnKeepsLead(view, AddOwn(view, first, clone).value, target, p);
    KeptKeepsLead(view, pairs, clone, target, entries, r, kept, p);
  }

  // ----- what the clone opens -----

  /** Two directories directly in the view, and paths under them. */
  lemma Siblings(view: Path, a: Path, b: Path, p: Path)
    requires DirectlyIn(a, view) && DirectlyIn(b, view) && a <= p && b <= p
    ensures a == b
  {
    Comparable(a, b, p);
  }

  lemma {:induction false} DiskLeads(view: Path, dirs: seq<Path>, src: Option<Path>, clone: Path, target: Path,
                                     d: Path, rest: Path)
    requires VmDirs(view, dirs) && d in dirs
    ensures Lead(DiskPairs(dirs, src, clone, target), d + ["disks"] + rest) == Some(clone + ["disks"] + rest)
    decreases |dirs|
  {
    var p := d + ["disks"] + rest;
    var front, last := dirs[..|dirs| - 1], dirs[|dirs| - 1];
    var before, added := DiskPairs(front, src, clone, target), PairsFor(last, src, clone, target);
    LeadConcat(before, added, p);
    if last == d {
      PairsLead(d, src, clone, target, rest);
    } else {
      assert dirs == front + [last];
      DiskLeads(view, front, src, clone, target, d, rest);
      assert !(last <= p) by {
        if last <= p {
          Siblings(view, d, last, p);
        }
      }
      LeadsIffCovers(added, p);
    }
  }

  lemma PairsLead(d: Path, src: Option<Path>, clone: Path, target: Path, rest: Path)
    ensures Lead(PairsFor(d, src, clone, target), d + ["disks"] + rest) == Some(clone + ["disks"] + rest)
  {
    var p := d + ["disks"] + rest;
    assert p[|d|..] == ["disks"] + rest && p[|d + ["disks"]|..] == rest;
    if src == Some(d) && target != clone {
      LeadPush([Pair(d, target)], Pair(d + ["disks"], clone + ["disks"]), p);
      assert [Pair(d, target)] + [Pair(d + ["disks"], clone + ["disks"])] == PairsFor(d, src, clone, target);
    } else {
      LeadPush([], Pair(d, clone), p);
      assert [] + [Pair(d, clone)] == PairsFor(d, src, clone, target);
      assert clone + (["disks"] + rest) == clone + ["disks"] + rest;
    }
  }

  /** Every disk path of a source VM leads into the clone's own disks, whatever else is bound. */
  lemma DisksAreTheClones(view: Path, dirs: seq<Path>, src: Option<Path>, clone: Path, target: Path,
                          entries: seq<Path>, r: Redirects, kept: seq<Pair>, d: Path, rest: Path)
    requires VmDirs(view, dirs) && Apart(dirs, src) && d in dirs
    requires Planned(view, RedirectPairs(dirs, src, clone, target), clone, target, entries) == Some(r)
    requires KeptOf(r, kept)
    ensures Resolve(view, r.pairs + kept, d + ["disks"] + rest) == Host(clone + ["disks"] + rest)
  {
    var p, pairs := d + ["disks"] + rest, RedirectPairs(dirs, src, clone, target);
    DiskLeads(view, dirs, src, clone, target, d, rest);
    LeadConcat(DiskPairs(dirs, src, clone, target), VsockPairs(dirs, src, target), p);
    var vsock := VsockPairs(dirs, src, target);
    if vsock != [] && src.value <= p {
      Comparable(d, src.value, p);
    }
    LeadsIffCovers(vsock, p);
    LeadsIffCovers(pairs, p);
    RedirectsStand(view, pairs, clone, target, entries, r, kept, p);
  }

  /** No pair of another directory than the socket's own covers the socket. */
  lemma OthersMissTheSocket(e: Path, src: Path, clone: Path, target: Path, name: string)
    requires !Nests(e, src) && e != src
    ensures !Covers(PairsFor(e, Some(src), clone, target), src + [name])
  {
    if e <= src + [name] {
      Comparable(e, src, src + [name]);
    }
  }

  /** The socket is called what the clone's disks are bound back as. */
  predicate Clashes(dirs: seq<Path>, src: Path, clone: Path, target: Path, name: string) {
    name == "disks" && src in dirs && target != clone
  }

  lemma {:induction false} SocketLeads(dirs: seq<Path>, src: Path, clone: Path, target: Path, name: string)
    requires Apart(dirs, Some(src)) && !Clashes(dirs, src, clone, target, name)
    ensures Lead(DiskPairs(dirs, Some(src), clone, target), src + [name]) ==
            if src in dirs then Some(target + [name]) else None
    decreases |dirs|
  {
    if dirs != [] {
      var p, front, last := src + [name], dirs[..|dirs| - 1], dirs[|dirs| - 1];
      var before, added := DiskPairs(front, Some(src), clone, target), PairsFor(last, Some(src), clone, target);
      assert dirs == front + [last];
      SocketLeads(front, src, clone, target, name);
      LeadConcat(before, added, p);
      if last == src {
        OwnSocketLeads(src, clone, target, name);
      } else {
        OthersMissTheSocket(last, src, clone, target, name);
        LeadsIffCovers(added, p);
      }
    }
  }

  lemma OwnSocketLeads(src: Path, clone: Path, target: Path, name: string)
    requires name != "disks" || target == clone
    ensures Lead(PairsFor(src, Some(src), clone, target), src + [name]) == Some(target + [name])
  {
    var p := src + [name];
    LeadPush([], Pair(src, target), p);
    assert [] + [Pair(src, target)] == [Pair(src, target)] && p[|src|..] == [name];
    if target != clone {
      LeadPush([Pair(src, target)], Pair(src + ["disks"], clone + ["disks"]), p);
      assert [Pair(src, target)] + [Pair(src + ["disks"], clone + ["disks"])] ==
             PairsFor(src, Some(src), clone, target);
      assert (src + ["disks"])[|src|] != p[|src|];
    }
  }

  lemma {:induction false} IdentityLeads(pairs: seq<Pair>, p: Path)
    requires forall x :: x in pairs && x.mountpoint <= p ==> x.mountpoint == x.source
    ensures Covers(pairs, p) ==> Lead(pairs, p) == Some(p)
  {
    LeadsIffCovers(pairs, p);
    if Cover(pairs, p).Some? {
      var x := pairs[Cover(pairs, p).value];
      assert x in pairs && x.mountpoint + p[|x.mountpoint|..] == p;
    }
  }

  /** The socket the snapshot names leads into the directory this clone's is to be in, unless
      its name is the one the clone's disks are bound back as. */
  lemma VsockIsTheTarget(view: Path, dirs: seq<Path>, src: Path, clone: Path, target: Path,
                         entries: seq<Path>, r: Redirects, kept: seq<Pair>, name: string)
    requires VmDirs(view, dirs) && dirs != [] && Apart(dirs, Some(src))
    requires Planned(view, RedirectPairs(dirs, Some(src), clone, target), clone, target, entries) == Some(r)
    requires KeptOf(r, kept)
    ensures Resolve(view, r.pairs + kept, src + [name]) == Host(target + [name])
            <==> !Clashes(dirs, src, clone, target, name)
  {
    if Clashes(dirs, src, clone, target, name) {
      DisksAreTheClones(view, dirs, Some(src), clone, target, entries, r, kept, src, []);
      assert src + ["disks"] + [] == src + [name] && clone + ["disks"] + [] == clone + [name];
      assert (clone + [name])[..|clone + [name]| - 1] == clone && (target + [name])[..|target + [name]| - 1] == target;
    } else {
      SocketFollows(view, dirs, src, clone, target, entries, r, kept, name);
    }
  }

  lemma SocketFollows(view: Path, dirs: seq<Path>, src: Path, clone: Path, target: Path,
                      entries: seq<Path>, r: Redirects, kept: seq<Pair>, name: string)
    requires VmDirs(view, dirs) && dirs != [] && Apart(dirs, Some(src)) && !Clashes(dirs, src, clone, target, name)
    requires Planned(view, RedirectPairs(dirs, Some(src), clone, target), clone, target, entries) == Some(r)
    requires KeptOf(r, kept)
    ensures Resolve(view, r.pairs + kept, src + [name]) == Host(target + [name])
  {
    var p, pairs := src + [name], RedirectPairs(dirs, Some(src), clone, target);
    var vsock := VsockPairs(dirs, Some(src), target);
    SocketLeads(dirs, src, clone, target, name);
    LeadConcat(DiskPairs(dirs, Some(src), clone, target), vsock, p);
    if vsock != [] {
      LeadPush([], Pair(src, target), p);
      assert [] + [Pair(src, target)] == vsock && p[|src|..] == [name];
    }
    LeadsIffCovers(pairs, p);
    if src in dirs || src != target {
      RedirectsStand(view, pairs, clone, target, entries, r, kept, p);
    } else {
      SocketInPlace(view, dirs, pairs, clone, target, entries, r, kept, p);
    }
  }

  lemma AroundTheView(view: Path, d: Path, dir: Path, p: Path)
    requires DirectlyIn(d, view) && |p| == |dir| + 1 && dir <= p && view <= p && !(view <= dir)
    ensures Nests(d, dir)
  {
    assert view == p;
  }

  /** The socket's directory is the target itself: nothing redirects it, and it is still there. */
  lemma SocketInPlace(view: Path, dirs: seq<Path>, pairs: seq<Pair>, clone: Path, target: Path,
                      entries: seq<Path>, r: Redirects, kept: seq<Pair>, p: Path)
    requires VmDirs(view, dirs) && dirs != [] && Apart(dirs, Some(target)) && target !in dirs
    requires Planned(view, pairs, clone, target, entries) == Some(r) && KeptOf(r, kept)
    requires !Covers(pairs, p) && |p| == |target| + 1 && target <= p
    ensures Resolve(view, r.pairs + kept, p) == Host(p)
  {
    var all := r.pairs + kept;
    AllIncludes(view, pairs, clone, target, entries, r);
    forall x | x in all && x.mountpoint <= p
      ensures x.mountpoint == x.source
    {
      HoldersAre(pairs, entries, x);
      if x in pairs {
        CoveredBy(pairs, x, p);
      }
    }
    IdentityLeads(all, p);
    LeadsIffCovers(all, p);
    if view <= target {
      var i :| 0 <= i < |r.pairs| && r.pairs[i].mountpoint <= target;
      assert all[i].mountpoint <= p;
    } else if view <= p {
      AroundTheView(view, dirs[0], target, p);
    }
  }

  // ----- the plan is in order, and what it leaves to the caller -----

  /** No mountpoint is a proper ancestor of an earlier one. */
  ghost predicate Ordered(pairs: seq<Pair>) {
    forall i, j :: 0 <= i < j < |pairs| ==> !Inside(pairs[i].mountpoint, pairs[j].mountpoint)
  }

  lemma OrderedConcat(a: seq<Pair>, b: seq<Pair>)
    requires Ordered(a) && Ordered(b)
    requires forall x, y :: x in a && y in b ==> !Inside(x.mountpoint, y.mountpoint)
    ensures Ordered(a + b)
  {
    forall i, j | 0 <= i < j < |a + b|
      ensures !Inside((a + b)[i].mountpoint, (a + b)[j].mountpoint)
    {
      assert i < |a| ==> (a + b)[i] in a;
      assert j >= |a| ==> (a + b)[j] in b;
    }
  }

  /** A pair that redirects a source VM's directory, the disks in it, or the socket's. */
  predicate IsRedirect(dirs: seq<Path>, src: Option<Path>, clone: Path, target: Path, x: Pair) {
    || (x.mountpoint in dirs && x.source == if src == Some(x.mountpoint) then target else clone)
    || (src.Some? && src.value in dirs && target != clone && x == Pair(src.value + ["disks"], clone + ["disks"]))
    || (src.Some? && src.value !in dirs && src.value != target && x == Pair(src.value, target))
  }

  lemma {:induction false} DiskPairsAre(dirs: seq<Path>, src: Option<Path>, clone: Path, target: Path, x: Pair)
    requires x in DiskPairs(dirs, src, clone, target)
    ensures IsRedirect(dirs, src, clone, target, x) && (x.mountpoint in dirs || x.source == clone + ["disks"])
    decreases |dirs|
  {
    var front, last := dirs[..|dirs| - 1], dirs[|dirs| - 1];
    assert dirs == front + [last];
    if x in DiskPairs(front, src, clone, target) {
      DiskPairsAre(front, src, clone, target, x);
    }
  }

  lemma RedirectPairsAre(dirs: seq<Path>, src: Option<Path>, clone: Path, target: Path, x: Pair)
    requires x in RedirectPairs(dirs, src, clone, target)
    ensures IsRedirect(dirs, src, clone, target, x)
  {
    if x in DiskPairs(dirs, src, clone, target) {
      DiskPairsAre(dirs, src, clone, target, x);
    }
  }

  /** One redirect's mountpoint is inside another's only as the disks are in their directory. */
  lemma OnlyDisksNest(view: Path, dirs: seq<Path>, src: Option<Path>, clone: Path, target: Path, x: Pair, y: Pair)
    requires VmDirs(view, dirs) && Apart(dirs, src)
    requires IsRedirect(dirs, src, clone, target, x) && IsRedirect(dirs, src, clone, target, y)
    requires Inside(x.mountpoint, y.mountpoint)
    ensures src == Some(y.mountpoint) && x.mountpoint == y.mountpoint + ["disks"] && y.source == target
    ensures y.mountpoint in dirs
  {
    assert forall e :: e in dirs ==> |e| == |view| + 1;
    if x.mountpoint !in dirs && src.value in dirs {
      assert y.mountpoint <= src.value;
    }
  }

  /** An earlier pair is not inside a later one: the disks come after their directory. */
  lemma {:induction false} DiskPairsOrdered(view: Path, dirs: seq<Path>, src: Option<Path>, clone: Path, target: Path)
    requires VmDirs(view, dirs) && Apart(dirs, src)
    ensures Ordered(DiskPairs(dirs, src, clone, target))
    decreases |dirs|
  {
    if dirs != [] {
      var front, last := dirs[..|dirs| - 1], dirs[|dirs| - 1];
      var before, added := DiskPairs(front, src, clone, target), PairsFor(last, src, clone, target);
      assert dirs == front + [last];
      DiskPairsOrdered(view, front, src, clone, target);
      forall x, y | x in before && y in added
        ensures !Inside(x.mountpoint, y.mountpoint)
      {
        DiskPairsAre(front, src, clone, target, x);
        if Inside(x.mountpoint, y.mountpoint) {
          assert y in DiskPairs(dirs, src, clone, target) && x in DiskPairs(dirs, src, clone, target);
          DiskPairsAre(dirs, src, clone, target, x);
          DiskPairsAre(dirs, src, clone, target, y);
          OnlyDisksNest(view, dirs, src, clone, target, x, y);
        }
      }
      OrderedConcat(before, added);
    }
  }

  lemma RedirectPairsOrdered(view: Path, dirs: seq<Path>, src: Option<Path>, clone: Path, target: Path)
    requires VmDirs(view, dirs) && Apart(dirs, src)
    ensures Ordered(RedirectPairs(dirs, src, clone, target))
  {
    var disks, vsock := DiskPairs(dirs, src, clone, target), VsockPairs(dirs, src, target);
    DiskPairsOrdered(view, dirs, src, clone, target);
    forall x, y | x in disks && y in vsock
      ensures !Inside(x.mountpoint, y.mountpoint)
    {
      DiskPairsAre(dirs, src, clone, target, x);
      if Inside(x.mountpoint, y.mountpoint) {
        OnlyDisksNest(view, dirs, src, clone, target, x, y);
      }
    }
    OrderedConcat(disks, vsock);
  }

  predicate Entries(view: Path, entries: seq<Path>) {
    forall i :: 0 <= i < |entries| ==> DirectlyIn(entries[i], view)
  }

  lemma HoldersComeFirst(view: Path, pairs: seq<Pair>, entries: seq<Path>)
    requires Ordered(pairs) && Entries(view, entries)
    ensures Ordered(Holders(pairs, entries) + pairs)
  {
    var first := Holders(pairs, entries);
    forall x | x in first
      ensures |x.mountpoint| == |view| + 1 && !Covers(pairs, x.mountpoint)
    {
      HoldersAre(pairs, entries, x);
    }
    forall x, y | x in first && y in pairs
      ensures !Inside(x.mountpoint, y.mountpoint)
    {
      if Inside(x.mountpoint, y.mountpoint) {
        CoveredBy(pairs, y, x.mountpoint);
      }
    }
    assert Ordered(first) by {
      forall i, j | 0 <= i < j < |first|
        ensures !Inside(first[i].mountpoint, first[j].mountpoint)
      {
        assert first[i] in first && first[j] in first;
      }
    }
    OrderedConcat(first, pairs);
  }

  lemma OwnComesLast(view: Path, pairs: seq<Pair>, own: Path)
    requires Ordered(pairs) && AddOwn(view, pairs, own).Some?
    ensures Ordered(AddOwn(view, pairs, own).value)
  {
  }

  /** No list of pairs a clone is given is out of order, so no redirect is overlaid. */
  lemma PlanInOrder(view: Path, dirs: seq<Path>, src: Option<Path>, clone: Path, target: Path,
                    entries: seq<Path>, r: Redirects)
    requires VmDirs(view, dirs) && Apart(dirs, src) && Entries(view, entries)
    requires Planned(view, RedirectPairs(dirs, src, clone, target), clone, target, entries) == Some(r)
    ensures InOrder(r)
  {
    var pairs := RedirectPairs(dirs, src, clone, target);
    RedirectPairsOrdered(view, dirs, src, clone, target);
    HoldersComeFirst(view, pairs, entries);
    var first := Holders(pairs, entries) + pairs;
    OwnComesLast(view, first, clone);
    OwnComesLast(view, AddOwn(view, first, clone).value, target);
  }

  /** A directory of the clone's own that was added is under none of the pairs before it. */
  lemma OwnIsOutside(view: Path, pairs: seq<Pair>, clone: Path, target: Path, entries: seq<Path>, r: Redirects,
                     i: nat, j: nat)
    requires Planned(view, pairs, clone, target, entries) == Some(r) && i < j < |r.pairs|
    requires r.pairs[j] !in pairs && r.pairs[j] !in Holders(pairs, entries)
    ensures !(r.pairs[i].mountpoint <= r.pairs[j].mountpoint)
  {
    var first := Holders(pairs, entries) + pairs;
    var mid := AddOwn(view, first, clone).value;
    assert forall k :: 0 <= k < |first| ==> r.pairs[k] == first[k] && first[k] in first;
    if j < |mid| {
      assert mid[i] == r.pairs[i] == first[i];
      CoveredBy(first, first[i], r.pairs[i].mountpoint);
    } else {
      assert mid[i] == r.pairs[i];
      CoveredBy(mid, mid[i], r.pairs[i].mountpoint);
    }
  }

  /** The one directory left to the caller is the one the clone's disks are bound back over. */
  lemma LeftToTheCaller(view: Path, dirs: seq<Path>, src: Option<Path>, clone: Path, target: Path,
                        entries: seq<Path>, r: Redirects, index: nat)
    requires VmDirs(view, dirs) && Apart(dirs, src)
    requires Planned(view, RedirectPairs(dirs, src, clone, target), clone, target, entries) == Some(r)
    requires index < |r.pairs| && InSource(r, index)
    ensures Backing(r, index) == target + ["disks"]
  {
    var pairs := RedirectPairs(dirs, src, clone, target);
    NestedHasInnermost(r, index);
    var best := Innermost(r, index, index).value;
    var x, y := r.pairs[index], r.pairs[best];
    AllIncludes(view, pairs, clone, target, entries, r);
    HoldersAre(pairs, entries, x);
    HoldersAre(pairs, entries, y);
    assert y in r.pairs && y in pairs;
    RedirectPairsAre(dirs, src, clone, target, y);
    assert x in pairs by {
      if x !in pairs {
        CoveredBy(pairs, y, x.mountpoint);
        OwnIsOutside(view, pairs, clone, target, entries, r, best, index);
      }
    }
    RedirectPairsAre(dirs, src, clone, target, x);
    OnlyDisksNest(view, dirs, src, clone, target, x, y);
  }

  /** With that directory made, as the restore does, every bind of a clone's plan succeeds. */
  lemma CloneViewWorks(view: Path, dirs: seq<Path>, src: Option<Path>, clone: Path, target: Path,
                       entries: seq<Path>, r: Redirects, host: set<Path>, tmpfs: set<Path>)
    requires VmDirs(view, dirs) && Apart(dirs, src) && Entries(view, entries)
    requires Planned(view, RedirectPairs(dirs, src, clone, target), clone, target, entries) == Some(r)
    requires Prepared(r, host, tmpfs) && target + ["disks"] in host
    ensures AllFind(r, |r.pairs|, host, tmpfs)
  {
    PlanInOrder(view, dirs, src, clone, target, entries, r);
    forall i | 0 <= i < |r.pairs| && InSource(r, i)
      ensures Backing(r, i) in host
    {
      LeftToTheCaller(view, dirs, src, clone, target, entries, r, i);
    }
    PlanWorks(r, host, tmpfs);
  }
}
