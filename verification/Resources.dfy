/** The host resources an owner records (src/reclaim.rs), and the list vocabulary the
    undo loop and the reclaim protocol are stated in. */
module Resources {

  datatype Option<+T> = None | Some(value: T)

  datatype Resource =
    | RuntimeDir(path: string)
    | Temp(path: string)
    | Netns(name: string)
    | Link(name: string)
    | Rule(program: string, args: seq<string>)
    | HostRoute(guestIp: string, via: string)
    | GlobalNat
    | RoutedAddress(address: string, iface: string, masquerade: bool)
    | Unknown
  {
    /** An object of the running kernel, which a reboot discards. */
    predicate IsKernelObject() {
      !RuntimeDir? && !Temp? && !Unknown?
    }

    /** A file or directory, named so that no other process can create it. */
    predicate IsPath() {
      RuntimeDir? || Temp?
    }

    /** A kernel object whose name is this owner's only while the owner's network exists.
        The shared NAT rules and leased addresses have checks of their own. */
    predicate IsOwnerNamed() {
      Netns? || Link? || Rule? || HostRoute?
    }
  }

  datatype Sort = AnyKernel | OwnerNamed

  predicate Is(sort: Sort, r: Resource) {
    match sort
    case AnyKernel => r.IsKernelObject()
    case OwnerNamed => r.IsOwnerNamed()
  }

  /** The elements of `list` of one sort, in order. */
  function Select(sort: Sort, list: seq<Resource>): seq<Resource> {
    if list == [] then []
    else
      var front, last := list[..|list| - 1], list[|list| - 1];
      Select(sort, front) + if Is(sort, last) then [last] else []
  }

  lemma {:induction false} SelectConcat(sort: Sort, a: seq<Resource>, b: seq<Resource>)
    ensures Select(sort, a + b) == Select(sort, a) + Select(sort, b)
  {
    if b == [] {
      assert a + b == a;
    } else {
      var front := b[..|b| - 1];
      assert (a + b)[..|a + b| - 1] == a + front;
      SelectConcat(sort, a, front);
    }
  }

  lemma {:induction false} SelectMember(sort: Sort, list: seq<Resource>, r: Resource)
    ensures r in Select(sort, list) <==> r in list && Is(sort, r)
  {
    if list != [] {
      var front := list[..|list| - 1];
      SelectMember(sort, front, r);
      assert list == front + [list[|list| - 1]];
    }
  }

  /** A prefix of a list selects a prefix of what the list selects. */
  lemma SelectPrefix(sort: Sort, a: seq<Resource>, b: seq<Resource>)
    requires a <= b
    ensures Select(sort, a) <= Select(sort, b)
  {
    assert b == a + b[|a|..];
    SelectConcat(sort, a, b[|a|..]);
  }

  /** Selecting the owner-named objects directly or out of the kernel objects is the same. */
  lemma {:induction false} SelectNested(list: seq<Resource>)
    ensures Select(OwnerNamed, Select(AnyKernel, list)) == Select(OwnerNamed, list)
  {
    if list != [] {
      var front, last := list[..|list| - 1], list[|list| - 1];
      SelectNested(front);
      if Is(AnyKernel, last) {
        assert Select(OwnerNamed, [last]) == if Is(OwnerNamed, last) then [last] else [] by {
          assert [last][..0] == [];
        }
        SelectConcat(OwnerNamed, Select(AnyKernel, front), [last]);
      } else {
        assert Select(AnyKernel, list) == Select(AnyKernel, front);
      }
    }
  }

  /** `at` places each element of `a` in `b`, keeping the order. */
  ghost predicate Embeds<T>(at: seq<nat>, a: seq<T>, b: seq<T>) {
    && |at| == |a|
    && (forall i :: 0 <= i < |a| ==> at[i] < |b| && b[at[i]] == a[i])
    && (forall i, j :: 0 <= i < j < |a| ==> at[i] < at[j])
  }

  /** `a` is `b` with zero or more elements left out, in the same order. */
  ghost predicate IsSubsequence<T>(a: seq<T>, b: seq<T>) {
    exists at :: Embeds(at, a, b)
  }

  lemma SubsequenceReflexive<T>(a: seq<T>)
    ensures IsSubsequence(a, a)
  {
    assert Embeds(seq(|a|, i => i), a, a);
  }

  /** `list` without its element at index `k`. */
  function Without<T>(list: seq<T>, k: nat): seq<T>
    requires k < |list|
  {
    list[..k] + list[k + 1..]
  }

  lemma SubsequenceWithout<T>(a: seq<T>, b: seq<T>, k: nat)
    requires k < |a| && IsSubsequence(a, b)
    ensures IsSubsequence(Without(a, k), b)
  {
    var at :| Embeds(at, a, b);
    assert Embeds(Without(at, k), Without(a, k), b);
  }
}
