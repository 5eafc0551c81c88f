/** The two-layer cache of derivations (src/version_cache.rs:198-270): a map in the process
    and a directory of entries, both under the hash of the identity's key. */
module VersionCache {
  import opened Resources
  import opened KeyEncoding

  /** A file of the cache directory: what it was derived from, and the value. */
  datatype Entry = Entry(id: Identity, stdout: Bytes)

  /** The name an identity is kept under, in both layers. */
  type Slots = Identity -> Bytes
  type Memo = map<Bytes, Bytes>
  type Disk = map<Bytes, Entry>

  /** The hash of the identity's key. */
  function SlotsOf(hash: Bytes -> Bytes): Slots {
    (id: Identity) => hash(Key(id))
  }

  ghost predicate CollisionFree(slots: Slots) {
    forall a, b :: Keyed(a) && Keyed(b) && slots(a) == slots(b) ==> a == b
  }

  /** A hash that tells the keys of real identities apart gives them slots of their own. */
  lemma DistinctSlots(hash: Bytes -> Bytes)
    requires forall a, b :: Keyed(a) && Keyed(b) && hash(Key(a)) == hash(Key(b)) ==> Key(a) == Key(b)
    ensures CollisionFree(SlotsOf(hash))
  {
    var slots := SlotsOf(hash);
    forall a, b | Keyed(a) && Keyed(b) && slots(a) == slots(b)
      ensures a == b
    {
      KeysDiffer(a, b);
    }
  }

  function InMemo(slots: Slots, memo: Memo, id: Identity): Option<Bytes> {
    var key := slots(id);
    if key in memo then Some(memo[key]) else None
  }

  /** `read_disk_entry`: an entry counts only when it names this very identity. */
  function OnDisk(slots: Slots, disk: Disk, id: Identity): Option<Bytes> {
    var key := slots(id);
    if key in disk && disk[key].id == id then Some(disk[key].stdout) else None
  }

  /** Every value in the memo was derived for an identity of that slot; every disk
      entry for the identity it names. */
  ghost predicate MemoFrom(slots: Slots, memo: Memo, derived: set<(Identity, Bytes)>) {
    forall key :: key in memo ==> exists id :: Keyed(id) && slots(id) == key && (id, memo[key]) in derived
  }

  ghost predicate DiskFrom(disk: Disk, derived: set<(Identity, Bytes)>) {
    forall key :: key in disk ==> (disk[key].id, disk[key].stdout) in derived
  }

  lemma MemoIsExact(slots: Slots, memo: Memo, derived: set<(Identity, Bytes)>, id: Identity)
    requires CollisionFree(slots) && MemoFrom(slots, memo, derived)
    requires Keyed(id) && InMemo(slots, memo, id).Some?
    ensures (id, InMemo(slots, memo, id).value) in derived
  {
    var key := slots(id);
    var id' :| Keyed(id') && slots(id') == key && (id', memo[key]) in derived;
    assert id' == id;
  }

  /** One value stored, under the identity it was derived for. */
  datatype Store = Store(id: Identity, value: Bytes)

  /** What each layer holds after values were stored in turn. */
  function MemoAfter(slots: Slots, stores: seq<Store>): Memo {
    if stores == [] then map[]
    else
      var last := stores[|stores| - 1];
      MemoAfter(slots, stores[..|stores| - 1])[slots(last.id) := last.value]
  }

  function DiskAfter(slots: Slots, stores: seq<Store>): Disk {
    if stores == [] then map[]
    else
      var last := stores[|stores| - 1];
      DiskAfter(slots, stores[..|stores| - 1])[slots(last.id) := Entry(last.id, last.value)]
  }

  ghost predicate AllKeyed(stores: seq<Store>) {
    forall i :: 0 <= i < |stores| ==> Keyed(stores[i].id)
  }

  lemma {:induction false} MemoHitWasStored(slots: Slots, stores: seq<Store>, key: Bytes)
    requires AllKeyed(stores) && key in MemoAfter(slots, stores)
    ensures exists id :: Keyed(id) && slots(id) == key && Store(id, MemoAfter(slots, stores)[key]) in stores
  {
    var front, last := stores[..|stores| - 1], stores[|stores| - 1];
    assert stores == front + [last];
    if key == slots(last.id) {
      assert last in stores;
    } else {
      MemoHitWasStored(slots, front, key);
    }
  }

  /** The disk layer never hands back another identity's value, whatever the slots. */
  lemma {:induction false} DiskHitWasStored(slots: Slots, stores: seq<Store>, id: Identity)
    requires OnDisk(slots, DiskAfter(slots, stores), id).Some?
    ensures Store(id, OnDisk(slots, DiskAfter(slots, stores), id).value) in stores
  {
    var front, last := stores[..|stores| - 1], stores[|stores| - 1];
    assert stores == front + [last];
    if slots(id) != slots(last.id) {
      DiskHitWasStored(slots, front, id);
    }
  }

  /** Whatever was stored in whatever order, the memo hands back only what was stored for the
      identity asked for. */
  ghost predicate MemoIsTrue(slots: Slots) {
    forall stores, id :: AllKeyed(stores) && Keyed(id) && InMemo(slots, MemoAfter(slots, stores), id).Some? ==>
      Store(id, InMemo(slots, MemoAfter(slots, stores), id).value) in stores
  }

  /** The memo does not check what it hands back, so it is true exactly when no two identities
      share a slot. */
  lemma MemoIsTrueIff(slots: Slots)
    ensures MemoIsTrue(slots) <==> CollisionFree(slots)
  {
    if CollisionFree(slots) {
      forall stores, id | AllKeyed(stores) && Keyed(id) && InMemo(slots, MemoAfter(slots, stores), id).Some?
        ensures Store(id, InMemo(slots, MemoAfter(slots, stores), id).value) in stores
      {
        MemoHitWasStored(slots, stores, slots(id));
      }
    }
    if MemoIsTrue(slots) {
      forall a, b | Keyed(a) && Keyed(b) && slots(a) == slots(b)
        ensures a == b
      {
        var stores := [Store(a, [])];
        assert stores[..0] == [] && AllKeyed(stores);
        assert InMemo(slots, MemoAfter(slots, stores), b) == Some([]);
        assert Store(b, []) in stores;
      }
    }
  }

  /** One process's use of the cache. */
  class Cache {
    const slots: Slots
    var memo: Memo
    var disk: Disk
    /** What every successful derivation returned, by the identity it was stored under. */
    ghost var derived: set<(Identity, Bytes)>

    constructor (hash: Bytes -> Bytes)
      ensures Valid() && slots == SlotsOf(hash) && memo == map[] && disk == map[] && derived == {}
    {
      slots := SlotsOf(hash);
      memo, disk, derived := map[], map[], {};
    }

    ghost predicate Valid()
      reads this
    {
      MemoFrom(slots, memo, derived) && DiskFrom(disk, derived)
    }

    /** `derived_stamped_in`. `stat` is the file's stamp, if it could be read; `usable`
        says the memo's lock was not poisoned, `hasDir` that there is a cache directory
        and `writable` that an entry can be put there. */
    method Derived(path: Bytes, namespace: Bytes, stat: Option<Stamp>, usable: bool, hasDir: bool, writable: bool,
                   compute: Option<Stamp> -> Option<Bytes>)
      returns (r: Option<Bytes>)
      requires Valid()
      requires 0 !in path && (stat.Some? ==> FitsStamp(stat.value))
      modifies this
      ensures Valid()
      // whatever is handed back was derived for this very file, stamp and namespace
      ensures r.Some? && stat.Some? && (usable ==> CollisionFree(slots)) ==>
                (Identity(path, stat.value, namespace), r.value) in derived
      // only a successful computation adds anything, and then only its own value
      ensures derived == old(derived)
              || (stat.Some? && compute(stat) == r && r.Some?
                  && derived == old(derived) + {(Identity(path, stat.value, namespace), r.value)})
      // a failed derivation, or one without a stamp, leaves both layers alone
      ensures r.None? || stat.None? ==> r == compute(stat) && memo == old(memo) && disk == old(disk)
      // a hit in either layer is returned without computing
      ensures stat.Some? && usable && old(InMemo(slots, memo, Identity(path, stat.value, namespace))).Some? ==>
                r == old(InMemo(slots, memo, Identity(path, stat.value, namespace)))
                && memo == old(memo) && disk == old(disk)
      ensures stat.Some? && r.Some? && usable ==> InMemo(slots, memo, Identity(path, stat.value, namespace)) == r
      // at most this identity's slot of each layer changes
      ensures forall key :: (stat.Some? ==> key != slots(Identity(path, stat.value, namespace))) ==>
                (key in memo <==> key in old(memo)) && (key in memo ==> memo[key] == old(memo)[key])
                && (key in disk <==> key in old(disk)) && (key in disk ==> disk[key] == old(disk)[key])
    {
      if stat.Some? {
        var id := Identity(path, stat.value, namespace);
        var key := slots(id);
        if usable && key in memo {
          if CollisionFree(slots) {
            MemoIsExact(slots, memo, derived, id);
          }
          return Some(memo[key]);
        }
        if hasDir && key in disk && disk[key].id == id {
          r := Some(disk[key].stdout);
          if usable {
            memo := memo[key := r.value];
          }
          return;
        }
      }
      r := compute(stat);
      if r.Some? && stat.Some? {
        var id := Identity(path, stat.value, namespace);
        var key := slots(id);
        derived := derived + {(id, r.value)};
        if usable {
          memo := memo[key := r.value];
        }
        if hasDir && writable {
          disk := disk[key := Entry(id, r.value)];
        }
      }
    }
  }
}
