/** The disk-backed LRU cache of whole blobs: rebuild, Get, Put, Remove, size eviction and the idle sweep. The
    directory is a map from blob ids to bytes; the clock is passed in. */
module BlobCache {
  import opened Base
  import opened Extents

  datatype Entry = Entry(size: nat, lastAccess: int)

  datatype Scanned = Scanned(id: BlobId, size: nat, mod: int)

  // ---- sums and prefixes --------------------------------------------------------------------------

  /** The bytes of a list of entries. */
  function SizeOf(ids: seq<BlobId>, index: map<BlobId, Entry>): nat
    requires forall id :: id in ids ==> id in index
  {
    if ids == [] then 0 else SizeOf(ids[..|ids| - 1], index) + index[ids[|ids| - 1]].size
  }

  lemma {:induction false} SizeOfSame(ids: seq<BlobId>, a: map<BlobId, Entry>, b: map<BlobId, Entry>)
    requires forall id :: id in ids ==> id in a && id in b && a[id].size == b[id].size
    ensures SizeOf(ids, a) == SizeOf(ids, b)
  {
    if ids != [] {
      SizeOfSame(ids[..|ids| - 1], a, b);
    }
  }

  lemma {:induction false} SizeOfConcat(a: seq<BlobId>, b: seq<BlobId>, index: map<BlobId, Entry>)
    requires forall id :: id in a || id in b ==> id in index
    ensures SizeOf(a + b, index) == SizeOf(a, index) + SizeOf(b, index)
  {
    if b == [] {
      assert a + b == a;
    } else {
      var init := b[..|b| - 1];
      assert (a + b)[..|a + b| - 1] == a + init;
      SizeOfConcat(a, init, index);
    }
  }

  lemma {:induction false} SizeOfOne(id: BlobId, index: map<BlobId, Entry>)
    requires id in index
    ensures SizeOf([id], index) == index[id].size
  {
    assert [id][..0] == [];
  }

  /** kept is the longest prefix of ids whose bytes fit into max. */
  ghost predicate LongestFit(kept: seq<BlobId>, ids: seq<BlobId>, index: map<BlobId, Entry>, max: int)
    requires forall id :: id in ids ==> id in index
  {
    && kept <= ids && (forall id :: id in kept ==> id in ids)
    && SizeOf(kept, index) <= max
    && forall k :: |kept| < k <= |ids| ==> SizeOf(ids[..k], index) > max
  }

  /** It is a prefix that fits, and every prefix that fits is part of it. */
  lemma {:induction false} LongestMeans(kept: seq<BlobId>, ids: seq<BlobId>, index: map<BlobId, Entry>, max: int)
    requires (forall id :: id in ids ==> id in index) && LongestFit(kept, ids, index, max)
    ensures kept <= ids && SizeOf(kept, index) <= max
    ensures forall k :: 0 <= k <= |ids| && SizeOf(ids[..k], index) <= max ==> ids[..k] <= kept
  {
    hide SizeOf;
    forall k | 0 <= k <= |ids| && SizeOf(ids[..k], index) <= max ensures ids[..k] <= kept {
      assert k <= |kept| && kept == ids[..|kept|];
      assert ids[..k] == kept[..k];
    }
  }

  /** Most recent first. */
  predicate Recent(ids: seq<BlobId>, index: map<BlobId, Entry>)
    requires forall id :: id in ids ==> id in index
  {
    forall i, j :: 0 <= i < j < |ids| ==> index[ids[i]].lastAccess >= index[ids[j]].lastAccess
  }

  function RemoveAt(ids: seq<BlobId>, i: nat): seq<BlobId>
    requires i < |ids|
  {
    ids[..i] + ids[i + 1..]
  }

  /** container/list's Remove of the element that holds id. */
  function Removed(ids: seq<BlobId>, id: BlobId): seq<BlobId> {
    if ids == [] then []
    else if ids[0] == id then ids[1..]
    else [ids[0]] + Removed(ids[1..], id)
  }

  lemma {:induction false} RemovedAt(ids: seq<BlobId>, id: BlobId, i: nat)
    requires Distinct(ids) && i < |ids| && ids[i] == id
    ensures Removed(ids, id) == RemoveAt(ids, i)
  {
    if i > 0 {
      RemovedAt(ids[1..], id, i - 1);
      assert [ids[0]] + RemoveAt(ids[1..], i - 1) == RemoveAt(ids, i);
    }
  }

  /** Taking one entry out of the list keeps the rest in order, once each, and takes its bytes off the sum. */
  lemma {:induction false} RemovedIs(ids: seq<BlobId>, id: BlobId, index: map<BlobId, Entry>)
    requires Distinct(ids) && id in ids && forall x :: x in ids ==> x in index
    ensures var rest := Removed(ids, id);
      && Distinct(rest) && (forall x :: x in rest <==> x in ids && x != id)
      && SizeOf(rest, index) == SizeOf(ids, index) - index[id].size
      && (Recent(ids, index) ==> Recent(rest, index))
      && (ids[|ids| - 1] == id ==> rest == ids[..|ids| - 1])
  {
    var i :| 0 <= i < |ids| && ids[i] == id;
    RemovedAt(ids, id, i);
    hide Removed, SizeOf;
    RemovedMembers(ids, id, i);
    RemovedSize(ids, i, index);
    RemovedRecent(ids, i, index);
    hide Recent, RemoveAt;
    if ids[|ids| - 1] == id {
      assert i == |ids| - 1;
      RemovedLast(ids);
    }
  }

  lemma {:induction false} RemovedLast(ids: seq<BlobId>)
    requires ids != []
    ensures RemoveAt(ids, |ids| - 1) == ids[..|ids| - 1]
  {
  }

  lemma {:induction false} RemovedRecent(ids: seq<BlobId>, i: nat, index: map<BlobId, Entry>)
    requires i < |ids| && (forall x :: x in ids ==> x in index) && forall x :: x in RemoveAt(ids, i) ==> x in index
    ensures Recent(ids, index) ==> Recent(RemoveAt(ids, i), index)
  {
    var rest := RemoveAt(ids, i);
    assert forall k :: 0 <= k < |rest| ==> rest[k] == ids[if k < i then k else k + 1];
  }

  lemma {:induction false} RemovedMembers(ids: seq<BlobId>, id: BlobId, i: nat)
    requires Distinct(ids) && i < |ids| && ids[i] == id
    ensures var rest := RemoveAt(ids, i);
      Distinct(rest) && (forall k :: 0 <= k < |rest| ==> rest[k] == ids[if k < i then k else k + 1])
      && forall x :: x in rest <==> x in ids && x != id
  {
    var rest := RemoveAt(ids, i);
    assert forall k :: 0 <= k < |rest| ==> rest[k] == ids[if k < i then k else k + 1];
    forall x ensures x in rest <==> x in ids && x != id {
      if x in ids && x != id {
        var k :| 0 <= k < |ids| && ids[k] == x;
        assert rest[if k < i then k else k - 1] == x;
      }
    }
  }

  lemma {:induction false} RemovedSize(ids: seq<BlobId>, i: nat, index: map<BlobId, Entry>)
    requires i < |ids| && forall x :: x in ids ==> x in index
    ensures forall x :: x in RemoveAt(ids, i) ==> x in ids
    ensures SizeOf(RemoveAt(ids, i), index) == SizeOf(ids, index) - index[ids[i]].size
  {
    hide SizeOf;
    var a, b, id := ids[..i], ids[i + 1..], ids[i];
    assert ids == a + ([id] + b);
    SizeOfConcat(a, [id] + b, index);
    SizeOfConcat([id], b, index);
    SizeOfConcat(a, b, index);
    SizeOfOne(id, index);
  }

  /** The entries that are still listed. */
  function Only(index: map<BlobId, Entry>, ids: seq<BlobId>): map<BlobId, Entry> {
    map id | id in index && id in ids :: index[id]
  }

  predicate NotAfter(index: map<BlobId, Entry>, now: int) {
    forall id :: id in index ==> index[id].lastAccess <= now
  }

  // ---- the rebuild's scan and sort ----------------------------------------------------------------

  predicate DistinctIds(found: seq<Scanned>) {
    forall i, j :: 0 <= i < j < |found| ==> found[i].id != found[j].id
  }

  predicate OldestFirst(found: seq<Scanned>, upto: nat)
    requires upto <= |found|
  {
    forall i, j :: 0 <= i < j < upto ==> found[i].mod <= found[j].mod
  }

  ghost predicate SameElements(a: seq<Scanned>, b: seq<Scanned>) {
    forall x :: x in a <==> x in b
  }

  function Swapped(found: seq<Scanned>, j: nat): seq<Scanned>
    requires 0 < j < |found|
  {
    found[j - 1 := found[j]][j := found[j - 1]]
  }

  lemma {:induction false} SwapKeeps(found: seq<Scanned>, j: nat)
    requires 0 < j < |found| && DistinctIds(found)
    ensures DistinctIds(Swapped(found, j)) && SameElements(Swapped(found, j), found)
  {
    var out := Swapped(found, j);
    assert forall k :: 0 <= k < |out| ==> out[k] == found[if k == j then j - 1 else if k == j - 1 then j else k];
    forall x | x in found ensures x in out {
      var k :| 0 <= k < |found| && found[k] == x;
      assert out[if k == j then j - 1 else if k == j - 1 then j else k] == x;
    }
  }

  /** The insertion sort of rebuild. */
  method SortOldestFirst(found: seq<Scanned>) returns (out: seq<Scanned>)
    requires DistinctIds(found)
    ensures OldestFirst(out, |out|) && DistinctIds(out) && SameElements(out, found)
  {
    hide DistinctIds, SameElements;
    out := found;
    SameAll(found);
    var i := 1;
    while i < |out|
      invariant 1 <= i && (i <= |out| || out == found) && |out| == |found|
      invariant OldestFirst(out, if i <= |out| then i else |out|)
      invariant DistinctIds(out) && SameElements(out, found)
      decreases |out| - i
    {
      var j := i;
      while j > 0 && out[j - 1].mod > out[j].mod
        invariant 0 <= j <= i && |out| == |found|
        invariant forall p, q :: 0 <= p < q <= i && q != j ==> out[p].mod <= out[q].mod
        invariant DistinctIds(out) && SameElements(out, found)
      {
        SwapKeeps(out, j);
        SameTrans(Swapped(out, j), out, found);
        out := Swapped(out, j);
        j := j - 1;
      }
      i := i + 1;
    }
  }

  lemma {:induction false} SameAll(a: seq<Scanned>)
    ensures SameElements(a, a)
  {
  }

  lemma {:induction false} SameTrans(a: seq<Scanned>, b: seq<Scanned>, c: seq<Scanned>)
    requires SameElements(a, b) && SameElements(b, c)
    ensures SameElements(a, c)
  {
  }

  /** What the directory scan finds: one record per file. */
  ghost predicate ScanOf(found: seq<Scanned>, dir: map<BlobId, Bytes>, mods: map<BlobId, int>)
    requires dir.Keys <= mods.Keys
  {
    && DistinctIds(found)
    && (forall x :: x in found ==> x.id in dir && x == Scanned(x.id, |dir[x.id]|, mods[x.id]))
    && forall id :: id in dir ==> Scanned(id, |dir[id]|, mods[id]) in found
  }

  method Scan(dir: map<BlobId, Bytes>, mods: map<BlobId, int>) returns (found: seq<Scanned>)
    requires dir.Keys <= mods.Keys
    ensures ScanOf(found, dir, mods)
  {
    found := [];
    var todo := dir.Keys;
    while todo != {}
      invariant todo <= dir.Keys && DistinctIds(found)
      invariant forall x :: x in found ==> x.id in dir && x.id !in todo && x == Scanned(x.id, |dir[x.id]|, mods[x.id])
      invariant forall id :: id in dir && id !in todo ==> Scanned(id, |dir[id]|, mods[id]) in found
      decreases |todo|
    {
      var id :| id in todo;
      assert forall x :: x in found ==> x.id != id;
      found := found + [Scanned(id, |dir[id]|, mods[id])];
      todo := todo - {id};
    }
  }

  /** The ids of a scan, last found first: what pushing each to the front of the list leaves. */
  function Pushed(found: seq<Scanned>): seq<BlobId> {
    if found == [] then [] else [found[|found| - 1].id] + Pushed(found[..|found| - 1])
  }

  function EntriesOf(dir: map<BlobId, Bytes>, mods: map<BlobId, int>): map<BlobId, Entry>
    requires dir.Keys <= mods.Keys
  {
    map id | id in dir :: Entry(|dir[id]|, mods[id])
  }

  lemma {:induction false} PushedAt(found: seq<Scanned>)
    ensures |Pushed(found)| == |found|
    ensures forall k :: 0 <= k < |found| ==> Pushed(found)[k] == found[|found| - 1 - k].id
  {
    if found != [] {
      PushedAt(found[..|found| - 1]);
    }
  }

  /** Oldest first in the scan is most recent first in the list. */
  lemma {:induction false} PushedIs(found: seq<Scanned>, dir: map<BlobId, Bytes>, mods: map<BlobId, int>)
    requires dir.Keys <= mods.Keys && ScanOf(found, dir, mods) && OldestFirst(found, |found|)
    ensures var all := Pushed(found);
      Distinct(all) && (forall id :: id in all <==> id in EntriesOf(dir, mods)) && Recent(all, EntriesOf(dir, mods))
  {
    PushedAt(found);
    hide Pushed;
    var all := Pushed(found);
    forall id ensures id in all <==> id in dir {
      if id in all {
        var k :| 0 <= k < |all| && all[k] == id;
        assert found[|found| - 1 - k] in found;
      }
      if id in dir {
        var x := Scanned(id, |dir[id]|, mods[id]);
        var k :| 0 <= k < |found| && found[k] == x;
        assert all[|found| - 1 - k] == id;
      }
    }
    forall i, j | 0 <= i < j < |all|
      ensures all[i] != all[j] && all[i] in dir && all[j] in dir && mods[all[i]] >= mods[all[j]]
    {
      assert found[|found| - 1 - i] in found && found[|found| - 1 - j] in found;
    }
  }

  // ---- the cache ----------------------------------------------------------------------------------

  /** The list and the index hold the same entries, once each; total is their bytes; sizes are the files'. */
  ghost predicate CacheOk(dir: map<BlobId, Bytes>, index: map<BlobId, Entry>, lru: seq<BlobId>, total: int) {
    && Distinct(lru) && (forall id :: id in lru <==> id in index)
    && total == SizeOf(lru, index)
    && forall id :: id in index && id in dir ==> index[id].size == |dir[id]|
  }

  class Cache {
    const maxBytes: int
    const idleTTL: int
    /** The files in the cache directory. One may vanish from under the cache. */
    var dir: map<BlobId, Bytes>
    var index: map<BlobId, Entry>
    /** Front is the most recently used. */
    var lru: seq<BlobId>
    var total: int

    ghost predicate Valid()
      reads this
    {
      CacheOk(dir, index, lru, total)
    }

    /** rebuild: the files found, ordered by modification time, then evicted down to the bound. */
    method Rebuild(mods: map<BlobId, int>) returns (ghost all: seq<BlobId>)
      requires index == map[] && lru == [] && total == 0 && dir.Keys <= mods.Keys
      modifies this
      ensures Valid() && index == Only(EntriesOf(old(dir), mods), lru) && dir == old(dir) - (old(dir).Keys - index.Keys)
      ensures Distinct(all) && (forall id :: id in all <==> id in old(dir)) && Recent(all, EntriesOf(old(dir), mods))
      ensures if maxBytes > 0 then LongestFit(lru, all, EntriesOf(old(dir), mods), maxBytes) else lru == all
      ensures Recent(lru, index) && (maxBytes > 0 ==> total <= maxBytes)
      ensures forall now :: (forall id :: id in old(dir) ==> mods[id] <= now) ==> NotAfter(index, now)
    {
      hide SizeOf, Recent, OldestFirst, Pushed, ScanOf, SameElements, LongestFit;
      var found := Scan(dir, mods);
      ScanIds(found, dir, mods);
      var sorted := SortOldestFirst(found);
      SameScan(sorted, found, dir, mods);
      PushedIs(sorted, dir, mods);
      all := Pushed(sorted);
      PushAll(sorted, mods);
      Evict();
    }

    lemma {:induction false} ScanIds(found: seq<Scanned>, dir: map<BlobId, Bytes>, mods: map<BlobId, int>)
      requires dir.Keys <= mods.Keys && ScanOf(found, dir, mods)
      ensures DistinctIds(found)
    {
    }

    lemma {:induction false} SameScan(a: seq<Scanned>, b: seq<Scanned>, dir: map<BlobId, Bytes>, mods: map<BlobId, int>)
      requires dir.Keys <= mods.Keys && ScanOf(b, dir, mods) && SameElements(a, b) && DistinctIds(a)
      ensures ScanOf(a, dir, mods)
    {
    }

    /** The loop of rebuild that fills the list and the index. */
    method PushAll(found: seq<Scanned>, mods: map<BlobId, int>)
      requires index == map[] && lru == [] && total == 0 && dir.Keys <= mods.Keys
      requires ScanOf(found, dir, mods) && OldestFirst(found, |found|)
      modifies this`index, this`lru, this`total
      ensures Valid() && lru == Pushed(found) && index == EntriesOf(dir, mods)
    {
      ScanIds(found, dir, mods);
      hide *;
      FillNone(index);
      for i := 0 to |found|
        invariant Filled(found[..i], lru, index, total)
      {
        var s := found[i];
        FillOne(found, i, lru, index, total);
        lru := [s.id] + lru;
        index := index[s.id := Entry(s.size, s.mod)];
        total := total + s.size;
      }
      assert found[..|found|] == found;
      FillAll(found, lru, index, total, dir, mods);
    }

    /** The list, the index and the total after the scan's first records have been pushed. */
    ghost predicate Filled(f: seq<Scanned>, lru: seq<BlobId>, index: map<BlobId, Entry>, total: int) {
      && lru == Pushed(f) && Distinct(lru) && (forall id :: id in lru <==> id in index) && total == SizeOf(lru, index)
      && forall k :: 0 <= k < |f| ==> f[k].id in index && index[f[k].id] == Entry(f[k].size, f[k].mod)
    }

    lemma {:induction false} FillNone(index: map<BlobId, Entry>)
      requires index == map[]
      ensures Filled([], [], index, 0)
    {
    }

    lemma {:induction false} FillOne(found: seq<Scanned>, i: nat, lru: seq<BlobId>, index: map<BlobId, Entry>,
            total: int)
      requires DistinctIds(found) && i < |found| && Filled(found[..i], lru, index, total)
      ensures var s := found[i];
        Filled(found[..i + 1], [s.id] + lru, index[s.id := Entry(s.size, s.mod)], total + s.size)
    {
      hide SizeOf, Pushed;
      var s, f, g := found[i], found[..i], found[..i + 1];
      assert g == f + [s];
      PushedAt(f);
      PushedNext(f, s);
      NotIn(found, i, lru);
      PushedFront(lru, s.id, index, s.size, s.mod);
      FillEntries(found, i, index);
      hide Distinct;
    }

    lemma {:induction false} NotIn(found: seq<Scanned>, i: nat, lru: seq<BlobId>)
      requires DistinctIds(found) && i < |found| && |lru| == i
      requires forall k :: 0 <= k < i ==> lru[k] == found[..i][i - 1 - k].id
      ensures found[i].id !in lru
    {
      forall k | 0 <= k < i ensures lru[k] != found[i].id {
        assert found[..i][i - 1 - k] == found[i - 1 - k];
      }
    }

    lemma {:induction false} PushedNext(f: seq<Scanned>, s: Scanned)
      ensures Pushed(f + [s]) == [s.id] + Pushed(f)
    {
      assert (f + [s])[..|f|] == f;
    }

    lemma {:induction false} FillEntries(found: seq<Scanned>, i: nat, index: map<BlobId, Entry>)
      requires DistinctIds(found) && i < |found|
      requires var f := found[..i];
        forall k :: 0 <= k < |f| ==> f[k].id in index && index[f[k].id] == Entry(f[k].size, f[k].mod)
      ensures var g := found[..i + 1]; var index' := index[found[i].id := Entry(found[i].size, found[i].mod)];
        forall k :: 0 <= k < |g| ==> g[k].id in index' && index'[g[k].id] == Entry(g[k].size, g[k].mod)
    {
      var f, g := found[..i], found[..i + 1];
      var index' := index[found[i].id := Entry(found[i].size, found[i].mod)];
      forall k | 0 <= k < |g| ensures g[k].id in index' && index'[g[k].id] == Entry(g[k].size, g[k].mod) {
        if k < i {
          assert f[k] == g[k] == found[k];
        }
      }
    }

    lemma {:induction false} FillAll(found: seq<Scanned>, lru: seq<BlobId>, index: map<BlobId, Entry>, total: int,
            dir: map<BlobId, Bytes>, mods: map<BlobId, int>)
      requires dir.Keys <= mods.Keys && ScanOf(found, dir, mods) && Filled(found, lru, index, total)
      ensures lru == Pushed(found) && index == EntriesOf(dir, mods) && CacheOk(dir, index, lru, total)
    {
      PushedAt(found);
      hide Pushed, SizeOf;
      forall id ensures id in index <==> id in dir {
        if id in dir {
          var x := Scanned(id, |dir[id]|, mods[id]);
          var k :| 0 <= k < |found| && found[k] == x;
        }
        if id in index {
          var k :| 0 <= k < |lru| && lru[k] == id;
          assert found[|found| - 1 - k] in found;
        }
      }
      forall id | id in index ensures index[id] == Entry(|dir[id]|, mods[id]) {
        var x := Scanned(id, |dir[id]|, mods[id]);
        var k :| 0 <= k < |found| && found[k] == x;
      }
    }

    /** removeLocked. The running total never goes negative, so its clamp never fires. */
    method RemoveEntry(id: BlobId)
      requires Valid() && id in index
      modifies this
      ensures Valid() && index == old(index) - {id} && dir == old(dir) - {id}
      ensures lru == Removed(old(lru), id) && total == old(total) - old(index)[id].size
      ensures old(Recent(lru, index)) ==> Recent(lru, index)
    {
      hide SizeOf, Removed;
      RemovedIs(lru, id, index);
      SizeOfSame(Removed(lru, id), index, index - {id});
      dir := dir - {id};
      var size := index[id].size;
      lru := Removed(lru, id);
      index := index - {id};
      total := if total - size < 0 then 0 else total - size;
    }

    /** evictLocked: afterwards the entries are the longest most-recent prefix that fits. */
    method Evict()
      requires Valid()
      modifies this
      ensures Valid() && index == Only(old(index), lru) && dir == old(dir) - (old(index).Keys - index.Keys)
      ensures maxBytes <= 0 ==> lru == old(lru)
      ensures maxBytes > 0 ==> total <= maxBytes && LongestFit(lru, old(lru), old(index), maxBytes)
      ensures old(Recent(lru, index)) ==> Recent(lru, index)
    {
      hide SizeOf, Removed, Evicting, LongestFit, Recent, Distinct;
      ghost var all, before := lru, index;
      EvictStart(lru, index, maxBytes);
      assert dir == dir - (index.Keys - index.Keys);
      if maxBytes <= 0 {
        return;
      }
      while total > maxBytes
        invariant Valid() && Evicting(all, before, lru, index, maxBytes)
        invariant dir == old(dir) - (before.Keys - index.Keys)
        invariant old(Recent(lru, index)) ==> Recent(lru, index)
        decreases |lru|
      {
        if lru == [] {
          Empty(index);
          return;
        }
        EvictStep(all, before, lru, index, maxBytes);
        RemoveEntry(lru[|lru| - 1]);
      }
      EvictEnd(all, before, lru, index, maxBytes);
    }

    /** lru is a prefix of all, index its entries, and no longer prefix fits. */
    ghost predicate Evicting(all: seq<BlobId>, before: map<BlobId, Entry>, lru: seq<BlobId>, index: map<BlobId, Entry>,
            max: int)
    {
      && lru <= all && (forall id :: id in all ==> id in before) && Distinct(all) && index == Only(before, lru)
      && (forall id :: id in lru ==> id in all)
      && forall k :: |lru| < k <= |all| ==> SizeOf(all[..k], before) > max
    }

    lemma {:induction false} EvictStart(all: seq<BlobId>, before: map<BlobId, Entry>, max: int)
      requires Distinct(all) && forall id :: id in all <==> id in before
      ensures Evicting(all, before, all, before, max) && before == Only(before, all)
    {
    }

    lemma {:induction false} EvictStep(all: seq<BlobId>, before: map<BlobId, Entry>, lru: seq<BlobId>,
            index: map<BlobId, Entry>, max: int)
      requires Evicting(all, before, lru, index, max) && lru != [] && Distinct(lru)
      requires (forall id :: id in lru <==> id in index) && SizeOf(lru, index) > max
      ensures var id := lru[|lru| - 1]; var rest := Removed(lru, id);
        && id in index && rest == lru[..|lru| - 1] && Evicting(all, before, rest, index - {id}, max)
        && before.Keys - (index - {id}).Keys == (before.Keys - index.Keys) + {id}
    {
      hide SizeOf, Removed;
      EvictOne(all, before, lru, index);
      var rest := lru[..|lru| - 1];
      forall k | |rest| < k <= |all| ensures SizeOf(all[..k], before) > max {
        if k == |lru| {
          assert SizeOf(all[..|lru|], before) == SizeOf(lru, index);
        }
      }
      assert lru[|lru| - 1] in lru;
    }

    lemma {:induction false} EvictEnd(all: seq<BlobId>, before: map<BlobId, Entry>, lru: seq<BlobId>,
            index: map<BlobId, Entry>, max: int)
      requires Evicting(all, before, lru, index, max)
      requires (forall id :: id in lru <==> id in index) && SizeOf(lru, index) <= max
      ensures LongestFit(lru, all, before, max) && index == Only(before, lru)
    {
      hide SizeOf;
      SizeOfSame(lru, index, before);
    }

    lemma {:induction false} EvictOne(all: seq<BlobId>, before: map<BlobId, Entry>, lru: seq<BlobId>,
            index: map<BlobId, Entry>)
      requires Distinct(all) && (forall id :: id in all ==> id in before) && lru <= all && lru != []
      requires Distinct(lru) && (forall id :: id in lru <==> id in index) && index == Only(before, lru)
      ensures var id := lru[|lru| - 1]; var rest := Removed(lru, id);
        && rest == lru[..|lru| - 1] && rest <= all && index - {id} == Only(before, rest)
        && SizeOf(all[..|lru|], before) == SizeOf(lru, index)
        && before.Keys - (index - {id}).Keys == (before.Keys - index.Keys) + {id}
    {
      hide SizeOf, Removed;
      var id := lru[|lru| - 1];
      assert id in lru;
      RemovedIs(lru, id, index);
      SizeOfSame(lru, index, before);
      assert lru == all[..|lru|];
    }

    lemma {:induction false} Empty(index: map<BlobId, Entry>)
      ensures SizeOf([], index) == 0
    {
    }

    /** Get: the bytes of the file, promoted to most recent; an entry whose file vanished is dropped. */
    method Get(id: BlobId, now: int) returns (r: Option<Bytes>)
      requires Valid()
      modifies this
      ensures Valid() && r == if id in old(index) && id in old(dir) then Some(old(dir)[id]) else None
      ensures r.None? ==> index == old(index) - {id} && (id in old(index) ==> lru == Removed(old(lru), id))
      ensures dir == old(dir)
      ensures r.Some? ==> index == old(index)[id := Entry(old(index)[id].size, now)]
      ensures r.Some? ==> lru == [id] + Removed(old(lru), id)
      ensures old(Recent(lru, index) && NotAfter(index, now)) ==> Recent(lru, index) && NotAfter(index, now)
      ensures total <= old(total)
    {
      hide SizeOf, Removed, Recent;
      if id !in index {
        assert index - {id} == index;
        return None;
      }
      if id !in dir {
        assert dir - {id} == dir;
        RemoveEntry(id);
        return None;
      }
      r := Some(dir[id]);
      Promoted(lru, id, index, index[id].size, now);
      index := index[id := index[id].(lastAccess := now)];
      lru := [id] + Removed(lru, id);
    }

    /** What moving an existing entry to the front, with a new size, does to the list. */
    lemma {:induction false} Promoted(ids: seq<BlobId>, id: BlobId, before: map<BlobId, Entry>, size: nat, now: int)
      requires Distinct(ids) && id in ids && forall x :: x in ids <==> x in before
      ensures var ids' := [id] + Removed(ids, id); var after := before[id := Entry(size, now)];
        && Distinct(ids') && (forall x :: x in ids' <==> x in after)
        && SizeOf(ids', after) == SizeOf(ids, before) - before[id].size + size
        && (Recent(ids, before) && NotAfter(before, now) ==> Recent(ids', after))
    {
      hide SizeOf, Removed, Recent;
      RemovedIs(ids, id, before);
      PushedFront(Removed(ids, id), id, before, size, now);
    }

    lemma {:induction false} PushedFront(ids: seq<BlobId>, id: BlobId, before: map<BlobId, Entry>, size: nat, now: int)
      requires Distinct(ids) && id !in ids && forall x :: x in ids ==> x in before
      ensures var ids' := [id] + ids; var after := before[id := Entry(size, now)];
        && Distinct(ids') && (forall x :: x in ids' <==> x in ids || x == id)
        && SizeOf(ids', after) == SizeOf(ids, before) + size
        && (Recent(ids, before) && NotAfter(before, now) ==> Recent(ids', after))
    {
      hide SizeOf;
      var after := before[id := Entry(size, now)];
      SizeOfConcat([id], ids, after);
      SizeOfOne(id, after);
      SizeOfSame(ids, before, after);
    }

    /** Put: the new content is the most recent entry, then entries are evicted from the back until they fit. With
        a bound, the survivors are the longest most-recent prefix that fits it; only a blob larger than the whole
        cache is itself evicted. */
    method Put(id: BlobId, bytes: Bytes, now: int)
      requires Valid()
      modifies this
      ensures Valid()
      ensures var listed := [id] + if id in old(index) then Removed(old(lru), id) else old(lru);
              var entries := old(index)[id := Entry(|bytes|, now)];
              && (forall x :: x in listed ==> x in entries) && index == Only(entries, lru)
              && (if maxBytes > 0 then LongestFit(lru, listed, entries, maxBytes) else lru == listed)
              && dir == old(dir)[id := bytes] - (entries.Keys - index.Keys)
      ensures maxBytes > 0 ==> total <= maxBytes
      ensures id in index <==> maxBytes <= 0 || |bytes| <= maxBytes
      ensures old(Recent(lru, index) && NotAfter(index, now)) ==> Recent(lru, index) && NotAfter(index, now)
    {
      hide SizeOf, Removed, Recent;
      dir := dir[id := bytes];
      if id in index {
        Promoted(lru, id, index, |bytes|, now);
        total := total + |bytes| - index[id].size;
        lru := [id] + Removed(lru, id);
      } else {
        PushedFront(lru, id, index, |bytes|, now);
        lru := [id] + lru;
        total := total + |bytes|;
      }
      index := index[id := Entry(|bytes|, now)];
      ghost var listed, entries := lru, index;
      Evict();
      if maxBytes > 0 {
        FirstFits(lru, listed, entries, maxBytes, id);
      }
    }

    lemma {:induction false} FirstFits(kept: seq<BlobId>, ids: seq<BlobId>, index: map<BlobId, Entry>, max: int,
            id: BlobId)
      requires (forall x :: x in ids ==> x in index) && ids != [] && ids[0] == id && Distinct(ids)
      requires max > 0 && LongestFit(kept, ids, index, max)
      ensures id in kept <==> index[id].size <= max
    {
      hide SizeOf;
      SizeOfOne(id, index);
      assert ids[..1] == [id];
      if kept != [] {
        assert kept[0] == id;
        assert kept == [id] + kept[1..];
        SizeOfConcat([id], kept[1..], index);
      }
    }

    method Remove(id: BlobId)
      requires Valid()
      modifies this
      ensures Valid() && index == old(index) - {id}
      ensures dir == if id in old(index) then old(dir) - {id} else old(dir)
      ensures old(Recent(lru, index)) ==> Recent(lru, index)
      ensures maxBytes > 0 && old(total) <= maxBytes ==> total <= maxBytes
    {
      if id !in index {
        assert index - {id} == index;
        return;
      }
      RemoveEntry(id);
    }

    /** Someone else deletes a file from the directory; the cache does not know. */
    method LoseFile(id: BlobId)
      requires Valid()
      modifies this`dir
      ensures Valid() && dir == old(dir) - {id}
    {
      hide SizeOf, Distinct;
      dir := dir - {id};
    }

    /** sweepIdle stops at the first entry, from the back, that is recent enough. When the list is in order of
        last access, which a monotone clock guarantees, that removes exactly the expired entries. */
    method SweepIdle(now: int)
      requires Valid()
      modifies this
      ensures Valid() && lru <= old(lru) && index == Only(old(index), lru)
      ensures dir == old(dir) - (old(index).Keys - index.Keys)
      ensures forall id :: id in old(index) && id !in index ==> old(index)[id].lastAccess < now - idleTTL
      ensures old(Recent(lru, index)) ==> Recent(lru, index)
      ensures total <= old(total)
      ensures old(Recent(lru, index)) ==>
        forall id :: id in old(index) ==> (id in index <==> old(index)[id].lastAccess >= now - idleTTL)
    {
      EvictStart(lru, index, 0);
      var cutoff := now - idleTTL;
      ghost var all, before := lru, index;
      assert Sweeping(all, before, lru, index, cutoff);
      hide SizeOf, Removed, Recent, Only, Evicting, Sweeping, Distinct;
      assert dir == old(dir) - (before.Keys - index.Keys);
      while lru != []
        invariant Valid() && Sweeping(all, before, lru, index, cutoff)
        invariant old(Recent(lru, index)) ==> Recent(lru, index)
        invariant total <= old(total) && dir == old(dir) - (before.Keys - index.Keys)
        decreases |lru|
      {
        var id := lru[|lru| - 1];
        assert id in lru;
        if index[id].lastAccess >= cutoff {
          break;
        }
        SweepOne(all, before, lru, index, cutoff);
        OneFewer(old(dir), before.Keys - index.Keys, id);
        RemoveEntry(id);
      }
      SweepEnd(all, before, lru, index, cutoff);
    }

    lemma {:induction false} OneFewer(dir: map<BlobId, Bytes>, gone: set<BlobId>, id: BlobId)
      ensures (dir - gone) - {id} == dir - (gone + {id})
    {
    }

    /** lru is a prefix of all, index its entries, and what is gone was idle. */
    ghost predicate Sweeping(all: seq<BlobId>, before: map<BlobId, Entry>, lru: seq<BlobId>, index: map<BlobId, Entry>,
            cutoff: int)
    {
      && Distinct(all) && (forall id :: id in all <==> id in before) && lru <= all && index == Only(before, lru)
      && forall id :: id in before && id !in index ==> before[id].lastAccess < cutoff
    }

    lemma {:induction false} SweepOne(all: seq<BlobId>, before: map<BlobId, Entry>, lru: seq<BlobId>,
            index: map<BlobId, Entry>, cutoff: int)
      requires Sweeping(all, before, lru, index, cutoff) && lru != [] && Distinct(lru)
      requires (forall id :: id in lru <==> id in index) && index[lru[|lru| - 1]].lastAccess < cutoff
      ensures var id := lru[|lru| - 1];
        && Sweeping(all, before, Removed(lru, id), index - {id}, cutoff)
        && before.Keys - (index - {id}).Keys == (before.Keys - index.Keys) + {id}
    {
      hide Removed;
      assert lru[|lru| - 1] in lru;
      EvictOne(all, before, lru, index);
    }

    lemma {:induction false} SweepEnd(all: seq<BlobId>, before: map<BlobId, Entry>, lru: seq<BlobId>,
            index: map<BlobId, Entry>, cutoff: int)
      requires Sweeping(all, before, lru, index, cutoff) && forall id :: id in lru <==> id in index
      requires lru != [] ==> index[lru[|lru| - 1]].lastAccess >= cutoff
      ensures lru <= all && index == Only(before, lru)
      ensures forall id :: id in before && id !in index ==> before[id].lastAccess < cutoff
      ensures Recent(all, before) ==>
        forall id :: id in before ==> (id in index <==> before[id].lastAccess >= cutoff)
    {
      if lru != [] {
        assert lru[|lru| - 1] in lru;
        AllRecent(all, before, lru, cutoff);
      }
      hide Recent, Distinct;
    }

    lemma {:induction false} AllRecent(all: seq<BlobId>, before: map<BlobId, Entry>, kept: seq<BlobId>, cutoff: int)
      requires (forall id :: id in all <==> id in before) && kept <= all && kept != []
      requires before[kept[|kept| - 1]].lastAccess >= cutoff
      ensures Recent(all, before) ==> forall id :: id in kept ==> id in before && before[id].lastAccess >= cutoff
    {
      assert forall i :: 0 <= i < |kept| ==> kept[i] == all[i];
    }
  }

  // ---- whole sequences of calls -------------------------------------------------------------------

  datatype Call =
    | GetCall(id: BlobId, now: int)
    | PutCall(id: BlobId, bytes: Bytes, now: int)
    | RemoveCall(id: BlobId, now: int)
    | SweepCall(now: int)
    | Vanish(id: BlobId, now: int)

  /** The clock does not run backwards between calls and is not behind start. */
  predicate Monotone(calls: seq<Call>, start: int) {
    forall i, j :: 0 <= i <= j < |calls| ==> start <= calls[i].now <= calls[j].now
  }

  /** A cache from its start: the rebuild, with a clock not behind any file it finds, and then any sequence of calls. */
  method ServeFromScan(cache: Cache, mods: map<BlobId, int>, calls: seq<Call>, start: int, end: int)
    requires cache.index == map[] && cache.lru == [] && cache.total == 0 && cache.dir.Keys <= mods.Keys
    requires forall id :: id in cache.dir ==> mods[id] <= start
    requires Monotone(calls, start) && start <= end && forall i :: 0 <= i < |calls| ==> calls[i].now <= end
    modifies cache
    ensures cache.Valid() && Recent(cache.lru, cache.index) && NotAfter(cache.index, end)
    ensures cache.maxBytes > 0 ==> cache.total <= cache.maxBytes
    ensures forall id :: id in cache.index ==> cache.index[id].lastAccess >= end - cache.idleTTL
  {
    hide Recent, SizeOf, Removed, LongestFit;
    ghost var all := cache.Rebuild(mods);
    Serve(cache, calls, start, end);
  }

  /** Any sequence of calls under a monotone clock, while files may vanish from the directory, on a cache in order of
      last access: it stays in that order and within its bound, so a sweep at the end leaves no expired entry, whatever
      the calls were. */
  method Serve(cache: Cache, calls: seq<Call>, start: int, end: int)
    requires cache.Valid() && Recent(cache.lru, cache.index) && NotAfter(cache.index, start)
    requires Monotone(calls, start) && start <= end && forall i :: 0 <= i < |calls| ==> calls[i].now <= end
    requires cache.maxBytes > 0 ==> cache.total <= cache.maxBytes
    modifies cache
    ensures cache.Valid() && Recent(cache.lru, cache.index) && NotAfter(cache.index, end)
    ensures cache.maxBytes > 0 ==> cache.total <= cache.maxBytes
    ensures forall id :: id in cache.index ==> cache.index[id].lastAccess >= end - cache.idleTTL
  {
    hide Recent, SizeOf, Removed, LongestFit;
    var clock := start;
    for i := 0 to |calls|
      invariant cache.Valid() && Recent(cache.lru, cache.index) && NotAfter(cache.index, clock)
      invariant start <= clock <= end && (i > 0 ==> clock == calls[i - 1].now) && (i == 0 ==> clock == start)
      invariant cache.maxBytes > 0 ==> cache.total <= cache.maxBytes
    {
      clock := calls[i].now;
      One(cache, calls[i]);
    }
    cache.SweepIdle(end);
  }

  method One(cache: Cache, call: Call)
    requires cache.Valid() && Recent(cache.lru, cache.index) && NotAfter(cache.index, call.now)
    requires cache.maxBytes > 0 ==> cache.total <= cache.maxBytes
    modifies cache
    ensures cache.Valid() && Recent(cache.lru, cache.index) && NotAfter(cache.index, call.now)
    ensures cache.maxBytes > 0 ==> cache.total <= cache.maxBytes
  {
    hide Recent, SizeOf, Removed, LongestFit;
    match call
    case GetCall(id, now) => var _ := cache.Get(id, now);
    case PutCall(id, bytes, now) => cache.Put(id, bytes, now);
    case RemoveCall(id, now) => cache.Remove(id);
    case SweepCall(now) => cache.SweepIdle(now);
    case Vanish(id, now) => cache.LoseFile(id);
  }
}
