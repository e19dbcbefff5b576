/** The transactions of the filesystem and of the packer, as their methods are specified, are the steps of the
    storage engine: what holds over its runs holds of them. */
module Bridge {
  import opened Base
  import opened Paths
  import opened Wal
  import opened Extents
  import opened Tables
  import opened Tree
  import opened Packer
  import opened World
  import opened Runs
  import G = Grace
  import Q = Quota
  import R = Reaper
  import F = FileSystem

  /** DELETE. */
  lemma {:induction false} RemoveIsStep(w: World, u: UserId, p: string)
    requires IsPath(p) && p != "/" && Key(u, p) in Keys(w.nodes)
    ensures Can(w, Remove(u, p))
    ensures var nodes' := RemoveTree(w.nodes, u, p);
            Do(w, Remove(u, p)) == w.(nodes := nodes', blobs := Settle(w.blobs, w.nodes, nodes'))
  {
    hide Settle, IsPath, RemoveTree;
  }

  /** MOVE, exactly when the destination does not contain the source. */
  lemma {:induction false} RenameIsStep(w: World, u: UserId, s: string, d: string)
    requires IsPath(s) && IsPath(d) && s != d && F.RenameOutcome(w.nodes, u, s, d).Done?
    ensures var step := Rename(u, s, d, IdAt(w.nodes, Key(u, s)), IdAt(w.nodes, Key(u, Paths.Dir(d))));
      && (Can(w, step) <==> !AtOrUnder(s, d))
      && (Can(w, step) ==>
           var nodes' := F.RenameResult(w.nodes, u, s, d);
           Do(w, step) == w.(nodes := nodes', blobs := Settle(w.blobs, w.nodes, nodes')))
  {
    hide Settle, IsPath, RenameTree, Keys, IdAt, Paths.Dir;
  }

  /** COPY of a source the destination does not contain. */
  lemma {:induction false} CopyIsStep(w: World, u: UserId, s: string, d: string, recursive: bool, overwrite: bool,
          quota: int, m: map<NodeId, NodeId>, after: Nodes, next: NodeId)
    requires IsPath(s) && IsPath(d) && s != d && F.CopyOutcome(w.nodes, u, s, d, overwrite, quota).Done?
        && !AtOrUnder(s, d)
    requires F.IsCopied(w.nodes, after, u, s, d, recursive, m)
    requires w.nextNode <= next && forall x :: x in m ==> w.nextNode <= m[x] < next
    ensures var step := Copy(u, s, d, IdAt(w.nodes, Key(u, s)), IdAt(w.nodes, Key(u, Paths.Dir(d))), recursive, m,
        after, next);
      && Can(w, step)
      && Do(w, step) == w.(nodes := after, blobs := Settle(w.blobs, w.nodes, after), nextNode := next)
  {
    hide Settle, IsPath, CopiedTree, RemoveTree, Keys, IdAt, Paths.Dir;
  }

  /** A user's root, made when it is missing. */
  lemma {:induction false} RootIsStep(w: World, u: UserId)
    ensures Can(w, MakeRoot(u)) <==> Key(u, "/") !in Keys(w.nodes)
    ensures Can(w, MakeRoot(u)) ==>
      Do(w, MakeRoot(u)) == w.(nodes := F.Rooted(w.nodes, u, w.nextNode), nextNode := w.nextNode + 1)
  {
    hide Keys, RootNode;
  }

  lemma {:induction false} RoomFor(w: World, u: UserId, p: string)
    requires IsPath(p) && p != "/" && Key(u, p) !in Keys(w.nodes) && F.IsDirAt(w.nodes, u, Paths.Dir(p))
    ensures CanAdd(w, u, p, IdAt(w.nodes, Key(u, Paths.Dir(p))))
  {
    hide IsPath, Keys, IdAt, Paths.Dir;
  }

  lemma {:induction false} MkdirIsStep(w: World, u: UserId, p: string)
    requires IsPath(p) && p != "/" && Key(u, p) !in Keys(w.nodes) && F.IsDirAt(w.nodes, u, Paths.Dir(p))
    ensures var parent := IdAt(w.nodes, Key(u, Paths.Dir(p)));
      && Can(w, Mkdir(u, p, parent))
      && Do(w, Mkdir(u, p, parent)) == w.(nodes := w.nodes[w.nextNode := DirNode(u, p, parent)],
                                          nextNode := w.nextNode + 1)
  {
    RoomFor(w, u, p);
    hide IsPath, CanAdd, IdAt, Paths.Dir, DirNode;
  }

  /** The engine after a user's root was made sure of. */
  ghost function WithRoot(w: World, u: UserId): World {
    w.(nodes := F.Rooted(w.nodes, u, w.nextNode), nextNode := F.NextId(w.nodes, u, w.nextNode))
  }

  lemma {:induction false} RootIsRun(w: World, u: UserId)
    ensures Reaches(w, WithRoot(w, u))
  {
    hide Can, Do, Reaches, Keys, RootNode;
    ReachesItself(w);
    RootIsStep(w, u);
    if Can(w, MakeRoot(u)) {
      ReachesOn(w, w, MakeRoot(u));
    }
  }

  /** MKCOL: whatever it answers, the tables it leaves are those of a run from the tables it found. */
  lemma {:induction false} MkdirIsRun(w: World, u: UserId, p: string, st: F.Status, id: NodeId, base: Nodes,
          nodes': Nodes, next: NodeId)
    requires IsPath(p) && base == if p == "/" then w.nodes else F.Rooted(w.nodes, u, w.nextNode)
    requires st == if p == "/" || Key(u, p) in Keys(base) then F.Exist
                   else if !F.IsDirAt(base, u, Paths.Dir(p)) then F.NotExist else F.Done
    requires !st.Done? ==>
      nodes' == base && next == if p == "/" then w.nextNode else F.NextId(w.nodes, u, w.nextNode)
    requires st.Done? ==>
      && id == F.NextId(w.nodes, u, w.nextNode) && next == id + 1
      && nodes' == base[id := DirNode(u, p, IdAt(base, Key(u, Paths.Dir(p))))]
    ensures Reaches(w, w.(nodes := nodes', nextNode := next))
  {
    hide Can, Do, Reaches, IsPath, Keys, IdAt, Paths.Dir, DirNode, F.Rooted, F.NextId;
    if p == "/" {
      ReachesItself(w);
      assert w.(nodes := nodes', nextNode := next) == w;
    } else {
      RootIsRun(w, u);
      if st.Done? {
        var w1 := WithRoot(w, u);
        MkdirIsStep(w1, u, p);
        ReachesOn(w, w1, Mkdir(u, p, IdAt(base, Key(u, Paths.Dir(p)))));
      }
    }
  }

  lemma {:induction false} TruncateIs(w: World, n: NodeId)
    requires n in w.nodes && !w.nodes[n].isDir
    ensures Can(w, Truncate(n)) <==> !HasLiveTrack(w, n)
    ensures var nodes' := w.nodes[n := Truncated(w.nodes[n])];
      Can(w, Truncate(n)) ==> Do(w, Truncate(n)) == w.(nodes := nodes', blobs := Settle(w.blobs, w.nodes, nodes'))
  {
    hide Settle, HasLiveTrack, Truncated;
  }

  lemma {:induction false} CreateIs(w: World, u: UserId, p: string, parent: NodeId)
    requires IsPath(p) && CanAdd(w, u, p, parent) && w.nextNode !in w.nodes
    ensures var nodes' := w.nodes[w.nextNode := FileNode(u, p, parent)];
      && Can(w, Create(u, p, parent))
      && Do(w, Create(u, p, parent)) == w.(nodes := nodes', blobs := Settle(w.blobs, w.nodes, nodes'),
          nextNode := w.nextNode + 1)
  {
    assert FileNode(u, p, parent).extents == [];
    F.SettleBare(w.blobs, w.nodes, w.nextNode, FileNode(u, p, parent));
    hide CanAdd, Settle, FileNode;
  }

  /** Opening a file for writing: a fresh row, or a truncated one exactly when no live track packs it. */
  lemma {:induction false} OpenIsStep(w: World, u: UserId, p: string)
    requires IsPath(p) && F.OpenOutcome(w.nodes, u, p, false).Done? && w.nextNode !in w.nodes
    ensures Key(u, p) !in Keys(w.nodes) ==>
      var parent := IdAt(w.nodes, Key(u, Paths.Dir(p))); var nodes' := w.nodes[w.nextNode := FileNode(u, p, parent)];
      && Can(w, Create(u, p, parent))
      && Do(w, Create(u, p, parent)) == w.(nodes := nodes', blobs := Settle(w.blobs, w.nodes, nodes'),
          nextNode := w.nextNode + 1)
    ensures Key(u, p) in Keys(w.nodes) ==>
      var n := IdAt(w.nodes, Key(u, p)); var nodes' := w.nodes[n := Truncated(w.nodes[n])];
      && (Can(w, Truncate(n)) <==> !HasLiveTrack(w, n))
      && (Can(w, Truncate(n)) ==> Do(w, Truncate(n)) == w.(nodes := nodes', blobs := Settle(w.blobs, w.nodes, nodes')))
  {
    hide Can, Do, Settle, IsPath, Keys, IdAt, Paths.Dir, HasLiveTrack, FileNode, Truncated, CanAdd;
    if Key(u, p) in Keys(w.nodes) {
      FileThere(w.nodes, u, p);
      TruncateIs(w, IdAt(w.nodes, Key(u, p)));
    } else {
      RoomFor(w, u, p);
      CreateIs(w, u, p, IdAt(w.nodes, Key(u, Paths.Dir(p))));
    }
  }

  /** A PUT's open: whatever it answers, its tables are those of a run, unless it truncates a file that a live track
      packs. */
  lemma {:induction false} OpenIsRun(w: World, u: UserId, p: string, st: F.Status, n: NodeId, base: Nodes,
          nodes': Nodes, blobs': Blobs, next: NodeId)
    requires IsPath(p) && base == F.Rooted(w.nodes, u, w.nextNode)
    requires forall x :: x in base ==> x < F.NextId(w.nodes, u, w.nextNode)
    requires UniquePaths(base) && st == F.OpenOutcome(base, u, p, false)
    requires !st.Done? ==> nodes' == base && blobs' == w.blobs
    requires st.Done? ==> n in nodes' && KeyOf(nodes'[n]) == Key(u, p) && blobs' == Settle(w.blobs, base, nodes')
    requires st.Done? && n in base ==> nodes' == base[n := Truncated(base[n])]
    requires st.Done? && n !in base ==> nodes' == base[n := FileNode(u, p, IdAt(base, Key(u, Paths.Dir(p))))]
    requires st.Done? ==> (n in base <==> Key(u, p) in Keys(base))
    requires if st.Done? && n !in base then n == F.NextId(w.nodes, u, w.nextNode) && next == n + 1
             else next == F.NextId(w.nodes, u, w.nextNode)
    requires st.Done? && n in base ==> !HasLiveTrack(w, n)
    ensures Reaches(w, w.(nodes := nodes', blobs := blobs', nextNode := next))
  {
    var w1 := WithRoot(w, u);
    assert HasLiveTrack(w1, n) <==> HasLiveTrack(w, n);
    assert n in base && st.Done? ==> KeyOf(base[n]) == Key(u, p);
    hide Can, Do, Reaches, IsPath, Keys, IdAt, Paths.Dir, FileNode, Truncated, F.IsDirAt, F.Rooted, F.NextId,
      F.OpenOutcome,
      HasLiveTrack, Settle;
    RootIsRun(w, u);
    if st.Done? {
      OpenIsStep(w1, u, p);
      if n in base {
        OnlyId(base, n, u, p);
        ReachesOn(w, w1, Truncate(n));
      } else {
        ReachesOn(w, w1, Create(u, p, IdAt(base, Key(u, Paths.Dir(p)))));
      }
    }
  }

  lemma {:induction false} OnlyId(nodes: Nodes, n: NodeId, u: UserId, p: string)
    requires UniquePaths(nodes) && n in nodes && KeyOf(nodes[n]) == Key(u, p)
    ensures Key(u, p) in Keys(nodes) && IdAt(nodes, Key(u, p)) == n
  {
    F.TheIdAt(nodes, n);
  }

  lemma {:induction false} FileThere(nodes: Nodes, u: UserId, p: string)
    requires Key(u, p) in Keys(nodes) && !F.IsDirAt(nodes, u, p)
    ensures !nodes[IdAt(nodes, Key(u, p))].isDir
  {
  }

  /** One insert of a PUT in progress, as AppendChunk computes it: a step exactly when the chunk is not oversized, and
      nothing at all when it is refused. */
  lemma {:induction false} AppendIsStep(w: World, n: NodeId, seqNo: nat, chunk: Bytes, ok: bool, nodes': Nodes)
    requires n in w.nodes ==> IsWriting(w, n) && AllFull(w.nodes[n].wal) && chunk != []
    requires ok <==> n in w.nodes && seqNo == |w.nodes[n].wal|
    requires nodes' == if ok then w.nodes[n := w.nodes[n].(wal := w.nodes[n].wal + [chunk])] else w.nodes
    ensures ok ==> (Can(w, Append(n, chunk)) <==> |chunk| <= CHUNK)
    ensures ok && |chunk| <= CHUNK ==> Do(w, Append(n, chunk)) == w.(nodes := nodes')
    ensures !ok ==> w.(nodes := nodes') == w
  {
    hide AllFull;
  }

  /** The transaction of Close, as Commit computes it: the row is closed, or the half-written row is gone. */
  lemma {:induction false} CommitIsStep(w: World, n: NodeId, u: UserId, size: nat, quota: int, st: F.Status,
          nodes': Nodes)
    requires n in w.nodes ==> IsWriting(w, n) && size == |Flatten(w.nodes[n].wal)|
    requires st == if quota > 0 && Q.Usage(w.nodes, u) + size > quota then F.QuotaExceeded
                   else if n in w.nodes then F.Done else F.Failed
    requires nodes' == if st.Done? then w.nodes[n := w.nodes[n].(state := Buffered, size := size)] else w.nodes - {n}
    ensures st.Done? ==> Can(w, Close(n)) && Do(w, Close(n)) == w.(nodes := nodes')
    ensures !st.Done? && n in w.nodes ==> Can(w, CloseFail(n)) && Do(w, CloseFail(n)) == w.(nodes := nodes')
    ensures n !in w.nodes ==> w.(nodes := nodes') == w
  {
    hide Flatten, Q.Usage;
    if n !in w.nodes {
      assert w.nodes - {n} == w.nodes;
    }
  }

  /** The packer's finalize of a decided track, as FinalizeNode computes it. */
  lemma {:induction false} FinalizeIsStep(w: World, t: TrackId, stored: bool, nodes': Nodes, blobs': Blobs)
    requires t in w.tracks && w.tracks[t].calls > 0 && !w.tracks[t].done
    requires var tr := w.tracks[t]; var n := tr.node;
      && (n in w.nodes && w.nodes[n].isDir ==> !w.nodes[n].state.Buffered?)
      && (stored <==> n in w.nodes && w.nodes[n].state.Buffered? && w.nodes[n].leaseOwner == Some(tr.packer)
                      && RowsExist(w, tr.extents))
      && nodes' == (if stored then w.nodes[n := StoredNode(w.nodes[n], tr.extents)] else w.nodes)
      && blobs' == (if stored then Settle(w.blobs, w.nodes, nodes') else w.blobs)
    ensures Can(w, Finalize(t))
    ensures Do(w, Finalize(t)) == w.(nodes := nodes', blobs := blobs',
        tracks := w.tracks[t := w.tracks[t].(done := true)])
  {
    hide Settle, StoredNode, RowsExist;
  }

  /** The perm-gone cascade. */
  lemma {:induction false} PermGoneIsStep(w: World, b: BlobId)
    requires b in w.blobs
    ensures Can(w, PermGone(b))
    ensures Do(w, PermGone(b))
         == w.(nodes := WithoutSole(w.nodes, b), blobs := w.blobs[b := w.blobs[b].(state := PermUnavailable)])
  {
    hide WithoutSole;
  }

  // ---- the reaper's batch ---------------------------------------------------------------------------

  /** Some run leads from w to w'. */
  ghost predicate Reaches(w: World, w': World) {
    exists ws, steps :: IsRun(ws, steps) && ws[0] == w && ws[|steps|] == w'
  }

  lemma {:induction false} ReachesItself(w: World)
    ensures Reaches(w, w)
  {
    assert IsRun([w], []);
  }

  lemma {:induction false} ReachesOn(w: World, mid: World, s: Step)
    requires Reaches(w, mid) && Can(mid, s)
    ensures Reaches(w, Do(mid, s))
  {
    hide Can, Do;
    var ws, steps :| IsRun(ws, steps) && ws[0] == w && ws[|steps|] == mid;
    assert IsRun(ws + [Do(mid, s)], steps + [s]);
  }

  /** What one undisturbed batch leaves of the engine. */
  function Reaped(w: World, deleted: set<BlobId>): World {
    w.(blobs := w.blobs - deleted, messages := w.messages - deleted, condemned := w.condemned - deleted)
  }

  function Elements(s: seq<BlobId>): set<BlobId> {
    set b | b in s
  }

  lemma {:induction false} DeleteRowIs(w: World, b: BlobId)
    requires b in w.condemned && b in w.blobs && !Named(w.nodes, b)
    ensures Can(w, DeleteRow(b)) && Do(w, DeleteRow(b)) == w.(blobs := w.blobs - {b}, condemned := w.condemned - {b})
  {
    hide Named;
  }

  /** One blob: listed, its message deleted, its row deleted. */
  lemma {:induction false} OneReaped(w: World, mid: World, b: BlobId)
    requires Reaches(w, mid) && Collectable(mid, b) && !Named(mid.nodes, b)
    ensures Reaches(w, Reaped(mid, {b}))
  {
    hide Can, Do, Collectable, Reaches, Named;
    G.CondemnIs(mid, b);
    ReachesOn(w, mid, Condemn(b));
    var w1 := Do(mid, Condemn(b));
    G.DeleteMessageIs(w1, b);
    ReachesOn(w, w1, DeleteMessage(b));
    var w2 := Do(w1, DeleteMessage(b));
    HasRow(mid, b);
    DeleteRowIs(w2, b);
    ReachesOn(w, w2, DeleteRow(b));
    assert w2.condemned - {b} == mid.condemned - {b};
    assert Do(w2, DeleteRow(b)) == Reaped(mid, {b});
  }

  lemma {:induction false} HasRow(w: World, b: BlobId)
    requires Collectable(w, b)
    ensures b in w.blobs
  {
  }

  lemma {:induction false} StillCollectable(w: World, deleted: set<BlobId>, b: BlobId)
    requires Collectable(w, b) && b !in deleted
    ensures Collectable(Reaped(w, deleted), b)
  {
  }

  /** The reaper's batch: deleting distinct collectable rows and their messages is a run of the engine. */
  lemma {:induction false} ReapIsRun(w: World, deleted: seq<BlobId>)
    requires RefsOk(w.nodes, w.blobs)
    requires forall i :: 0 <= i < |deleted| ==> Collectable(w, deleted[i])
    requires Distinct(deleted)
    ensures Reaches(w, Reaped(w, Elements(deleted)))
    decreases |deleted|
  {
    hide Reaches, Collectable, Named, RefsOk;
    if deleted == [] {
      ReachesItself(w);
      assert Reaped(w, Elements(deleted)) == w;
    } else {
      var init, b := deleted[..|deleted| - 1], deleted[|deleted| - 1];
      ReapIsRun(w, init);
      var gone := Elements(init);
      assert Elements(deleted) == gone + {b} by { assert deleted == init + [b]; }
      Uncounted(w, b);
      StillCollectable(w, gone, b);
      OneReaped(w, Reaped(w, gone), b);
      ReapedTwice(w, gone, {b});
    }
  }

  lemma {:induction false} ReapedTwice(w: World, some: set<BlobId>, more: set<BlobId>)
    ensures Reaped(Reaped(w, some), more) == Reaped(w, some + more)
  {
    var a, b := Reaped(Reaped(w, some), more), Reaped(w, some + more);
    assert a.blobs == b.blobs && a.messages == b.messages && a.condemned == b.condemned;
  }

  lemma {:induction false} Uncounted(w: World, b: BlobId)
    requires RefsOk(w.nodes, w.blobs) && Collectable(w, b)
    ensures !Named(w.nodes, b)
  {
    RefsNamed(w.nodes, b);
    assert RefOk(w.blobs[b], Refs(w.nodes, b));
  }

  lemma {:induction false} GoneIs(batch: seq<BlobId>, attempt: BlobId -> R.Attempt)
    requires Distinct(batch)
    ensures Distinct(R.GoneOf(batch, attempt)) && forall b :: b in R.GoneOf(batch, attempt) ==> b in batch
    decreases |batch|
  {
    if batch != [] {
      var init := batch[..|batch| - 1];
      GoneIs(init, attempt);
      assert batch == init + [batch[|batch| - 1]];
      assert batch[|batch| - 1] !in init by {
        assert forall i :: 0 <= i < |init| ==> init[i] == batch[i];
      }
    }
  }

  /** What Reap leaves is a run of the engine from what it found: its batch is a listing, and the deleted rows are those
      of the batch, up to the first rate limit, whose message is gone. */
  lemma {:induction false} BatchIsRun(w: World, limit: nat, batch: seq<BlobId>, k: nat, attempt: BlobId -> R.Attempt,
          deleted: seq<BlobId>)
    requires RefsOk(w.nodes, w.blobs) && R.IsListing(batch, w.blobs, w.now, limit)
    requires k <= |batch| && R.Reaped(batch[..k], attempt, deleted)
    ensures Reaches(w, w.(blobs := w.blobs - Elements(deleted), messages := w.messages - Elements(deleted),
                          condemned := w.condemned - Elements(deleted)))
  {
    GoneIs(batch[..k], attempt);
    forall i | 0 <= i < |deleted| ensures Collectable(w, deleted[i]) {
      assert deleted[i] in batch[..k] && deleted[i] in batch;
    }
    hide Reaches, Collectable, RefsOk;
    ReapIsRun(w, deleted);
  }
}
