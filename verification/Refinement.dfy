/** The storage engine refines a map from paths to contents: each filesystem transaction is one update of
    the map, and packing, uploading, finalizing, leasing, crashing, evicting and reaping never show. */
module Refinement {
  import opened Base
  import opened Paths
  import opened Wal
  import opened Extents
  import opened Tables
  import opened Tree
  import opened Packer
  import opened World
  import opened Invariant
  import opened Safety
  import opened DataPath
  import opened Lifecycle
  import opened Runs

  /** What one step does to the map. */
  datatype Op =
    | Stay
    | Put(k: Key, e: Entry)
    | Erase(keys: set<Key>)
    | Clear(u: UserId, p: string)
    | Move(u: UserId, s: string, d: string)
    | Duplicate(u: UserId, s: string, d: string, recursive: bool)

  ghost function ApplyOp(v: View, op: Op): View {
    match op
    case Stay => v
    case Put(k, e) => v[k := e]
    case Erase(keys) => v - keys
    case Clear(u, p) => ViewRemove(v, u, p)
    case Move(u, s, d) => ViewRename(v, u, s, d)
    case Duplicate(u, s, d, recursive) => ViewCopy(ViewRemove(v, u, d), u, s, d, recursive)
  }

  ghost function SoleKeys(nodes: Nodes, b: BlobId): set<Key> {
    set n | n in nodes && SolelyOn(nodes[n], b) :: KeyOf(nodes[n])
  }

  ghost function OpOf(w: World, s: Step): Op
    requires Can(w, s)
  {
    match s
    case MakeRoot(u) => Put(Key(u, "/"), Dir)
    case Mkdir(u, p, parent) => Put(Key(u, p), Dir)
    case Create(u, p, parent) => Put(Key(u, p), File([]))
    case Truncate(n) => Put(KeyOf(w.nodes[n]), File([]))
    case Close(n) => Put(KeyOf(w.nodes[n]), File(Flatten(w.nodes[n].wal)))
    case CloseFail(n) => Erase({KeyOf(w.nodes[n])})
    case PermGone(b) => Erase(SoleKeys(w.nodes, b))
    case Remove(u, p) => Clear(u, p)
    case Rename(u, src, d, top, parent) => Move(u, src, d)
    case Copy(u, src, d, top, parent, recursive, m, after, next) => Duplicate(u, src, d, recursive)
    case _ => Stay
  }

  ghost function Seen(w: World): View
    requires Inv(w)
  {
    ViewOf(w.nodes, w.data)
  }

  // ---- views that differ in at most one entry ----------------------------------------------------

  lemma {:induction false} ViewSame(nodes: Nodes, data: Data, nodes': Nodes, data': Data)
    requires UniquePaths(nodes) && UniquePaths(nodes') && NodesOk(nodes, data) && NodesOk(nodes', data')
    requires nodes'.Keys == nodes.Keys
    requires forall n :: n in nodes ==>
      KeyOf(nodes'[n]) == KeyOf(nodes[n]) && EntryOf(nodes'[n], data') == EntryOf(nodes[n], data)
    ensures ViewOf(nodes', data') == ViewOf(nodes, data)
  {
    hide EntryOf, NodeOk, UniquePaths;
    var v := ViewOf(nodes, data);
    forall n | n in nodes' ensures KeyOf(nodes'[n]) in v && v[KeyOf(nodes'[n])] == EntryOf(nodes'[n], data') {
      ViewAt(nodes, data, n);
    }
    forall k | k in v ensures k in Keys(nodes') {
      var n := IdAt(nodes, k);
      assert KeyOf(nodes'[n]) == k;
    }
    ViewIs(nodes', data', v);
  }

  lemma {:induction false} ViewPutNode(nodes: Nodes, data: Data, n: NodeId, nd: Node)
    requires UniquePaths(nodes) && UniquePaths(nodes[n := nd]) && NodesOk(nodes, data) && NodeOk(nd, data)
    requires n in nodes ==> KeyOf(nodes[n]) == KeyOf(nd)
    requires NodesOk(nodes[n := nd], data)
    ensures ViewOf(nodes[n := nd], data) == ViewOf(nodes, data)[KeyOf(nd) := EntryOf(nd, data)]
  {
    var nodes' := nodes[n := nd];
    var v := ViewOf(nodes, data)[KeyOf(nd) := EntryOf(nd, data)];
    forall x | x in nodes' ensures KeyOf(nodes'[x]) in v && v[KeyOf(nodes'[x])] == EntryOf(nodes'[x], data) {
      if x != n {
        ViewAt(nodes, data, x);
        assert KeyOf(nodes'[x]) != KeyOf(nodes'[n]);
      }
    }
    forall k | k in v ensures k in Keys(nodes') {
      if k != KeyOf(nd) {
        var x := IdAt(nodes, k);
        assert x in nodes' && KeyOf(nodes'[x]) == k;
      } else {
        assert KeyOf(nodes'[n]) == k;
      }
    }
    hide EntryOf, NodeOk, Keys;
    ViewIs(nodes', data, v);
  }

  lemma {:induction false} ViewErase(nodes: Nodes, data: Data, nodes': Nodes, keys: set<Key>)
    requires UniquePaths(nodes) && NodesOk(nodes, data) && NodesOk(nodes', data)
    requires nodes'.Keys <= nodes.Keys && forall n :: n in nodes' ==> nodes'[n] == nodes[n]
    requires forall n :: n in nodes ==> (n !in nodes' <==> KeyOf(nodes[n]) in keys)
    ensures ViewOf(nodes', data) == ViewOf(nodes, data) - keys
  {
    hide EntryOf, NodeOk;
    var v := ViewOf(nodes, data) - keys;
    forall x | x in nodes' ensures KeyOf(nodes'[x]) in v && v[KeyOf(nodes'[x])] == EntryOf(nodes'[x], data) {
      ViewAt(nodes, data, x);
    }
    forall k | k in v ensures k in Keys(nodes') {
      var x := IdAt(nodes, k);
      assert x in nodes';
    }
    ViewIs(nodes', data, v);
  }

  lemma {:induction false} DataGrowth(nodes: Nodes, data: Data, more: Data)
    requires UniquePaths(nodes) && NodesOk(nodes, data) && Grows(data, more)
    ensures NodesOk(nodes, more) && ViewOf(nodes, more) == ViewOf(nodes, data)
  {
    NodesMonotone(nodes, data, more);
    forall n | n in nodes ensures EntryOf(nodes[n], more) == EntryOf(nodes[n], data) {
      ContentMonotone(nodes[n], data, more);
    }
    hide EntryOf, NodeOk, NodesOk, UniquePaths;
    ViewSame(nodes, data, nodes, more);
  }

  // ---- one step -----------------------------------------------------------------------------------

  lemma {:induction false} AddRefines(w: World, nd: Node)
    requires Inv(w) && Inv(Added(w, nd)) && NodeOk(nd, w.data)
    ensures Seen(Added(w, nd)) == Seen(w)[KeyOf(nd) := EntryOf(nd, w.data)]
  {
    assert w.nextNode !in w.nodes;
    hide RefsOk, LinksOk, Handshake, TracksInv, RowInv, ReapInv, EntryOf, NodeOk, NodesOk, ParentOk;
    ViewPutNode(w.nodes, w.data, w.nextNode, nd);
  }

  lemma {:induction false} WriteRefines(w: World, n: NodeId, nd: Node, w': World)
    requires Inv(w) && Inv(w') && n in w.nodes && w'.nodes == w.nodes[n := nd] && w'.data == w.data
    requires KeyOf(nd) == KeyOf(w.nodes[n]) && NodeOk(nd, w.data)
    ensures Seen(w') == Seen(w)[KeyOf(nd) := EntryOf(nd, w.data)]
  {
    hide RefsOk, LinksOk, Handshake, TracksInv, RowInv, ReapInv, EntryOf, NodeOk, NodesOk, ParentOk;
    ViewPutNode(w.nodes, w.data, n, nd);
  }

  lemma {:induction false} SilentWrite(w: World, n: NodeId, nd: Node, w': World)
    requires Inv(w) && Inv(w') && n in w.nodes && w'.nodes == w.nodes[n := nd] && w'.data == w.data
    requires KeyOf(nd) == KeyOf(w.nodes[n]) && NodeOk(nd, w.data) && NodeOk(w.nodes[n], w.data)
    requires EntryOf(nd, w.data) == EntryOf(w.nodes[n], w.data)
    ensures Seen(w') == Seen(w)
  {
    hide RefsOk, LinksOk, Handshake, TracksInv, RowInv, ReapInv, EntryOf, NodeOk, ParentOk;
    ViewSame(w.nodes, w.data, w'.nodes, w'.data);
  }

  lemma {:induction false} CloseRefines(w: World, n: NodeId)
    requires Inv(w) && IsWriting(w, n) && Inv(w.(nodes := w.nodes[n := Closed(w.nodes[n])]))
    ensures Seen(w.(nodes := w.nodes[n := Closed(w.nodes[n])]))
         == Seen(w)[KeyOf(w.nodes[n]) := File(Flatten(w.nodes[n].wal))]
  {
    NodeOf(w, n);
    var nd := w.nodes[n];
    assert Flatten(nd.wal)[..|Flatten(nd.wal)|] == Flatten(nd.wal);
    assert EntryOf(Closed(nd), w.data) == File(Flatten(nd.wal));
    hide Inv, Flatten;
    WriteRefines(w, n, Closed(nd), w.(nodes := w.nodes[n := Closed(nd)]));
  }

  lemma {:induction false} AppendRefines(w: World, n: NodeId, chunk: Bytes)
    requires Inv(w) && IsWriting(w, n) && AllFull(w.nodes[n].wal) && 0 < |chunk| <= CHUNK
    requires Inv(w.(nodes := w.nodes[n := w.nodes[n].(wal := w.nodes[n].wal + [chunk])]))
    ensures Seen(w.(nodes := w.nodes[n := w.nodes[n].(wal := w.nodes[n].wal + [chunk])])) == Seen(w)
  {
    var nd := w.nodes[n].(wal := w.nodes[n].wal + [chunk]);
    NodeOf(w, n);
    assert NodeOk(nd, w.data) && Flatten(nd.wal)[..0] == [] == Flatten(w.nodes[n].wal)[..0];
    hide Inv, Flatten;
    SilentWrite(w, n, nd, w.(nodes := w.nodes[n := nd]));
  }

  lemma {:induction false} TruncateRefines(w: World, n: NodeId)
    requires Inv(w) && n in w.nodes && !w.nodes[n].isDir && Inv(WithNodes(w, w.nodes[n := Truncated(w.nodes[n])]))
    ensures Seen(WithNodes(w, w.nodes[n := Truncated(w.nodes[n])])) == Seen(w)[KeyOf(w.nodes[n]) := File([])]
  {
    FlattenNil();
    hide Inv, Flatten, Settle;
    WriteRefines(w, n, Truncated(w.nodes[n]), WithNodes(w, w.nodes[n := Truncated(w.nodes[n])]));
  }

  lemma {:induction false} NewRefines(w: World, u: UserId, p: string, parent: NodeId)
    requires Inv(w) && IsPath(p)
    requires Inv(Added(w, DirNode(u, p, parent))) && Inv(Added(w, FileNode(u, p, parent)))
    ensures Seen(Added(w, DirNode(u, p, parent))) == Seen(w)[Key(u, p) := Dir]
    ensures Seen(Added(w, FileNode(u, p, parent))) == Seen(w)[Key(u, p) := File([])]
  {
    FlattenNil();
    hide Inv, Flatten, IsPath, Added, BaseName, Seen;
    AddRefines(w, DirNode(u, p, parent));
    AddRefines(w, FileNode(u, p, parent));
  }

  lemma {:induction false} FsRefines(w: World, s: Step)
    requires Inv(w) && Can(w, s) && Inv(Do(w, s))
    requires s.MakeRoot? || s.Mkdir? || s.Create? || s.Truncate? || s.Append? || s.Close?
    ensures Seen(Do(w, s)) == ApplyOp(Seen(w), OpOf(w, s))
  {
    hide Inv, Seen, Added, Closed, Truncated, WithNodes, DirNode, FileNode, AllFull, FreeKey, HasLiveTrack, IsPath;
    match s
    case MakeRoot(u) => AddRefines(w, RootNode(u));
    case Mkdir(u, p, parent) => AddStep(w, u, p, parent); CanAddPath(w, u, p, parent); NewRefines(w, u, p, parent);
    case Create(u, p, parent) => AddStep(w, u, p, parent); CanAddPath(w, u, p, parent); NewRefines(w, u, p, parent);
    case Truncate(n) => TruncateRefines(w, n);
    case Append(n, chunk) => AppendRefines(w, n, chunk);
    case Close(n) => CloseRefines(w, n);
  }

  lemma {:induction false} CanAddPath(w: World, u: UserId, p: string, parent: NodeId)
    requires CanAdd(w, u, p, parent)
    ensures IsPath(p)
  {
  }

  lemma {:induction false} DropRefines(w: World, n: NodeId)
    requires Inv(w) && IsWriting(w, n) && Inv(w.(nodes := w.nodes - {n}))
    ensures Seen(w.(nodes := w.nodes - {n})) == Seen(w) - {KeyOf(w.nodes[n])}
  {
    hide RefsOk, LinksOk, Handshake, TracksInv, RowInv, ReapInv, ParentOk, NodesOk;
    ViewErase(w.nodes, w.data, w.nodes - {n}, {KeyOf(w.nodes[n])});
  }

  lemma {:induction false} SoleRefines(w: World, b: BlobId, w': World)
    requires Inv(w) && Inv(w') && w'.nodes == WithoutSole(w.nodes, b) && w'.data == w.data
    ensures Seen(w') == Seen(w) - SoleKeys(w.nodes, b)
  {
    hide RefsOk, LinksOk, Handshake, TracksInv, RowInv, ReapInv, ParentOk, NodesOk, SolelyOn;
    SoleKeysExact(w.nodes, b);
    ViewErase(w.nodes, w.data, w'.nodes, SoleKeys(w.nodes, b));
  }

  lemma {:induction false} EraseRefines(w: World, s: Step)
    requires Inv(w) && Can(w, s) && Inv(Do(w, s)) && (s.CloseFail? || s.PermGone?)
    ensures Seen(Do(w, s)) == ApplyOp(Seen(w), OpOf(w, s))
  {
    hide Inv, Seen, WithoutSole, SoleKeys;
    match s
    case CloseFail(n) => DropRefines(w, n);
    case PermGone(b) => SoleRefines(w, b, Do(w, s));
  }

  lemma {:induction false} SoleKeysExact(nodes: Nodes, b: BlobId)
    requires UniquePaths(nodes)
    ensures forall n :: n in nodes ==> (n !in WithoutSole(nodes, b) <==> KeyOf(nodes[n]) in SoleKeys(nodes, b))
  {
  }

  lemma {:induction false} SeenIs(w: World, nodes': Nodes, blobs': Blobs, next: NodeId)
    requires Inv(w) && Inv(w.(nodes := nodes', blobs := blobs', nextNode := next))
    ensures TreeOk(w.nodes) && NodesOk(w.nodes, w.data) && NodesOk(nodes', w.data)
    ensures Seen(w) == ViewOf(w.nodes, w.data)
    ensures Seen(w.(nodes := nodes', blobs := blobs', nextNode := next)) == ViewOf(nodes', w.data)
  {
    hide RefsOk, LinksOk, Handshake, TracksInv, RowInv, ReapInv, TreeOk, NodesOk, ViewOf;
  }

  lemma {:induction false} RemoveRefines(w: World, u: UserId, p: string)
    requires Inv(w) && Inv(WithNodes(w, RemoveTree(w.nodes, u, p)))
    ensures Seen(WithNodes(w, RemoveTree(w.nodes, u, p))) == ViewRemove(Seen(w), u, p)
  {
    hide Inv, RemoveTree, ViewRemove, Settle, TreeOk, NodesOk, ViewOf, Seen;
    var nodes' := RemoveTree(w.nodes, u, p);
    SeenIs(w, nodes', Settle(w.blobs, w.nodes, nodes'), w.nextNode);
    assert WithNodes(w, nodes') == w.(nodes := nodes', blobs := Settle(w.blobs, w.nodes, nodes'),
      nextNode := w.nextNode);
    RemoveView(w.nodes, w.data, u, p);
  }

  lemma {:induction false} RenameRefines(w: World, u: UserId, s: string, d: string, top: NodeId, parent: NodeId)
    requires Inv(w) && Relocatable(w.nodes, u, s, d, top, parent)
    requires Inv(WithNodes(w, RenameTree(w.nodes, u, s, d, top, parent)))
    ensures Seen(WithNodes(w, RenameTree(w.nodes, u, s, d, top, parent))) == ViewRename(Seen(w), u, s, d)
  {
    assert IsPath(d);
    hide Inv, RenameTree, ViewRename, Settle, TreeOk, NodesOk, ViewOf, Seen, Relocatable, IsPath;
    var nodes' := RenameTree(w.nodes, u, s, d, top, parent);
    SeenIs(w, nodes', Settle(w.blobs, w.nodes, nodes'), w.nextNode);
    assert WithNodes(w, nodes') == w.(nodes := nodes', blobs := Settle(w.blobs, w.nodes, nodes'),
      nextNode := w.nextNode);
    RenameView(w.nodes, w.data, u, s, d, top, parent);
  }

  lemma {:induction false} CopySeen(w: World, u: UserId, s: string, d: string, top: NodeId, parent: NodeId,
          recursive: bool, m: map<NodeId, NodeId>, after: Nodes, next: NodeId)
    requires Inv(w) && Relocatable(w.nodes, u, s, d, top, parent)
    requires CopiedTree(RemoveTree(w.nodes, u, d), after, u, s, d, top, parent, recursive, m)
    requires Inv(WithNodes(w, after).(nextNode := next))
    ensures Seen(WithNodes(w, after).(nextNode := next)) == ViewCopy(ViewRemove(Seen(w), u, d), u, s, d, recursive)
  {
    assert IsPath(d);
    hide Inv, RemoveTree, ViewCopy, ViewRemove, Settle, TreeOk, NodesOk, ViewOf, Seen, Relocatable, CopiedTree, IsPath;
    SeenIs(w, after, Settle(w.blobs, w.nodes, after), next);
    assert WithNodes(w, after).(nextNode := next)
        == w.(nodes := after, blobs := Settle(w.blobs, w.nodes, after), nextNode := next);
    CopyRefines(w.nodes, w.data, u, s, d, top, parent, recursive, m, after);
  }

  lemma {:induction false} TreeRefines(w: World, s: Step)
    requires Inv(w) && Can(w, s) && Inv(Do(w, s)) && (s.Remove? || s.Rename? || s.Copy?)
    ensures Seen(Do(w, s)) == ApplyOp(Seen(w), OpOf(w, s))
  {
    hide Inv, Seen, Relocatable, CopiedTree, RenameTree, RemoveTree, ViewCopy, ViewRemove, ViewRename, WithNodes, Keys,
      IsPath;
    match s
    case Remove(u, p) => RemoveRefines(w, u, p);
    case Rename(u, src, d, top, parent) => RenameRefines(w, u, src, d, top, parent);
    case Copy(u, src, d, top, parent, recursive, m, after, next) =>
      CopySeen(w, u, src, d, top, parent, recursive, m, after, next);
  }

  lemma {:induction false} CopyRefines(nodes: Nodes, data: Data, u: UserId, s: string, d: string, top: NodeId,
          parent: NodeId, recursive: bool, m: map<NodeId, NodeId>, after: Nodes)
    requires TreeOk(nodes) && NodesOk(nodes, data) && Relocatable(nodes, u, s, d, top, parent)
    requires CopiedTree(RemoveTree(nodes, u, d), after, u, s, d, top, parent, recursive, m)
    ensures NodesOk(after, data)
    ensures ViewOf(after, data) == ViewCopy(ViewRemove(ViewOf(nodes, data), u, d), u, s, d, recursive)
  {
    assert IsPath(d) && d != "/";
    hide TreeOk, NodesOk, Relocatable, CopiedTree, RemoveTree, ViewCopy, ViewRemove, ViewOf, IsPath;
    RemoveOk(nodes, u, d);
    RemoveView(nodes, data, u, d);
    RelocatableAfterRemove(nodes, u, s, d, top, parent);
    CopyView(RemoveTree(nodes, u, d), after, data, u, s, d, top, parent, recursive, m);
  }

  lemma {:induction false} QuietRefines(w: World, w': World)
    requires Inv(w) && Inv(w') && w'.nodes == w.nodes && Grows(w.data, w'.data)
    ensures Seen(w') == Seen(w)
  {
    hide RefsOk, LinksOk, Handshake, TracksInv, RowInv, ReapInv, ParentOk;
    DataGrowth(w.nodes, w.data, w'.data);
  }

  lemma {:induction false} LeaseRefines(w: World, s: Step)
    requires Inv(w) && Can(w, s) && Inv(Do(w, s)) && (s.Claim? || s.Release?)
    ensures Seen(Do(w, s)) == Seen(w)
  {
    NodeOf(w, s.n);
    hide Inv;
    SilentWrite(w, s.n, Do(w, s).nodes[s.n], Do(w, s));
  }

  lemma {:induction false} FinalizeRefines(w: World, t: TrackId)
    requires Inv(w) && t in w.tracks && w.tracks[t].calls > 0 && !w.tracks[t].done && Inv(DoFinalize(w, t))
    ensures Seen(DoFinalize(w, t)) == Seen(w)
  {
    var tr := w.tracks[t];
    if Owned(w, tr) && RowsExist(w, tr.extents) {
      PlannedFits(w, t);
      assert !w.nodes[tr.node].isDir;
      hide Inv, NodeOk, Content, Settle, Seen, RowsExist;
      SilentWrite(w, tr.node, StoredNode(w.nodes[tr.node], tr.extents), DoFinalize(w, t));
    } else {
      hide Inv;
      QuietRefines(w, DoFinalize(w, t));
    }
  }

  lemma {:induction false} StoreEmptyRefines(w: World, t: TrackId)
    requires Inv(w) && t in w.tracks && w.tracks[t].stage.Claimed? && Live(w.tracks[t]) && w.tracks[t].size == 0
    requires Inv(DoStoreEmpty(w, t))
    ensures Seen(DoStoreEmpty(w, t)) == Seen(w)
  {
    var tr := w.tracks[t];
    if Owned(w, tr) {
      EmptyFits(w, t);
      hide Inv, NodeOk, Content, Seen, Live;
      SilentWrite(w, tr.node, StoredNode(w.nodes[tr.node], w.nodes[tr.node].extents), DoStoreEmpty(w, t));
    } else {
      hide Inv;
      QuietRefines(w, DoStoreEmpty(w, t));
    }
  }

  predicate IsVisible(s: Step) {
    IsFs(s) || s.PermGone?
  }

  predicate TouchesNodes(s: Step) {
    IsVisible(s) || s.Claim? || s.Release? || s.Finalize? || s.StoreEmpty?
  }

  lemma {:induction false} QuietRows(w: World, s: Step)
    requires Can(w, s) && !TouchesNodes(s) && (IsRows(s) || IsReaper(s) || IsBuilder(s))
    ensures Do(w, s).nodes == w.nodes && Do(w, s).data == w.data && OpOf(w, s) == Stay
  {
    hide DropTrack, Evicted, Downed, Upped, Named, InGrace;
  }

  lemma {:induction false} QuietEmit(w: World, s: Step)
    requires Can(w, s) && (s.SplitEmit? || s.Seal?)
    ensures Do(w, s).nodes == w.nodes && Grows(w.data, Do(w, s).data) && OpOf(w, s) == Stay
  {
    hide ReadRange, Covered, EmitPiece, BufOf, WalOf, Sealed, RunOf;
  }

  lemma {:induction false} QuietPlanner(w: World, s: Step)
    requires Can(w, s) && IsPlanner(s) && !s.SplitEmit? && !s.Seal?
    ensures Do(w, s).nodes == w.nodes && Do(w, s).data == w.data && OpOf(w, s) == Stay
  {
    hide ReadRange, Covered, PlanTrack, BufOf, WalOf, SealDropped, PlannedAll, RunOf;
  }

  lemma {:induction false} QuietWorker(w: World, s: Step)
    requires Can(w, s) && !TouchesNodes(s) && !IsRows(s) && !IsReaper(s) && !IsBuilder(s) && !IsPlanner(s)
    ensures Do(w, s).nodes == w.nodes && Do(w, s).data == w.data && OpOf(w, s) == Stay
  {
    hide FailTrack, LandedAll;
  }

  lemma {:induction false} QuietNodes(w: World, s: Step)
    requires Can(w, s) && !TouchesNodes(s)
    ensures Do(w, s).nodes == w.nodes && Grows(w.data, Do(w, s).data) && OpOf(w, s) == Stay
  {
    hide Can, Do, OpOf;
    if IsRows(s) || IsReaper(s) || IsBuilder(s) {
      QuietRows(w, s);
    } else if s.SplitEmit? || s.Seal? {
      QuietEmit(w, s);
    } else if IsPlanner(s) {
      QuietPlanner(w, s);
    } else {
      QuietWorker(w, s);
    }
  }

  lemma {:induction false} VisibleRefines(w: World, s: Step)
    requires Inv(w) && Can(w, s) && Inv(Do(w, s)) && IsVisible(s)
    ensures Seen(Do(w, s)) == ApplyOp(Seen(w), OpOf(w, s))
  {
    hide Inv, Can, Do, Seen, ApplyOp, OpOf;
    if s.Remove? || s.Rename? || s.Copy? {
      TreeRefines(w, s);
    } else if s.CloseFail? || s.PermGone? {
      EraseRefines(w, s);
    } else {
      FsRefines(w, s);
    }
  }

  lemma {:induction false} HiddenRefines(w: World, s: Step)
    requires Inv(w) && Can(w, s) && Inv(Do(w, s)) && TouchesNodes(s) && !IsVisible(s)
    ensures Seen(Do(w, s)) == Seen(w) && OpOf(w, s) == Stay
  {
    hide Inv, Seen, DoFinalize, DoStoreEmpty;
    match s
    case Claim(p, n, t) => LeaseRefines(w, s);
    case Release(n) => LeaseRefines(w, s);
    case Finalize(t) => FinalizeRefines(w, t);
    case StoreEmpty(t) => StoreEmptyRefines(w, t);
  }

  /** One step of the engine is one update of the map, or none. */
  lemma {:induction false} StepRefines(w: World, s: Step)
    requires Inv(w) && Can(w, s)
    ensures Inv(Do(w, s)) && Seen(Do(w, s)) == ApplyOp(Seen(w), OpOf(w, s))
  {
    StepInv(w, s);
    if !TouchesNodes(s) {
      QuietNodes(w, s);
      hide Inv, Can, Do, OpOf;
      QuietRefines(w, Do(w, s));
    } else if IsVisible(s) {
      hide Inv, Can, Do, OpOf, ApplyOp;
      VisibleRefines(w, s);
    } else {
      hide Inv, Can, Do, OpOf;
      HiddenRefines(w, s);
    }
  }
}
