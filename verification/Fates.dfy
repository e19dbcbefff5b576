/** What one step may do to one row: which steps write a file's log, when its content is kept, and where rows
    that were not there come from. */
module Fates {
  import opened Base
  import opened Wal
  import opened Extents
  import opened Tables
  import opened Tree
  import opened Packer
  import opened World
  import opened Invariant
  import opened Lifecycle
  import opened Runs
  import opened Refinement

  lemma {:induction false} SeenAt(w: World, n: NodeId)
    requires Inv(w) && n in w.nodes && !w.nodes[n].isDir
    ensures NodeOk(w.nodes[n], w.data)
    ensures KeyOf(w.nodes[n]) in Seen(w) && Seen(w)[KeyOf(w.nodes[n])] == File(Content(w.nodes[n], w.data))
  {
    NodeOf(w, n);
    hide RefsOk, LinksOk, Handshake, TracksInv, RowInv, ReapInv, ParentOk, NodeOk, Content;
    ViewAt(w.nodes, w.data, n);
  }

  /** A step that touches neither uploads nor the reaper's list, moves no blob to another channel and saves none from
      perm_unavailable. */
  predicate Leaves(w: World, w': World) {
    && w'.data == w.data && w'.jobs == w.jobs && w'.condemned == w.condemned && w'.blobs.Keys == w.blobs.Keys
    && (forall b :: b in w.blobs && w.blobs[b].state.PermUnavailable? ==> w'.blobs[b].state.PermUnavailable?)
    && forall b :: b in w.blobs ==> w'.blobs[b].channel == w.blobs[b].channel
  }

  lemma {:induction false} FsLeaves(w: World, s: Step)
    requires Can(w, s) && IsFs(s)
    ensures Leaves(w, Do(w, s))
  {
    hide Refs, Keys, RenameTree, RemoveTree, Relocatable, CopiedTree, CanAdd, AllFull, Truncated, Closed, FreeKey,
      HasLiveTrack, RootNode, DirNode, FileNode;
  }

  // ---- rows that stay -------------------------------------------------------------------------------

  /** The same file, though perhaps moved or leased to another packer. */
  predicate SameRow(nd: Node, nd': Node) {
    && nd'.isDir == nd.isDir && nd'.state == nd.state && nd'.size == nd.size && nd'.wal == nd.wal
    && nd'.extents == nd.extents
  }

  /** The steps of the writing handle of file n. */
  predicate WritesTo(s: Step, n: NodeId) {
    s == Truncate(n) || s == Close(n) || (s.Append? && s.n == n)
  }

  lemma {:induction false} AddedKeeps(w: World, s: Step, n: NodeId)
    requires Inv(w) && Can(w, s) && n in w.nodes && (s.MakeRoot? || s.Mkdir? || s.Create?)
    ensures n in Do(w, s).nodes && Do(w, s).nodes[n] == w.nodes[n]
  {
    assert n < w.nextNode;
    hide Inv, Keys, CanAdd, RootNode, DirNode, FileNode, FreeKey;
  }

  lemma {:induction false} WriteHolds(w: World, s: Step, n: NodeId)
    requires Can(w, s) && n in w.nodes && n in Do(w, s).nodes && !WritesTo(s, n)
    requires s.Truncate? || s.Append? || s.Close? || s.CloseFail?
    ensures SameRow(w.nodes[n], Do(w, s).nodes[n])
  {
    hide AllFull, Truncated, Settle, HasLiveTrack;
  }

  lemma {:induction false} TreeHolds(w: World, s: Step, n: NodeId)
    requires Inv(w) && Can(w, s) && n in w.nodes && n in Do(w, s).nodes && (s.Remove? || s.Rename?)
    ensures SameRow(w.nodes[n], Do(w, s).nodes[n])
  {
    hide Inv, Keys, InSubtree, Settle, HasLiveTrack, FreeKey;
  }

  lemma {:induction false} CopyLeaves(w: World, u: UserId, s: string, d: string, top: NodeId, parent: NodeId,
          recursive: bool, m: map<NodeId, NodeId>, after: Nodes, n: NodeId)
    requires CopiedTree(RemoveTree(w.nodes, u, d), after, u, s, d, top, parent, recursive, m)
    requires n in w.nodes && n in after && forall x :: x in m ==> n < m[x]
    ensures after[n] == w.nodes[n]
  {
    hide InSubtree;
    assert n !in m.Values;
    assert n in RemoveTree(w.nodes, u, d);
  }

  lemma {:induction false} CopyKeeps(w: World, s: Step, n: NodeId)
    requires Inv(w) && Can(w, s) && n in w.nodes && n in Do(w, s).nodes && s.Copy?
    ensures Do(w, s).nodes[n] == w.nodes[n]
  {
    NodeOf(w, n);
    hide Inv, Settle, Relocatable, CopiedTree, NodeOk;
    match s
    case Copy(u, src, d, top, parent, recursive, m, after, next) =>
      CopyLeaves(w, u, src, d, top, parent, recursive, m, after, n);
  }

  lemma {:induction false} RowsHold(w: World, s: Step, n: NodeId)
    requires Can(w, s) && (!TouchesNodes(s) || s.PermGone?)
    requires n in w.nodes && n in Do(w, s).nodes
    ensures SameRow(w.nodes[n], Do(w, s).nodes[n])
  {
    if !s.PermGone? {
      hide Can, Do;
      QuietNodes(w, s);
    }
  }

  lemma {:induction false} LeaseHolds(w: World, s: Step, n: NodeId)
    requires Can(w, s) && n in w.nodes && n in Do(w, s).nodes && (s.Claim? || s.Release?)
    ensures SameRow(w.nodes[n], Do(w, s).nodes[n])
  {
    hide LeaseFree, NewTrack;
  }

  /** Only the writing handle and a finalize change what a row says of its file. */
  lemma {:induction false} RowHeld(w: World, s: Step, n: NodeId)
    requires Inv(w) && Can(w, s) && n in w.nodes && n in Do(w, s).nodes
    requires !WritesTo(s, n) && !s.Finalize? && !s.StoreEmpty?
    ensures SameRow(w.nodes[n], Do(w, s).nodes[n])
  {
    hide Inv, Can, Do;
    if s.Copy? {
      CopyKeeps(w, s, n);
    } else if s.Remove? || s.Rename? {
      TreeHolds(w, s, n);
    } else if s.MakeRoot? || s.Mkdir? || s.Create? {
      AddedKeeps(w, s, n);
    } else if IsFs(s) {
      WriteHolds(w, s, n);
    } else if s.Claim? || s.Release? {
      LeaseHolds(w, s, n);
    } else {
      RowsHold(w, s, n);
    }
  }

  lemma {:induction false} StoreIs(w: World, s: Step, n: NodeId)
    requires Can(w, s) && n in w.nodes && (s.Finalize? || s.StoreEmpty?)
    ensures n in Do(w, s).nodes && KeyOf(Do(w, s).nodes[n]) == KeyOf(w.nodes[n])
    ensures var nd, nd' := w.nodes[n], Do(w, s).nodes[n];
      nd' == nd || (!nd.isDir && !nd'.isDir && nd.state.Buffered? && nd'.state.Stored? && nd'.size == nd.size)
  {
    hide DoFinalize, DoStoreEmpty;
    StoreRow(w, s.t, n);
  }

  lemma {:induction false} StoreRow(w: World, t: TrackId, n: NodeId)
    requires t in w.tracks && n in w.nodes
    ensures forall w' :: w' == DoFinalize(w, t) || w' == DoStoreEmpty(w, t) ==>
      && n in w'.nodes && KeyOf(w'.nodes[n]) == KeyOf(w.nodes[n])
      && (w'.nodes[n] == w.nodes[n] || (!w.nodes[n].isDir && !w'.nodes[n].isDir && w.nodes[n].state.Buffered?
                                       && w'.nodes[n].state.Stored? && w'.nodes[n].size == w.nodes[n].size))
  {
    hide Settle, RowsExist;
  }

  /** What may become of a file's row in one step that does not truncate it. */
  predicate Fate(nd: Node, nd': Node) {
    match nd.state
    case Stored => nd'.state.Stored? && nd'.extents == nd.extents && nd'.size == nd.size
    case Buffered =>
      if nd'.state.Buffered? then nd'.wal == nd.wal && nd'.size == nd.size && nd'.extents == nd.extents
      else nd'.state.Stored? && nd'.size == nd.size
    case Writing => true
  }

  lemma {:induction false} OnlyWriting(w: World, s: Step, n: NodeId)
    requires Can(w, s) && n in w.nodes && WritesTo(s, n) && s != Truncate(n)
    ensures w.nodes[n].state.Writing?
  {
  }

  /** A stored file keeps its one set of extents until it is truncated or deleted; a buffered file keeps its log
      until it is stored: whatever leases expire, are reclaimed or released, and however many tracks exist for
      the node. */
  lemma {:induction false} StoredAtMostOnce(w: World, s: Step, n: NodeId)
    requires Inv(w) && Can(w, s) && s != Truncate(n) && n in w.nodes && n in Do(w, s).nodes
    ensures Fate(w.nodes[n], Do(w, s).nodes[n])
  {
    hide Inv, Can, Do;
    if WritesTo(s, n) {
      OnlyWriting(w, s, n);
    } else if s.Finalize? || s.StoreEmpty? {
      StoreIs(w, s, n);
    } else {
      RowHeld(w, s, n);
    }
  }

  // ---- content ---------------------------------------------------------------------------------------

  /** Node n is a closed file whose row and blobs give exactly these bytes. */
  predicate Reads(w: World, n: NodeId, content: Bytes) {
    && n in w.nodes && !w.nodes[n].isDir && !w.nodes[n].state.Writing?
    && NodeOk(w.nodes[n], w.data) && Content(w.nodes[n], w.data) == content
  }

  lemma {:induction false} SeenReads(w: World, n: NodeId, content: Bytes)
    requires Inv(w) && n in w.nodes && !w.nodes[n].isDir
    ensures KeyOf(w.nodes[n]) in Seen(w)
    ensures Reads(w, n, content) <==> !w.nodes[n].state.Writing? && Seen(w)[KeyOf(w.nodes[n])] == File(content)
  {
    hide Inv, NodeOk, Content, Seen;
    SeenAt(w, n);
  }

  lemma {:induction false} HiddenKey(w: World, s: Step, n: NodeId)
    requires Can(w, s) && n in w.nodes && TouchesNodes(s) && !IsVisible(s)
    ensures n in Do(w, s).nodes && KeyOf(Do(w, s).nodes[n]) == KeyOf(w.nodes[n])
    ensures var nd, nd' := w.nodes[n], Do(w, s).nodes[n];
      nd'.isDir == nd.isDir && (nd'.state.Writing? <==> nd.state.Writing?)
  {
    if s.Finalize? || s.StoreEmpty? {
      hide Can, Do;
      StoreIs(w, s, n);
    } else {
      hide LeaseFree, NewTrack;
    }
  }

  lemma {:induction false} HiddenKeeps(w: World, s: Step, n: NodeId, content: Bytes)
    requires Inv(w) && Can(w, s) && !IsVisible(s) && Reads(w, n, content)
    ensures n in Do(w, s).nodes && Reads(Do(w, s), n, content)
  {
    StepRefines(w, s);
    hide Inv, Can, Do, Seen, OpOf, NodeOk, Content;
    if TouchesNodes(s) {
      HiddenKey(w, s, n);
      HiddenRefines(w, s);
    } else {
      QuietNodes(w, s);
    }
    SeenReads(w, n, content);
    SeenReads(Do(w, s), n, content);
  }

  lemma {:induction false} VisibleData(w: World, s: Step)
    requires Can(w, s) && IsVisible(s)
    ensures Do(w, s).data == w.data
  {
    if IsFs(s) {
      hide Can, Do;
      FsLeaves(w, s);
    }
  }

  lemma {:induction false} SameContent(nd: Node, nd': Node, data: Data)
    requires SameRow(nd, nd') && NodeOk(nd, data)
    ensures NodeOk(nd', data) && Content(nd', data) == Content(nd, data)
  {
  }

  /** A closed file keeps its bytes through every step but its own truncation or deletion. */
  lemma {:induction false} ContentKept(w: World, s: Step, n: NodeId, content: Bytes)
    requires Inv(w) && Can(w, s) && Reads(w, n, content) && s != Truncate(n) && n in Do(w, s).nodes
    ensures Reads(Do(w, s), n, content)
  {
    if IsVisible(s) {
      hide Inv, Can, Do, NodeOk, Content;
      if WritesTo(s, n) {
        OnlyWriting(w, s, n);
      }
      RowHeld(w, s, n);
      VisibleData(w, s);
      SameContent(w.nodes[n], Do(w, s).nodes[n], w.data);
    } else {
      hide Inv, Can, Do, Reads;
      HiddenKeeps(w, s, n, content);
    }
  }

  // ---- the writing handle ----------------------------------------------------------------------------

  lemma {:induction false} AddedRow(w: World, s: Step, n: NodeId)
    requires Can(w, s) && n !in w.nodes && n in Do(w, s).nodes && (s.MakeRoot? || s.Mkdir? || s.Create?)
    ensures w.nextNode <= n && Do(w, s).nodes[n].wal == []
  {
    hide CanAdd, FreeKey, Paths.IsPath, Paths.BaseName;
  }

  lemma {:induction false} CopiedRow(w: World, u: UserId, s: string, d: string, top: NodeId, parent: NodeId,
          recursive: bool, m: map<NodeId, NodeId>, after: Nodes, n: NodeId)
    requires CopiedTree(RemoveTree(w.nodes, u, d), after, u, s, d, top, parent, recursive, m)
    requires n !in w.nodes && n in after && forall x :: x in m ==> w.nextNode <= m[x]
    ensures w.nextNode <= n && !after[n].state.Writing?
  {
    hide InSubtree;
    var x :| x in m && m[x] == n;
  }

  lemma {:induction false} NoNewRow(w: World, s: Step)
    requires Can(w, s) && !s.MakeRoot? && !s.Mkdir? && !s.Create? && !s.Copy? && IsVisible(s)
    ensures Do(w, s).nodes.Keys <= w.nodes.Keys
  {
    hide Keys, InSubtree, Settle, HasLiveTrack, FreeKey, MovedNode, Truncated, Closed, SolelyOn, AllFull, Relocatable;
  }

  lemma {:induction false} HiddenNoNew(w: World, s: Step)
    requires Can(w, s) && (s.Claim? || s.Release? || s.Finalize? || s.StoreEmpty?)
    ensures Do(w, s).nodes.Keys <= w.nodes.Keys
  {
    hide Settle, RowsExist, LeaseFree, NewTrack, StoredNode;
  }

  /** Ids are never used again, and a row appears with an empty log or already closed. */
  lemma {:induction false} NewRow(w: World, s: Step, n: NodeId)
    requires Can(w, s) && n !in w.nodes && n in Do(w, s).nodes
    ensures w.nextNode <= n && (Do(w, s).nodes[n].state.Writing? ==> Do(w, s).nodes[n].wal == [])
  {
    if s.Copy? {
      hide Settle, Relocatable, CopiedTree;
      match s
      case Copy(u, src, d, top, parent, recursive, m, after, next) =>
        CopiedRow(w, u, src, d, top, parent, recursive, m, after, n);
    } else {
      hide Can, Do;
      if s.MakeRoot? || s.Mkdir? || s.Create? {
        AddedRow(w, s, n);
      } else if IsVisible(s) {
        NoNewRow(w, s);
      } else if TouchesNodes(s) {
        HiddenNoNew(w, s);
      } else {
        QuietNodes(w, s);
      }
    }
  }

  lemma {:induction false} AppendIs(w: World, n: NodeId, chunk: Bytes)
    requires Can(w, Append(n, chunk))
    ensures n in w.nodes && w.nodes[n].state.Writing? && n in Do(w, Append(n, chunk)).nodes
    ensures Do(w, Append(n, chunk)).nodes[n].wal == w.nodes[n].wal + [chunk]
  {
  }

  lemma {:induction false} TruncateIs(w: World, n: NodeId)
    requires Can(w, Truncate(n))
    ensures n in w.nodes && n in Do(w, Truncate(n)).nodes && Do(w, Truncate(n)).nodes[n].wal == []
  {
    hide Settle, HasLiveTrack;
  }

  lemma {:induction false} CloseIs(w: World, n: NodeId)
    requires Can(w, Close(n))
    ensures n in w.nodes && w.nodes[n].state.Writing? && !w.nodes[n].isDir
    ensures Do(w, Close(n)) == w.(nodes := w.nodes[n := Closed(w.nodes[n])])
  {
    hide Closed;
  }

  lemma {:induction false} WriterIs(w: World, s: Step, n: NodeId)
    requires Can(w, s) && WritesTo(s, n)
    ensures n in w.nodes && n in Do(w, s).nodes
    ensures s.Append? ==> w.nodes[n].state.Writing? && Do(w, s).nodes[n].wal == w.nodes[n].wal + [s.chunk]
    ensures s.Truncate? ==> Do(w, s).nodes[n].wal == []
    ensures s.Close? ==> w.nodes[n].state.Writing? && Do(w, s).nodes[n].state.Buffered?
  {
    hide Can, Do;
    match s
    case Append(m, chunk) => AppendIs(w, n, chunk);
    case Truncate(m) => TruncateIs(w, n);
    case Close(m) => CloseIs(w, n);
  }

  /** The log of a file that is open for writing changes only by its own Truncate and Append. */
  lemma {:induction false} WritingLog(w: World, s: Step, n: NodeId)
    requires Inv(w) && Can(w, s) && n in Do(w, s).nodes && Do(w, s).nodes[n].state.Writing?
    ensures var wal := Do(w, s).nodes[n].wal;
      if s == Truncate(n) then wal == []
      else if n !in w.nodes then w.nextNode <= n && wal == []
      else
        && w.nodes[n].state.Writing?
        && wal == if s.Append? && s.n == n then w.nodes[n].wal + [s.chunk] else w.nodes[n].wal
  {
    hide Inv, Can, Do;
    if WritesTo(s, n) {
      WriterIs(w, s, n);
    } else if n !in w.nodes {
      NewRow(w, s, n);
    } else if s.Finalize? || s.StoreEmpty? {
      StoreIs(w, s, n);
    } else {
      RowHeld(w, s, n);
    }
  }
}
