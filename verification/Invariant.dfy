/** What every reachable state of the storage engine satisfies. */
module Invariant {
  import opened Base
  import opened Wal
  import opened Extents
  import opened Tables
  import opened Tree
  import opened Packer
  import opened World

  ghost predicate DbInv(nodes: Nodes, blobs: Blobs, data: Data, next: NodeId) {
    && TreeOk(nodes) && NodesOk(nodes, data) && RefsOk(nodes, blobs) && LinksOk(nodes, blobs, data)
    && forall n :: n in nodes ==> n < next
  }

  /** What a track holds of its node's content c. */
  predicate TrackFits(tr: Track, c: Bytes, data: Data, buf: Bytes) {
    && tr.size == |c|
    && match tr.stage
       case Claimed => true
       case Splitting =>
         Tiled(tr.extents) && Mapped(tr.extents, data) && Assemble(tr.extents, data) <= c
       case InRun(from, len) => 0 < len == |c| && from + len <= |buf| && buf[from..from + len] == c
       case Sealing => Tiled(tr.extents) && Mapped(tr.extents, data) && Assemble(tr.extents, data) == c
       case Planned => Tiled(tr.extents) && Mapped(tr.extents, data) && Assemble(tr.extents, data) == c
       case Dropped => true
  }

  /** While a live track's node is still buffered, the track's pieces are that node's bytes. A node that was
      deleted or stored in the meantime can never be finalized by the track. */
  predicate TrackData(tr: Track, nodes: Nodes, data: Data, buf: Bytes) {
    Live(tr) && tr.node in nodes ==>
      var nd := nodes[tr.node];
      && !nd.isDir && !nd.state.Writing?
      && (nd.state.Buffered? ==> TrackFits(tr, Flatten(nd.wal), data, buf))
  }

  predicate TracksInv(w: World) {
    forall t :: t in w.tracks ==>
      (w.tracks[t].node < w.nextNode &&
       TrackData(w.tracks[t], w.nodes, w.data, BufOf(w, w.tracks[t].packer)))
  }

  predicate InTable(s: JobStage) {
    s.Persisted? || s.Landed?
  }

  predicate LiveNames(tracks: Tracks, t: TrackId, b: BlobId) {
    t in tracks && Live(tracks[t]) && Names(tracks[t].extents, b)
  }

  /** A blob in flight has its row exactly from its persist transaction on, as long as a live track needs it. */
  ghost predicate RowInv(w: World) {
    && (forall b :: b in w.jobs ==> b in w.data && (!InTable(w.jobs[b].stage) ==> b !in w.blobs))
    && (forall b :: b in w.jobs && w.jobs[b].stage.Uploaded? ==> b in w.messages + w.lost)
    && (forall b :: b in w.blobs ==> b in w.messages + w.lost + w.condemned)
    && (forall t, b :: LiveNames(w.tracks, t, b) && b in w.jobs && InTable(w.jobs[b].stage) ==> b in w.blobs)
  }

  /** A blob the reaper listed is named by no extent and by no live track. */
  ghost predicate ReapInv(w: World) {
    && w.condemned <= w.blobs.Keys
    && (forall b :: b in w.condemned ==> !Named(w.nodes, b))
    && (forall b, t :: b in w.condemned ==> !LiveNames(w.tracks, t, b))
    && InGrace(w, w.now)
  }

  /** Everything but what the packer's tracks hold of the files. */
  ghost predicate Core(w: World) {
    && DbInv(w.nodes, w.blobs, w.data, w.nextNode)
    && Handshake(w.tracks, w.jobs)
    && RowInv(w) && ReapInv(w)
  }

  ghost predicate Inv(w: World) {
    Core(w) && TracksInv(w)
  }

  lemma {:induction false} InitInv()
    ensures Inv(Empty())
  {
  }

  lemma {:induction false} ShakeOf(w: World, t: TrackId)
    requires Inv(w) && t in w.tracks
    ensures Handshake(w.tracks, w.jobs) && TrackShake(w.tracks, w.jobs, t)
  {
  }

  lemma {:induction false} DataOf(w: World, t: TrackId)
    requires Inv(w) && t in w.tracks
    ensures w.tracks[t].node < w.nextNode
    ensures TrackData(w.tracks[t], w.nodes, w.data, BufOf(w, w.tracks[t].packer))
  {
  }

  lemma {:induction false} NodeOf(w: World, n: NodeId)
    requires Inv(w) && n in w.nodes
    ensures n < w.nextNode && NodeOk(w.nodes[n], w.data)
  {
  }

  // ---- steps that change only the nodes table (and refcounts with it) ----------------------------

  predicate SameFile(nd: Node, nd': Node) {
    nd'.isDir == nd.isDir && nd'.size == nd.size && nd'.state == nd.state && nd'.wal == nd.wal
  }

  /** Live tracks see their nodes unchanged, or gone. */
  predicate LiveKept(tracks: Tracks, nodes: Nodes, nodes': Nodes) {
    forall t :: t in tracks && Live(tracks[t]) && tracks[t].node in nodes' ==>
      tracks[t].node in nodes && SameFile(nodes[tracks[t].node], nodes'[tracks[t].node])
  }

  predicate ExtentsFrom(nodes: Nodes, nodes': Nodes) {
    forall n' :: n' in nodes' ==>
      nodes'[n'].extents == [] || exists n :: n in nodes && nodes[n].extents == nodes'[n'].extents
  }

  predicate SameRows(blobs: Blobs, blobs': Blobs) {
    blobs'.Keys == blobs.Keys && forall b :: b in blobs ==>
      blobs'[b].createdAt == blobs[b].createdAt && blobs'[b].size == blobs[b].size
  }

  lemma {:induction false} NamesFrom(nodes: Nodes, nodes': Nodes, b: BlobId)
    requires ExtentsFrom(nodes, nodes') && Named(nodes', b)
    ensures Named(nodes, b)
  {
    var n' :| n' in nodes' && Names(nodes'[n'].extents, b);
    var n :| n in nodes && nodes[n].extents == nodes'[n'].extents;
  }

  lemma {:induction false} LinksFrom(nodes: Nodes, nodes': Nodes, blobs: Blobs, blobs': Blobs, data: Data)
    requires LinksOk(nodes, blobs, data) && ExtentsFrom(nodes, nodes') && SameRows(blobs, blobs')
    ensures LinksOk(nodes', blobs', data)
  {
    forall n', i | n' in nodes' && 0 <= i < |nodes'[n'].extents| ensures nodes'[n'].extents[i].blob in blobs' {
      var n :| n in nodes && nodes[n].extents == nodes'[n'].extents;
      assert nodes[n].extents[i].blob in blobs;
    }
  }

  lemma {:induction false} NodesStepTracks(w: World, nodes': Nodes, blobs': Blobs, next: NodeId)
    requires TracksInv(w) && LiveKept(w.tracks, w.nodes, nodes') && w.nextNode <= next
    ensures TracksInv(w.(nodes := nodes', blobs := blobs', nextNode := next))
  {
    var w' := w.(nodes := nodes', blobs := blobs', nextNode := next);
    forall t | t in w.tracks ensures TrackData(w.tracks[t], nodes', w.data, BufOf(w', w.tracks[t].packer)) {
      assert TrackData(w.tracks[t], w.nodes, w.data, BufOf(w, w.tracks[t].packer));
    }
  }

  lemma {:induction false} NodesStepRows(w: World, nodes': Nodes, blobs': Blobs, next: NodeId)
    requires RowInv(w) && ReapInv(w) && ExtentsFrom(w.nodes, nodes') && SameRows(w.blobs, blobs')
    ensures var w' := w.(nodes := nodes', blobs := blobs', nextNode := next); RowInv(w') && ReapInv(w')
  {
    var w' := w.(nodes := nodes', blobs := blobs', nextNode := next);
    forall b | b in w'.condemned ensures !Named(nodes', b) {
      if Named(nodes', b) {
        NamesFrom(w.nodes, nodes', b);
      }
    }
  }

  lemma {:induction false} NodesCore(w: World, nodes': Nodes, blobs': Blobs, next: NodeId)
    requires Core(w) && w.nextNode <= next
    requires TreeOk(nodes') && NodesOk(nodes', w.data) && RefsOk(nodes', blobs') && forall n :: n in nodes' ==> n < next
    requires ExtentsFrom(w.nodes, nodes') && SameRows(w.blobs, blobs')
    ensures Core(w.(nodes := nodes', blobs := blobs', nextNode := next))
  {
    hide TreeOk, NodesOk, RefsOk, ExtentsFrom, SameRows, RowInv, ReapInv, LinksOk, Handshake;
    NodesStepRows(w, nodes', blobs', next);
    LinksFrom(w.nodes, nodes', w.blobs, blobs', w.data);
  }

  lemma {:induction false} NodesStep(w: World, nodes': Nodes, blobs': Blobs, next: NodeId)
    requires Inv(w) && w.nextNode <= next
    requires TreeOk(nodes') && NodesOk(nodes', w.data) && RefsOk(nodes', blobs') && forall n :: n in nodes' ==> n < next
    requires LiveKept(w.tracks, w.nodes, nodes') && ExtentsFrom(w.nodes, nodes') && SameRows(w.blobs, blobs')
    ensures Inv(w.(nodes := nodes', blobs := blobs', nextNode := next))
  {
    hide Core, TreeOk, NodesOk, RefsOk, LiveKept, ExtentsFrom, SameRows, TracksInv;
    NodesStepTracks(w, nodes', blobs', next);
    NodesCore(w, nodes', blobs', next);
  }

  lemma {:induction false} SettleRows(blobs: Blobs, before: Nodes, after: Nodes)
    ensures SameRows(blobs, Settle(blobs, before, after))
  {
    hide Refs;
  }

  // ---- one node added, rewritten or removed -----------------------------------------------------

  lemma {:induction false} RefsRemove(nodes: Nodes, n: NodeId, b: BlobId)
    requires n in nodes
    ensures Refs(nodes - {n}, b) == Refs(nodes, b) - Count(nodes[n].extents, b)
  {
    TotalRemove(CountMap(nodes, b), n);
    assert CountMap(nodes, b) - {n} == CountMap(nodes - {n}, b);
  }

  lemma {:induction false} AddNode(w: World, nd: Node)
    requires Inv(w) && nd.extents == [] && NodeOk(nd, w.data)
    requires Paths.IsPath(nd.path) && ParentOk(w.nodes, nd) && KeyOf(nd) !in Keys(w.nodes)
    ensures Inv(Added(w, nd))
  {
    hide ParentOk, NodeOk, Keys, KeyOf, Paths.IsPath, RefsOk, TracksInv, RowInv, ReapInv, Handshake, LiveKept,
      ExtentsFrom, SameRows, TreeOk, NodesOk, LinksOk;
    var n, nodes' := w.nextNode, w.nodes[w.nextNode := nd];
    assert n !in w.nodes;
    AddTree(w.nodes, n, nd);
    AddRefs(w.nodes, w.blobs, w.data, n, nd);
    AddNodeFrom(w, nd);
    NodesStep(w, nodes', w.blobs, n + 1);
    hide DbInv;
    assert Added(w, nd) == w.(nodes := nodes', blobs := w.blobs, nextNode := n + 1);
  }

  lemma {:induction false} AddRefs(nodes: Nodes, blobs: Blobs, data: Data, n: NodeId, nd: Node)
    requires RefsOk(nodes, blobs) && NodesOk(nodes, data) && n !in nodes && nd.extents == [] && NodeOk(nd, data)
    ensures RefsOk(nodes[n := nd], blobs) && NodesOk(nodes[n := nd], data) && SameRows(blobs, blobs)
  {
    hide Refs;
    forall b | b in blobs ensures RefOk(blobs[b], Refs(nodes[n := nd], b)) {
      RefsInsert(nodes, n, nd, b);
    }
  }

  lemma {:induction false} AddNodeFrom(w: World, nd: Node)
    requires TracksInv(w) && nd.extents == []
    ensures var nodes' := w.nodes[w.nextNode := nd];
            LiveKept(w.tracks, w.nodes, nodes') && ExtentsFrom(w.nodes, nodes')
  {
  }

  predicate SamePlace(nd: Node, nd': Node) {
    && nd'.user == nd.user && nd'.path == nd.path && nd'.parent == nd.parent && nd'.name == nd.name
    && nd'.isDir == nd.isDir
  }

  lemma {:induction false} RewriteCore(w: World, n: NodeId, nd: Node)
    requires Core(w) && n in w.nodes && NodeOk(nd, w.data) && SamePlace(w.nodes[n], nd)
        && nd.extents == w.nodes[n].extents
    ensures Core(w.(nodes := w.nodes[n := nd]))
  {
    hide RefsOk, RowInv, ReapInv, Handshake, ExtentsFrom, SameRows, TreeOk, NodesOk, LinksOk;
    RewriteTree(w.nodes, n, nd);
    RewriteExtents(w.nodes, n, nd);
    RewriteRefs(w.nodes, w.blobs, w.data, n, nd);
    NodesCore(w, w.nodes[n := nd], w.blobs, w.nextNode);
    assert w.(nodes := w.nodes[n := nd]) == w.(nodes := w.nodes[n := nd], blobs := w.blobs, nextNode := w.nextNode);
  }

  lemma {:induction false} RewriteExtents(nodes: Nodes, n: NodeId, nd: Node)
    requires n in nodes && nd.extents == nodes[n].extents
    ensures ExtentsFrom(nodes, nodes[n := nd])
  {
    var nodes' := nodes[n := nd];
    forall n' | n' in nodes' ensures exists x :: x in nodes && nodes[x].extents == nodes'[n'].extents {
      assert nodes[n'].extents == nodes'[n'].extents;
    }
  }

  /** Rewriting a row without moving it or touching its extents. */
  lemma {:induction false} RewriteNode(w: World, n: NodeId, nd: Node)
    requires Inv(w) && n in w.nodes && NodeOk(nd, w.data) && SamePlace(w.nodes[n], nd)
        && nd.extents == w.nodes[n].extents
    requires SameFile(w.nodes[n], nd) || IsWriting(w, n)
    ensures Inv(w.(nodes := w.nodes[n := nd]))
  {
    hide Core, TracksInv, LiveKept, NodeOk;
    RewriteFrom(w, n, nd);
    RewriteCore(w, n, nd);
    NodesStepTracks(w, w.nodes[n := nd], w.blobs, w.nextNode);
    assert w.(nodes := w.nodes[n := nd]) == w.(nodes := w.nodes[n := nd], blobs := w.blobs, nextNode := w.nextNode);
  }

  lemma {:induction false} RewriteRefs(nodes: Nodes, blobs: Blobs, data: Data, n: NodeId, nd: Node)
    requires RefsOk(nodes, blobs) && NodesOk(nodes, data) && n in nodes && NodeOk(nd, data)
    requires nd.extents == nodes[n].extents
    ensures RefsOk(nodes[n := nd], blobs) && NodesOk(nodes[n := nd], data) && SameRows(blobs, blobs)
  {
    hide Refs;
    forall b | b in blobs ensures RefOk(blobs[b], Refs(nodes[n := nd], b)) {
      RefsSame(nodes, nodes[n := nd], b);
    }
  }

  lemma {:induction false} RewriteFrom(w: World, n: NodeId, nd: Node)
    requires TracksInv(w) && n in w.nodes && nd.isDir == w.nodes[n].isDir
    requires SameFile(w.nodes[n], nd) || IsWriting(w, n)
    ensures LiveKept(w.tracks, w.nodes, w.nodes[n := nd])
  {
    var nodes' := w.nodes[n := nd];
    forall t | t in w.tracks && Live(w.tracks[t]) && w.tracks[t].node in nodes'
      ensures SameFile(w.nodes[w.tracks[t].node], nodes'[w.tracks[t].node])
    {
      assert TrackData(w.tracks[t], w.nodes, w.data, BufOf(w, w.tracks[t].packer));
    }
  }

  lemma {:induction false} TruncateCore(w: World, n: NodeId)
    requires Core(w) && n in w.nodes && !w.nodes[n].isDir
    ensures Core(WithNodes(w, w.nodes[n := Truncated(w.nodes[n])]))
  {
    var nodes' := w.nodes[n := Truncated(w.nodes[n])];
    TruncateExtents(w.nodes, n);
    TruncateNodes(w.nodes, w.data, n);
    SettleOk(w.blobs, w.nodes, nodes');
    SettleRows(w.blobs, w.nodes, nodes');
    hide RefsOk, Settle, RowInv, ReapInv, Handshake, ExtentsFrom, SameRows, TreeOk, NodesOk, LinksOk;
    NodesCore(w, nodes', Settle(w.blobs, w.nodes, nodes'), w.nextNode);
  }

  lemma {:induction false} TruncateNode(w: World, n: NodeId)
    requires Inv(w) && Can(w, Truncate(n))
    ensures Inv(Do(w, Truncate(n)))
  {
    var nodes' := w.nodes[n := Truncated(w.nodes[n])];
    TruncateFrom(w, n);
    hide Core, Settle, TracksInv, LiveKept, HasLiveTrack;
    TruncateCore(w, n);
    NodesStepTracks(w, nodes', Settle(w.blobs, w.nodes, nodes'), w.nextNode);
  }

  lemma {:induction false} TruncateExtents(nodes: Nodes, n: NodeId)
    requires n in nodes
    ensures ExtentsFrom(nodes, nodes[n := Truncated(nodes[n])])
  {
  }

  lemma {:induction false} TruncateFrom(w: World, n: NodeId)
    requires n in w.nodes && !HasLiveTrack(w, n)
    ensures LiveKept(w.tracks, w.nodes, w.nodes[n := Truncated(w.nodes[n])])
  {
  }

  lemma {:induction false} DropWriting(w: World, n: NodeId)
    requires Inv(w) && IsWriting(w, n)
    ensures Inv(w.(nodes := w.nodes - {n}))
  {
    var nodes' := w.nodes - {n};
    DropTree(w.nodes, n);
    assert w.nodes[n].extents == [] by { assert NodeOk(w.nodes[n], w.data); }
    DropRefs(w.nodes, w.blobs, n);
    SubsetFrom(w.tracks, w.nodes, nodes');
    assert NodesOk(nodes', w.data) && SameRows(w.blobs, w.blobs);
    hide RefsOk, Settle, TracksInv, RowInv, ReapInv, Handshake, LiveKept, ExtentsFrom, SameRows, TreeOk, NodesOk,
      Relocatable, LinksOk;
    NodesStep(w, nodes', w.blobs, w.nextNode);
    assert w.(nodes := nodes') == w.(nodes := nodes', blobs := w.blobs, nextNode := w.nextNode);
  }

  lemma {:induction false} DropTree(nodes: Nodes, n: NodeId)
    requires TreeOk(nodes) && n in nodes && !nodes[n].isDir
    ensures TreeOk(nodes - {n})
  {
    var nodes' := nodes - {n};
    forall x | x in nodes' ensures ParentOk(nodes', nodes'[x]) {
      assert ParentOk(nodes, nodes[x]);
    }
  }

  lemma {:induction false} DropRefs(nodes: Nodes, blobs: Blobs, n: NodeId)
    requires RefsOk(nodes, blobs) && n in nodes && nodes[n].extents == []
    ensures RefsOk(nodes - {n}, blobs)
  {
    hide Refs;
    forall b | b in blobs ensures RefOk(blobs[b], Refs(nodes - {n}, b)) {
      RefsRemove(nodes, n, b);
    }
  }

  lemma {:induction false} SubsetFrom(tracks: Tracks, nodes: Nodes, nodes': Nodes)
    requires forall n :: n in nodes' ==>
        n in nodes && nodes'[n].extents == nodes[n].extents && SameFile(nodes[n], nodes'[n])
    ensures LiveKept(tracks, nodes, nodes') && ExtentsFrom(nodes, nodes')
  {
  }

  // ---- subtrees ---------------------------------------------------------------------------------

  lemma {:induction false} RemoveStep(w: World, u: UserId, p: string)
    requires Inv(w) && Can(w, Remove(u, p))
    ensures Inv(Do(w, Remove(u, p)))
  {
    var nodes' := RemoveTree(w.nodes, u, p);
    RemoveOk(w.nodes, u, p);
    SubsetFrom(w.tracks, w.nodes, nodes');
    SettleOk(w.blobs, w.nodes, nodes');
    SettleRows(w.blobs, w.nodes, nodes');
    hide RefsOk, Settle, TracksInv, RowInv, ReapInv, Handshake, LiveKept, ExtentsFrom, SameRows, TreeOk, NodesOk,
      Relocatable, LinksOk;
    NodesStep(w, nodes', Settle(w.blobs, w.nodes, nodes'), w.nextNode);
  }

  lemma {:induction false} RenameStep(w: World, u: UserId, s: string, d: string, top: NodeId, parent: NodeId)
    requires Inv(w) && Can(w, Rename(u, s, d, top, parent))
    ensures Inv(Do(w, Rename(u, s, d, top, parent)))
  {
    var nodes' := RenameTree(w.nodes, u, s, d, top, parent);
    RenameOk(w.nodes, u, s, d, top, parent);
    RenameNodesOk(w.nodes, w.data, u, s, d, top, parent);
    RenameFrom(w.tracks, w.nodes, u, s, d, top, parent);
    SettleOk(w.blobs, w.nodes, nodes');
    SettleRows(w.blobs, w.nodes, nodes');
    hide RefsOk, Settle, TracksInv, RowInv, ReapInv, Handshake, LiveKept, ExtentsFrom, SameRows, TreeOk, NodesOk,
      Relocatable;
    NodesStep(w, nodes', Settle(w.blobs, w.nodes, nodes'), w.nextNode);
  }

  lemma {:induction false} RenameFrom(tracks: Tracks, nodes: Nodes, u: UserId, s: string, d: string, top: NodeId,
          parent: NodeId)
    requires Paths.IsPath(d)
    ensures var nodes' := RenameTree(nodes, u, s, d, top, parent);
            LiveKept(tracks, nodes, nodes') && ExtentsFrom(nodes, nodes') && nodes'.Keys <= nodes.Keys
  {
    SubsetFrom(tracks, nodes, RenameTree(nodes, u, s, d, top, parent));
  }

  lemma {:induction false} CopyStep(w: World, u: UserId, s: string, d: string, top: NodeId, parent: NodeId,
          recursive: bool, m: map<NodeId, NodeId>, after: Nodes, next: NodeId)
    requires Inv(w) && Can(w, Copy(u, s, d, top, parent, recursive, m, after, next))
    ensures Inv(Do(w, Copy(u, s, d, top, parent, recursive, m, after, next)))
  {
    var mid := RemoveTree(w.nodes, u, d);
    RemoveOk(w.nodes, u, d);
    RelocatableAfterRemove(w.nodes, u, s, d, top, parent);
    CopyOk(mid, after, u, s, d, top, parent, recursive, m);
    assert NodesOk(mid, w.data);
    CopyNodesOk(mid, after, w.data, u, s, d, top, parent, recursive, m);
    CopyFrom(w, u, s, d, top, parent, recursive, m, after, next);
    SettleOk(w.blobs, w.nodes, after);
    SettleRows(w.blobs, w.nodes, after);
    hide RefsOk, Settle, TracksInv, RowInv, ReapInv, Handshake, LiveKept, ExtentsFrom, SameRows, TreeOk, NodesOk,
      Relocatable, CopiedTree;
    NodesStep(w, after, Settle(w.blobs, w.nodes, after), next);
  }

  lemma {:induction false} CopyFrom(w: World, u: UserId, s: string, d: string, top: NodeId, parent: NodeId,
          recursive: bool, m: map<NodeId, NodeId>, after: Nodes, next: NodeId)
    requires TracksInv(w) && Can(w, Copy(u, s, d, top, parent, recursive, m, after, next))
    requires forall n :: n in w.nodes ==> n < w.nextNode
    ensures LiveKept(w.tracks, w.nodes, after) && ExtentsFrom(w.nodes, after)
    ensures forall n :: n in after ==> n < next
  {
    var mid := RemoveTree(w.nodes, u, d);
    forall n | n in after
      ensures n < next && exists x :: x in w.nodes && w.nodes[x].extents == after[n].extents
    {
      if n in m.Values {
        var x :| x in m && m[x] == n;
        assert w.nodes[x].extents == after[n].extents;
      } else {
        assert w.nodes[n].extents == after[n].extents;
      }
    }
    forall t | t in w.tracks && Live(w.tracks[t]) && w.tracks[t].node in after
      ensures w.tracks[t].node in w.nodes && SameFile(w.nodes[w.tracks[t].node], after[w.tracks[t].node])
    {
      assert w.tracks[t].node < w.nextNode;
      assert w.tracks[t].node in mid;
    }
  }
}
