/** Uploads, persistence, finalization, crashes and the reaper keep the invariant; hence every run does. */
module Lifecycle {
  import opened Base
  import opened Wal
  import opened Extents
  import opened Tables
  import opened Tree
  import opened Packer
  import opened World
  import opened Invariant
  import opened HandshakeProof
  import opened Safety
  import opened DataPath

  // ---- jobs -------------------------------------------------------------------------------------

  lemma {:induction false} JobsTracks(w: World, w': World)
    requires TracksInv(w) && w'.tracks == w.tracks && w'.nodes == w.nodes && w'.data == w.data
    requires w'.bufs == w.bufs && w'.nextNode == w.nextNode
    ensures TracksInv(w')
  {
    hide TrackData;
    assert forall p :: BufOf(w', p) == BufOf(w, p);
  }

  lemma {:induction false} JobRows(w: World, b: BlobId, s: JobStage, messages': set<BlobId>)
    requires RowInv(w) && ReapInv(w) && b in w.jobs && !InTable(w.jobs[b].stage) && !InTable(s)
    requires w.messages <= messages' && (s.Uploaded? ==> b in messages')
    ensures var w' := WithStage(w, b, s).(messages := messages'); RowInv(w') && ReapInv(w')
  {
    var w' := WithStage(w, b, s).(messages := messages');
    assert InGrace(w', w.now);
  }

  lemma {:induction false} JobCore(w: World, b: BlobId, s: JobStage, messages': set<BlobId>)
    requires Core(w) && b in w.jobs && !InTable(w.jobs[b].stage) && !InTable(s) && !w.jobs[b].stage.Failing?
        && !s.Failing?
    requires w.messages <= messages' && (s.Uploaded? ==> b in messages')
    ensures Core(WithStage(w, b, s).(messages := messages'))
  {
    hide DbInv, RowInv, ReapInv, Handshake;
    JobRows(w, b, s, messages');
    StageMoves(w.tracks, w.jobs, b, s);
  }

  /** Send, Take and Upload. */
  lemma {:induction false} JobStep(w: World, b: BlobId, s: JobStage, messages': set<BlobId>)
    requires Inv(w) && b in w.jobs && !InTable(w.jobs[b].stage) && !InTable(s) && !w.jobs[b].stage.Failing?
        && !s.Failing?
    requires w.messages <= messages' && (s.Uploaded? ==> b in messages')
    ensures Inv(WithStage(w, b, s).(messages := messages'))
  {
    hide Core, TracksInv;
    JobCore(w, b, s, messages');
    JobsTracks(w, WithStage(w, b, s).(messages := messages'));
  }

  lemma {:induction false} DoomedWeaker(tracks: Tracks, ts: set<TrackId>)
    ensures AllWeaker(tracks, DoomedAll(tracks, ts))
  {
  }

  lemma {:induction false} DoomData(tr: Track, nodes: Nodes, data: Data, buf: Bytes)
    ensures TrackData(DoomTrack(tr), nodes, data, buf)
    ensures DoomTrack(tr).packer == tr.packer && DoomTrack(tr).node == tr.node
  {
  }

  /** An upload fails: its tracks can no longer finalize. */
  lemma {:induction false} UploadFailStep(w: World, b: BlobId)
    requires Inv(w) && (At(w, b, Uploading) || At(w, b, Uploaded))
    ensures Inv(WithStage(w, b, Failing(w.jobs[b].tracks)).(tracks := DoomedAll(w.tracks, w.jobs[b].tracks)))
  {
    var ts := w.jobs[b].tracks;
    var w1 := WithStage(w, b, Failing(ts));
    var w' := w1.(tracks := DoomedAll(w.tracks, ts));
    DoomedWeaker(w.tracks, ts);
    JobRows(w, b, Failing(ts), w.messages);
    DataOfAll(w);
    hide DbInv, RowInv, ReapInv, Handshake, TracksInv, TrackData, BufOf, AllWeaker, DoomTrack;
    JobDoomed(w.tracks, w.jobs, b);
    assert w1 == WithStage(w, b, Failing(ts)).(messages := w.messages);
    WeakerRows(w1, w'.tracks);
    forall x | x in w'.tracks
      ensures w'.tracks[x].node < w'.nextNode
        && TrackData(w'.tracks[x], w'.nodes, w'.data, BufOf(w', w'.tracks[x].packer))
    {
      assert BufOf(w', w.tracks[x].packer) == BufOf(w, w.tracks[x].packer) by { DoomBuf(w, w'); }
      DoomData(w.tracks[x], w.nodes, w.data, BufOf(w, w.tracks[x].packer));
    }
    TracksInvIs(w');
  }

  lemma {:induction false} DoomBuf(w: World, w': World)
    requires w'.bufs == w.bufs
    ensures forall p :: BufOf(w', p) == BufOf(w, p)
  {
  }

  lemma {:induction false} NewRowDb(nodes: Nodes, blobs: Blobs, data: Data, next: NodeId, b: BlobId, blob: Blob)
    requires DbInv(nodes, blobs, data, next) && b !in blobs && b in data && blob.size == |data[b]| && blob.refcount == 0
    ensures DbInv(nodes, blobs[b := blob], data, next)
  {
    hide TreeOk, NodesOk, Refs;
    NoRowNoName(nodes, blobs, data, b);
    RefsNamed(nodes, b);
  }

  lemma {:induction false} NoRowNoName(nodes: Nodes, blobs: Blobs, data: Data, b: BlobId)
    requires LinksOk(nodes, blobs, data) && b !in blobs
    ensures !Named(nodes, b)
  {
    forall n, i | n in nodes && 0 <= i < |nodes[n].extents| ensures nodes[n].extents[i].blob != b {
      assert nodes[n].extents[i].blob in blobs;
    }
  }

  lemma {:induction false} NewRowRows(w: World, b: BlobId, blob: Blob)
    requires RowInv(w) && ReapInv(w) && At(w, b, Uploaded) && b !in w.blobs && b in w.data && blob.createdAt == w.now
    ensures var w' := WithStage(w, b, Persisted).(blobs := w.blobs[b := blob]); RowInv(w') && ReapInv(w')
  {
    var w' := WithStage(w, b, Persisted).(blobs := w.blobs[b := blob]);
    assert InGrace(w', w.now);
  }

  lemma {:induction false} PersistCore(w: World, b: BlobId, channel: nat, messageSeq: nat)
    requires Core(w) && At(w, b, Uploaded) && b !in w.blobs && b in w.data
    ensures Core(DoPersist(w, b, channel, messageSeq))
  {
    var blob := Blob(channel, messageSeq, |w.data[b]|, StoredBlob, 0, w.now);
    hide DbInv, RowInv, ReapInv, Handshake;
    NewRowDb(w.nodes, w.blobs, w.data, w.nextNode, b, blob);
    NewRowRows(w, b, blob);
    StageMoves(w.tracks, w.jobs, b, Persisted);
  }

  lemma {:induction false} PersistStep(w: World, b: BlobId, channel: nat, messageSeq: nat)
    requires Inv(w) && At(w, b, Uploaded) && b !in w.blobs && b in w.data
    ensures Inv(DoPersist(w, b, channel, messageSeq))
  {
    hide Core, TracksInv;
    PersistCore(w, b, channel, messageSeq);
    JobsTracks(w, DoPersist(w, b, channel, messageSeq));
  }

  lemma {:induction false} LandRows(w: World, b: BlobId, tracks': Tracks)
    requires RowInv(w) && ReapInv(w) && At(w, b, Persisted) && AllWeaker(w.tracks, tracks')
    ensures var w' := WithStage(w, b, Landed).(tracks := tracks'); RowInv(w') && ReapInv(w')
  {
    var w' := WithStage(w, b, Landed).(tracks := tracks');
    forall t, c | LiveNames(tracks', t, c) ensures LiveNames(w.tracks, t, c) {
    }
    assert InGrace(w', w.now);
  }

  lemma {:induction false} LandData(tr: Track, nodes: Nodes, data: Data, buf: Bytes)
    requires TrackData(tr, nodes, data, buf)
    ensures TrackData(LandTrack(tr), nodes, data, buf)
  {
  }

  lemma {:induction false} LandWeaker(tracks: Tracks, ts: set<TrackId>)
    ensures AllWeaker(tracks, LandedAll(tracks, ts))
  {
  }

  lemma {:induction false} LandCore(w: World, b: BlobId)
    requires Core(w) && At(w, b, Persisted)
    ensures Core(WithStage(w, b, Landed).(tracks := LandedAll(w.tracks, w.jobs[b].tracks)))
  {
    LandWeaker(w.tracks, w.jobs[b].tracks);
    hide DbInv, RowInv, ReapInv, Handshake, LandTrack, LandedAll, AllWeaker;
    LandRows(w, b, LandedAll(w.tracks, w.jobs[b].tracks));
    JobLanded(w.tracks, w.jobs, b);
  }

  lemma {:induction false} LandStep(w: World, b: BlobId)
    requires Inv(w) && At(w, b, Persisted)
    ensures Inv(WithStage(w, b, Landed).(tracks := LandedAll(w.tracks, w.jobs[b].tracks)))
  {
    var ts := w.jobs[b].tracks;
    var w' := WithStage(w, b, Landed).(tracks := LandedAll(w.tracks, ts));
    forall x | x in w'.tracks
      ensures w'.tracks[x].node < w'.nextNode
        && TrackData(w'.tracks[x], w'.nodes, w'.data, BufOf(w', w'.tracks[x].packer))
    {
      LandOne(w, ts, x, w');
    }
    hide Core, TracksInv, TrackData, LandedAll, BufOf;
    LandCore(w, b);
    TracksInvIs(w');
  }

  lemma {:induction false} LandOne(w: World, ts: set<TrackId>, x: TrackId, w': World)
    requires Inv(w) && x in w.tracks && w'.tracks == LandedAll(w.tracks, ts)
    requires w'.nodes == w.nodes && w'.data == w.data && w'.bufs == w.bufs && w'.nextNode == w.nextNode
    ensures w'.tracks[x].node < w'.nextNode
         && TrackData(w'.tracks[x], w'.nodes, w'.data, BufOf(w', w'.tracks[x].packer))
  {
    DataOf(w, x);
    LandData(w.tracks[x], w.nodes, w.data, BufOf(w, w.tracks[x].packer));
    hide Inv, TrackData;
  }

  lemma {:induction false} FailRows(w: World, b: BlobId, t: TrackId, rest: set<TrackId>, tr: Track)
    requires RowInv(w) && ReapInv(w) && b in w.jobs && w.jobs[b].stage.Failing? && t in w.tracks
        && Weaker(w.tracks[t], tr)
    ensures var w' := WithStage(w, b, Failing(rest)).(tracks := w.tracks[t := tr]); RowInv(w') && ReapInv(w')
  {
    var w' := WithStage(w, b, Failing(rest)).(tracks := w.tracks[t := tr]);
    forall x, c | LiveNames(w'.tracks, x, c) ensures LiveNames(w.tracks, x, c) {
    }
    assert InGrace(w', w.now);
  }

  lemma {:induction false} DataOfAll(w: World)
    requires Inv(w)
    ensures forall x :: x in w.tracks ==>
      TrackData(w.tracks[x], w.nodes, w.data, BufOf(w, w.tracks[x].packer)) && w.tracks[x].node < w.nextNode
  {
    hide TrackData;
  }

  lemma {:induction false} FailData(tr: Track, nodes: Nodes, data: Data, buf: Bytes)
    ensures TrackData(FailTrack(tr), nodes, data, buf) && Weaker(tr, FailTrack(tr))
    ensures FailTrack(tr).packer == tr.packer && FailTrack(tr).node == tr.node
  {
  }

  lemma {:induction false} FailOneStep(w: World, b: BlobId, t: TrackId)
    requires Inv(w) && b in w.jobs && w.jobs[b].stage.Failing? && t in w.jobs[b].stage.rest && t in w.tracks
    ensures Inv(WithStage(w, b, Failing(w.jobs[b].stage.rest - {t})).(tracks := w.tracks[t := FailTrack(w.tracks[t])]))
  {
    var tr := FailTrack(w.tracks[t]);
    var w' := WithStage(w, b, Failing(w.jobs[b].stage.rest - {t})).(tracks := w.tracks[t := tr]);
    FailData(w.tracks[t], w.nodes, w.data, BufOf(w, w.tracks[t].packer));
    DataOfAll(w);
    hide TracksInv, TrackData, TrackShake, Live, BufOf;
    hide DbInv, RowInv, ReapInv, Handshake, FailTrack;
    FailRows(w, b, t, w.jobs[b].stage.rest - {t}, tr);
    OneFailed(w.tracks, w.jobs, b, t);
    OneMoreTrack(w, w', t);
  }

  // ---- finalization -----------------------------------------------------------------------------

  /** A decided finalize of a live track finds every blob it names in the table: the reaper cannot have
      taken one, so the foreign key never rejects it. */
  lemma {:induction false} RowsAreThere(w: World, t: TrackId)
    requires Inv(w) && t in w.tracks && w.tracks[t].calls > 0 && !w.tracks[t].done
    ensures RowsExist(w, w.tracks[t].extents) && Live(w.tracks[t])
  {
    var ex := w.tracks[t].extents;
    ShakeOf(w, t);
    FinalizeDecided(w.tracks, w.jobs, t);
    forall i | 0 <= i < |ex| ensures ex[i].blob in w.blobs {
      assert Names(ex, ex[i].blob);
      assert LiveNames(w.tracks, t, ex[i].blob);
      assert ex[i].blob in w.jobs;
    }
  }

  /** What finalize is about to store is the node's content. */
  lemma {:induction false} PlannedFits(w: World, t: TrackId)
    requires Inv(w) && t in w.tracks && w.tracks[t].calls > 0 && !w.tracks[t].done && Owned(w, w.tracks[t])
    ensures var tr := w.tracks[t]; var nd := w.nodes[tr.node];
            && NodeOk(nd, w.data) && NodeOk(StoredNode(nd, tr.extents), w.data)
            && Content(StoredNode(nd, tr.extents), w.data) == Content(nd, w.data)
  {
    var tr := w.tracks[t];
    RowsAreThere(w, t);
    ShakeOf(w, t);
    DataOf(w, t);
    NodeOf(w, tr.node);
    assert tr.stage.Planned? by { hide Inv, TrackData, NodeOk; }
    hide Inv, Handshake, TrackShake, NodeOk, Content, StoredNode, TrackFits, RowsExist;
    PlannedContent(tr, w.nodes[tr.node], w.data, BufOf(w, tr.packer));
  }

  lemma {:induction false} PlannedContent(tr: Track, nd: Node, data: Data, buf: Bytes)
    requires NodeOk(nd, data) && !nd.isDir && nd.state.Buffered? && tr.stage.Planned?
    requires TrackFits(tr, Flatten(nd.wal), data, buf)
    ensures NodeOk(StoredNode(nd, tr.extents), data)
    ensures Content(StoredNode(nd, tr.extents), data) == Content(nd, data)
  {
    AssembleLength(tr.extents, data);
  }

  lemma {:induction false} FinalizeLinks(nodes: Nodes, blobs: Blobs, data: Data, n: NodeId, nd: Node, blobs': Blobs)
    requires LinksOk(nodes, blobs, data) && SameRows(blobs, blobs')
    requires forall i :: 0 <= i < |nd.extents| ==> nd.extents[i].blob in blobs
    ensures LinksOk(nodes[n := nd], blobs', data)
  {
  }

  /** Storing node n: live tracks of n lose sight of it, nothing condemned becomes named. */
  lemma {:induction false} StoreTracks(w: World, w': World, n: NodeId)
    requires TracksInv(w) && n in w.nodes && !w.nodes[n].isDir
    requires w'.tracks == w.tracks && w'.data == w.data && w'.bufs == w.bufs && w'.nextNode == w.nextNode
    requires n in w'.nodes && !w'.nodes[n].isDir && w'.nodes[n].state.Stored?
    requires w'.nodes.Keys == w.nodes.Keys && forall x :: x in w.nodes && x != n ==> w'.nodes[x] == w.nodes[x]
    ensures TracksInv(w')
  {
    assert forall p :: BufOf(w', p) == BufOf(w, p);
    forall t | t in w.tracks ensures TrackData(w.tracks[t], w'.nodes, w'.data, BufOf(w', w.tracks[t].packer)) {
      assert TrackData(w.tracks[t], w.nodes, w.data, BufOf(w, w.tracks[t].packer));
    }
  }

  lemma {:induction false} StoreRows(w: World, n: NodeId, nd: Node, blobs': Blobs)
    requires RowInv(w) && ReapInv(w) && SameRows(w.blobs, blobs') && n in w.nodes
    requires forall b :: Names(nd.extents, b) ==> b !in w.condemned
    ensures var w' := w.(nodes := w.nodes[n := nd], blobs := blobs'); RowInv(w') && ReapInv(w')
  {
    var w' := w.(nodes := w.nodes[n := nd], blobs := blobs');
    forall b | b in w.condemned ensures !Named(w'.nodes, b) {
      forall x | x in w'.nodes ensures !Names(w'.nodes[x].extents, b) {
        assert !Named(w.nodes, b);
        assert x in w.nodes;
      }
    }
    assert InGrace(w', w.now);
  }

  lemma {:induction false} StoreDb(w: World, n: NodeId, nd: Node)
    requires Inv(w) && n in w.nodes && nd == StoredNode(w.nodes[n], nd.extents) && NodeOk(nd, w.data)
    requires RowsExist(w, nd.extents)
    ensures var nodes' := w.nodes[n := nd]; DbInv(nodes', Settle(w.blobs, w.nodes, nodes'), w.data, w.nextNode)
  {
    var nodes' := w.nodes[n := nd];
    assert NodesOk(nodes', w.data);
    hide NodesOk, NodeOk, RefsOk, Handshake, TracksInv, RowInv, ReapInv, Settle;
    RewriteTree(w.nodes, n, nd);
    SettleOk(w.blobs, w.nodes, nodes');
    SettleRows(w.blobs, w.nodes, nodes');
    FinalizeLinks(w.nodes, w.blobs, w.data, n, nd, Settle(w.blobs, w.nodes, nodes'));
  }

  lemma {:induction false} StoreStep(w: World, n: NodeId, nd: Node)
    requires Inv(w) && n in w.nodes && !w.nodes[n].isDir
    requires nd == StoredNode(w.nodes[n], nd.extents) && NodeOk(nd, w.data) && RowsExist(w, nd.extents)
    requires forall b :: Names(nd.extents, b) ==> b !in w.condemned
    ensures Inv(WithNodes(w, w.nodes[n := nd]))
  {
    var nodes' := w.nodes[n := nd];
    var w' := WithNodes(w, nodes');
    StoreDb(w, n, nd);
    hide DbInv, RowInv, ReapInv, Handshake, TracksInv, Settle, NodeOk, Names, SameRows;
    SettleRows(w.blobs, w.nodes, nodes');
    StoreTracks(w, w', n);
    StoreRows(w, n, nd, Settle(w.blobs, w.nodes, nodes'));
  }

  lemma {:induction false} FinalizeStep(w: World, t: TrackId)
    requires Inv(w) && t in w.tracks && w.tracks[t].calls > 0 && !w.tracks[t].done
    ensures Inv(DoFinalize(w, t))
  {
    var tr := w.tracks[t];
    var w1 := WithTrack(w, t, tr.(done := true));
    DoneStep(w, t);
    if Owned(w, tr) && RowsExist(w, tr.extents) {
      PlannedFits(w, t);
      RowsAreThere(w, t);
      NotCondemned(w, t);
      StoreStep(w1, tr.node, StoredNode(w.nodes[tr.node], tr.extents));
      hide Inv;
      assert DoFinalize(w, t) == WithNodes(w1, w1.nodes[tr.node := StoredNode(w1.nodes[tr.node], tr.extents)]);
    }
  }

  lemma {:induction false} NotCondemned(w: World, t: TrackId)
    requires Inv(w) && t in w.tracks && Live(w.tracks[t])
    ensures forall b :: Names(w.tracks[t].extents, b) ==> b !in w.condemned
  {
    forall b | Names(w.tracks[t].extents, b) ensures b !in w.condemned {
      assert LiveNames(w.tracks, t, b);
    }
  }

  lemma {:induction false} EmptyFits(w: World, t: TrackId)
    requires Inv(w) && t in w.tracks && w.tracks[t].stage.Claimed? && Live(w.tracks[t]) && w.tracks[t].size == 0
    requires Owned(w, w.tracks[t])
    ensures var nd := w.nodes[w.tracks[t].node];
            && nd.extents == [] && NodeOk(nd, w.data) && NodeOk(StoredNode(nd, nd.extents), w.data)
            && Content(StoredNode(nd, nd.extents), w.data) == Content(nd, w.data)
  {
    var tr := w.tracks[t];
    DataOf(w, t);
    NodeOf(w, tr.node);
    hide Inv, NodeOk, Content, StoredNode, TrackFits;
    EmptyContent(tr, w.nodes[tr.node], w.data, BufOf(w, tr.packer));
  }

  lemma {:induction false} EmptyContent(tr: Track, nd: Node, data: Data, buf: Bytes)
    requires NodeOk(nd, data) && !nd.isDir && nd.state.Buffered? && tr.size == 0
    requires TrackFits(tr, Flatten(nd.wal), data, buf)
    ensures nd.extents == [] && NodeOk(StoredNode(nd, nd.extents), data)
    ensures Content(StoredNode(nd, nd.extents), data) == Content(nd, data)
  {
  }

  lemma {:induction false} StoreNothing(w: World, n: NodeId)
    requires Inv(w) && n in w.nodes && !w.nodes[n].isDir && w.nodes[n].extents == []
    requires NodeOk(StoredNode(w.nodes[n], []), w.data)
    ensures Inv(w.(nodes := w.nodes[n := StoredNode(w.nodes[n], [])]))
  {
    var nd := StoredNode(w.nodes[n], []);
    var nodes' := w.nodes[n := nd];
    assert forall b :: !Names(nd.extents, b);
    assert SameExtents(w.nodes, nodes');
    hide Inv, NodeOk, Settle;
    StoreStep(w, n, nd);
    SettleSame(w.blobs, w.nodes, nodes');
    assert w.(nodes := nodes') == WithNodes(w, nodes');
  }

  lemma {:induction false} StoreEmptyStep(w: World, t: TrackId)
    requires Inv(w) && t in w.tracks && w.tracks[t].stage.Claimed? && Live(w.tracks[t]) && w.tracks[t].size == 0
    ensures Inv(DoStoreEmpty(w, t))
  {
    var tr := w.tracks[t];
    var w1 := WithTrack(w, t, tr.(done := true));
    DoneStep(w, t);
    if Owned(w, tr) {
      EmptyFits(w, t);
      hide Inv, NodeOk;
      StoreNothing(w1, tr.node);
    }
  }

  // ---- crashes, the clock and the reaper --------------------------------------------------------

  lemma {:induction false} CrashRows(w: World, p: Owner)
    requires RowInv(w) && ReapInv(w)
    ensures RowInv(DoCrash(w, p)) && ReapInv(DoCrash(w, p))
  {
    var w' := DoCrash(w, p);
    forall x, c | LiveNames(w'.tracks, x, c) ensures LiveNames(w.tracks, x, c) {
    }
    assert InGrace(w', w.now);
  }

  lemma {:induction false} CrashTracks(w: World, p: Owner)
    requires TracksInv(w)
    ensures TracksInv(DoCrash(w, p))
  {
    hide TrackData;
    var w' := DoCrash(w, p);
    assert forall q :: q != p ==> BufOf(w', q) == BufOf(w, q);
  }

  lemma {:induction false} CrashStep(w: World, p: Owner)
    requires Inv(w)
    ensures Inv(DoCrash(w, p))
  {
    hide DbInv, RowInv, ReapInv, Handshake, TracksInv;
    CrashRows(w, p);
    CrashTracks(w, p);
    PackerGone(w.tracks, w.jobs, p, DoCrash(w, p).tracks, DoCrash(w, p).jobs);
  }

  lemma {:induction false} TickStep(w: World, later: Time)
    requires Inv(w) && InGrace(w, later)
    ensures Inv(w.(now := later))
  {
    hide DbInv, Handshake, TracksInv;
    JobsTracks(w, w.(now := later));
    assert InGrace(w.(now := later), later);
  }

  /** Listing: refcount 0 and past the grace period means nobody names the blob. */
  lemma {:induction false} Unreferenced(w: World, b: BlobId)
    requires Inv(w) && Collectable(w, b)
    ensures !Named(w.nodes, b) && forall t :: !LiveNames(w.tracks, t, b)
  {
    RefsNamed(w.nodes, b);
    assert RefOk(w.blobs[b], Refs(w.nodes, b));
    hide DbInv, Handshake, TracksInv, Refs, RowInv;
    forall t ensures !LiveNames(w.tracks, t, b) {
      assert InGrace(w, w.now);
    }
  }

  lemma {:induction false} CondemnStep(w: World, b: BlobId)
    requires Inv(w) && Collectable(w, b)
    ensures Inv(w.(condemned := w.condemned + {b}))
  {
    Unreferenced(w, b);
    hide DbInv, Handshake, TracksInv, Names, LiveNames, Named;
    JobsTracks(w, w.(condemned := w.condemned + {b}));
    assert InGrace(w.(condemned := w.condemned + {b}), w.now);
  }

  lemma {:induction false} MessageStep(w: World, messages': set<BlobId>, lost': set<BlobId>)
    requires Inv(w) && w.messages + w.lost <= messages' + lost' + w.condemned
    requires forall b :: b in w.jobs && w.jobs[b].stage.Uploaded? ==> b in messages' + lost'
    ensures Inv(w.(messages := messages', lost := lost'))
  {
    hide DbInv, Handshake, TracksInv;
    JobsTracks(w, w.(messages := messages', lost := lost'));
    assert InGrace(w.(messages := messages', lost := lost'), w.now);
  }

  lemma {:induction false} DeleteMessageStep(w: World, b: BlobId)
    requires Inv(w) && b in w.condemned
    ensures Inv(w.(messages := w.messages - {b}))
  {
    assert b in w.blobs;
    assert forall c :: c in w.jobs && w.jobs[c].stage.Uploaded? ==> c != b && c in w.messages + w.lost;
    assert w.(messages := w.messages - {b}) == w.(messages := w.messages - {b}, lost := w.lost);
    hide Inv;
    MessageStep(w, w.messages - {b}, w.lost);
  }

  lemma {:induction false} DeleteRowDb(nodes: Nodes, blobs: Blobs, data: Data, next: NodeId, b: BlobId)
    requires DbInv(nodes, blobs, data, next) && !Named(nodes, b)
    ensures DbInv(nodes, blobs - {b}, data, next)
  {
    hide TreeOk, NodesOk, Refs;
    forall n, i | n in nodes && 0 <= i < |nodes[n].extents| ensures nodes[n].extents[i].blob in blobs - {b} {
      assert Names(nodes[n].extents, nodes[n].extents[i].blob);
    }
  }

  lemma {:induction false} DeleteRowStep(w: World, b: BlobId)
    requires Inv(w) && b in w.condemned
    ensures Inv(w.(blobs := w.blobs - {b}, condemned := w.condemned - {b}))
  {
    var w' := w.(blobs := w.blobs - {b}, condemned := w.condemned - {b});
    hide DbInv, Handshake, TracksInv;
    DeleteRowDb(w.nodes, w.blobs, w.data, w.nextNode, b);
    JobsTracks(w, w');
    assert InGrace(w', w.now);
  }
}
