/** Every step of the storage engine keeps the invariant. */
module Safety {
  import opened Base
  import opened Wal
  import opened Extents
  import opened Tables
  import opened Tree
  import opened Packer
  import opened World
  import opened Invariant
  import opened HandshakeProof

  // ---- blob states ------------------------------------------------------------------------------

  /** Blob updates that never take a blob out of perm_unavailable and leave everything else alone. */
  predicate SoftStates(blobs: Blobs, blobs': Blobs) {
    blobs'.Keys == blobs.Keys && forall b :: b in blobs ==>
      (&& blobs'[b] == blobs[b].(state := blobs'[b].state)
       && (blobs'[b].state.PermUnavailable? <==> blobs[b].state.PermUnavailable?))
  }

  lemma {:induction false} StatesStep(w: World, blobs': Blobs)
    requires Inv(w) && SoftStates(w.blobs, blobs')
    ensures Inv(w.(blobs := blobs'))
  {
    hide Refs, TreeOk, NodesOk, TracksInv, Handshake;
    StatesTracks(w, blobs');
    assert RefsOk(w.nodes, blobs');
    assert LinksOk(w.nodes, blobs', w.data);
    StatesRows(w, blobs');
  }

  lemma {:induction false} StatesTracks(w: World, blobs': Blobs)
    requires TracksInv(w)
    ensures TracksInv(w.(blobs := blobs'))
  {
    var w' := w.(blobs := blobs');
    assert forall p :: BufOf(w', p) == BufOf(w, p);
  }

  lemma {:induction false} StatesRows(w: World, blobs': Blobs)
    requires RowInv(w) && ReapInv(w) && SameRows(w.blobs, blobs')
    ensures RowInv(w.(blobs := blobs')) && ReapInv(w.(blobs := blobs'))
  {
  }

  lemma {:induction false} SoleRefs(nodes: Nodes, b: BlobId, c: BlobId)
    ensures Refs(WithoutSole(nodes, b), c) <= Refs(nodes, c)
    ensures c != b ==> Refs(WithoutSole(nodes, b), c) == Refs(nodes, c)
  {
    var nodes' := WithoutSole(nodes, b);
    RefsShrink(nodes, nodes', c);
    RefsNamed(nodes - nodes'.Keys, c);
  }

  lemma {:induction false} SoleTree(nodes: Nodes, data: Data, b: BlobId)
    requires TreeOk(nodes) && NodesOk(nodes, data)
    ensures TreeOk(WithoutSole(nodes, b)) && NodesOk(WithoutSole(nodes, b), data)
  {
    var nodes' := WithoutSole(nodes, b);
    forall x | x in nodes' ensures ParentOk(nodes', nodes'[x]) {
      assert ParentOk(nodes, nodes[x]);
      assert nodes[x].parent.Some? ==> NodeOk(nodes[nodes[x].parent.value], data);
    }
  }

  /** The perm-gone cascade keeps the invariant only because it marks the blob: the deleted nodes'
      references to it stay counted. */
  lemma {:induction false} PermGoneStep(w: World, b: BlobId)
    requires Inv(w) && b in w.blobs
    ensures var blobs' := w.blobs[b := w.blobs[b].(state := PermUnavailable)];
            Inv(w.(nodes := WithoutSole(w.nodes, b), blobs := blobs'))
  {
    hide RefsOk, TracksInv, RowInv, ReapInv, Handshake, LiveKept, ExtentsFrom, SameRows, TreeOk, NodesOk, LinksOk,
      WithoutSole;
    var nodes' := WithoutSole(w.nodes, b);
    var blobs' := w.blobs[b := w.blobs[b].(state := PermUnavailable)];
    SoleTree(w.nodes, w.data, b);
    SoleFrom(w.tracks, w.nodes, b);
    SoleRefsOk(w.nodes, w.blobs, b);
    NodesStep(w, nodes', blobs', w.nextNode);
    hide DbInv;
    assert w.(nodes := nodes', blobs := blobs') == w.(nodes := nodes', blobs := blobs', nextNode := w.nextNode);
  }

  lemma {:induction false} SoleFrom(tracks: Tracks, nodes: Nodes, b: BlobId)
    ensures LiveKept(tracks, nodes, WithoutSole(nodes, b)) && ExtentsFrom(nodes, WithoutSole(nodes, b))
    ensures WithoutSole(nodes, b).Keys <= nodes.Keys
  {
    SubsetFrom(tracks, nodes, WithoutSole(nodes, b));
  }

  lemma {:induction false} SoleRefsOk(nodes: Nodes, blobs: Blobs, b: BlobId)
    requires RefsOk(nodes, blobs) && b in blobs
    ensures var blobs' := blobs[b := blobs[b].(state := PermUnavailable)];
            RefsOk(WithoutSole(nodes, b), blobs') && SameRows(blobs, blobs')
  {
    hide Refs;
    var blobs' := blobs[b := blobs[b].(state := PermUnavailable)];
    forall c | c in blobs' ensures RefOk(blobs'[c], Refs(WithoutSole(nodes, b), c)) {
      SoleRefs(nodes, b, c);
    }
  }

  // ---- steps on the packer's memory -------------------------------------------------------------

  /** No live track gains a name, a reading or a node. */
  predicate Weaker(tr: Track, tr': Track) {
    && tr'.node == tr.node && tr'.packer == tr.packer && tr'.extents == tr.extents
    && tr'.size == tr.size && (Live(tr') ==> Live(tr))
  }

  predicate AllWeaker(tracks: Tracks, tracks': Tracks) {
    tracks'.Keys <= tracks.Keys && forall t :: t in tracks' ==> Weaker(tracks[t], tracks'[t])
  }

  lemma {:induction false} WeakerRows(w: World, tracks': Tracks)
    requires RowInv(w) && ReapInv(w) && AllWeaker(w.tracks, tracks')
    ensures RowInv(w.(tracks := tracks')) && ReapInv(w.(tracks := tracks'))
  {
    var w' := w.(tracks := tracks');
    forall t, b | LiveNames(tracks', t, b) ensures LiveNames(w.tracks, t, b) {
    }
  }

  lemma {:induction false} TracksCore(w: World, tracks': Tracks)
    requires Core(w) && AllWeaker(w.tracks, tracks') && Handshake(tracks', w.jobs)
    ensures Core(w.(tracks := tracks'))
  {
    hide RowInv, ReapInv, Handshake, AllWeaker, DbInv;
    WeakerRows(w, tracks');
  }

  lemma {:induction false} TracksStep(w: World, tracks': Tracks)
    requires Inv(w) && AllWeaker(w.tracks, tracks') && Handshake(tracks', w.jobs)
    requires forall t :: t in tracks' ==> TrackData(tracks'[t], w.nodes, w.data, BufOf(w, tracks'[t].packer))
    ensures Inv(w.(tracks := tracks'))
  {
    hide Core, Handshake, AllWeaker, TracksInv, TrackData;
    TracksCore(w, tracks');
    TracksStepData(w, tracks');
  }

  lemma {:induction false} TracksStepData(w: World, tracks': Tracks)
    requires TracksInv(w) && AllWeaker(w.tracks, tracks')
    requires forall t :: t in tracks' ==> TrackData(tracks'[t], w.nodes, w.data, BufOf(w, tracks'[t].packer))
    ensures TracksInv(w.(tracks := tracks'))
  {
    hide TrackData;
    var w' := w.(tracks := tracks');
    assert forall p :: BufOf(w', p) == BufOf(w, p);
  }

  lemma {:induction false} OneTrack(w: World, t: TrackId, tr: Track)
    requires Inv(w) && t in w.tracks && Weaker(w.tracks[t], tr) && Handshake(w.tracks[t := tr], w.jobs)
    requires TrackData(tr, w.nodes, w.data, BufOf(w, tr.packer))
    ensures Inv(WithTrack(w, t, tr))
  {
    var tracks' := w.tracks[t := tr];
    assert AllWeaker(w.tracks, tracks');
    assert forall x :: x in tracks' ==> TrackData(tracks'[x], w.nodes, w.data, BufOf(w, tracks'[x].packer)) by {
      hide TrackData;
    }
    hide RowInv, ReapInv, Handshake, AllWeaker, TrackData, DbInv;
    TracksStep(w, tracks');
  }

  lemma {:induction false} AbandonStep(w: World, t: TrackId)
    requires Inv(w) && t in w.tracks && !w.tracks[t].done
    requires w.tracks[t].stage.Claimed? || w.tracks[t].stage.Splitting?
    ensures Inv(WithTrack(w, t, DropTrack(w.tracks[t])))
  {
    ShakeOf(w, t);
    DropData(w.tracks[t], w.nodes, w.data, BufOf(w, w.tracks[t].packer));
    hide DbInv, RowInv, ReapInv, Handshake, TracksInv, TrackData, TrackShake;
    TrackMoves(w.tracks, w.jobs, t, DropTrack(w.tracks[t]));
    OneTrack(w, t, DropTrack(w.tracks[t]));
  }

  lemma {:induction false} DropData(tr: Track, nodes: Nodes, data: Data, buf: Bytes)
    ensures TrackData(DropTrack(tr), nodes, data, buf)
  {
  }

  lemma {:induction false} StartData(tr: Track, nodes: Nodes, data: Data, buf: Bytes)
    requires TrackData(tr, nodes, data, buf) && tr.stage.Claimed? && tr.extents == []
    ensures TrackData(tr.(stage := Splitting), nodes, data, buf)
  {
  }

  lemma {:induction false} SplitStartStep(w: World, t: TrackId)
    requires Inv(w) && t in w.tracks && w.tracks[t].stage.Claimed? && !w.tracks[t].done
    ensures Inv(WithTrack(w, t, w.tracks[t].(stage := Splitting)))
  {
    var tr := w.tracks[t].(stage := Splitting);
    ShakeOf(w, t);
    DataOf(w, t);
    assert tr.extents == [] && w.tracks[t].calls == 0;
    hide DbInv, RowInv, ReapInv, Handshake, TracksInv, TrackData, TrackShake;
    StartData(w.tracks[t], w.nodes, w.data, BufOf(w, tr.packer));
    TrackMoves(w.tracks, w.jobs, t, tr);
    OneTrack(w, t, tr);
  }

  lemma {:induction false} PlanData(tr: Track, nodes: Nodes, data: Data, buf: Bytes)
    requires TrackData(tr, nodes, data, buf)
    requires tr.stage.Sealing? || (tr.stage.Splitting? && Covered(tr.extents) >= tr.size)
    ensures TrackData(PlanTrack(tr), nodes, data, buf)
  {
    if Mapped(tr.extents, data) {
      AssembleLength(tr.extents, data);
    }
  }

  lemma {:induction false} SplitDoneCore(w: World, t: TrackId)
    requires Core(w) && t in w.tracks && w.tracks[t].stage.Splitting?
    ensures Core(WithTrack(w, t, PlanTrack(w.tracks[t])))
  {
    var tracks' := w.tracks[t := PlanTrack(w.tracks[t])];
    assert AllWeaker(w.tracks, tracks');
    hide DbInv, RowInv, ReapInv, Handshake, AllWeaker, PlanTrack;
    BecomePlanned(w.tracks, w.jobs, {t}, tracks');
    TracksCore(w, tracks');
  }

  lemma {:induction false} SplitDoneStep(w: World, t: TrackId)
    requires Inv(w) && t in w.tracks && w.tracks[t].stage.Splitting? && Covered(w.tracks[t].extents) >= w.tracks[t].size
    ensures Inv(WithTrack(w, t, PlanTrack(w.tracks[t])))
  {
    var tr := PlanTrack(w.tracks[t]);
    ShakeOf(w, t);
    DataOf(w, t);
    hide DbInv, RowInv, ReapInv, Handshake, TracksInv, TrackData, TrackShake;
    PlanData(w.tracks[t], w.nodes, w.data, BufOf(w, tr.packer));
    BecomePlanned(w.tracks, w.jobs, {t}, w.tracks[t := tr]);
    OneTrack(w, t, tr);
  }

  lemma {:induction false} DoneData(tr: Track, nodes: Nodes, data: Data, buf: Bytes)
    ensures TrackData(tr.(done := true), nodes, data, buf)
  {
  }

  lemma {:induction false} DoneStep(w: World, t: TrackId)
    requires Inv(w) && t in w.tracks && (w.tracks[t].calls > 0 || w.tracks[t].stage.Claimed?)
    ensures Inv(WithTrack(w, t, w.tracks[t].(done := true)))
  {
    ShakeOf(w, t);
    assert w.tracks[t].calls <= 1 && (w.tracks[t].stage.Claimed? ==> w.tracks[t].extents == []);
    hide DbInv, RowInv, ReapInv, Handshake, TracksInv, TrackData, TrackShake;
    DoneData(w.tracks[t], w.nodes, w.data, BufOf(w, w.tracks[t].packer));
    DoneMoves(w.tracks, w.jobs, t);
    OneTrack(w, t, w.tracks[t].(done := true));
  }

  lemma {:induction false} DoneMoves(tracks: Tracks, jobs: Jobs, t: TrackId)
    requires Handshake(tracks, jobs) && t in tracks && (tracks[t].calls > 0 || tracks[t].stage.Claimed?)
    ensures Handshake(tracks[t := tracks[t].(done := true)], jobs)
  {
    assert TrackShake(tracks, jobs, t);
    TrackMoves(tracks, jobs, t, tracks[t].(done := true));
  }

  lemma {:induction false} SealDoneCore(w: World, p: Owner)
    requires Core(w)
    ensures Core(w.(tracks := PlannedAll(w.tracks, p)))
  {
    var tracks' := PlannedAll(w.tracks, p);
    assert AllWeaker(w.tracks, tracks');
    hide DbInv, RowInv, ReapInv, Handshake, AllWeaker, PlanTrack;
    BecomePlanned(w.tracks, w.jobs, SealingOf(w.tracks, p), tracks');
    TracksCore(w, tracks');
  }

  lemma {:induction false} SealDoneStep(w: World, p: Owner)
    requires Inv(w)
    ensures Inv(w.(tracks := PlannedAll(w.tracks, p)))
  {
    hide DbInv, RowInv, ReapInv, Handshake, TracksInv, TrackData, TrackShake;
    var tracks' := PlannedAll(w.tracks, p);
    BecomePlanned(w.tracks, w.jobs, SealingOf(w.tracks, p), tracks');
    forall t | t in tracks' ensures TrackData(tracks'[t], w.nodes, w.data, BufOf(w, tracks'[t].packer)) {
      DataOf(w, t);
      if t in SealingOf(w.tracks, p) {
        PlanData(w.tracks[t], w.nodes, w.data, BufOf(w, w.tracks[t].packer));
      }
    }
    TracksStep(w, tracks');
  }

  lemma {:induction false} ClaimStep(w: World, p: Owner, n: NodeId, t: TrackId)
    requires Inv(w) && n in w.nodes && !w.nodes[n].isDir && w.nodes[n].state.Buffered? && t !in w.tracks
    ensures var nd := w.nodes[n].(leaseOwner := Some(p), leaseUntil := Some(w.now + LEASE));
            Inv(WithTrack(w, t, NewTrack(p, n, w.nodes[n].size)).(nodes := w.nodes[n := nd]))
  {
    var nd := w.nodes[n].(leaseOwner := Some(p), leaseUntil := Some(w.now + LEASE));
    NodeOf(w, n);
    assert NodeOk(nd, w.data);
    hide NodeOk, Inv;
    RewriteNode(w, n, nd);
    NewTrackStep(w.(nodes := w.nodes[n := nd]), p, n, t);
    assert WithTrack(w, t, NewTrack(p, n, w.nodes[n].size)).(nodes := w.nodes[n := nd])
        == WithTrack(w.(nodes := w.nodes[n := nd]), t, NewTrack(p, n, w.nodes[n].size));
  }

  lemma {:induction false} NewTrackCore(w: World, p: Owner, n: NodeId, t: TrackId, size: nat)
    requires Core(w) && t !in w.tracks
    ensures Core(WithTrack(w, t, NewTrack(p, n, size)))
  {
    hide DbInv, RowInv, ReapInv, Handshake;
    TrackAdded(w.tracks, w.jobs, t, NewTrack(p, n, size));
    NewTrackRows(w, t, NewTrack(p, n, size));
  }

  lemma {:induction false} NewTrackStep(w: World, p: Owner, n: NodeId, t: TrackId)
    requires Inv(w) && t !in w.tracks && n in w.nodes && !w.nodes[n].isDir && w.nodes[n].state.Buffered?
    ensures Inv(WithTrack(w, t, NewTrack(p, n, w.nodes[n].size)))
  {
    var tr := NewTrack(p, n, w.nodes[n].size);
    NodeOf(w, n);
    assert TrackData(tr, w.nodes, w.data, BufOf(w, tr.packer));
    hide Core, TracksInv, TrackData;
    NewTrackCore(w, p, n, t, w.nodes[n].size);
    NewTrackData(w, t, tr);
  }

  lemma {:induction false} NewTrackData(w: World, t: TrackId, tr: Track)
    requires TracksInv(w) && t !in w.tracks && tr.node < w.nextNode
    requires TrackData(tr, w.nodes, w.data, BufOf(w, tr.packer))
    ensures TracksInv(WithTrack(w, t, tr))
  {
    hide TrackData;
    assert forall p :: BufOf(WithTrack(w, t, tr), p) == BufOf(w, p);
  }

  lemma {:induction false} NewTrackRows(w: World, t: TrackId, tr: Track)
    requires RowInv(w) && ReapInv(w) && t !in w.tracks && tr.extents == []
    ensures RowInv(WithTrack(w, t, tr)) && ReapInv(WithTrack(w, t, tr))
  {
    var w' := WithTrack(w, t, tr);
    forall x, b | LiveNames(w'.tracks, x, b) ensures x != t && LiveNames(w.tracks, x, b) {
      assert Names(w'.tracks[x].extents, b);
    }
    assert InGrace(w', w.now);
  }

  lemma {:induction false} ReleaseStep(w: World, n: NodeId)
    requires Inv(w) && n in w.nodes
    ensures Inv(w.(nodes := w.nodes[n := w.nodes[n].(leaseOwner := None, leaseUntil := None)]))
  {
    NodeOf(w, n);
    RewriteNode(w, n, w.nodes[n].(leaseOwner := None, leaseUntil := None));
  }
}
