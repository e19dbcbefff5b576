/** The packer's data path, finalization, crashes and the reaper keep the invariant. */
module DataPath {
  import opened Base
  import opened Wal
  import opened Extents
  import opened Tables
  import opened Tree
  import opened Packer
  import opened World
  import opened Invariant
  import opened HandshakeProof
  import opened Safety

  // ---- emitting blobs ---------------------------------------------------------------------------

  lemma {:induction false} FitsMonotone(tr: Track, nodes: Nodes, data: Data, more: Data, buf: Bytes)
    requires TrackData(tr, nodes, data, buf) && Grows(data, more)
    ensures TrackData(tr, nodes, more, buf)
  {
    if Mapped(tr.extents, data) {
      AssembleMonotone(tr.extents, data, more);
    }
  }

  lemma {:induction false} DataGrows(nodes: Nodes, blobs: Blobs, data: Data, more: Data, next: NodeId)
    requires DbInv(nodes, blobs, data, next) && Grows(data, more)
    ensures DbInv(nodes, blobs, more, next)
  {
    hide NodesOk, RefsOk, TreeOk;
    NodesMonotone(nodes, data, more);
  }

  lemma {:induction false} PieceRead(wal: seq<Bytes>, ex: seq<Extent>, data: Data, n: nat)
    requires Disciplined(wal) && Mapped(ex, data) && Assemble(ex, data) <= Flatten(wal)
    requires 0 < n <= |Flatten(wal)| - Covered(ex)
    ensures |ReadRange(wal, Covered(ex), n)| == n
    ensures Assemble(ex, data) + ReadRange(wal, Covered(ex), n) <= Flatten(wal)
  {
    hide ReadRange, Flatten, Disciplined, Assemble, Covered;
    var k, c := Covered(ex), Flatten(wal);
    ReadRangeIsSlice(wal, k, n);
    AssembleLength(ex, data);
    assert c[..k] + c[k..k + n] == c[..k + n];
  }

  lemma {:induction false} Unnamed(ex: seq<Extent>, data: Data, b: BlobId)
    requires Mapped(ex, data) && b !in data
    ensures !Names(ex, b)
  {
    assert forall i :: 0 <= i < |ex| ==> InRange(ex[i], data);
  }

  /** splitLarge's next piece, read while the node is still buffered, continues the file. */
  lemma {:induction false} EmitFits(tr: Track, wal: seq<Bytes>, data: Data, b: BlobId, n: nat)
    requires Disciplined(wal) && b !in data && tr.stage.Splitting? && tr.size == |Flatten(wal)|
    requires Tiled(tr.extents) && Mapped(tr.extents, data) && Assemble(tr.extents, data) <= Flatten(wal)
    requires 0 < n <= tr.size - Covered(tr.extents)
    ensures var piece := ReadRange(wal, Covered(tr.extents), n);
            TrackFits(EmitPiece(tr, b, |piece|), Flatten(wal), data[b := piece], [])
  {
    var ex := tr.extents;
    var piece := ReadRange(wal, Covered(ex), n);
    var more := data[b := piece];
    var e := Extent(|ex|, Covered(ex), |piece|, b, 0);
    assert piece[0..|piece|] == piece;
    assert InRange(e, more) && Piece(e, more) == piece;
    hide Tiled, Mapped, Assemble, Covered, ReadRange, Flatten, Disciplined, Piece, Names;
    PieceRead(wal, ex, data, n);
    AssembleMonotone(ex, data, more);
    Unnamed(ex, data, b);
    Extend(ex, e, more);
  }

  lemma {:induction false} EmitData(tr: Track, nodes: Nodes, data: Data, buf: Bytes, wal: seq<Bytes>, b: BlobId, n: nat)
    requires TrackData(tr, nodes, data, buf) && NodesOk(nodes, data)
    requires wal == if tr.node in nodes then nodes[tr.node].wal else []
    requires tr.stage.Splitting? && b !in data && 0 < n <= tr.size - Covered(tr.extents)
    ensures var piece := ReadRange(wal, Covered(tr.extents), n);
            TrackData(EmitPiece(tr, b, |piece|), nodes, data[b := piece], buf)
  {
    if Live(tr) && tr.node in nodes && nodes[tr.node].state.Buffered? {
      assert NodeOk(nodes[tr.node], data);
      EmitFits(tr, wal, data, b, n);
    }
  }

  lemma {:induction false} EmitHandshake(tracks: Tracks, jobs: Jobs, t: TrackId, b: BlobId, len: nat)
    requires Handshake(tracks, jobs) && t in tracks && tracks[t].stage.Splitting? && b !in jobs
    ensures Handshake(tracks[t := EmitPiece(tracks[t], b, len)], jobs[b := Job(tracks[t].packer, {t}, Staged)])
  {
    assert TrackShake(tracks, jobs, t);
    var tr := EmitPiece(tracks[t], b, len);
    var e := Extent(|tracks[t].extents|, Covered(tracks[t].extents), len, b, 0);
    assert tr.extents[|tracks[t].extents|] == e;
    hide TrackShake, Covered, Names;
    JobAdded(tracks, jobs, b, tracks[t].packer, {t}, tracks[t := tr]);
  }

  /** Staging a blob whose id is new: rows, messages and the reaper's list are untouched. */
  lemma {:induction false} StagedRows(w: World, b: BlobId, bytes: Bytes, job: Job, tracks': Tracks,
          bufs': map<Owner, Bytes>)
    requires RowInv(w) && ReapInv(w) && LinksOk(w.nodes, w.blobs, w.data) && b !in w.data && job.stage == Staged
    requires b !in w.jobs
    requires forall x, c :: LiveNames(tracks', x, c) ==> LiveNames(w.tracks, x, c) || c == b
    ensures var w' := w.(data := w.data[b := bytes], tracks := tracks', jobs := w.jobs[b := job], bufs := bufs');
            RowInv(w') && ReapInv(w')
  {
    var w' := w.(data := w.data[b := bytes], tracks := tracks', jobs := w.jobs[b := job], bufs := bufs');
    assert b !in w.blobs;
    assert InGrace(w', w.now) by {
      forall t, c | t in tracks' && Live(tracks'[t]) && Names(tracks'[t].extents, c) && c in w.blobs
        ensures w.now <= w.blobs[c].createdAt + GRACE
      {
        assert LiveNames(tracks', t, c);
      }
    }
  }

  lemma {:induction false} EmitNames(tracks: Tracks, t: TrackId, b: BlobId, len: nat)
    requires t in tracks
    ensures var tracks' := tracks[t := EmitPiece(tracks[t], b, len)];
            forall x, c :: LiveNames(tracks', x, c) ==> LiveNames(tracks, x, c) || c == b
  {
    var tracks' := tracks[t := EmitPiece(tracks[t], b, len)];
    forall x, c | LiveNames(tracks', x, c) ensures LiveNames(tracks, x, c) || c == b {
      if x == t {
        NamesSnoc(tracks[t].extents, Extent(|tracks[t].extents|, Covered(tracks[t].extents), len, b, 0), c);
      }
    }
  }

  lemma {:induction false} TracksMonotone(w: World, w': World)
    requires TracksInv(w) && Grows(w.data, w'.data) && w'.nodes == w.nodes && w'.nextNode == w.nextNode
    ensures forall t :: t in w.tracks ==>
      TrackData(w.tracks[t], w'.nodes, w'.data, BufOf(w, w.tracks[t].packer)) && w.tracks[t].node < w'.nextNode
  {
    forall t | t in w.tracks ensures TrackData(w.tracks[t], w'.nodes, w'.data, BufOf(w, w.tracks[t].packer)) {
      FitsMonotone(w.tracks[t], w.nodes, w.data, w'.data, BufOf(w, w.tracks[t].packer));
    }
  }

  lemma {:induction false} EmitTracks(w: World, t: TrackId, b: BlobId, n: nat)
    requires Inv(w) && t in w.tracks && w.tracks[t].stage.Splitting? && b !in w.data
    requires 0 < n <= w.tracks[t].size - Covered(w.tracks[t].extents)
    ensures TracksInv(DoSplitEmit(w, t, b, n))
  {
    var w' := DoSplitEmit(w, t, b, n);
    var tr := w.tracks[t];
    var piece := ReadRange(WalOf(w, tr.node), Covered(tr.extents), n);
    DataOf(w, t);
    assert NodesOk(w.nodes, w.data);
    hide DbInv, RowInv, ReapInv, Handshake, TracksInv, TrackData, NodesOk, ReadRange, EmitPiece, Covered;
    EmitData(tr, w.nodes, w.data, BufOf(w, tr.packer), WalOf(w, tr.node), b, n);
    TracksMonotone(w, w');
    EmitKeeps(tr, b, |piece|);
    OneMoreTrack(w, w', t);
  }

  lemma {:induction false} SplitEmitStep(w: World, t: TrackId, b: BlobId, n: nat)
    requires Inv(w) && t in w.tracks && w.tracks[t].stage.Splitting? && b !in w.data && b !in w.jobs
    requires 0 < n <= w.tracks[t].size - Covered(w.tracks[t].extents)
    ensures Inv(DoSplitEmit(w, t, b, n))
  {
    hide Core, TracksInv, DoSplitEmit, Covered;
    EmitTracks(w, t, b, n);
    EmitCore(w, t, b, n);
  }

  lemma {:induction false} EmitCore(w: World, t: TrackId, b: BlobId, n: nat)
    requires Core(w) && t in w.tracks && w.tracks[t].stage.Splitting? && b !in w.data && b !in w.jobs
    ensures Core(DoSplitEmit(w, t, b, n))
  {
    var w' := DoSplitEmit(w, t, b, n);
    var tr := w.tracks[t];
    var piece := ReadRange(WalOf(w, tr.node), Covered(tr.extents), n);
    assert LinksOk(w.nodes, w.blobs, w.data);
    hide DbInv, RowInv, ReapInv, Handshake, LinksOk, ReadRange, EmitPiece, LiveNames, Covered;
    DataGrows(w.nodes, w.blobs, w.data, w'.data, w.nextNode);
    EmitHandshake(w.tracks, w.jobs, t, b, |piece|);
    EmitNames(w.tracks, t, b, |piece|);
    StagedRows(w, b, piece, Job(tr.packer, {t}, Staged), w'.tracks, w.bufs);
  }

  lemma {:induction false} EmitKeeps(tr: Track, b: BlobId, len: nat)
    ensures EmitPiece(tr, b, len).packer == tr.packer && EmitPiece(tr, b, len).node == tr.node
  {
  }

  lemma {:induction false} OneMoreTrack(w: World, w': World, t: TrackId)
    requires t in w'.tracks && w'.bufs == w.bufs && w'.tracks.Keys == w.tracks.Keys
    requires forall x :: x in w.tracks && x != t ==> w'.tracks[x] == w.tracks[x]
    requires forall x :: x in w.tracks ==>
      TrackData(w.tracks[x], w'.nodes, w'.data, BufOf(w, w.tracks[x].packer)) && w.tracks[x].node < w'.nextNode
    requires TrackData(w'.tracks[t], w'.nodes, w'.data, BufOf(w, w'.tracks[t].packer))
        && w'.tracks[t].node < w'.nextNode
    ensures TracksInv(w')
  {
    hide TrackData;
    assert forall p :: BufOf(w', p) == BufOf(w, p);
  }

  // ---- the run buffer ---------------------------------------------------------------------------

  lemma {:induction false} BufGrows(tr: Track, nodes: Nodes, data: Data, buf: Bytes, more: Bytes)
    requires TrackData(tr, nodes, data, buf)
    ensures TrackData(tr, nodes, data, buf + more)
  {
    if Live(tr) && tr.node in nodes && nodes[tr.node].state.Buffered? && tr.stage.InRun?
       && tr.stage.from + tr.stage.len <= |buf| {
      assert (buf + more)[tr.stage.from..tr.stage.from + tr.stage.len]
          == buf[tr.stage.from..tr.stage.from + tr.stage.len];
    }
  }

  lemma {:induction false} PackData(tr: Track, nodes: Nodes, data: Data, buf: Bytes, wal: seq<Bytes>)
    requires TrackData(tr, nodes, data, buf) && NodesOk(nodes, data) && tr.stage.Claimed? && tr.size > 0
    requires wal == if tr.node in nodes then nodes[tr.node].wal else []
    ensures var piece := ReadRange(wal, 0, tr.size);
            TrackData(tr.(stage := InRun(|buf|, |piece|)), nodes, data, buf + piece)
  {
    if Live(tr) && tr.node in nodes && nodes[tr.node].state.Buffered? {
      assert NodeOk(nodes[tr.node], data);
      ReadRangeIsSlice(wal, 0, tr.size);
      var piece := ReadRange(wal, 0, tr.size);
      assert piece == Flatten(wal);
      assert (buf + piece)[|buf|..|buf| + |piece|] == piece;
    }
  }

  lemma {:induction false} PackOne(w: World, t: TrackId, x: TrackId)
    requires Inv(w) && t in w.tracks && w.tracks[t].stage.Claimed? && w.tracks[t].size > 0 && x in w.tracks
    ensures var w' := DoPackSmall(w, t);
            w'.tracks[x].node < w'.nextNode
            && TrackData(w'.tracks[x], w'.nodes, w'.data, BufOf(w', w'.tracks[x].packer))
  {
    var tr := w.tracks[t];
    var piece := ReadRange(WalOf(w, tr.node), 0, tr.size);
    DataOf(w, x);
    assert NodesOk(w.nodes, w.data);
    hide Inv, TrackData, NodesOk, ReadRange;
    if x == t {
      PackData(tr, w.nodes, w.data, BufOf(w, tr.packer), WalOf(w, tr.node));
    } else {
      BufGrows(w.tracks[x], w.nodes, w.data, BufOf(w, w.tracks[x].packer), piece);
    }
  }

  lemma {:induction false} PackMoves(tracks: Tracks, jobs: Jobs, t: TrackId, from: nat, len: nat)
    requires Handshake(tracks, jobs) && t in tracks && tracks[t].stage.Claimed? && !tracks[t].done
    ensures Handshake(tracks[t := tracks[t].(stage := InRun(from, len))], jobs)
  {
    assert TrackShake(tracks, jobs, t);
    TrackMoves(tracks, jobs, t, tracks[t].(stage := InRun(from, len)));
  }

  lemma {:induction false} PackCore(w: World, t: TrackId)
    requires Core(w) && t in w.tracks && w.tracks[t].stage.Claimed? && !w.tracks[t].done
    ensures Core(DoPackSmall(w, t))
  {
    var w' := DoPackSmall(w, t);
    var tr := w.tracks[t];
    assert AllWeaker(w.tracks, w'.tracks);
    hide DbInv, RowInv, ReapInv, Handshake, ReadRange, BufOf, WalOf, AllWeaker;
    PackMoves(w.tracks, w.jobs, t, |BufOf(w, tr.packer)|, |ReadRange(WalOf(w, tr.node), 0, tr.size)|);
    WeakerRows(w, w'.tracks);
    BufsRows(w.(tracks := w'.tracks), w'.bufs);
  }

  lemma {:induction false} PackSmallStep(w: World, t: TrackId)
    requires Inv(w) && t in w.tracks && w.tracks[t].stage.Claimed? && !w.tracks[t].done && w.tracks[t].size > 0
    ensures Inv(DoPackSmall(w, t))
  {
    var w' := DoPackSmall(w, t);
    forall x | x in w'.tracks
      ensures w'.tracks[x].node < w'.nextNode
        && TrackData(w'.tracks[x], w'.nodes, w'.data, BufOf(w', w'.tracks[x].packer))
    {
      hide *;
      PackOne(w, t, x);
    }
    hide Core, TracksInv, TrackData, BufOf, DoPackSmall;
    TracksInvIs(w');
    PackCore(w, t);
  }

  lemma {:induction false} TracksInvIs(w: World)
    requires forall x :: x in w.tracks ==>
      w.tracks[x].node < w.nextNode && TrackData(w.tracks[x], w.nodes, w.data, BufOf(w, w.tracks[x].packer))
    ensures TracksInv(w)
  {
    hide TrackData;
  }

  lemma {:induction false} BufsRows(w: World, bufs': map<Owner, Bytes>)
    requires RowInv(w) && ReapInv(w)
    ensures RowInv(w.(bufs := bufs')) && ReapInv(w.(bufs := bufs'))
  {
    assert InGrace(w.(bufs := bufs'), w.now);
  }

  // ---- sealing ----------------------------------------------------------------------------------

  lemma {:induction false} SealData(tr: Track, nodes: Nodes, data: Data, buf: Bytes, b: BlobId)
    requires TrackData(tr, nodes, data, buf) && tr.stage.InRun? && b !in data && tr.extents == []
    ensures TrackData(SealTrack(tr, b), nodes, data[b := buf], [])
  {
    if Live(tr) && tr.node in nodes && nodes[tr.node].state.Buffered? {
      var e := Extent(0, 0, tr.stage.len, b, tr.stage.from);
      var more := data[b := buf];
      assert Piece(e, more) == Flatten(nodes[tr.node].wal);
      assert Covered([]) == 0 && Assemble([], more) == [];
      Extend([], e, more);
      assert [] + [e] == [e];
      assert Assemble([], more) + Piece(e, more) == Piece(e, more);
    }
  }

  lemma {:induction false} OtherBuf(tr: Track, nodes: Nodes, data: Data, buf: Bytes, other: Bytes)
    requires TrackData(tr, nodes, data, buf) && !tr.stage.InRun?
    ensures TrackData(tr, nodes, data, other)
  {
  }

  lemma {:induction false} SealHandshake(tracks: Tracks, jobs: Jobs, p: Owner, b: BlobId)
    requires Handshake(tracks, jobs) && b !in jobs
    ensures Handshake(Sealed(tracks, p, b), jobs[b := Job(p, RunOf(tracks, p), Staged)])
  {
    var tracks' := Sealed(tracks, p, b);
    forall t | t in RunOf(tracks, p)
      ensures tracks[t].extents == [] && !tracks[t].done && tracks[t].calls == 0
      ensures tracks'[t].extents == [Extent(0, 0, tracks[t].stage.len, b, tracks[t].stage.from)]
    {
      assert TrackShake(tracks, jobs, t);
    }
    hide Handshake, TrackShake, Names;
    JobAdded(tracks, jobs, b, p, RunOf(tracks, p), tracks');
  }

  lemma {:induction false} SealNames(tracks: Tracks, p: Owner, b: BlobId)
    ensures forall x, c :: LiveNames(Sealed(tracks, p, b), x, c) ==> LiveNames(tracks, x, c) || c == b
  {
    var tracks' := Sealed(tracks, p, b);
    forall x, c | LiveNames(tracks', x, c) ensures LiveNames(tracks, x, c) || c == b {
      if x in RunOf(tracks, p) {
        NamesSnoc(tracks[x].extents, Extent(0, 0, tracks[x].stage.len, b, tracks[x].stage.from), c);
      }
    }
  }

  lemma {:induction false} SealTrackKeeps(tr: Track, b: BlobId)
    requires tr.stage.InRun?
    ensures SealTrack(tr, b).packer == tr.packer && SealTrack(tr, b).node == tr.node
  {
  }

  lemma {:induction false} SealStep(w: World, p: Owner, b: BlobId)
    requires Inv(w) && b !in w.data && b !in w.jobs
    ensures Inv(DoSeal(w, p, b))
  {
    var w' := DoSeal(w, p, b);
    hide Core, TracksInv, TrackData, BufOf, DoSeal;
    SealCore(w, p, b);
    SealTracks(w, p, b);
    forall x | x in w'.tracks
      ensures w'.tracks[x].node < w'.nextNode
        && TrackData(w'.tracks[x], w'.nodes, w'.data, BufOf(w', w'.tracks[x].packer))
    {
      SealOne(w, p, b, x);
    }
    TracksInvIs(w');
  }

  lemma {:induction false} SealTracks(w: World, p: Owner, b: BlobId)
    ensures DoSeal(w, p, b).tracks.Keys == w.tracks.Keys
  {
    hide SealTrack, RunOf;
  }

  lemma {:induction false} SealCore(w: World, p: Owner, b: BlobId)
    requires Core(w) && b !in w.data && b !in w.jobs
    ensures Core(DoSeal(w, p, b))
  {
    var w' := DoSeal(w, p, b);
    assert LinksOk(w.nodes, w.blobs, w.data);
    hide DbInv, RowInv, ReapInv, Handshake, LinksOk, LiveNames, SealTrack, BufOf;
    DataGrows(w.nodes, w.blobs, w.data, w'.data, w.nextNode);
    SealHandshake(w.tracks, w.jobs, p, b);
    SealNames(w.tracks, p, b);
    StagedRows(w, b, BufOf(w, p), Job(p, RunOf(w.tracks, p), Staged), w'.tracks, w'.bufs);
  }

  lemma {:induction false} SealOne(w: World, p: Owner, b: BlobId, x: TrackId)
    requires Inv(w) && b !in w.data && b !in w.jobs && x in w.tracks
    ensures var w' := DoSeal(w, p, b);
            w'.tracks[x].node < w'.nextNode
            && TrackData(w'.tracks[x], w'.nodes, w'.data, BufOf(w', w'.tracks[x].packer))
  {
    DataOf(w, x);
    ShakeOf(w, x);
    if x in RunOf(w.tracks, p) {
      SealInRun(w, p, b, x);
    } else {
      SealOutside(w, p, b, x);
    }
  }

  lemma {:induction false} SealInRun(w: World, p: Owner, b: BlobId, x: TrackId)
    requires b !in w.data && x in RunOf(w.tracks, p) && TrackShake(w.tracks, w.jobs, x)
    requires w.tracks[x].node < w.nextNode && TrackData(w.tracks[x], w.nodes, w.data, BufOf(w, w.tracks[x].packer))
    ensures var w' := DoSeal(w, p, b);
            w'.tracks[x].node < w'.nextNode
            && TrackData(w'.tracks[x], w'.nodes, w'.data, BufOf(w', w'.tracks[x].packer))
  {
    var tr := w.tracks[x];
    hide TrackData, TrackShake;
    assert tr.extents == [] by { RunHasNoExtents(w, x); }
    SealTrackKeeps(tr, b);
    SealData(tr, w.nodes, w.data, BufOf(w, p), b);
  }

  lemma {:induction false} SealOutside(w: World, p: Owner, b: BlobId, x: TrackId)
    requires b !in w.data && x in w.tracks && x !in RunOf(w.tracks, p)
    requires w.tracks[x].node < w.nextNode && TrackData(w.tracks[x], w.nodes, w.data, BufOf(w, w.tracks[x].packer))
    ensures var w' := DoSeal(w, p, b);
            w'.tracks[x].node < w'.nextNode
            && TrackData(w'.tracks[x], w'.nodes, w'.data, BufOf(w', w'.tracks[x].packer))
  {
    var w' := DoSeal(w, p, b);
    var tr := w.tracks[x];
    hide TrackData;
    FitsMonotone(tr, w.nodes, w.data, w'.data, BufOf(w, tr.packer));
    if tr.packer == p {
      OtherBuf(tr, w.nodes, w'.data, BufOf(w, p), []);
    }
  }

  lemma {:induction false} RunHasNoExtents(w: World, x: TrackId)
    requires x in w.tracks && TrackShake(w.tracks, w.jobs, x) && w.tracks[x].stage.InRun?
    ensures w.tracks[x].extents == []
  {
  }

  lemma {:induction false} SealFailOne(w: World, p: Owner, x: TrackId)
    requires Inv(w) && x in w.tracks
    ensures var w' := w.(tracks := SealDropped(w.tracks, p), bufs := w.bufs[p := []]);
            w'.tracks[x].node < w'.nextNode
            && TrackData(w'.tracks[x], w'.nodes, w'.data, BufOf(w', w'.tracks[x].packer))
  {
    DataOf(w, x);
    hide Inv, TrackData;
    if x in RunOf(w.tracks, p) {
      DropData(w.tracks[x], w.nodes, w.data, []);
    } else if w.tracks[x].packer == p {
      OtherBuf(w.tracks[x], w.nodes, w.data, BufOf(w, p), []);
    }
  }

  lemma {:induction false} SealFailStep(w: World, p: Owner)
    requires Inv(w)
    ensures Inv(w.(tracks := SealDropped(w.tracks, p), bufs := w.bufs[p := []]))
  {
    var w' := w.(tracks := SealDropped(w.tracks, p), bufs := w.bufs[p := []]);
    forall x | x in w'.tracks
      ensures w'.tracks[x].node < w'.nextNode
        && TrackData(w'.tracks[x], w'.nodes, w'.data, BufOf(w', w'.tracks[x].packer))
    {
      SealFailOne(w, p, x);
    }
    hide DbInv, RowInv, ReapInv, Handshake, TracksInv, TrackData, BufOf;
    TracksInvIs(w');
    RunDropped(w.tracks, w.jobs, p);
    assert AllWeaker(w.tracks, w'.tracks);
    WeakerRows(w, w'.tracks);
    BufsRows(w.(tracks := w'.tracks), w'.bufs);
  }
}
