/** An overwrite while the packer is at work. The code truncates and rewrites a file without looking at the packer;
    here is exactly when that is safe, over every run that may follow. */
module Overwrite {
  import opened Base
  import opened Wal
  import opened Extents
  import opened Tables
  import opened Tree
  import opened Packer
  import opened World
  import opened Invariant
  import opened HandshakeProof
  import opened Safety
  import opened DataPath
  import opened Lifecycle
  import opened Runs
  import opened Refinement
  import opened Fates
  import opened History
  import opened Guarantees

  /** Whatever runs from here on without truncating or deleting file n, it reads as this content. */
  ghost predicate Survives(w: World, n: NodeId, content: Bytes) {
    forall ws, steps, j :: IsRun(ws, steps) && ws[0] == w && Undisturbed(ws, steps, 0, j, n) ==>
        Reads(ws[j], n, content)
  }

  /** Whatever bytes a PUT now writes over file n, they survive. */
  ghost predicate OverwriteSafe(w: World, n: NodeId)
    requires n in w.nodes
  {
    forall chunks :: Disciplined(chunks) ==> Survives(Overwritten(w, n, chunks), n, Flatten(chunks))
  }

  // ---- no live track: every overwrite survives -------------------------------------------------------

  lemma {:induction false} TruncatedInv(w: World, n: NodeId)
    requires Inv(w) && n in w.nodes && !w.nodes[n].isDir && !HasLiveTrack(w, n)
    ensures Inv(WithNodes(w, w.nodes[n := Truncated(w.nodes[n])]))
  {
    hide Inv, HasLiveTrack, Settle, Truncated;
    TruncateNode(w, n);
  }

  lemma {:induction false} RewrittenOk(nd: Node, chunks: seq<Bytes>, data: Data)
    requires Disciplined(chunks) && !nd.isDir
    ensures var nd' := Closed(Truncated(nd).(wal := chunks));
      NodeOk(nd', data) && Content(nd', data) == Flatten(chunks) && SamePlace(Truncated(nd), nd') && nd'.extents == []
  {
    assert Flatten(chunks)[..|Flatten(chunks)|] == Flatten(chunks);
    hide Flatten;
  }

  lemma {:induction false} OverwrittenInv(w: World, n: NodeId, chunks: seq<Bytes>)
    requires Inv(w) && n in w.nodes && !w.nodes[n].isDir && !HasLiveTrack(w, n) && Disciplined(chunks)
    ensures Inv(Overwritten(w, n, chunks)) && Reads(Overwritten(w, n, chunks), n, Flatten(chunks))
  {
    TruncatedInv(w, n);
    RewrittenOk(w.nodes[n], chunks, w.data);
    hide Inv, HasLiveTrack, Settle, Flatten, NodeOk, Content, Disciplined;
    var w1 := WithNodes(w, w.nodes[n := Truncated(w.nodes[n])]);
    RewriteNode(w1, n, Closed(w1.nodes[n].(wal := chunks)));
  }

  lemma {:induction false} SafeWithoutTracks(w: World, n: NodeId)
    requires Inv(w) && n in w.nodes && !w.nodes[n].isDir && !HasLiveTrack(w, n)
    ensures OverwriteSafe(w, n)
  {
    hide Inv, HasLiveTrack, Disciplined, Flatten, Reads, Overwritten, Can, Do;
    forall chunks, ws, steps, j |
      Disciplined(chunks) && IsRun(ws, steps) && ws[0] == Overwritten(w, n, chunks) && Undisturbed(ws, steps, 0, j, n)
      ensures Reads(ws[j], n, Flatten(chunks))
    {
      OverwrittenInv(w, n, chunks);
      ReadsAlong(ws, steps, 0, j, n, Flatten(chunks));
    }
  }

  // ---- runs, one step at a time ------------------------------------------------------------------------

  /** Some run leads from w to w' without truncating or deleting file n. */
  ghost predicate Leads(w: World, w': World, n: NodeId) {
    exists ws, steps :: IsRun(ws, steps) && Undisturbed(ws, steps, 0, |steps|, n) && ws[0] == w && ws[|steps|] == w'
  }

  lemma {:induction false} LeadsNowhere(w: World, n: NodeId)
    requires n in w.nodes
    ensures Leads(w, w, n)
  {
    assert IsRun([w], []) && Undisturbed([w], [], 0, 0, n);
  }

  lemma {:induction false} LeadsOn(w: World, mid: World, s: Step, n: NodeId)
    requires Leads(w, mid, n) && Can(mid, s) && s != Truncate(n) && n in Do(mid, s).nodes
    ensures Leads(w, Do(mid, s), n)
  {
    hide Can, Do;
    var ws, steps :| IsRun(ws, steps) && Undisturbed(ws, steps, 0, |steps|, n) && ws[0] == w && ws[|steps|] == mid;
    var ws', steps' := ws + [Do(mid, s)], steps + [s];
    assert IsRun(ws', steps') && Undisturbed(ws', steps', 0, |steps'|, n);
  }

  lemma {:induction false} LeadsBreaks(w: World, w': World, n: NodeId, content: Bytes)
    requires Leads(w, w', n) && !Reads(w', n, content)
    ensures !Survives(w, n, content)
  {
    hide IsRun, Reads;
    var ws, steps :| IsRun(ws, steps) && Undisturbed(ws, steps, 0, |steps|, n) && ws[0] == w && ws[|steps|] == w';
  }

  // ---- a live track on its way to finalize -------------------------------------------------------------

  /** Track t can still finalize file n, which is buffered as nd. */
  ghost predicate Underway(w: World, n: NodeId, t: TrackId, nd: Node) {
    && Core(w) && n in w.nodes && w.nodes[n] == nd && !nd.isDir && nd.state.Buffered?
    && t in w.tracks && Live(w.tracks[t]) && w.tracks[t].node == n
  }

  /** And its packer's name is in the lease column. */
  ghost predicate Leased(w: World, n: NodeId, t: TrackId, nd: Node) {
    Underway(w, n, t, nd) && nd.leaseOwner == Some(w.tracks[t].packer)
  }

  lemma {:induction false} Fresh(s: set<nat>) returns (x: nat)
    ensures x !in s
  {
    var m: map<nat, int> := map y | y in s :: y;
    TotalBounds(m);
    x := Total(m) + 1;
    assert forall y :: y in s ==> y == m[y] <= Total(m);
  }

  lemma {:induction false} FreshBlob(w: World) returns (b: BlobId)
    requires Core(w)
    ensures b !in w.data && b !in w.jobs
  {
    b := Fresh(w.data.Keys);
  }

  // ---- the last leg: upload, land, finalize --------------------------------------------------------------

  function Rank(s: JobStage): nat {
    match s
    case Staged => 5
    case Queued => 4
    case Uploading => 3
    case Uploaded => 2
    case Persisted => 1
    case _ => 0
  }

  /** The step that moves a job on towards its upload. */
  function NextMove(stage: JobStage, b: BlobId): Step {
    match stage
    case Staged => Send(b)
    case Queued => Take(b)
    case _ => Upload(b)
  }

  function NextStage(stage: JobStage): JobStage {
    match stage
    case Staged => Queued
    case Queued => Uploading
    case _ => Uploaded
  }

  lemma {:induction false} MoveIs(w: World, b: BlobId)
    requires b in w.jobs && Rank(w.jobs[b].stage) >= 3
    ensures var s := NextMove(w.jobs[b].stage, b);
      && Can(w, s)
      && Do(w, s) == WithStage(w, b, NextStage(w.jobs[b].stage)).(messages := Do(w, s).messages)
      && w.messages <= Do(w, s).messages && (s.Upload? ==> b in Do(w, s).messages)
  {
  }

  lemma {:induction false} MoveCore(w: World, b: BlobId)
    requires Core(w) && b in w.jobs && Rank(w.jobs[b].stage) >= 3
    ensures var s := NextMove(w.jobs[b].stage, b); Can(w, s) && Core(Do(w, s))
  {
    hide Core, Can, Do;
    MoveIs(w, b);
    var s := NextMove(w.jobs[b].stage, b);
    JobCore(w, b, NextStage(w.jobs[b].stage), Do(w, s).messages);
  }

  lemma {:induction false} JobKnown(w: World, b: BlobId)
    requires Core(w) && b in w.jobs
    ensures b in w.data && (!InTable(w.jobs[b].stage) ==> b !in w.blobs)
  {
  }

  lemma {:induction false} PersistDo(w: World, b: BlobId)
    requires At(w, b, Uploaded) && b in w.data && b !in w.blobs
    ensures Can(w, Persist(b, 0, 0)) && Do(w, Persist(b, 0, 0)) == DoPersist(w, b, 0, 0)
  {
  }

  lemma {:induction false} PersistIs(w: World, b: BlobId)
    requires Core(w) && At(w, b, Uploaded)
    ensures Can(w, Persist(b, 0, 0)) && Core(Do(w, Persist(b, 0, 0)))
    ensures Do(w, Persist(b, 0, 0)) == WithStage(w, b, Persisted).(blobs := Do(w, Persist(b, 0, 0)).blobs)
  {
    hide Core, Can, Do;
    JobKnown(w, b);
    PersistDo(w, b);
    PersistCore(w, b, 0, 0);
  }

  lemma {:induction false} LandDo(w: World, b: BlobId)
    requires At(w, b, Persisted)
    ensures Can(w, Land(b))
    ensures Do(w, Land(b)) == WithStage(w, b, Landed).(tracks := LandedAll(w.tracks, w.jobs[b].tracks))
  {
    hide LandedAll;
  }

  lemma {:induction false} LandIs(w: World, b: BlobId)
    requires Core(w) && At(w, b, Persisted)
    ensures Can(w, Land(b)) && Core(Do(w, Land(b)))
    ensures Do(w, Land(b)) == WithStage(w, b, Landed).(tracks := LandedAll(w.tracks, w.jobs[b].tracks))
  {
    hide Core, Can, Do, LandedAll;
    LandDo(w, b);
    LandCore(w, b);
  }

  /** Nothing on the way to finalize changed but jobs, rows and counts. */
  ghost predicate Onward(w: World, w': World, t: TrackId)
    requires t in w.tracks
  {
    && w'.nodes == w.nodes && w'.data == w.data && w'.bufs == w.bufs && t in w'.tracks
    && w'.tracks[t] == w.tracks[t].(remaining := w'.tracks[t].remaining, calls := w'.tracks[t].calls)
  }

  lemma {:induction false} NotFailing(w: World, t: TrackId, b: BlobId)
    requires Core(w) && t in w.tracks && Live(w.tracks[t]) && b in Pending(w.jobs, t)
    ensures b in w.jobs && t in w.jobs[b].tracks && Rank(w.jobs[b].stage) > 0
  {
    assert TrackShake(w.tracks, w.jobs, t);
    assert !FailingIn(w.jobs[b], t);
  }

  lemma {:induction false} SamePending(jobs: Jobs, b: BlobId, s: JobStage, t: TrackId)
    requires b in jobs && !jobs[b].stage.Landed? && !s.Landed?
    ensures Pending(jobs[b := jobs[b].(stage := s)], t) == Pending(jobs, t)
  {
  }

  lemma {:induction false} OneLanded(jobs: Jobs, b: BlobId, t: TrackId)
    requires b in jobs
    ensures Pending(jobs[b := jobs[b].(stage := Landed)], t) == Pending(jobs, t) - {b}
  {
  }

  lemma {:induction false} LandedKeeps(tracks: Tracks, ts: set<TrackId>, t: TrackId)
    requires t in tracks
    ensures var after := LandedAll(tracks, ts);
      t in after && after[t] == tracks[t].(remaining := after[t].remaining, calls := after[t].calls)
  {
  }

  lemma {:induction false} BlobMoves(w0: World, w: World, n: NodeId, t: TrackId, nd: Node, b: BlobId)
    returns (w': World)
    requires Leads(w0, w, n) && Leased(w, n, t, nd) && b in w.jobs && Rank(w.jobs[b].stage) > 1
    ensures Leads(w0, w', n) && Leased(w', n, t, nd) && Onward(w, w', t) && Pending(w'.jobs, t) == Pending(w.jobs, t)
    ensures b in w'.jobs && Rank(w'.jobs[b].stage) < Rank(w.jobs[b].stage)
  {
    hide Core, Can, Do, Leads, Live;
    var stage := w.jobs[b].stage;
    if stage.Uploaded? {
      PersistIs(w, b);
      SamePending(w.jobs, b, Persisted, t);
      LeadsOn(w0, w, Persist(b, 0, 0), n);
      w' := Do(w, Persist(b, 0, 0));
    } else {
      var s := NextMove(stage, b);
      MoveIs(w, b);
      MoveCore(w, b);
      SamePending(w.jobs, b, NextStage(stage), t);
      LeadsOn(w0, w, s, n);
      w' := Do(w, s);
    }
  }

  lemma {:induction false} BlobLast(w0: World, w: World, n: NodeId, t: TrackId, nd: Node, b: BlobId) returns (w': World)
    requires Leads(w0, w, n) && Leased(w, n, t, nd) && At(w, b, Persisted)
    ensures Leads(w0, w', n) && Leased(w', n, t, nd) && Onward(w, w', t)
    ensures Pending(w'.jobs, t) == Pending(w.jobs, t) - {b}
  {
    hide Core, Can, Do, Leads, LandedAll;
    LandIs(w, b);
    LandedKeeps(w.tracks, w.jobs[b].tracks, t);
    OneLanded(w.jobs, b, t);
    LeadsOn(w0, w, Land(b), n);
    w' := Do(w, Land(b));
  }

  /** One blob of a live track is uploaded, stored and lands. */
  lemma {:induction false} BlobLands(w0: World, w: World, n: NodeId, t: TrackId, nd: Node, b: BlobId)
    returns (w': World)
    requires Leads(w0, w, n) && Leased(w, n, t, nd) && b in w.jobs && b in Pending(w.jobs, t)
    ensures Leads(w0, w', n) && Leased(w', n, t, nd) && Onward(w, w', t)
    ensures Pending(w'.jobs, t) == Pending(w.jobs, t) - {b}
    decreases Rank(w.jobs[b].stage)
  {
    hide Core, Leads, Pending, Live;
    NotFailing(w, t, b);
    if Rank(w.jobs[b].stage) > 1 {
      var w1 := BlobMoves(w0, w, n, t, nd, b);
      w' := BlobLands(w0, w1, n, t, nd, b);
    } else {
      w' := BlobLast(w0, w, n, t, nd, b);
    }
  }

  lemma {:induction false} AllLand(w0: World, w: World, n: NodeId, t: TrackId, nd: Node) returns (w': World)
    requires Leads(w0, w, n) && Leased(w, n, t, nd)
    ensures Leads(w0, w', n) && Leased(w', n, t, nd) && Onward(w, w', t) && Pending(w'.jobs, t) == {}
    decreases |Pending(w.jobs, t)|
  {
    hide Core, Leads;
    if Pending(w.jobs, t) == {} {
      w' := w;
    } else {
      var b :| b in Pending(w.jobs, t);
      var w1 := BlobLands(w0, w, n, t, nd, b);
      w' := AllLand(w0, w1, n, t, nd);
    }
  }

  /** With nothing outstanding finalize has been decided and finds its rows. */
  lemma {:induction false} Decided(w: World, t: TrackId)
    requires Core(w) && t in w.tracks && Live(w.tracks[t]) && w.tracks[t].stage.Planned? && Pending(w.jobs, t) == {}
    ensures w.tracks[t].calls > 0 && RowsExist(w, w.tracks[t].extents)
  {
    var ex := w.tracks[t].extents;
    assert TrackShake(w.tracks, w.jobs, t);
    forall i | 0 <= i < |ex| ensures ex[i].blob in w.blobs {
      var b := ex[i].blob;
      assert Names(ex, b) && LiveNames(w.tracks, t, b);
      assert b in w.jobs && t in w.jobs[b].tracks;
      assert b !in Pending(w.jobs, t);
    }
  }

  /** From a planned live track some run stores the track's extents in the file's row. */
  lemma {:induction false} PlannedStores(w0: World, w: World, n: NodeId, t: TrackId, nd: Node) returns (w': World)
    requires Leads(w0, w, n) && Leased(w, n, t, nd) && w.tracks[t].stage.Planned?
    ensures Leads(w0, w', n) && n in w'.nodes && w'.nodes[n] == StoredNode(nd, w.tracks[t].extents) && w'.data == w.data
  {
    hide Core, Can, Do, Leads, DoFinalize, RowsExist, StoredNode;
    var w1 := AllLand(w0, w, n, t, nd);
    Decided(w1, t);
    FinalizeIs(w1, t);
    FinalizeOn(w1, t, n);
    FinalizeData(w1, t);
    LeadsOn(w0, w1, Finalize(t), n);
    w' := Do(w1, Finalize(t));
  }

  lemma {:induction false} FinalizeData(w: World, t: TrackId)
    requires t in w.tracks
    ensures DoFinalize(w, t).data == w.data
  {
  }

  // ---- the way to being planned --------------------------------------------------------------------------

  /** The track's bytes, as far as they are those of the file as it was in before. */
  ghost predicate Keeps(w: World, before: Nodes, t: TrackId)
    requires t in w.tracks
  {
    TrackData(w.tracks[t], before, w.data, BufOf(w, w.tracks[t].packer))
  }

  lemma {:induction false} SealDoneDo(w: World, t: TrackId)
    requires t in w.tracks && w.tracks[t].stage.Sealing?
    ensures var p := w.tracks[t].packer; var w' := w.(tracks := PlannedAll(w.tracks, p));
      Can(w, SealDone(p)) && Do(w, SealDone(p)) == w' && t in w'.tracks && w'.tracks[t] == PlanTrack(w.tracks[t])
  {
    hide PlanTrack;
    assert t in SealingOf(w.tracks, w.tracks[t].packer);
  }

  lemma {:induction false} PlanKeeps(tr: Track)
    ensures PlanTrack(tr) == tr.(stage := Planned, calls := PlanTrack(tr).calls)
    ensures Live(tr) ==> Live(PlanTrack(tr))
  {
  }

  lemma {:induction false} SealDoneIs(w: World, n: NodeId, t: TrackId, nd: Node, before: Nodes)
    requires Leased(w, n, t, nd) && w.tracks[t].stage.Sealing? && Keeps(w, before, t)
    ensures var p := w.tracks[t].packer;
      && Can(w, SealDone(p)) && Leased(Do(w, SealDone(p)), n, t, nd) && Do(w, SealDone(p)).tracks[t].stage.Planned?
      && Do(w, SealDone(p)).tracks[t].extents == w.tracks[t].extents && Keeps(Do(w, SealDone(p)), before, t)
      && Do(w, SealDone(p)).data == w.data
  {
    var p := w.tracks[t].packer;
    hide Core, Can, Do, TrackData, PlanTrack, PlannedAll;
    SealDoneCore(w, p);
    PlanData(w.tracks[t], before, w.data, BufOf(w, p));
    SealDoneDo(w, t);
    PlanKeeps(w.tracks[t]);
  }

  lemma {:induction false} SealDo(w: World, t: TrackId, b: BlobId)
    requires t in w.tracks && w.tracks[t].stage.InRun? && BufOf(w, w.tracks[t].packer) != [] && b !in w.data
        && b !in w.jobs
    ensures var p := w.tracks[t].packer; var w' := DoSeal(w, p, b);
      && Can(w, Seal(p, b)) && Do(w, Seal(p, b)) == w' && w'.nodes == w.nodes && w'.data == w.data[b := BufOf(w, p)]
      && t in w'.tracks && w'.tracks[t] == SealTrack(w.tracks[t], b) && BufOf(w', p) == []
  {
    hide SealTrack;
    assert t in RunOf(w.tracks, w.tracks[t].packer);
  }

  lemma {:induction false} SealIs(w: World, n: NodeId, t: TrackId, nd: Node, before: Nodes, b: BlobId)
    requires Leased(w, n, t, nd) && w.tracks[t].stage.InRun? && Keeps(w, before, t)
    requires BufOf(w, w.tracks[t].packer) != [] && b !in w.data && b !in w.jobs
    ensures var w' := DoSeal(w, w.tracks[t].packer, b);
      && Leased(w', n, t, nd) && Keeps(w', before, t)
      && w'.tracks[t].stage.Sealing? && Covered(w'.tracks[t].extents) == w.tracks[t].stage.len
  {
    var p := w.tracks[t].packer;
    var tr := w.tracks[t];
    CoreShake(w, t);
    hide Core, Can, Do, DoSeal, TrackData, Covered, BufOf, TrackShake;
    SealCore(w, p, b);
    RunHasNoExtents(w, t);
    SealData(tr, before, w.data, BufOf(w, p), b);
    SealDo(w, t, b);
    OneExtent(SealTrack(tr, b).extents);
  }

  lemma {:induction false} CoreShake(w: World, t: TrackId)
    requires Core(w) && t in w.tracks
    ensures TrackShake(w.tracks, w.jobs, t)
  {
  }

  lemma {:induction false} OneExtent(ex: seq<Extent>)
    requires |ex| == 1
    ensures Covered(ex) == ex[0].length
  {
    assert ex[..0] == [];
    assert Covered(ex[..0]) == 0;
  }

  // ---- from each stage to a stored row -------------------------------------------------------------------

  /** File n is stored, and if the track's bytes are those the file had in before, it has those bytes again. */
  ghost predicate Ends(w: World, n: NodeId, nd: Node, covered: nat, before: Nodes) {
    && n in w.nodes && w.nodes[n] == StoredNode(nd, w.nodes[n].extents) && Covered(w.nodes[n].extents) == covered
    && (n in before && before[n].state.Buffered? ==>
         Mapped(w.nodes[n].extents, w.data) && Assemble(w.nodes[n].extents, w.data) == Flatten(before[n].wal))
  }

  lemma {:induction false} PlannedHas(tr: Track, before: Nodes, data: Data, buf: Bytes)
    requires TrackData(tr, before, data, buf) && Live(tr) && tr.stage.Planned?
    ensures tr.node in before && before[tr.node].state.Buffered? ==>
      Mapped(tr.extents, data) && Assemble(tr.extents, data) == Flatten(before[tr.node].wal)
  {
  }

  lemma {:induction false} PlannedEnds(w0: World, w: World, n: NodeId, t: TrackId, nd: Node, before: Nodes)
    returns (w': World)
    requires Leads(w0, w, n) && Leased(w, n, t, nd) && w.tracks[t].stage.Planned? && Keeps(w, before, t)
    ensures Leads(w0, w', n) && Ends(w', n, nd, Covered(w.tracks[t].extents), before)
  {
    hide Core, Leads, TrackData, Assemble, Mapped, Flatten, Covered;
    PlannedHas(w.tracks[t], before, w.data, BufOf(w, w.tracks[t].packer));
    w' := PlannedStores(w0, w, n, t, nd);
  }

  lemma {:induction false} SealingEnds(w0: World, w: World, n: NodeId, t: TrackId, nd: Node, before: Nodes)
    returns (w': World)
    requires Leads(w0, w, n) && Leased(w, n, t, nd) && w.tracks[t].stage.Sealing? && Keeps(w, before, t)
    ensures Leads(w0, w', n) && Ends(w', n, nd, Covered(w.tracks[t].extents), before)
  {
    hide Core, Can, Do, Leads, Keeps, Ends, Covered;
    SealDoneIs(w, n, t, nd, before);
    LeadsOn(w0, w, SealDone(w.tracks[t].packer), n);
    w' := PlannedEnds(w0, Do(w, SealDone(w.tracks[t].packer)), n, t, nd, before);
  }

  lemma {:induction false} ReadEnds(w0: World, w: World, n: NodeId, t: TrackId, nd: Node, before: Nodes)
    returns (w': World)
    requires Leads(w0, w, n) && Leased(w, n, t, nd) && Keeps(w, before, t)
    requires w.tracks[t].stage.Sealing? || w.tracks[t].stage.Planned?
    ensures Leads(w0, w', n) && Ends(w', n, nd, Covered(w.tracks[t].extents), before)
  {
    hide Core, Leads, Keeps, Ends, Covered, Live;
    if w.tracks[t].stage.Sealing? {
      w' := SealingEnds(w0, w, n, t, nd, before);
    } else {
      w' := PlannedEnds(w0, w, n, t, nd, before);
    }
  }

  lemma {:induction false} RunEnds(w0: World, w: World, n: NodeId, t: TrackId, nd: Node, before: Nodes)
    returns (w': World)
    requires Leads(w0, w, n) && Leased(w, n, t, nd) && w.tracks[t].stage.InRun? && Keeps(w, before, t)
    requires BufOf(w, w.tracks[t].packer) != []
    ensures Leads(w0, w', n) && Ends(w', n, nd, w.tracks[t].stage.len, before)
  {
    hide Core, Can, Do, DoSeal, Leads, Keeps, Ends, Covered, BufOf, SealTrack;
    var p := w.tracks[t].packer;
    var b := FreshBlob(w);
    SealIs(w, n, t, nd, before, b);
    SealDo(w, t, b);
    LeadsOn(w0, w, Seal(p, b), n);
    w' := SealingEnds(w0, DoSeal(w, p, b), n, t, nd, before);
  }

  lemma {:induction false} SplitDoneDo(w: World, t: TrackId)
    requires t in w.tracks && w.tracks[t].stage.Splitting? && Covered(w.tracks[t].extents) >= w.tracks[t].size
    ensures Can(w, SplitDone(t)) && Do(w, SplitDone(t)) == WithTrack(w, t, PlanTrack(w.tracks[t]))
  {
    hide PlanTrack, Covered;
  }

  /** With everything read the split track is planned and stores what it read. */
  lemma {:induction false} SplitEnds(w0: World, w: World, n: NodeId, t: TrackId, nd: Node) returns (w': World)
    requires Leads(w0, w, n) && Leased(w, n, t, nd) && w.tracks[t].stage.Splitting?
    requires Covered(w.tracks[t].extents) >= w.tracks[t].size
    ensures Leads(w0, w', n) && Ends(w', n, nd, Covered(w.tracks[t].extents), map[])
  {
    hide Core, Can, Do, Leads, Ends, Covered, PlanTrack;
    SplitDoneCore(w, t);
    SplitDoneDo(w, t);
    PlanKeeps(w.tracks[t]);
    LeadsOn(w0, w, SplitDone(t), n);
    w' := PlannedEnds(w0, Do(w, SplitDone(t)), n, t, nd, map[]);
  }

  lemma {:induction false} EmitDo(w: World, n: NodeId, t: TrackId, b: BlobId, k: nat)
    requires t in w.tracks && w.tracks[t].stage.Splitting? && b !in w.data && b !in w.jobs && w.tracks[t].node == n
    requires 0 < k <= w.tracks[t].size - Covered(w.tracks[t].extents) && n in w.nodes
    ensures Can(w, SplitEmit(t, b, k)) && Do(w, SplitEmit(t, b, k)) == DoSplitEmit(w, t, b, k)
    ensures var w' := DoSplitEmit(w, t, b, k); var piece := ReadRange(w.nodes[n].wal, Covered(w.tracks[t].extents), k);
      w'.nodes == w.nodes && t in w'.tracks && w'.tracks[t] == EmitPiece(w.tracks[t], b, |piece|)
  {
    hide ReadRange, Covered, EmitPiece;
  }

  lemma {:induction false} EmitIs(tr: Track, b: BlobId, len: nat)
    ensures var tr' := EmitPiece(tr, b, len);
      && tr' == tr.(extents := tr'.extents, remaining := tr'.remaining)
          && Covered(tr'.extents) == Covered(tr.extents) + len
      && (Live(tr') <==> Live(tr))
  {
    var ex := EmitPiece(tr, b, len).extents;
    assert ex[..|ex| - 1] == tr.extents;
  }

  lemma {:induction false} ReadAll(chunks: seq<Bytes>, from: nat, len: nat)
    requires Disciplined(chunks) && 0 < len && from + len <= |Flatten(chunks)|
    ensures |ReadRange(chunks, from, len)| == len
  {
    hide Flatten, Disciplined, ReadRange;
    ReadRangeIsSlice(chunks, from, len);
  }

  lemma {:induction false} EmitEnds(w0: World, w: World, n: NodeId, t: TrackId, nd: Node) returns (w': World)
    requires Leads(w0, w, n) && Leased(w, n, t, nd) && w.tracks[t].stage.Splitting?
    requires Covered(w.tracks[t].extents) < w.tracks[t].size <= |Flatten(nd.wal)| && Disciplined(nd.wal)
    ensures Leads(w0, w', n) && Ends(w', n, nd, w.tracks[t].size, map[])
  {
    hide Core, Can, Do, DoSplitEmit, Leads, Ends, Covered, ReadRange, Flatten, Disciplined, EmitPiece, Live;
    var tr := w.tracks[t];
    var k := tr.size - Covered(tr.extents);
    var b := FreshBlob(w);
    EmitDo(w, n, t, b, k);
    EmitCore(w, t, b, k);
    ReadAll(nd.wal, Covered(tr.extents), k);
    EmitIs(tr, b, k);
    LeadsOn(w0, w, SplitEmit(t, b, k), n);
    w' := SplitEnds(w0, DoSplitEmit(w, t, b, k), n, t, nd);
  }

  /** A split reads the rest of its old size from the new log. */
  lemma {:induction false} SplittingEnds(w0: World, w: World, n: NodeId, t: TrackId, nd: Node)
    returns (w': World, covered: nat)
    requires Leads(w0, w, n) && Leased(w, n, t, nd) && w.tracks[t].stage.Splitting?
    requires Disciplined(nd.wal) && w.tracks[t].size <= |Flatten(nd.wal)|
    ensures Leads(w0, w', n) && Ends(w', n, nd, covered, map[])
    ensures covered <= w.tracks[t].size + Covered(w.tracks[t].extents)
  {
    hide Core, Leads, Ends, Covered, Flatten, Disciplined, Live;
    if Covered(w.tracks[t].extents) >= w.tracks[t].size {
      w' := SplitEnds(w0, w, n, t, nd);
      covered := Covered(w.tracks[t].extents);
    } else {
      w' := EmitEnds(w0, w, n, t, nd);
      covered := w.tracks[t].size;
    }
  }

  lemma {:induction false} PackDo(w: World, n: NodeId, t: TrackId)
    requires t in w.tracks && w.tracks[t].stage.Claimed? && !w.tracks[t].done && w.tracks[t].size > 0
    requires n in w.nodes && w.tracks[t].node == n
    ensures Can(w, PackSmall(t)) && Do(w, PackSmall(t)) == DoPackSmall(w, t)
    ensures var w' := DoPackSmall(w, t); var piece := ReadRange(w.nodes[n].wal, 0, w.tracks[t].size);
      var buf := BufOf(w, w.tracks[t].packer);
      && w'.nodes == w.nodes && w'.data == w.data && BufOf(w', w.tracks[t].packer) == buf + piece
      && w'.tracks == w.tracks[t := w.tracks[t].(stage := InRun(|buf|, |piece|))]
  {
    hide ReadRange;
  }

  lemma {:induction false} StoreEmptyDo(w: World, n: NodeId, t: TrackId, nd: Node)
    requires Leased(w, n, t, nd) && w.tracks[t].stage.Claimed? && w.tracks[t].size == 0
    ensures Can(w, StoreEmpty(t)) && n in Do(w, StoreEmpty(t)).nodes
    ensures Do(w, StoreEmpty(t)).nodes[n] == StoredNode(nd, nd.extents)
  {
    hide Core;
  }

  lemma {:induction false} CoreNode(w: World, n: NodeId)
    requires Core(w) && n in w.nodes
    ensures NodeOk(w.nodes[n], w.data)
  {
  }

  lemma {:induction false} EmptyEnds(w0: World, w: World, n: NodeId, t: TrackId, nd: Node) returns (w': World)
    requires Leads(w0, w, n) && Leased(w, n, t, nd) && w.tracks[t].stage.Claimed? && w.tracks[t].size == 0
    ensures Leads(w0, w', n) && Ends(w', n, nd, 0, map[])
  {
    CoreNode(w, n);
    hide Core, Can, Do, Leads, Flatten, Disciplined;
    StoreEmptyDo(w, n, t, nd);
    LeadsOn(w0, w, StoreEmpty(t), n);
    w' := Do(w, StoreEmpty(t));
  }

  lemma {:induction false} PackEnds(w0: World, w: World, n: NodeId, t: TrackId, nd: Node) returns (w': World)
    requires Leads(w0, w, n) && Leased(w, n, t, nd) && w.tracks[t].stage.Claimed?
    requires Disciplined(nd.wal) && 0 < w.tracks[t].size <= |Flatten(nd.wal)|
    ensures Leads(w0, w', n) && Ends(w', n, nd, w.tracks[t].size, map[])
  {
    hide Core, Can, Do, DoPackSmall, Leads, Ends, Flatten, Disciplined, ReadRange, BufOf;
    PackDo(w, n, t);
    PackCore(w, t);
    ReadAll(nd.wal, 0, w.tracks[t].size);
    LeadsOn(w0, w, PackSmall(t), n);
    w' := RunEnds(w0, DoPackSmall(w, t), n, t, nd, map[]);
  }

  // ---- the lease -----------------------------------------------------------------------------------------

  function Leasing(nd: Node, owner: Option<Owner>, until: Option<Time>): Node {
    nd.(leaseOwner := owner, leaseUntil := until)
  }

  lemma {:induction false} ReleaseDo(w: World, n: NodeId)
    requires n in w.nodes
    ensures Can(w, Release(n)) && Do(w, Release(n)) == w.(nodes := w.nodes[n := Leasing(w.nodes[n], None, None)])
  {
  }

  lemma {:induction false} ClaimDo(w: World, n: NodeId, p: Owner, x: TrackId)
    requires n in w.nodes && !w.nodes[n].isDir && w.nodes[n].state.Buffered? && w.nodes[n].leaseUntil.None?
        && x !in w.tracks
    ensures Can(w, Claim(p, n, x))
    ensures Do(w, Claim(p, n, x)) == WithTrack(w, x, NewTrack(p, n, w.nodes[n].size)).(
              nodes := w.nodes[n := Leasing(w.nodes[n], Some(p), Some(w.now + LEASE))])
  {
    hide NewTrack;
  }

  lemma {:induction false} LeasingCore(w: World, n: NodeId, owner: Option<Owner>, until: Option<Time>)
    requires Core(w) && n in w.nodes
    ensures Core(w.(nodes := w.nodes[n := Leasing(w.nodes[n], owner, until)]))
  {
    CoreNode(w, n);
    hide Core;
    RewriteCore(w, n, Leasing(w.nodes[n], owner, until));
  }

  /** The lease is released and the track's packer claims the file once more. The engine allows a release at any time;
      in the code it is failTrack of some other track of the file, or a seal or a read that fails for one, each of which
      releases the lease whoever holds it. A track whose packer holds the lease needs none of this. */
  lemma {:induction false} Reclaimed(w0: World, w: World, n: NodeId, t: TrackId, nd: Node)
    returns (w': World, x: TrackId, nd': Node)
    requires Leads(w0, w, n) && Underway(w, n, t, nd)
    ensures Leads(w0, w', n) && Leased(w', n, t, nd') && nd' == Leasing(nd, nd'.leaseOwner, nd'.leaseUntil)
    ensures x != t && w'.tracks == w.tracks[x := NewTrack(w.tracks[t].packer, n, nd.size)]
    ensures w'.data == w.data && w'.bufs == w.bufs
  {
    hide Core, Can, Do, Leads, NewTrack, Live;
    var p := w.tracks[t].packer;
    ReleaseDo(w, n);
    LeasingCore(w, n, None, None);
    LeadsOn(w0, w, Release(n), n);
    var w1 := Do(w, Release(n));
    x := Fresh(w.tracks.Keys);
    nd' := Leasing(w1.nodes[n], Some(p), Some(w1.now + LEASE));
    ClaimDo(w1, n, p, x);
    NewTrackCore(w1, p, n, x, nd.size);
    LeasingCore(WithTrack(w1, x, NewTrack(p, n, nd.size)), n, Some(p), Some(w1.now + LEASE));
    LeadsOn(w0, w1, Claim(p, n, x), n);
    w' := Do(w1, Claim(p, n, x));
  }

  /** The packer claims the file once more and packs it, so that its buffer is not empty. */
  lemma {:induction false} Filled(w0: World, w: World, n: NodeId, t: TrackId, nd: Node, before: Nodes)
    returns (w': World, nd': Node)
    requires Leads(w0, w, n) && Underway(w, n, t, nd) && Keeps(w, before, t) && Disciplined(nd.wal)
        && Flatten(nd.wal) != []
    ensures Leads(w0, w', n) && Leased(w', n, t, nd') && nd' == Leasing(nd, nd'.leaseOwner, nd'.leaseUntil)
    ensures w'.tracks[t] == w.tracks[t] && Keeps(w', before, t) && BufOf(w', w.tracks[t].packer) != []
  {
    CoreNode(w, n);
    hide Core, Leads, Flatten, Disciplined, TrackData, Live;
    var w1, x, nd1 := Reclaimed(w0, w, n, t, nd);
    SameBuf(w, w1, w.tracks[t].packer);
    w' := PackedToo(w0, w1, n, t, nd1, before, x);
    nd' := nd1;
  }

  lemma {:induction false} PackedToo(w0: World, w: World, n: NodeId, t: TrackId, nd: Node, before: Nodes, x: TrackId)
    returns (w': World)
    requires Leads(w0, w, n) && Leased(w, n, t, nd) && Keeps(w, before, t) && Disciplined(nd.wal)
    requires x != t && x in w.tracks && w.tracks[x] == NewTrack(w.tracks[t].packer, n, nd.size)
    requires 0 < nd.size == |Flatten(nd.wal)|
    ensures Leads(w0, w', n) && Leased(w', n, t, nd)
    ensures w'.tracks[t] == w.tracks[t] && Keeps(w', before, t) && BufOf(w', w.tracks[t].packer) != []
  {
    hide Core, Can, Do, DoPackSmall, Leads, Flatten, Disciplined, ReadRange, TrackData, Live, BufOf;
    PackDo(w, n, x);
    PackCore(w, x);
    ReadAll(nd.wal, 0, nd.size);
    LeadsOn(w0, w, PackSmall(x), n);
    BufGrows(w.tracks[t], before, w.data, BufOf(w, w.tracks[t].packer), ReadRange(nd.wal, 0, nd.size));
    w' := DoPackSmall(w, x);
  }

  /** However the lease stands, some run gives it to the track's packer and leaves the track as it is. */
  lemma {:induction false} Holds(w0: World, w: World, n: NodeId, t: TrackId, nd: Node, before: Nodes)
    returns (w': World, nd': Node)
    requires Leads(w0, w, n) && Underway(w, n, t, nd) && Keeps(w, before, t)
    ensures Leads(w0, w', n) && Leased(w', n, t, nd') && nd' == Leasing(nd, nd'.leaseOwner, nd'.leaseUntil)
    ensures w'.tracks[t] == w.tracks[t] && Keeps(w', before, t) && w'.bufs == w.bufs
    ensures nd.leaseOwner == Some(w.tracks[t].packer) ==> w' == w
  {
    hide Core, Leads, TrackData, Live, NewTrack;
    if nd.leaseOwner == Some(w.tracks[t].packer) {
      w', nd' := w, nd;
    } else {
      var x: TrackId;
      w', x, nd' := Reclaimed(w0, w, n, t, nd);
    }
  }

  // ---- a live track: some overwrite is lost ----------------------------------------------------------------

  /** The file as the PUT left it, with a track still underway. */
  lemma {:induction false} OverwrittenUnderway(w: World, n: NodeId, t: TrackId, chunks: seq<Bytes>)
    requires Inv(w) && n in w.nodes && !w.nodes[n].isDir && Disciplined(chunks)
    requires t in w.tracks && Live(w.tracks[t]) && w.tracks[t].node == n
    ensures var w1 := Overwritten(w, n, chunks);
      && Leads(w1, w1, n) && Underway(w1, n, t, w1.nodes[n]) && w1.tracks[t] == w.tracks[t] && Keeps(w1, w.nodes, t)
      && w1.nodes[n].wal == chunks && w1.nodes[n].size == |Flatten(chunks)| && w1.bufs == w.bufs
      && w1.nodes[n].leaseOwner == w.nodes[n].leaseOwner
  {
    var w1 := Overwritten(w, n, chunks);
    DataOf(w, t);
    RewrittenOk(w.nodes[n], chunks, w.data);
    hide Core, Flatten, NodeOk, Content, Disciplined, TrackData, Leads, TracksInv, Settle;
    OverwrittenIs(w, n, chunks);
    TruncateCore(w, n);
    var mid := WithNodes(w, w.nodes[n := Truncated(w.nodes[n])]);
    RewriteCore(mid, n, Closed(mid.nodes[n].(wal := chunks)));
    LeadsNowhere(w1, n);
  }

  /** The bytes a track has read come back: if its packer has the file's old bytes in its buffer or in blobs, then
      whatever the client writes over the file, some run stores the old bytes in its row. */
  lemma {:induction false} OldBytesReturn(w: World, n: NodeId, t: TrackId, chunks: seq<Bytes>) returns (w': World)
    requires Inv(w) && n in w.nodes && !w.nodes[n].isDir && w.nodes[n].state.Buffered? && Disciplined(chunks)
    requires t in w.tracks && Live(w.tracks[t]) && w.tracks[t].node == n
    requires w.tracks[t].stage.InRun? || w.tracks[t].stage.Sealing? || w.tracks[t].stage.Planned?
    ensures Leads(Overwritten(w, n, chunks), w', n) && n in w'.nodes && w'.nodes[n].state.Stored?
    ensures Mapped(w'.nodes[n].extents, w'.data) && Assemble(w'.nodes[n].extents, w'.data) == Flatten(w.nodes[n].wal)
  {
    if w.tracks[t].stage.InRun? {
      RunFull(w, n, t);
    }
    hide Inv, Core, Overwritten, Flatten, Disciplined, Leads, Keeps, BufOf, Mapped, Assemble, Live;
    OverwrittenUnderway(w, n, t, chunks);
    var w1 := Overwritten(w, n, chunks);
    var w2, nd := Holds(w1, w1, n, t, w1.nodes[n], w.nodes);
    SameBuf(w, w2, w.tracks[t].packer);
    w' := BytesEnd(w1, w2, n, t, nd, w.nodes);
  }

  lemma {:induction false} BytesEnd(w0: World, w: World, n: NodeId, t: TrackId, nd: Node, before: Nodes)
    returns (w': World)
    requires Leads(w0, w, n) && Leased(w, n, t, nd) && Keeps(w, before, t) && n in before && before[n].state.Buffered?
    requires w.tracks[t].stage.InRun? || w.tracks[t].stage.Sealing? || w.tracks[t].stage.Planned?
    requires w.tracks[t].stage.InRun? ==> BufOf(w, w.tracks[t].packer) != []
    ensures Leads(w0, w', n) && n in w'.nodes && w'.nodes[n].state.Stored?
    ensures Mapped(w'.nodes[n].extents, w'.data) && Assemble(w'.nodes[n].extents, w'.data) == Flatten(before[n].wal)
  {
    hide Core, Leads, Keeps, BufOf, Live, Covered, Mapped, Assemble, Flatten;
    if w.tracks[t].stage.InRun? {
      w' := RunEnds(w0, w, n, t, nd, before);
    } else {
      w' := ReadEnds(w0, w, n, t, nd, before);
    }
  }

  lemma {:induction false} SameBuf(w: World, w': World, p: Owner)
    requires w'.bufs == w.bufs
    ensures BufOf(w', p) == BufOf(w, p)
  {
  }

  lemma {:induction false} RunFull(w: World, n: NodeId, t: TrackId)
    requires Inv(w) && n in w.nodes && !w.nodes[n].isDir && w.nodes[n].state.Buffered?
    requires t in w.tracks && Live(w.tracks[t]) && w.tracks[t].node == n && w.tracks[t].stage.InRun?
    ensures BufOf(w, w.tracks[t].packer) != []
  {
    DataOf(w, t);
  }

  /** Full chunks of zeros, more of them than the number given. */
  function Long(k: nat): seq<Bytes> {
    seq(k + 1, i => seq(CHUNK, j => 0))
  }

  lemma {:induction false} LongIs(k: nat)
    ensures Disciplined(Long(k)) && |Flatten(Long(k))| > k
  {
    assert AllFull(Long(k));
    FullLength(Long(k));
    hide Flatten, Long;
  }

  /** More than a track can come to cover. */
  function Reach(tr: Track): nat {
    tr.size + Covered(tr.extents) + if tr.stage.InRun? then tr.stage.len else 0
  }

  /** Whatever stage a live track is in, some run stores extents that do not cover a long new content. */
  lemma {:induction false} LongLost(w: World, n: NodeId, t: TrackId, chunks: seq<Bytes>)
    returns (w': World, covered: nat)
    requires Inv(w) && n in w.nodes && !w.nodes[n].isDir && t in w.tracks && Live(w.tracks[t]) && w.tracks[t].node == n
    requires Disciplined(chunks) && |Flatten(chunks)| > Reach(w.tracks[t])
    ensures Leads(Overwritten(w, n, chunks), w', n) && n in w'.nodes && w'.nodes[n].state.Stored?
    ensures w'.nodes[n].size == |Flatten(chunks)| && Covered(w'.nodes[n].extents) < w'.nodes[n].size
        && !w'.nodes[n].isDir
  {
    hide Inv, Core, Overwritten, Flatten, Disciplined, Leads, Keeps, Covered, BufOf, Assemble, Mapped;
    OverwrittenUnderway(w, n, t, chunks);
    var w1 := Overwritten(w, n, chunks);
    var stage := w.tracks[t].stage;
    if stage.InRun? && BufOf(w1, w.tracks[t].packer) == [] {
      var w2, nd := Filled(w1, w1, n, t, w1.nodes[n], w.nodes);
      w' := RunEnds(w1, w2, n, t, nd, w.nodes);
      covered := stage.len;
    } else {
      var w2, nd := Holds(w1, w1, n, t, w1.nodes[n], w.nodes);
      SameBuf(w1, w2, w.tracks[t].packer);
      w', covered := AnyEnds(w1, w2, n, t, nd, w.nodes);
    }
  }

  lemma {:induction false} AnyEnds(w0: World, w: World, n: NodeId, t: TrackId, nd: Node, before: Nodes)
    returns (w': World, covered: nat)
    requires Leads(w0, w, n) && Leased(w, n, t, nd) && Keeps(w, before, t)
    requires Disciplined(nd.wal) && w.tracks[t].size <= |Flatten(nd.wal)|
    requires w.tracks[t].stage.InRun? ==> BufOf(w, w.tracks[t].packer) != []
    ensures Leads(w0, w', n) && covered <= Reach(w.tracks[t])
    ensures n in w'.nodes && w'.nodes[n] == StoredNode(nd, w'.nodes[n].extents)
        && Covered(w'.nodes[n].extents) == covered
  {
    hide Core, Flatten, Disciplined, Leads, Keeps, Covered, BufOf, Mapped, Assemble;
    var tr := w.tracks[t];
    if tr.stage.Claimed? {
      w' := ClaimedEnds(w0, w, n, t, nd);
      covered := tr.size;
    } else if tr.stage.Splitting? {
      w', covered := SplittingEnds(w0, w, n, t, nd);
    } else if tr.stage.InRun? {
      w' := RunEnds(w0, w, n, t, nd, before);
      covered := tr.stage.len;
    } else {
      w' := ReadEnds(w0, w, n, t, nd, before);
      covered := Covered(tr.extents);
    }
  }

  lemma {:induction false} ClaimedEnds(w0: World, w: World, n: NodeId, t: TrackId, nd: Node) returns (w': World)
    requires Leads(w0, w, n) && Leased(w, n, t, nd) && w.tracks[t].stage.Claimed?
    requires Disciplined(nd.wal) && w.tracks[t].size <= |Flatten(nd.wal)|
    ensures Leads(w0, w', n) && Ends(w', n, nd, w.tracks[t].size, map[])
  {
    hide Core, Leads, Ends, Flatten, Disciplined, Live;
    if w.tracks[t].size == 0 {
      w' := EmptyEnds(w0, w, n, t, nd);
    } else {
      w' := PackEnds(w0, w, n, t, nd);
    }
  }

  lemma {:induction false} Unreadable(w: World, n: NodeId, content: Bytes)
    requires n in w.nodes && w.nodes[n].state.Stored? && !w.nodes[n].isDir
        && Covered(w.nodes[n].extents) < w.nodes[n].size
    ensures !Reads(w, n, content)
  {
  }

  lemma {:induction false} LostWithTrack(w: World, n: NodeId, t: TrackId)
    requires Inv(w) && n in w.nodes && !w.nodes[n].isDir
    requires t in w.tracks && Live(w.tracks[t]) && w.tracks[t].node == n
    ensures !OverwriteSafe(w, n)
  {
    hide Inv, Overwritten, Flatten, Disciplined, Leads, Covered, Reads, Survives, Long, Reach;
    var chunks := Long(Reach(w.tracks[t]));
    LongIs(Reach(w.tracks[t]));
    var w', covered := LongLost(w, n, t, chunks);
    Unreadable(w', n, Flatten(chunks));
    LeadsBreaks(Overwritten(w, n, chunks), w', n, Flatten(chunks));
  }

  /** The overwrite rule, over whole runs: whatever a client writes over a file now survives whatever may run
      afterwards exactly when no track that can still finalize packs the file. The code checks nothing of the kind. If
      the track's packer has lost the lease, the losing run first releases it and claims the file again. */
  lemma {:induction false} OverwriteRule(w: World, n: NodeId)
    requires Inv(w) && n in w.nodes && !w.nodes[n].isDir
    ensures OverwriteSafe(w, n) <==> !HasLiveTrack(w, n)
  {
    hide Inv, OverwriteSafe, Live;
    if t :| t in w.tracks && Live(w.tracks[t]) && w.tracks[t].node == n {
      LostWithTrack(w, n, t);
    } else {
      SafeWithoutTracks(w, n);
    }
  }
}
