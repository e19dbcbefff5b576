/** What the invariant and the refinement mean to a maintainer, and where the code needs the guards. */
module Guarantees {
  import opened Base
  import opened Wal
  import opened Extents
  import opened Tables
  import opened Tree
  import opened Packer
  import opened World
  import opened Invariant
  import opened Lifecycle
  import opened DataPath
  import opened Runs
  import opened Refinement
  import opened Fates
  import opened History

  // ---- what a client reads ------------------------------------------------------------------------

  /** In any state of any run, the content that a fresh handle on a file delivers is what the map holds that the
      filesystem transactions so far, replayed in order, leave at its path. */
  lemma {:induction false} FreshHandleReads(ws: seq<World>, steps: seq<Step>, k: nat, n: NodeId)
    requires IsRun(ws, steps) && ws[0] == Empty() && k <= |steps| && n in ws[k].nodes && !ws[k].nodes[n].isDir
    ensures NodeOk(ws[k].nodes[n], ws[k].data)
    ensures var v := Replay(map[], OpsOf(ws, steps, k)); var nd := ws[k].nodes[n];
      KeyOf(nd) in v && v[KeyOf(nd)] == File(Content(nd, ws[k].data))
  {
    hide Inv, Can, Do, Seen, Replay, OpsOf, Content, NodeOk;
    RunRefines(ws, steps, k);
    SeenAt(ws[k], n);
  }

  // ---- refcounts ----------------------------------------------------------------------------------

  /** In every reachable state a blob's refcount is the number of extents naming it (at least that many once
      the blob is permanently unavailable), so it is never negative. */
  lemma {:induction false} RefcountsConserved(ws: seq<World>, steps: seq<Step>, k: nat, b: BlobId)
    requires IsRun(ws, steps) && ws[0] == Empty() && k <= |steps| && b in ws[k].blobs
    ensures ws[k].blobs[b].refcount >= Refs(ws[k].nodes, b) >= 0
    ensures !ws[k].blobs[b].state.PermUnavailable? ==> ws[k].blobs[b].refcount == Refs(ws[k].nodes, b)
  {
    InitInv();
    RunInv(ws, steps, k);
    RefsNamed(ws[k].nodes, b);
    assert RefOk(ws[k].blobs[b], Refs(ws[k].nodes, b));
  }

  // ---- the reaper ---------------------------------------------------------------------------------

  /** A blob whose upload is over and whose row is condemned or gone. */
  ghost predicate Retired(w: World, b: BlobId) {
    && b in w.data && (b in w.jobs ==> InTable(w.jobs[b].stage))
    && (b in w.blobs ==> b in w.condemned)
  }

  lemma {:induction false} CondemnedRetires(w: World, b: BlobId)
    requires Inv(w) && b in w.condemned
    ensures Retired(w, b)
  {
    assert b in w.blobs;
  }

  lemma {:induction false} RetiredUnneeded(w: World, b: BlobId)
    requires Inv(w) && Retired(w, b)
    ensures !Named(w.nodes, b) && forall t :: !LiveNames(w.tracks, t, b)
  {
    if b !in w.blobs {
      NoRowNoName(w.nodes, w.blobs, w.data, b);
    }
    forall t ensures !LiveNames(w.tracks, t, b) {
      if t in w.tracks {
        assert Names(w.tracks[t].extents, b) <==> b in w.jobs && t in w.jobs[b].tracks;
      }
    }
  }

  lemma {:induction false} RowsLeave(w: World, s: Step)
    requires Can(w, s) && IsRows(s)
    ensures Leaves(w, Do(w, s))
  {
    hide WithoutSole;
  }

  lemma {:induction false} StoreLeaves(w: World, t: TrackId)
    requires t in w.tracks
    ensures Leaves(w, DoStoreEmpty(w, t))
  {
  }

  lemma {:induction false} BuilderLeaves(w: World, s: Step)
    requires Can(w, s) && IsBuilder(s) && !s.Crash?
    ensures Leaves(w, Do(w, s))
  {
    hide NewTrack, DropTrack, Live, LeaseFree, DoStoreEmpty;
    if s.StoreEmpty? {
      hide Leaves;
      StoreLeaves(w, s.t);
    }
  }

  /** Rows and jobs may go, but none comes back or changes. */
  predicate Shrinks(w: World, w': World) {
    && w'.data == w.data
    && (forall b :: b in w'.jobs ==> b in w.jobs && w'.jobs[b] == w.jobs[b])
    && forall b :: b in w'.blobs ==>
         b in w.blobs && w'.blobs[b] == w.blobs[b] && (b in w.condemned ==> b in w'.condemned)
  }

  lemma {:induction false} CrashShrinks(w: World, p: Owner)
    ensures Shrinks(w, DoCrash(w, p))
  {
  }

  lemma {:induction false} ReaperShrinks(w: World, s: Step)
    requires Can(w, s) && IsReaper(s)
    ensures Shrinks(w, Do(w, s))
  {
    hide Named, InGrace, Collectable, Keys, Relocatable, CopiedTree, HasLiveTrack;
  }

  lemma {:induction false} GoneShrinks(w: World, s: Step)
    requires Can(w, s) && (IsReaper(s) || s.Crash?)
    ensures Shrinks(w, Do(w, s))
  {
    hide Shrinks, DoCrash;
    if s.Crash? {
      CrashShrinks(w, s.p);
    } else {
      hide Can, Do;
      ReaperShrinks(w, s);
    }
  }

  lemma {:induction false} RetiredJobs(w: World, s: Step, b: BlobId)
    requires Can(w, s) && Retired(w, b) && !IsFs(s) && !IsRows(s) && !IsReaper(s) && !IsBuilder(s)
    ensures Retired(Do(w, s), b)
  {
    hide Refs, Sealed, SealDropped, PlannedAll, LandedAll, RunOf, ReadRange, Covered, EmitPiece, PlanTrack, FailTrack,
      StoredNode, Owned, RowsExist, BufOf, WalOf;
  }

  lemma {:induction false} RetiredStable(w: World, s: Step, b: BlobId)
    requires Can(w, s) && Retired(w, b)
    ensures Retired(Do(w, s), b)
  {
    hide Can, Do;
    if IsFs(s) {
      FsLeaves(w, s);
    } else if IsRows(s) {
      RowsLeave(w, s);
    } else if IsReaper(s) || s.Crash? {
      GoneShrinks(w, s);
    } else if IsBuilder(s) {
      BuilderLeaves(w, s);
    } else {
      RetiredJobs(w, s, b);
    }
  }

  lemma {:induction false} RetiredForever(ws: seq<World>, steps: seq<Step>, i: nat, j: nat, b: BlobId)
    requires IsRun(ws, steps) && i <= j < |ws| && Retired(ws[i], b)
    ensures Retired(ws[j], b)
  {
    hide Can, Do, Retired;
    if i < j {
      RetiredForever(ws, steps, i, j - 1, b);
      RetiredStable(ws[j - 1], steps[j - 1], b);
    }
  }

  /** Listing and deleting are separate steps, yet a blob that was ever listed is named by no extent and by no
      track that can still finalize, then and ever after: its message and its row are safe to delete. */
  lemma {:induction false} CollectionSafe(ws: seq<World>, steps: seq<Step>, i: nat, j: nat, b: BlobId)
    requires IsRun(ws, steps) && ws[0] == Empty() && i <= j < |ws| && b in ws[i].condemned
    ensures !Named(ws[j].nodes, b) && forall t :: !LiveNames(ws[j].tracks, t, b)
  {
    InitInv();
    RunInv(ws, steps, i);
    RunInv(ws, steps, j);
    CondemnedRetires(ws[i], b);
    RetiredForever(ws, steps, i, j, b);
    RetiredUnneeded(ws[j], b);
  }

  /** Every extent of every reachable state names a blob that has its row and, unless the channel itself lost
      it, its message. */
  lemma {:induction false} BytesAreThere(ws: seq<World>, steps: seq<Step>, k: nat, b: BlobId)
    requires IsRun(ws, steps) && ws[0] == Empty() && k < |ws| && Named(ws[k].nodes, b)
    ensures b in ws[k].blobs && b in ws[k].messages + ws[k].lost
    ensures b in ws[k].data && ws[k].blobs[b].size == |ws[k].data[b]|
  {
    InitInv();
    RunInv(ws, steps, k);
    NamedHasRow(ws[k], b);
  }

  lemma {:induction false} NamedHasRow(w: World, b: BlobId)
    requires Inv(w) && Named(w.nodes, b)
    ensures b in w.blobs && b !in w.condemned
  {
    if b !in w.blobs {
      NoRowNoName(w.nodes, w.blobs, w.data, b);
    }
  }

  // ---- permanent loss -----------------------------------------------------------------------------

  lemma {:induction false} PermWorker(w: World, s: Step, b: BlobId)
    requires Can(w, s) && b in w.blobs && w.blobs[b].state.PermUnavailable? && b in Do(w, s).blobs
    requires !IsFs(s) && !IsRows(s) && !IsReaper(s) && !IsBuilder(s)
    ensures Do(w, s).blobs[b].state.PermUnavailable?
  {
    hide Refs, StoredNode, Sealed, SealDropped, PlannedAll, LandedAll, RunOf, ReadRange, Covered, EmitPiece, PlanTrack,
      FailTrack, BufOf, WalOf;
  }

  /** No step takes a blob out of perm_unavailable. */
  lemma {:induction false} LossIsAbsorbing(w: World, s: Step, b: BlobId)
    requires Can(w, s) && b in w.blobs && w.blobs[b].state.PermUnavailable? && b in Do(w, s).blobs
    ensures Do(w, s).blobs[b].state.PermUnavailable?
  {
    hide Can, Do;
    if IsFs(s) {
      FsLeaves(w, s);
    } else if IsRows(s) {
      RowsLeave(w, s);
    } else if IsReaper(s) || s.Crash? {
      GoneShrinks(w, s);
    } else if IsBuilder(s) {
      BuilderLeaves(w, s);
    } else {
      PermWorker(w, s, b);
    }
  }

  /** The upload of b is over. If its row is still there, it is in this channel, and permanently lost if so said. */
  ghost predicate Lasting(w: World, b: BlobId, channel: nat, lost: bool) {
    && b in w.data && (b in w.jobs ==> InTable(w.jobs[b].stage))
    && (b in w.blobs ==> w.blobs[b].channel == channel && (lost ==> w.blobs[b].state.PermUnavailable?))
  }

  lemma {:induction false} LastingJobs(w: World, s: Step, b: BlobId, channel: nat, lost: bool)
    requires Can(w, s) && Lasting(w, b, channel, lost) && !IsFs(s) && !IsRows(s) && !IsReaper(s) && !IsBuilder(s)
    ensures Lasting(Do(w, s), b, channel, lost)
  {
    hide Refs, Sealed, SealDropped, PlannedAll, LandedAll, DoomedAll, RunOf, ReadRange, Covered, EmitPiece, PlanTrack,
      FailTrack, StoredNode, Owned, RowsExist, BufOf, WalOf;
  }

  lemma {:induction false} LastingStep(w: World, s: Step, b: BlobId, channel: nat, lost: bool)
    requires Can(w, s) && Lasting(w, b, channel, lost)
    ensures Lasting(Do(w, s), b, channel, lost)
  {
    hide Can, Do;
    if IsFs(s) {
      FsLeaves(w, s);
    } else if IsRows(s) {
      RowsLeave(w, s);
    } else if IsReaper(s) || s.Crash? {
      GoneShrinks(w, s);
    } else if IsBuilder(s) {
      BuilderLeaves(w, s);
    } else {
      LastingJobs(w, s, b, channel, lost);
    }
  }

  lemma {:induction false} LastingForever(ws: seq<World>, steps: seq<Step>, i: nat, j: nat, b: BlobId, channel: nat,
          lost: bool)
    requires IsRun(ws, steps) && i <= j < |ws| && Lasting(ws[i], b, channel, lost)
    ensures Lasting(ws[j], b, channel, lost)
    decreases j
  {
    hide Can, Do, Lasting;
    if i < j {
      LastingForever(ws, steps, i, j - 1, b, channel, lost);
      LastingStep(ws[j - 1], steps[j - 1], b, channel, lost);
    }
  }

  lemma {:induction false} RowLasts(w: World, b: BlobId)
    requires Inv(w) && b in w.blobs
    ensures Lasting(w, b, w.blobs[b].channel, w.blobs[b].state.PermUnavailable?)
  {
    assert b in w.jobs && !InTable(w.jobs[b].stage) ==> b !in w.blobs;
  }

  /** Along every run a permanently lost blob is lost, or its row is gone, at every later point. */
  lemma {:induction false} LossIsForever(ws: seq<World>, steps: seq<Step>, i: nat, j: nat, b: BlobId)
    requires IsRun(ws, steps) && ws[0] == Empty() && i <= j < |ws|
    requires b in ws[i].blobs && ws[i].blobs[b].state.PermUnavailable?
    ensures b in ws[j].blobs ==> ws[j].blobs[b].state.PermUnavailable?
  {
    hide Inv, Can, Do;
    ReachInv(ws, steps, i);
    RowLasts(ws[i], b);
    LastingForever(ws, steps, i, j, b, ws[i].blobs[b].channel, true);
  }

  lemma {:induction false} UppedIs(w: World, channel: nat)
    ensures Can(w, ChannelUp(channel))
    ensures Do(w, ChannelUp(channel)).blobs == map b | b in w.blobs :: Upped(w.blobs[b], channel)
  {
    hide Upped;
  }

  /** Eviction and channel removal, unlike permanent loss, do not last: whatever ran since, when its channel is marked
      available a blob is readable exactly if its row is still there and it is not permanently lost. */
  lemma {:induction false} EvictionUndone(ws: seq<World>, steps: seq<Step>, i: nat, j: nat, b: BlobId)
    requires IsRun(ws, steps) && ws[0] == Empty() && i <= j < |ws| && b in ws[i].blobs
    ensures var channel := ws[i].blobs[b].channel; var w := ws[j];
      && Can(w, ChannelUp(channel))
      && var w' := Do(w, ChannelUp(channel));
         (b in w'.blobs && w'.blobs[b].state.StoredBlob?) <==> b in w.blobs && !w.blobs[b].state.PermUnavailable?
  {
    hide Inv, Can, Do;
    ReachInv(ws, steps, i);
    RowLasts(ws[i], b);
    LastingForever(ws, steps, i, j, b, ws[i].blobs[b].channel, ws[i].blobs[b].state.PermUnavailable?);
    UppedIs(ws[j], ws[i].blobs[b].channel);
  }

  // ---- the handshake -------------------------------------------------------------------------------

  ghost predicate OncePlanned(w: World, t: TrackId)
    requires t in w.tracks
  {
    var tr := w.tracks[t];
    && tr.calls <= 1
    && (tr.calls == 1 <==> tr.stage.Planned? && forall b :: Names(tr.extents, b) ==>
        b in w.jobs && w.jobs[b].stage.Landed?)
    && (tr.calls == 1 ==> !tr.failed)
    && (tr.calls == 1 && !tr.done ==> RowsExist(w, tr.extents))
  }

  lemma {:induction false} HandshakeGives(w: World, t: TrackId)
    requires Handshake(w.tracks, w.jobs) && t in w.tracks
    requires w.tracks[t].calls > 0 && !w.tracks[t].done ==> RowsExist(w, w.tracks[t].extents)
    ensures OncePlanned(w, t)
  {
    FinalizeDecided(w.tracks, w.jobs, t);
    forall b | Names(w.tracks[t].extents, b) ensures b in w.jobs {
      assert Names(w.tracks[t].extents, b) <==> b in w.jobs && t in w.jobs[b].tracks;
    }
    hide Handshake, TrackShake, RowsExist, Names;
  }

  /** In every reachable state of every interleaving: finalize has been called for a track at most once; it has
      been called exactly when the track is planned and every blob it names has landed, so no wakeup is lost; and
      then the track has not failed and, until the call has run, every blob it names has its row. */
  lemma {:induction false} FinalizeOncePlanned(ws: seq<World>, steps: seq<Step>, k: nat, t: TrackId)
    requires IsRun(ws, steps) && ws[0] == Empty() && k < |ws| && t in ws[k].tracks
    ensures OncePlanned(ws[k], t)
  {
    InitInv();
    RunInv(ws, steps, k);
    ShakeOf(ws[k], t);
    hide Inv, IsRun, OncePlanned, Handshake, TrackShake, RowsExist;
    if ws[k].tracks[t].calls > 0 && !ws[k].tracks[t].done {
      RowsAreThere(ws[k], t);
    }
    HandshakeGives(ws[k], t);
  }

  // ---- exactly-once finalization ------------------------------------------------------------------

  lemma {:induction false} ExtentsAreFinal(ws: seq<World>, steps: seq<Step>, i: nat, j: nat, n: NodeId)
    requires IsRun(ws, steps) && ws[0] == Empty() && i <= j < |ws|
    requires forall k :: i <= k <= j ==> n in ws[k].nodes
    requires forall k :: i <= k < j ==> steps[k] != Truncate(n)
    requires ws[i].nodes[n].state.Stored?
    ensures ws[j].nodes[n].state.Stored? && ws[j].nodes[n].extents == ws[i].nodes[n].extents
  {
    hide Can, Do, Inv;
    if i < j {
      ExtentsAreFinal(ws, steps, i, j - 1, n);
      InitInv();
      RunInv(ws, steps, j - 1);
      assert ws[j - 1 + 1] == Do(ws[j - 1], steps[j - 1]) && n in ws[j].nodes;
      StoredAtMostOnce(ws[j - 1], steps[j - 1], n);
    }
  }

  /** The three shapes a reachable file can have. */
  lemma {:induction false} FileShapes(ws: seq<World>, steps: seq<Step>, k: nat, n: NodeId)
    requires IsRun(ws, steps) && ws[0] == Empty() && k < |ws| && n in ws[k].nodes && !ws[k].nodes[n].isDir
    ensures var nd := ws[k].nodes[n];
      match nd.state
      case Writing => nd.size == 0 && nd.extents == []
      case Buffered => nd.extents == [] && Disciplined(nd.wal) && nd.size == |Flatten(nd.wal)|
      case Stored => nd.wal == [] && Tiled(nd.extents) && Covered(nd.extents) == nd.size
                     && forall i :: 0 <= i < |nd.extents| ==>
                          nd.extents[i].blob in ws[k].blobs && nd.extents[i].seqNo == i && nd.extents[i].length > 0
  {
    InitInv();
    RunInv(ws, steps, k);
    NodeOf(ws[k], n);
  }

  // ---- where the guards are needed ----------------------------------------------------------------

  /** A PUT over an existing file, as its transactions leave it: truncate, the new chunks, Close. UpdateNode
      does not touch the lease columns. */
  ghost function Overwritten(w: World, n: NodeId, chunks: seq<Bytes>): World
    requires n in w.nodes
  {
    var w1 := WithNodes(w, w.nodes[n := Truncated(w.nodes[n])]);
    w1.(nodes := w1.nodes[n := Closed(w1.nodes[n].(wal := chunks))])
  }

  /** A finalize of node n has been decided, has not run, and its packer's name is in the lease column. */
  ghost predicate FinalizePending(w: World, n: NodeId, t: TrackId)
    requires n in w.nodes
  {
    && t in w.tracks && w.tracks[t].calls > 0 && !w.tracks[t].done
    && w.tracks[t].node == n && w.nodes[n].leaseOwner == Some(w.tracks[t].packer)
  }

  lemma {:induction false} OverwrittenIs(w: World, n: NodeId, chunks: seq<Bytes>)
    requires n in w.nodes
    ensures var w1 := Overwritten(w, n, chunks);
      && w1 == w.(nodes := w1.nodes, blobs := w1.blobs) && w1.nodes.Keys == w.nodes.Keys
          && w1.blobs.Keys == w.blobs.Keys
      && w1.nodes[n] == w.nodes[n].(state := Buffered, size := |Flatten(chunks)|, wal := chunks, extents := [])
  {
    hide Refs, Flatten;
  }

  /** What a finalize does to node n: nothing, unless it is the track's node and still held. */
  lemma {:induction false} FinalizeOn(w: World, t: TrackId, n: NodeId)
    requires t in w.tracks && n in w.nodes
    ensures n in DoFinalize(w, t).nodes
    ensures DoFinalize(w, t).nodes[n] ==
            if w.tracks[t].node == n && Owned(w, w.tracks[t]) && RowsExist(w, w.tracks[t].extents)
            then StoredNode(w.nodes[n], w.tracks[t].extents) else w.nodes[n]
  {
    hide Settle, RowsExist;
  }

  /** A stale finalize drops the new log; on a file that was still buffered it puts the old bytes back. */
  lemma {:induction false} StaleFinalize(w: World, n: NodeId, chunks: seq<Bytes>, t: TrackId)
    requires Inv(w) && n in w.nodes && !w.nodes[n].isDir && FinalizePending(w, n, t)
    ensures var nd := DoFinalize(Overwritten(w, n, chunks), t).nodes[n];
            && nd.state.Stored? && nd.wal == [] && nd.extents == w.tracks[t].extents
            && (w.nodes[n].state.Buffered? ==>
                 Mapped(nd.extents, w.data) && Assemble(nd.extents, w.data) == Content(w.nodes[n], w.data))
  {
    RowsAreThere(w, t);
    OverwrittenIs(w, n, chunks);
    FinalizeOn(Overwritten(w, n, chunks), t, n);
    if w.nodes[n].state.Buffered? {
      PlannedFits(w, t);
      hide Inv, Refs, Content, NodeOk, DoFinalize, Overwritten;
      StoredContent(w.nodes[n], w.tracks[t].extents, w.data);
    }
  }

  lemma {:induction false} StoredContent(nd: Node, ex: seq<Extent>, data: Data)
    requires NodeOk(StoredNode(nd, ex), data) && !nd.isDir
    ensures Mapped(ex, data) && Content(StoredNode(nd, ex), data) == Assemble(ex, data)
  {
  }

  lemma {:induction false} FinalizeIs(w: World, t: TrackId)
    requires t in w.tracks && w.tracks[t].calls > 0 && !w.tracks[t].done
    ensures Can(w, Finalize(t)) && Do(w, Finalize(t)) == DoFinalize(w, t)
    ensures DoFinalize(w, t).messages == w.messages
  {
  }

  // ---- what the statements select ------------------------------------------------------------------

  /** ClaimBufferedForPacking: a buffered file without a lease, or with one that has run out, and no other; it is leased
      for ten minutes and nothing else of it changes. */
  lemma {:induction false} ClaimRule(w: World, p: Owner, n: NodeId, t: TrackId)
    ensures Can(w, Claim(p, n, t)) <==>
      && n in w.nodes && !w.nodes[n].isDir && w.nodes[n].state.Buffered? && t !in w.tracks
      && (w.nodes[n].leaseUntil.Some? ==> w.nodes[n].leaseUntil.value < w.now)
    ensures Can(w, Claim(p, n, t)) ==>
      Do(w, Claim(p, n, t)).nodes == w.nodes[n := w.nodes[n].(leaseOwner := Some(p), leaseUntil := Some(w.now + 600))]
  {
    hide NewTrack;
  }

  /** EvictBlobsOlderThan: unavailable are afterwards the blobs that were, and those of the channel with a smaller
      message number that are not permanently lost. */
  lemma {:induction false} EvictRule(w: World, channel: nat, minSeq: nat, b: BlobId)
    requires b in w.blobs
    ensures Can(w, Evict(channel, minSeq)) && b in Do(w, Evict(channel, minSeq)).blobs
    ensures var blob, blob' := w.blobs[b], Do(w, Evict(channel, minSeq)).blobs[b];
      && (blob'.state.Unavailable? <==>
            (blob.state.Unavailable?
             || (blob.channel == channel && blob.messageSeq < minSeq && !blob.state.PermUnavailable?)))
      && (blob'.state.Unavailable? || blob' == blob) && blob'.refcount == blob.refcount && blob'.channel == blob.channel
  {
  }

  /** MarkChannelBlobsUnavailable takes down every blob of the channel that is not permanently lost, and no other. */
  lemma {:induction false} DownRule(w: World, channel: nat, b: BlobId)
    requires b in w.blobs
    ensures Can(w, ChannelDown(channel)) && b in Do(w, ChannelDown(channel)).blobs
    ensures var blob, blob' := w.blobs[b], Do(w, ChannelDown(channel)).blobs[b];
      && (blob'.state.Unavailable? <==>
            blob.state.Unavailable? || (blob.channel == channel && !blob.state.PermUnavailable?))
      && (blob'.state.Unavailable? || blob' == blob) && blob'.refcount == blob.refcount
  {
  }

  /** ListCollectableBlobs: stored, unreferenced, and created more than ten minutes ago. */
  lemma {:induction false} CondemnRule(w: World, b: BlobId)
    ensures Can(w, Condemn(b)) <==>
      b in w.blobs && w.blobs[b].state.StoredBlob? && w.blobs[b].refcount <= 0 && w.blobs[b].createdAt + 600 < w.now
  {
  }
}
