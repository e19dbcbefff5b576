/** The reaping grace. The reaper lists a blob ten minutes after its row was written, whether or not the finalize
    that will name it has committed; here is exactly when that loses bytes. */
module Grace {
  import opened Base
  import opened Extents
  import opened Tables
  import opened Tree
  import opened Packer
  import opened World
  import opened Invariant
  import opened Lifecycle
  import opened Runs
  import opened Guarantees

  /** The reaper's three kinds of step, in any order, on any blobs. */
  predicate ReapsOnly(steps: seq<Step>) {
    forall i :: 0 <= i < |steps| ==> steps[i].Condemn? || steps[i].DeleteMessage? || steps[i].DeleteRow?
  }

  ghost predicate FinalizeNamesLost(w: World, t: TrackId, b: BlobId) {
    && Can(w, Finalize(t)) && Named(Do(w, Finalize(t)).nodes, b) && b !in Do(w, Finalize(t)).messages
  }

  /** Some work of the reaper makes the finalize of t commit a file that names b while b's message is gone. */
  ghost predicate CanLose(w: World, t: TrackId, b: BlobId) {
    exists ws, steps :: IsRun(ws, steps) && ws[0] == w && ReapsOnly(steps) && FinalizeNamesLost(ws[|steps|], t, b)
  }

  // ---- within the grace nothing is lost ------------------------------------------------------------------

  /** The reaper has not touched b. */
  ghost predicate Untouched(w: World, v: World, b: BlobId) {
    && v.now == w.now && b in v.blobs && b in w.blobs && v.blobs[b] == w.blobs[b] && b in v.messages
        && b !in v.condemned
  }

  lemma {:induction false} ReapSpares(w: World, v: World, s: Step, b: BlobId)
    requires Untouched(w, v, b) && !Collectable(w, b) && Can(v, s)
    requires s.Condemn? || s.DeleteMessage? || s.DeleteRow?
    ensures Untouched(w, Do(v, s), b)
  {
    hide Named;
  }

  lemma {:induction false} ReapsSpare(ws: seq<World>, steps: seq<Step>, k: nat, b: BlobId)
    requires IsRun(ws, steps) && ReapsOnly(steps) && k <= |steps| && Untouched(ws[0], ws[0], b)
        && !Collectable(ws[0], b)
    ensures Untouched(ws[0], ws[k], b)
    decreases k
  {
    hide Can, Do, Untouched, Collectable;
    if k > 0 {
      ReapsSpare(ws, steps, k - 1, b);
      RunStep(ws, steps, k - 1);
      ReapSpares(ws[0], ws[k - 1], steps[k - 1], b);
    }
  }

  lemma {:induction false} FinalizeMessages(w: World, t: TrackId)
    requires Can(w, Finalize(t))
    ensures Do(w, Finalize(t)).messages == w.messages
  {
    hide Owned, RowsExist, Settle;
  }

  lemma {:induction false} NotLost(w: World, t: TrackId, b: BlobId)
    requires Untouched(w, w, b) && !Collectable(w, b)
    ensures !CanLose(w, t, b)
  {
    hide Can, Do, Collectable;
    forall ws, steps | IsRun(ws, steps) && ws[0] == w && ReapsOnly(steps)
      ensures !FinalizeNamesLost(ws[|steps|], t, b)
    {
      ReapsSpare(ws, steps, |steps|, b);
      if Can(ws[|steps|], Finalize(t)) {
        FinalizeMessages(ws[|steps|], t);
      }
    }
  }

  // ---- past the grace it can be lost -----------------------------------------------------------------------

  lemma {:induction false} CondemnIs(w: World, b: BlobId)
    requires Collectable(w, b)
    ensures Can(w, Condemn(b)) && Do(w, Condemn(b)) == w.(condemned := w.condemned + {b})
  {
  }

  lemma {:induction false} DeleteMessageIs(w: World, b: BlobId)
    requires b in w.condemned
    ensures Can(w, DeleteMessage(b)) && Do(w, DeleteMessage(b)) == w.(messages := w.messages - {b})
  {
  }

  lemma {:induction false} FinalizeNames(w: World, t: TrackId, b: BlobId)
    requires t in w.tracks && w.tracks[t].calls > 0 && !w.tracks[t].done && Owned(w, w.tracks[t])
    requires RowsExist(w, w.tracks[t].extents) && Names(w.tracks[t].extents, b) && b !in w.messages
    ensures FinalizeNamesLost(w, t, b)
  {
    hide Can, Do, DoFinalize, RowsExist;
    FinalizeIs(w, t);
    FinalizeOn(w, t, w.tracks[t].node);
    assert Names(DoFinalize(w, t).nodes[w.tracks[t].node].extents, b);
  }

  lemma {:induction false} Loses(w: World, t: TrackId, b: BlobId)
    requires t in w.tracks && w.tracks[t].calls > 0 && !w.tracks[t].done && Owned(w, w.tracks[t])
    requires RowsExist(w, w.tracks[t].extents) && Names(w.tracks[t].extents, b) && Collectable(w, b)
    ensures CanLose(w, t, b)
  {
    hide Can, Do, RowsExist, Collectable, FinalizeNamesLost, Names, Owned;
    CondemnIs(w, b);
    var w1 := Do(w, Condemn(b));
    DeleteMessageIs(w1, b);
    var w2 := Do(w1, DeleteMessage(b));
    var ws, steps := [w, w1, w2], [Condemn(b), DeleteMessage(b)];
    assert IsRun(ws, steps) && ReapsOnly(steps);
    SameRowsExist(w, w2, w.tracks[t]);
    FinalizeNames(w2, t, b);
    assert ws[|steps|] == w2;
  }

  lemma {:induction false} SameRowsExist(w: World, w': World, tr: Track)
    requires w'.nodes == w.nodes && w'.blobs == w.blobs
    ensures RowsExist(w', tr.extents) == RowsExist(w, tr.extents) && Owned(w', tr) == Owned(w, tr)
  {
  }

  // ---- exactly when ------------------------------------------------------------------------------------------

  lemma {:induction false} CollectableWhen(w: World, b: BlobId, later: Time)
    requires Inv(w) && b in w.blobs
    ensures Collectable(w.(now := later), b) <==>
      w.blobs[b].state.StoredBlob? && !Named(w.nodes, b) && w.blobs[b].createdAt + GRACE < later
  {
    RefsNamed(w.nodes, b);
    assert RefOk(w.blobs[b], Refs(w.nodes, b));
    hide Refs, Named;
  }

  lemma {:induction false} LiveUntouched(w: World, t: TrackId, b: BlobId, later: Time)
    requires Inv(w) && t in w.tracks && w.tracks[t].calls > 0 && !w.tracks[t].done && Names(w.tracks[t].extents, b)
    requires b in w.messages
    ensures b in w.blobs && RowsExist(w, w.tracks[t].extents)
    ensures Untouched(w.(now := later), w.(now := later), b)
  {
    RowsAreThere(w, t);
    NotCondemned(w, t);
    hide Inv;
  }

  /** A finalize has been decided and will commit, and the clock has come to later before it does. The reaper can
      list the blob and delete its message, so that the finalize commits a file whose bytes are gone, exactly when
      the blob's row is stored, no file names it yet, and it is older than the grace period. */
  lemma {:induction false} LateFinalize(w: World, t: TrackId, b: BlobId, later: Time)
    requires Inv(w) && t in w.tracks && w.tracks[t].calls > 0 && !w.tracks[t].done && Owned(w, w.tracks[t])
    requires Names(w.tracks[t].extents, b) && b in w.messages
    ensures b in w.blobs
    ensures CanLose(w.(now := later), t, b) <==>
      w.blobs[b].state.StoredBlob? && !Named(w.nodes, b) && w.blobs[b].createdAt + GRACE < later
  {
    hide Inv, Owned, RowsExist, Names, Untouched, Collectable, CanLose, Named;
    var w1 := w.(now := later);
    LiveUntouched(w, t, b, later);
    CollectableWhen(w, b, later);
    SameRowsExist(w, w1, w.tracks[t]);
    if Collectable(w1, b) {
      Loses(w1, t, b);
    } else {
      NotLost(w1, t, b);
    }
  }
}
