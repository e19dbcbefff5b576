/** The reaper's batch: list the collectable blobs, delete each one's message, then its row. Other transactions may
    run between the steps; the engine's runs cover that. Here is what one undisturbed batch does. */
module Reaper {
  import opened Base
  import opened Extents
  import opened Tables
  import opened Tree
  import opened World
  import Fs = FileSystem

  /** What became of the attempt to delete a message: no usable bot, deleted or already gone, told to slow down,
      or another error. */
  datatype Attempt = NoBot | Gone | RateLimited | Failed

  /** The rows ListCollectableBlobs selects. */
  predicate CollectableRow(blob: Blob, now: Time) {
    blob.state.StoredBlob? && blob.refcount <= 0 && blob.createdAt + GRACE < now
  }

  /** A collectable row is named by no extent, so its deletion violates no foreign key. */
  lemma {:induction false} RowUnnamed(nodes: Nodes, blobs: Blobs, b: BlobId, now: Time)
    requires RefsOk(nodes, blobs) && b in blobs && CollectableRow(blobs[b], now)
    ensures !Named(nodes, b) && blobs[b].refcount == 0
  {
    RefsNamed(nodes, b);
    assert RefOk(blobs[b], Refs(nodes, b));
  }

  lemma {:induction false} RowGone(nodes: Nodes, blobs: Blobs, b: BlobId)
    requires RefsOk(nodes, blobs)
    ensures RefsOk(nodes, blobs - {b})
  {
    hide Refs;
  }

  /** Distinct collectable rows, at most limit, and all of them when there are fewer. */
  predicate IsListing(batch: seq<BlobId>, blobs: Blobs, now: Time, limit: nat) {
    && |batch| <= limit
    && (forall b :: b in batch ==> b in blobs && CollectableRow(blobs[b], now))
    && Distinct(batch)
    && (|batch| < limit ==> forall b :: b in blobs && CollectableRow(blobs[b], now) ==> b in batch)
  }

  class Maintenance {
    const fs: Fs.FileSystem
    var messages: set<BlobId>

    constructor (fs: Fs.FileSystem, messages: set<BlobId>)
      ensures this.fs == fs && this.messages == messages
    {
      this.fs, this.messages := fs, messages;
    }

    method ListCollectable(now: Time, limit: nat) returns (batch: seq<BlobId>)
      ensures IsListing(batch, fs.blobs, now, limit)
      ensures forall b :: b in batch ==>
        b in fs.blobs && fs.blobs[b].state.StoredBlob? && fs.blobs[b].refcount <= 0 && fs.blobs[b].createdAt + 600 < now
      ensures |batch| < limit ==> forall b :: b in fs.blobs && fs.blobs[b].state.StoredBlob? ==>
        (fs.blobs[b].refcount <= 0 && fs.blobs[b].createdAt + 600 < now ==> b in batch)
    {
      batch := [];
      var left := set b | b in fs.blobs && CollectableRow(fs.blobs[b], now);
      while left != {} && |batch| < limit
        invariant |batch| <= limit
        invariant forall b :: b in batch || b in left <==> b in fs.blobs && CollectableRow(fs.blobs[b], now)
        invariant forall b :: b in batch ==> b !in left
        invariant Distinct(batch)
        decreases |left|
      {
        var b :| b in left;
        batch := batch + [b];
        left := left - {b};
      }
    }

    /** reap. Exactly the listed blobs whose message is gone lose their rows, up to the first rate limit; each was
        unreferenced, so no file loses a byte. */
    method Reap(now: Time, limit: nat, attempt: BlobId -> Attempt)
      returns (deleted: seq<BlobId>, ghost batch: seq<BlobId>)
      requires fs.Valid()
      modifies this, fs`blobs
      ensures fs.Valid() && IsListing(batch, old(fs.blobs), now, limit)
      ensures |deleted| <= limit && forall b :: b in deleted ==> b in batch && !Named(fs.nodes, b)
      ensures fs.blobs == old(fs.blobs) - set b | b in deleted
      ensures messages == old(messages) - set b | b in deleted
      ensures exists k :: 0 <= k <= |batch| && Reaped(batch[..k], attempt, deleted)
                          && (k < |batch| ==> attempt(batch[k]).RateLimited?)
                          && (forall i :: 0 <= i < k ==> !attempt(batch[i]).RateLimited?)
                          && (forall i :: 0 <= i < k && attempt(batch[i]).Gone? ==> batch[i] in deleted)
                          && (forall i :: k <= i < |batch| ==> batch[i] !in deleted)
      ensures forall b :: b in deleted ==> attempt(b).Gone?
      ensures forall b :: b in deleted ==>
        && b in old(fs.blobs) && old(fs.blobs)[b].state.StoredBlob? && old(fs.blobs)[b].refcount == 0
        && old(fs.blobs)[b].createdAt + 600 < now
      ensures forall b :: b in old(fs.blobs) && !attempt(b).Gone? ==> b in fs.blobs && fs.blobs[b] == old(fs.blobs)[b]
      ensures forall b :: b in old(messages) && !attempt(b).Gone? ==> b in messages
    {
      hide TreeOk, NodesOk, RefsOk, Named, CollectableRow;
      var listed := ListCollectable(now, limit);
      batch := listed;
      ListedRows(fs.nodes, fs.blobs, listed, now);
      ghost var k;
      deleted, k := ReapBatch(listed, now, limit, attempt);
      hide Reaped;
      ReapedMeans(listed, k, attempt, deleted);
      assert forall b :: b in (set x | x in deleted) <==> b in deleted;
    }

    /** The loop over the batch: the first k attempts were not told to slow down. */
    method ReapBatch(batch: seq<BlobId>, now: Time, limit: nat, attempt: BlobId -> Attempt)
      returns (deleted: seq<BlobId>, ghost k: nat)
      requires fs.Valid() && IsListing(batch, fs.blobs, now, limit)
      modifies this, fs`blobs
      ensures fs.Valid() && |deleted| <= limit && forall b :: b in deleted ==> b in batch && !Named(fs.nodes, b)
      ensures fs.blobs == old(fs.blobs) - set b | b in deleted
      ensures messages == old(messages) - set b | b in deleted
      ensures k <= |batch| && Reaped(batch[..k], attempt, deleted) && (k < |batch| ==> attempt(batch[k]).RateLimited?)
    {
      deleted := [];
      k := |batch|;
      ReapedNone(attempt);
      assert batch[..|batch|] == batch && batch[..0] == [];
      hide TreeOk, NodesOk, RefsOk, Named, CollectableRow, Reaped;
      for i := 0 to |batch|
        invariant fs.Valid() && Reaped(batch[..i], attempt, deleted) && |deleted| <= i && k == |batch|
        invariant forall b :: b in deleted ==> b in batch[..i] && !Named(fs.nodes, b)
        invariant fs.blobs == old(fs.blobs) - set b | b in deleted
        invariant messages == old(messages) - set b | b in deleted
      {
        var b := batch[i];
        OneFurther(batch, i);
        if !attempt(b).RateLimited? {
          ReapedNext(batch, i, attempt, deleted);
        }
        match attempt(b) {
          case Gone =>
            assert b in batch && b !in batch[..i];
            OneFewer(old(fs.blobs), old(messages), deleted, b);
            RowUnnamed(fs.nodes, fs.blobs, b, now);
            RowGone(fs.nodes, fs.blobs, b);
            messages := messages - {b};
            fs.blobs := fs.blobs - {b};
            deleted := deleted + [b];
          case RateLimited =>
            k := i;
            return;
          case _ =>
        }
      }
    }
  }

  lemma {:induction false} OneFurther(batch: seq<BlobId>, i: nat)
    requires i < |batch|
    ensures forall b :: b in batch[..i + 1] <==> b in batch[..i] || b == batch[i]
  {
    assert batch[..i + 1] == batch[..i] + [batch[i]];
  }

  lemma {:induction false} OneFewer(blobs: Blobs, messages: set<BlobId>, deleted: seq<BlobId>, b: BlobId)
    ensures (blobs - set x | x in deleted) - {b} == blobs - set x | x in deleted + [b]
    ensures (messages - set x | x in deleted) - {b} == messages - set x | x in deleted + [b]
  {
  }

  lemma {:induction false} ReapedNone(attempt: BlobId -> Attempt)
    ensures Reaped([], attempt, [])
  {
  }

  lemma {:induction false} ReapedNext(batch: seq<BlobId>, i: nat, attempt: BlobId -> Attempt, deleted: seq<BlobId>)
    requires i < |batch| && Reaped(batch[..i], attempt, deleted) && !attempt(batch[i]).RateLimited?
    ensures Reaped(batch[..i + 1], attempt, if attempt(batch[i]).Gone? then deleted + [batch[i]] else deleted)
  {
    assert batch[..i + 1][..i] == batch[..i] && batch[..i + 1][i] == batch[i];
  }

  lemma {:induction false} ListedRows(nodes: Nodes, blobs: Blobs, batch: seq<BlobId>, now: Time)
    requires RefsOk(nodes, blobs) && forall b :: b in batch ==> b in blobs && CollectableRow(blobs[b], now)
    ensures forall b :: b in batch ==>
      blobs[b].state.StoredBlob? && blobs[b].refcount == 0 && blobs[b].createdAt + 600 < now
  {
    forall b | b in batch ensures blobs[b].refcount == 0 {
      RowUnnamed(nodes, blobs, b, now);
    }
  }

  /** What the first k attempts deleted: exactly the blobs among them whose message is gone. */
  lemma {:induction false} ReapedMeans(batch: seq<BlobId>, k: nat, attempt: BlobId -> Attempt, deleted: seq<BlobId>)
    requires k <= |batch| && Distinct(batch) && Reaped(batch[..k], attempt, deleted)
    ensures forall b :: b in deleted ==> b in batch && attempt(b).Gone?
    ensures forall i :: 0 <= i < k ==> !attempt(batch[i]).RateLimited?
    ensures forall i :: 0 <= i < k && attempt(batch[i]).Gone? ==> batch[i] in deleted
    ensures forall i :: k <= i < |batch| ==> batch[i] !in deleted
  {
    GoneMeans(batch[..k], attempt);
    forall i | 0 <= i < k
      ensures !attempt(batch[i]).RateLimited? && (attempt(batch[i]).Gone? ==> batch[i] in deleted)
    {
      assert batch[..k][i] == batch[i] && batch[i] in batch[..k];
    }
    forall i | k <= i < |batch| ensures batch[i] !in batch[..k] {
    }
  }

  lemma {:induction false} GoneMeans(batch: seq<BlobId>, attempt: BlobId -> Attempt)
    ensures forall b :: b in GoneOf(batch, attempt) <==> b in batch && attempt(b).Gone?
  {
    if batch != [] {
      GoneMeans(batch[..|batch| - 1], attempt);
      assert batch == batch[..|batch| - 1] + [batch[|batch| - 1]];
    }
  }

  /** The blobs of a batch whose message is gone, in order. */
  function GoneOf(batch: seq<BlobId>, attempt: BlobId -> Attempt): seq<BlobId> {
    if batch == [] then []
    else
      GoneOf(batch[..|batch| - 1], attempt) +
      if attempt(batch[|batch| - 1]).Gone? then [batch[|batch| - 1]] else []
  }

  predicate Reaped(batch: seq<BlobId>, attempt: BlobId -> Attempt, deleted: seq<BlobId>) {
    deleted == GoneOf(batch, attempt) && forall i :: 0 <= i < |batch| ==> !attempt(batch[i]).RateLimited?
  }
}
