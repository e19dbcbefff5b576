/** Extents: the ranges of shared blobs a stored file is assembled from. */
module Extents {
  import opened Base

  type BlobId = nat

  datatype Extent = Extent(seqNo: nat, fileOffset: nat, length: nat, blob: BlobId, blobOffset: nat)

  /** How many bytes of the file a list of extents covers. */
  function Covered(ex: seq<Extent>): nat {
    if ex == [] then 0 else Covered(ex[..|ex| - 1]) + ex[|ex| - 1].length
  }

  /** No two extents name the same blob. */
  predicate OneBlobEach(ex: seq<Extent>) {
    forall i, j :: 0 <= i < j < |ex| ==> ex[i].blob != ex[j].blob
  }

  /** In seq order the extents tile the file from 0, each non-empty and each on a blob of its own. */
  predicate Tiled(ex: seq<Extent>) {
    && (forall i :: 0 <= i < |ex| ==>
         ex[i].seqNo == i && ex[i].length > 0 && ex[i].fileOffset == Covered(ex[..i]))
    && OneBlobEach(ex)
  }

  predicate InRange(e: Extent, data: map<BlobId, Bytes>) {
    e.blob in data && e.blobOffset + e.length <= |data[e.blob]|
  }

  /** Every extent lies inside a blob whose bytes are known. */
  predicate Mapped(ex: seq<Extent>, data: map<BlobId, Bytes>) {
    forall i :: 0 <= i < |ex| ==> InRange(ex[i], data)
  }

  function Piece(e: Extent, data: map<BlobId, Bytes>): Bytes
    requires InRange(e, data)
  {
    data[e.blob][e.blobOffset..e.blobOffset + e.length]
  }

  /** The file the extents describe. */
  function Assemble(ex: seq<Extent>, data: map<BlobId, Bytes>): Bytes
    requires Mapped(ex, data)
  {
    if ex == [] then [] else Assemble(ex[..|ex| - 1], data) + Piece(ex[|ex| - 1], data)
  }

  predicate Names(ex: seq<Extent>, b: BlobId) {
    exists i :: 0 <= i < |ex| && ex[i].blob == b
  }

  /** How many of the extents name a blob. */
  function Count(ex: seq<Extent>, b: BlobId): nat {
    if ex == [] then 0
    else Count(ex[..|ex| - 1], b) + if ex[|ex| - 1].blob == b then 1 else 0
  }

  lemma {:induction false} CountNames(ex: seq<Extent>, b: BlobId)
    ensures Count(ex, b) > 0 <==> Names(ex, b)
  {
    if ex != [] {
      var init := ex[..|ex| - 1];
      CountNames(init, b);
      if Names(init, b) {
        var i :| 0 <= i < |init| && init[i].blob == b;
        assert ex[i].blob == b;
      }
      if Names(ex, b) && ex[|ex| - 1].blob != b {
        var i :| 0 <= i < |ex| && ex[i].blob == b;
        assert init[i].blob == b;
      }
    }
  }

  lemma {:induction false} AssembleLength(ex: seq<Extent>, data: map<BlobId, Bytes>)
    requires Mapped(ex, data)
    ensures |Assemble(ex, data)| == Covered(ex)
  {
    if ex != [] {
      AssembleLength(ex[..|ex| - 1], data);
    }
  }

  /** Blob bytes never change once known, so learning about more blobs changes no file. */
  lemma {:induction false} AssembleMonotone(ex: seq<Extent>, data: map<BlobId, Bytes>, more: map<BlobId, Bytes>)
    requires Mapped(ex, data) && forall b :: b in data ==> b in more && more[b] == data[b]
    ensures Mapped(ex, more) && Assemble(ex, more) == Assemble(ex, data)
  {
    assert forall i :: 0 <= i < |ex| && InRange(ex[i], data) ==> InRange(ex[i], more);
    if ex != [] {
      AssembleMonotone(ex[..|ex| - 1], data, more);
    }
  }

  /** Appending the next piece of a file. */
  lemma {:induction false} Extend(ex: seq<Extent>, e: Extent, data: map<BlobId, Bytes>)
    requires Tiled(ex) && Mapped(ex, data) && InRange(e, data)
    requires e.seqNo == |ex| && e.fileOffset == Covered(ex) && e.length > 0 && !Names(ex, e.blob)
    ensures Tiled(ex + [e]) && Mapped(ex + [e], data)
    ensures Assemble(ex + [e], data) == Assemble(ex, data) + Piece(e, data)
    ensures Covered(ex + [e]) == Covered(ex) + e.length
  {
    var all := ex + [e];
    assert all[..|ex|] == ex;
    forall i | 0 <= i < |all| ensures all[i].fileOffset == Covered(all[..i]) {
      if i < |ex| {
        assert all[..i] == ex[..i];
      }
    }
  }

  lemma {:induction false} CoveredMonotone(ex: seq<Extent>, i: nat, j: nat)
    requires i <= j <= |ex|
    ensures Covered(ex[..i]) <= Covered(ex[..j])
    decreases j
  {
    if i < j {
      assert ex[..j][..j - 1] == ex[..j - 1];
      CoveredMonotone(ex, i, j - 1);
    }
  }

  lemma {:induction false} AssemblePrefix(ex: seq<Extent>, data: map<BlobId, Bytes>, k: nat)
    requires Mapped(ex, data) && k <= |ex|
    ensures Assemble(ex[..k], data) <= Assemble(ex, data)
    decreases |ex|
  {
    if k < |ex| {
      assert ex[..|ex| - 1][..k] == ex[..k];
      AssemblePrefix(ex[..|ex| - 1], data, k);
    } else {
      assert ex[..k] == ex;
    }
  }

  lemma {:induction false} AssembleStep(ex: seq<Extent>, data: map<BlobId, Bytes>, i: nat)
    requires Mapped(ex, data) && i < |ex|
    ensures Assemble(ex[..i + 1], data) == Assemble(ex[..i], data) + Piece(ex[i], data)
  {
    var upto := ex[..i + 1];
    assert upto[..|upto| - 1] == ex[..i];
  }

  /** The bytes extent i contributes sit at its file offset. */
  lemma {:induction false} AssembleAt(ex: seq<Extent>, data: map<BlobId, Bytes>, i: nat)
    requires Tiled(ex) && Mapped(ex, data) && i < |ex|
    ensures ex[i].fileOffset + ex[i].length <= |Assemble(ex, data)|
    ensures Assemble(ex, data)[ex[i].fileOffset..ex[i].fileOffset + ex[i].length] == Piece(ex[i], data)
  {
    hide Assemble, Covered;
    AssembleStep(ex, data, i);
    AssembleLength(ex[..i], data);
    AssemblePrefix(ex, data, i + 1);
    PrefixSlice(Assemble(ex[..i], data), Piece(ex[i], data), Assemble(ex, data));
  }

  lemma {:induction false} PrefixSlice(a: Bytes, b: Bytes, all: Bytes)
    requires a + b <= all
    ensures |a| + |b| <= |all| && all[|a|..|a| + |b|] == b
  {
    assert all[..|a| + |b|] == a + b;
  }
}
