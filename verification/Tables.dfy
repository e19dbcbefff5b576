/** The database: one row per node (holding the WAL and extent rows that cascade with it) and one per blob.
    AddRefcounts is specified by Settle: afterwards each blob's refcount has moved by exactly as much as
    the number of extents naming it. */
module Tables {
  import opened Base
  import opened Paths
  import opened Wal
  import opened Extents

  type NodeId = nat
  type UserId = nat
  type Owner = nat
  type Time = nat
  type Data = map<BlobId, Bytes>
  type Nodes = map<NodeId, Node>
  type Blobs = map<BlobId, Blob>

  datatype NodeState = Writing | Buffered | Stored

  datatype Node = Node(
    user: UserId, parent: Option<NodeId>, name: string, path: string, isDir: bool,
    size: nat, state: NodeState, leaseOwner: Option<Owner>, leaseUntil: Option<Time>,
    wal: seq<Bytes>, extents: seq<Extent>)

  datatype BlobState = StoredBlob | Unavailable | PermUnavailable

  datatype Blob = Blob(channel: nat, messageSeq: nat, size: nat, state: BlobState, refcount: int, createdAt: Time)

  // ---- one row ----------------------------------------------------------------------------------

  /** The three lives of a file, and a directory. */
  predicate NodeOk(nd: Node, data: Data) {
    if nd.isDir then nd.state.Stored? && nd.size == 0 && nd.wal == [] && nd.extents == []
    else match nd.state
      case Writing => nd.size == 0 && nd.extents == [] && Disciplined(nd.wal)
      case Buffered => nd.extents == [] && Disciplined(nd.wal) && nd.size == |Flatten(nd.wal)|
      case Stored => nd.wal == [] && Tiled(nd.extents) && Mapped(nd.extents, data) && nd.size == Covered(nd.extents)
  }

  predicate NodesOk(nodes: Nodes, data: Data) {
    forall n :: n in nodes ==> NodeOk(nodes[n], data)
  }

  /** What a read through a fresh handle gives: the first size bytes of the log, or the assembled extents. */
  function Content(nd: Node, data: Data): Bytes
    requires NodeOk(nd, data)
  {
    if nd.state.Stored? then Assemble(nd.extents, data) else Flatten(nd.wal)[..nd.size]
  }

  lemma {:induction false} ContentLength(nd: Node, data: Data)
    requires NodeOk(nd, data)
    ensures |Content(nd, data)| == nd.size
  {
    if nd.state.Stored? {
      AssembleLength(nd.extents, data);
    }
  }

  predicate Grows(data: Data, more: Data) {
    forall b :: b in data ==> b in more && more[b] == data[b]
  }

  lemma {:induction false} ContentMonotone(nd: Node, data: Data, more: Data)
    requires NodeOk(nd, data) && Grows(data, more)
    ensures NodeOk(nd, more) && Content(nd, more) == Content(nd, data)
  {
    if nd.state.Stored? && !nd.isDir {
      AssembleMonotone(nd.extents, data, more);
    }
  }

  lemma {:induction false} NodesMonotone(nodes: Nodes, data: Data, more: Data)
    requires NodesOk(nodes, data) && Grows(data, more)
    ensures NodesOk(nodes, more)
  {
    forall n | n in nodes ensures NodeOk(nodes[n], more) {
      ContentMonotone(nodes[n], data, more);
    }
  }

  // ---- references -------------------------------------------------------------------------------

  ghost function CountMap(nodes: Nodes, b: BlobId): map<NodeId, int> {
    map n | n in nodes :: Count(nodes[n].extents, b)
  }

  /** The number of extent rows naming a blob. */
  ghost function Refs(nodes: Nodes, b: BlobId): int {
    Total(CountMap(nodes, b))
  }

  ghost predicate Named(nodes: Nodes, b: BlobId) {
    exists n :: n in nodes && Names(nodes[n].extents, b)
  }

  lemma {:induction false} RefsNamed(nodes: Nodes, b: BlobId)
    ensures Refs(nodes, b) >= 0
    ensures Refs(nodes, b) > 0 <==> Named(nodes, b)
  {
    var m := CountMap(nodes, b);
    TotalBounds(m);
    if Named(nodes, b) {
      var n :| n in nodes && Names(nodes[n].extents, b);
      CountNames(nodes[n].extents, b);
      assert m[n] > 0;
    } else {
      forall n | n in m ensures m[n] == 0 {
        CountNames(nodes[n].extents, b);
      }
      TotalZero(m);
    }
  }

  lemma {:induction false} RefsInsert(nodes: Nodes, n: NodeId, nd: Node, b: BlobId)
    requires n !in nodes
    ensures Refs(nodes[n := nd], b) == Refs(nodes, b) + Count(nd.extents, b)
  {
    TotalInsert(CountMap(nodes, b), n, Count(nd.extents, b));
    assert CountMap(nodes[n := nd], b) == CountMap(nodes, b)[n := Count(nd.extents, b)];
  }

  lemma {:induction false} RefsUpdate(nodes: Nodes, n: NodeId, nd: Node, b: BlobId)
    requires n in nodes
    ensures Refs(nodes[n := nd], b) == Refs(nodes, b) - Count(nodes[n].extents, b) + Count(nd.extents, b)
  {
    TotalUpdate(CountMap(nodes, b), n, Count(nd.extents, b));
    assert CountMap(nodes[n := nd], b) == CountMap(nodes, b)[n := Count(nd.extents, b)];
  }

  predicate SameExtents(nodes: Nodes, nodes': Nodes) {
    nodes.Keys == nodes'.Keys && forall n :: n in nodes ==> nodes'[n].extents == nodes[n].extents
  }

  lemma {:induction false} RefsSame(nodes: Nodes, nodes': Nodes, b: BlobId)
    requires SameExtents(nodes, nodes')
    ensures Refs(nodes', b) == Refs(nodes, b)
  {
    assert CountMap(nodes', b) == CountMap(nodes, b);
  }

  lemma {:induction false} RefsShrink(nodes: Nodes, nodes': Nodes, b: BlobId)
    requires nodes'.Keys <= nodes.Keys && forall n :: n in nodes' ==> nodes'[n].extents == nodes[n].extents
    ensures Refs(nodes', b) <= Refs(nodes, b)
    ensures Refs(nodes, b) - Refs(nodes', b) == Refs(nodes - nodes'.Keys, b)
  {
    var gone := nodes.Keys - nodes'.Keys;
    TotalSplit(CountMap(nodes, b), gone);
    assert CountMap(nodes, b) - gone == CountMap(nodes', b);
    assert CountMap(nodes, b) - (CountMap(nodes, b).Keys - gone) == CountMap(nodes - nodes'.Keys, b) by {
      assert CountMap(nodes, b).Keys - gone == nodes'.Keys;
    }
    RefsNamed(nodes - nodes'.Keys, b);
  }

  /** A perm_unavailable blob may keep the references of nodes the cascade deleted without a release. */
  predicate RefOk(blob: Blob, refs: int) {
    if blob.state.PermUnavailable? then blob.refcount >= refs else blob.refcount == refs
  }

  ghost predicate RefsOk(nodes: Nodes, blobs: Blobs) {
    forall b :: b in blobs ==> RefOk(blobs[b], Refs(nodes, b))
  }

  /** Every extent names a blob row (extents.blob_id ON DELETE RESTRICT), and rows describe known bytes. */
  ghost predicate LinksOk(nodes: Nodes, blobs: Blobs, data: Data) {
    && (forall n, i :: n in nodes && 0 <= i < |nodes[n].extents| ==> nodes[n].extents[i].blob in blobs)
    && forall b :: b in blobs ==> b in data && blobs[b].size == |data[b]|
  }

  function Moved(blob: Blob, delta: int): Blob {
    blob.(refcount := blob.refcount + delta)
  }

  ghost function Settle(blobs: Blobs, before: Nodes, after: Nodes): Blobs {
    map b | b in blobs :: Moved(blobs[b], Refs(after, b) - Refs(before, b))
  }

  lemma {:induction false} SettleOk(blobs: Blobs, before: Nodes, after: Nodes)
    requires RefsOk(before, blobs)
    ensures RefsOk(after, Settle(blobs, before, after))
  {
    hide Refs;
  }

  lemma {:induction false} SettleSame(blobs: Blobs, before: Nodes, after: Nodes)
    requires SameExtents(before, after)
    ensures Settle(blobs, before, after) == blobs
  {
    hide Refs;
    var s := Settle(blobs, before, after);
    forall b | b in blobs ensures s[b] == blobs[b] {
      RefsSame(before, after, b);
    }
  }

  lemma {:induction false} SettleTrans(blobs: Blobs, p: Nodes, q: Nodes, r: Nodes)
    ensures Settle(Settle(blobs, p, q), q, r) == Settle(blobs, p, r)
  {
    hide Refs;
    var s := Settle(blobs, p, q);
    var t := Settle(s, q, r);
    forall b | b in blobs ensures t[b] == Settle(blobs, p, r)[b] {
      assert t[b] == Moved(Moved(blobs[b], Refs(q, b) - Refs(p, b)), Refs(r, b) - Refs(q, b));
    }
  }
}
