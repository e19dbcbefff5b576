/** The whole storage engine as a step system: filesystem transactions, the packer's builder and upload
    workers (each mutex section and each transaction one step), lease expiry and crashes, the reaper and
    the outside world. Leases and scheduling are looser than the code's. Five assumptions are tighter: a file is
    truncated only while no live track packs it, a MOVE or COPY destination does not contain its source, the clock
    does not outrun a live track's persisted blob, no inserted chunk is oversized, and a file has one open write
    handle, so that its Appends and its Close are those of the handle that opened it last. */
module World {
  import opened Base
  import opened Paths
  import opened Wal
  import opened Extents
  import opened Tables
  import opened Tree
  import opened Packer

  /** The age a blob must exceed before the reaper may list it. */
  const GRACE: nat := 600

  const LEASE: nat := 600

  /** data remembers the bytes of every blob ever emitted; condemned every blob the reaper ever listed whose
      row is still there; lost the messages that vanished from the channel by themselves. */
  datatype World = World(
    nodes: Nodes, blobs: Blobs, nextNode: NodeId,
    data: Data, tracks: Tracks, jobs: Jobs, bufs: map<Owner, Bytes>,
    messages: set<BlobId>, lost: set<BlobId>, condemned: set<BlobId>, now: Time)

  datatype Step =
    | MakeRoot(u: UserId)
    | Mkdir(u: UserId, path: string, parent: NodeId)
    | Create(u: UserId, path: string, parent: NodeId)
    | Truncate(n: NodeId)
    | Append(n: NodeId, chunk: Bytes)
    | Close(n: NodeId)
    | CloseFail(n: NodeId)
    | Remove(u: UserId, path: string)
    | Rename(u: UserId, s: string, d: string, top: NodeId, parent: NodeId)
    | Copy(u: UserId, s: string, d: string, top: NodeId, parent: NodeId, recursive: bool,
           m: map<NodeId, NodeId>, after: Nodes, next: NodeId)
    | PermGone(b: BlobId)
    | Evict(channel: nat, minSeq: nat)
    | ChannelDown(channel: nat)
    | ChannelUp(channel: nat)
    | Lose(b: BlobId)
    | Claim(p: Owner, n: NodeId, t: TrackId)
    | Release(n: NodeId)
    | StoreEmpty(t: TrackId)
    | Abandon(t: TrackId)
    | SplitStart(t: TrackId)
    | SplitEmit(t: TrackId, b: BlobId, n: nat)
    | SplitDone(t: TrackId)
    | PackSmall(t: TrackId)
    | Seal(p: Owner, b: BlobId)
    | SealFail(p: Owner)
    | SealDone(p: Owner)
    | Send(b: BlobId)
    | Take(b: BlobId)
    | Upload(b: BlobId)
    | UploadFail(b: BlobId)
    | Persist(b: BlobId, channel: nat, messageSeq: nat)
    | Land(b: BlobId)
    | FailOne(b: BlobId, t: TrackId)
    | Finalize(t: TrackId)
    | FinalizeError(t: TrackId)
    | Crash(p: Owner)
    | Tick(later: Time)
    | Condemn(b: BlobId)
    | DeleteMessage(b: BlobId)
    | DeleteRow(b: BlobId)

  // ---- filesystem transactions ------------------------------------------------------------------

  ghost predicate FreeKey(w: World, u: UserId, p: string) {
    Key(u, p) !in Keys(w.nodes)
  }

  ghost predicate CanAdd(w: World, u: UserId, p: string, parent: NodeId) {
    && IsPath(p) && p != "/" && FreeKey(w, u, p)
    && parent in w.nodes && w.nodes[parent].isDir && KeyOf(w.nodes[parent]) == Key(u, Paths.Dir(p))
  }

  function Added(w: World, nd: Node): World {
    w.(nodes := w.nodes[w.nextNode := nd], nextNode := w.nextNode + 1)
  }

  ghost predicate HasLiveTrack(w: World, n: NodeId) {
    exists t :: t in w.tracks && Live(w.tracks[t]) && w.tracks[t].node == n
  }

  predicate IsWriting(w: World, n: NodeId) {
    n in w.nodes && !w.nodes[n].isDir && w.nodes[n].state.Writing?
  }

  /** Replacing the nodes table, with refcounts following the extents. */
  ghost function WithNodes(w: World, nodes': Nodes): World {
    w.(nodes := nodes', blobs := Settle(w.blobs, w.nodes, nodes'))
  }

  // ---- blob states ------------------------------------------------------------------------------

  function Evicted(blob: Blob, channel: nat, minSeq: nat): Blob {
    if blob.channel == channel && blob.messageSeq < minSeq && !blob.state.PermUnavailable?
    then blob.(state := Unavailable) else blob
  }

  function Downed(blob: Blob, channel: nat): Blob {
    if blob.channel == channel && !blob.state.PermUnavailable? then blob.(state := Unavailable) else blob
  }

  function Upped(blob: Blob, channel: nat): Blob {
    if blob.channel == channel && blob.state.Unavailable? then blob.(state := StoredBlob) else blob
  }

  // ---- the packer -------------------------------------------------------------------------------

  predicate LeaseFree(nd: Node, now: Time) {
    nd.leaseUntil.None? || nd.leaseUntil.value < now
  }

  function WalOf(w: World, n: NodeId): seq<Bytes> {
    if n in w.nodes then w.nodes[n].wal else []
  }

  function BufOf(w: World, p: Owner): Bytes {
    if p in w.bufs then w.bufs[p] else []
  }

  function WithTrack(w: World, t: TrackId, tr: Track): World {
    w.(tracks := w.tracks[t := tr])
  }

  predicate At(w: World, b: BlobId, s: JobStage) {
    b in w.jobs && w.jobs[b].stage == s
  }

  function WithStage(w: World, b: BlobId, s: JobStage): World
    requires b in w.jobs
  {
    w.(jobs := w.jobs[b := w.jobs[b].(stage := s)])
  }

  /** MarkStoredIfOwner: still buffered and still leased by this packer. */
  predicate Owned(w: World, tr: Track) {
    && tr.node in w.nodes && !w.nodes[tr.node].isDir
    && w.nodes[tr.node].state.Buffered? && w.nodes[tr.node].leaseOwner == Some(tr.packer)
  }

  /** extents.blob_id references blobs: an insert naming a missing row fails and the transaction rolls back. */
  predicate RowsExist(w: World, ex: seq<Extent>) {
    forall i :: 0 <= i < |ex| ==> ex[i].blob in w.blobs
  }

  ghost function DoFinalize(w: World, t: TrackId): World
    requires t in w.tracks
  {
    var tr := w.tracks[t];
    var w1 := WithTrack(w, t, tr.(done := true));
    if Owned(w, tr) && RowsExist(w, tr.extents)
    then WithNodes(w1, w.nodes[tr.node := StoredNode(w.nodes[tr.node], tr.extents)])
    else w1
  }

  function DoStoreEmpty(w: World, t: TrackId): World
    requires t in w.tracks
  {
    var tr := w.tracks[t];
    var w1 := WithTrack(w, t, tr.(done := true));
    if Owned(w, tr) then w1.(nodes := w.nodes[tr.node := StoredNode(w.nodes[tr.node], w.nodes[tr.node].extents)])
    else w1
  }

  function DoSplitEmit(w: World, t: TrackId, b: BlobId, n: nat): World
    requires t in w.tracks
  {
    var tr := w.tracks[t];
    var piece := ReadRange(WalOf(w, tr.node), Covered(tr.extents), n);
    w.(data := w.data[b := piece],
       tracks := w.tracks[t := EmitPiece(tr, b, |piece|)],
       jobs := w.jobs[b := Job(tr.packer, {t}, Staged)])
  }

  function DoPackSmall(w: World, t: TrackId): World
    requires t in w.tracks
  {
    var tr := w.tracks[t];
    var piece := ReadRange(WalOf(w, tr.node), 0, tr.size);
    var buf := BufOf(w, tr.packer);
    w.(tracks := w.tracks[t := tr.(stage := InRun(|buf|, |piece|))],
       bufs := w.bufs[tr.packer := buf + piece])
  }

  ghost function DoSeal(w: World, p: Owner, b: BlobId): World {
    w.(data := w.data[b := BufOf(w, p)],
       tracks := Sealed(w.tracks, p, b),
       jobs := w.jobs[b := Job(p, RunOf(w.tracks, p), Staged)],
       bufs := w.bufs[p := []])
  }

  function DoPersist(w: World, b: BlobId, channel: nat, messageSeq: nat): World
    requires b in w.jobs && b in w.data
  {
    WithStage(w, b, Persisted).(
      blobs := w.blobs[b := Blob(channel, messageSeq, |w.data[b]|, StoredBlob, 0, w.now)])
  }

  ghost function DoCrash(w: World, p: Owner): World {
    w.(tracks := map t | t in w.tracks && w.tracks[t].packer != p :: w.tracks[t],
       jobs := map b | b in w.jobs && w.jobs[b].packer != p :: w.jobs[b],
       bufs := w.bufs[p := []])
  }

  // ---- the reaper and the clock -----------------------------------------------------------------

  /** A live track's persisted blob is never older than the grace period: the assumption that a track
      finalizes or fails within it. */
  ghost predicate InGrace(w: World, now: Time) {
    forall t, b :: t in w.tracks && Live(w.tracks[t]) && Names(w.tracks[t].extents, b) && b in w.blobs ==>
      now <= w.blobs[b].createdAt + GRACE
  }

  predicate Collectable(w: World, b: BlobId) {
    && b in w.blobs && w.blobs[b].state.StoredBlob? && w.blobs[b].refcount <= 0
    && w.blobs[b].createdAt + GRACE < w.now
  }

  // ---- when a step may happen, and what it does -------------------------------------------------

  ghost predicate Can(w: World, s: Step) {
    match s
    case MakeRoot(u) => FreeKey(w, u, "/")
    case Mkdir(u, p, parent) => CanAdd(w, u, p, parent)
    case Create(u, p, parent) => CanAdd(w, u, p, parent)
    case Truncate(n) => n in w.nodes && !w.nodes[n].isDir && !HasLiveTrack(w, n)
    case Append(n, chunk) => IsWriting(w, n) && AllFull(w.nodes[n].wal) && 0 < |chunk| <= CHUNK
    case Close(n) => IsWriting(w, n)
    case CloseFail(n) => IsWriting(w, n)
    case Remove(u, p) => IsPath(p) && p != "/" && Key(u, p) in Keys(w.nodes)
    case Rename(u, s, d, top, parent) => Relocatable(w.nodes, u, s, d, top, parent)
    case Copy(u, s, d, top, parent, recursive, m, after, next) =>
      && Relocatable(w.nodes, u, s, d, top, parent)
      && CopiedTree(RemoveTree(w.nodes, u, d), after, u, s, d, top, parent, recursive, m)
      && w.nextNode <= next && forall x :: x in m ==> w.nextNode <= m[x] < next
    case PermGone(b) => b in w.blobs
    case Claim(p, n, t) =>
      n in w.nodes && !w.nodes[n].isDir && w.nodes[n].state.Buffered? && LeaseFree(w.nodes[n], w.now) && t !in w.tracks
    case Release(n) => n in w.nodes
    case StoreEmpty(t) => t in w.tracks && w.tracks[t].stage.Claimed? && Live(w.tracks[t]) && w.tracks[t].size == 0
    case Abandon(t) =>
      t in w.tracks && !w.tracks[t].done && (w.tracks[t].stage.Claimed? || w.tracks[t].stage.Splitting?)
    case SplitStart(t) => t in w.tracks && w.tracks[t].stage.Claimed? && !w.tracks[t].done && w.tracks[t].size > 0
    case SplitEmit(t, b, n) =>
      && t in w.tracks && w.tracks[t].stage.Splitting? && b !in w.data && b !in w.jobs
      && 0 < n <= w.tracks[t].size - Covered(w.tracks[t].extents)
    case SplitDone(t) =>
      t in w.tracks && w.tracks[t].stage.Splitting? && Covered(w.tracks[t].extents) >= w.tracks[t].size
    case PackSmall(t) => t in w.tracks && w.tracks[t].stage.Claimed? && !w.tracks[t].done && w.tracks[t].size > 0
    case Seal(p, b) => BufOf(w, p) != [] && b !in w.data && b !in w.jobs
    case Send(b) => At(w, b, Staged)
    case Take(b) => At(w, b, Queued)
    case Upload(b) => At(w, b, Uploading)
    case UploadFail(b) => At(w, b, Uploading) || At(w, b, Uploaded)
    case Persist(b, channel, messageSeq) => At(w, b, Uploaded) && b !in w.blobs && b in w.data
    case Land(b) => At(w, b, Persisted)
    case FailOne(b, t) => b in w.jobs && w.jobs[b].stage.Failing? && t in w.jobs[b].stage.rest && t in w.tracks
    case Finalize(t) => t in w.tracks && w.tracks[t].calls > 0 && !w.tracks[t].done
    case FinalizeError(t) => t in w.tracks && w.tracks[t].calls > 0 && !w.tracks[t].done
    case Tick(later) => w.now <= later && InGrace(w, later)
    case Condemn(b) => Collectable(w, b)
    case DeleteMessage(b) => b in w.condemned
    case DeleteRow(b) => b in w.condemned && b in w.blobs && !Named(w.nodes, b)
    case _ => true
  }

  ghost function Do(w: World, s: Step): World
    requires Can(w, s)
  {
    match s
    case MakeRoot(u) => Added(w, RootNode(u))
    case Mkdir(u, p, parent) => Added(w, DirNode(u, p, parent))
    case Create(u, p, parent) => Added(w, FileNode(u, p, parent))
    case Truncate(n) => WithNodes(w, w.nodes[n := Truncated(w.nodes[n])])
    case Append(n, chunk) => w.(nodes := w.nodes[n := w.nodes[n].(wal := w.nodes[n].wal + [chunk])])
    case Close(n) => w.(nodes := w.nodes[n := Closed(w.nodes[n])])
    case CloseFail(n) => w.(nodes := w.nodes - {n})
    case Remove(u, p) => WithNodes(w, RemoveTree(w.nodes, u, p))
    case Rename(u, s, d, top, parent) => WithNodes(w, RenameTree(w.nodes, u, s, d, top, parent))
    case Copy(u, s, d, top, parent, recursive, m, after, next) => WithNodes(w, after).(nextNode := next)
    case PermGone(b) =>
      w.(nodes := WithoutSole(w.nodes, b), blobs := w.blobs[b := w.blobs[b].(state := PermUnavailable)])
    case Evict(channel, minSeq) => w.(blobs := map b | b in w.blobs :: Evicted(w.blobs[b], channel, minSeq))
    case ChannelDown(channel) => w.(blobs := map b | b in w.blobs :: Downed(w.blobs[b], channel))
    case ChannelUp(channel) => w.(blobs := map b | b in w.blobs :: Upped(w.blobs[b], channel))
    case Lose(b) => w.(messages := w.messages - {b}, lost := w.lost + {b})
    case Claim(p, n, t) =>
      WithTrack(w, t, NewTrack(p, n, w.nodes[n].size)).(
        nodes := w.nodes[n := w.nodes[n].(leaseOwner := Some(p), leaseUntil := Some(w.now + LEASE))])
    case Release(n) => w.(nodes := w.nodes[n := w.nodes[n].(leaseOwner := None, leaseUntil := None)])
    case StoreEmpty(t) => DoStoreEmpty(w, t)
    case Abandon(t) => WithTrack(w, t, DropTrack(w.tracks[t]))
    case SplitStart(t) => WithTrack(w, t, w.tracks[t].(stage := Splitting))
    case SplitEmit(t, b, n) => DoSplitEmit(w, t, b, n)
    case SplitDone(t) => WithTrack(w, t, PlanTrack(w.tracks[t]))
    case PackSmall(t) => DoPackSmall(w, t)
    case Seal(p, b) => DoSeal(w, p, b)
    case SealFail(p) => w.(tracks := SealDropped(w.tracks, p), bufs := w.bufs[p := []])
    case SealDone(p) => w.(tracks := PlannedAll(w.tracks, p))
    case Send(b) => WithStage(w, b, Queued)
    case Take(b) => WithStage(w, b, Uploading)
    case Upload(b) => WithStage(w, b, Uploaded).(messages := w.messages + {b})
    case UploadFail(b) =>
      WithStage(w, b, Failing(w.jobs[b].tracks)).(tracks := DoomedAll(w.tracks, w.jobs[b].tracks))
    case Persist(b, channel, messageSeq) => DoPersist(w, b, channel, messageSeq)
    case Land(b) => WithStage(w, b, Landed).(tracks := LandedAll(w.tracks, w.jobs[b].tracks))
    case FailOne(b, t) =>
      WithStage(w, b, Failing(w.jobs[b].stage.rest - {t})).(tracks := w.tracks[t := FailTrack(w.tracks[t])])
    case Finalize(t) => DoFinalize(w, t)
    case FinalizeError(t) => WithTrack(w, t, w.tracks[t].(done := true))
    case Crash(p) => DoCrash(w, p)
    case Tick(later) => w.(now := later)
    case Condemn(b) => w.(condemned := w.condemned + {b})
    case DeleteMessage(b) => w.(messages := w.messages - {b})
    case DeleteRow(b) => w.(blobs := w.blobs - {b}, condemned := w.condemned - {b})
  }

  function Empty(): World {
    World(map[], map[], 0, map[], map[], map[], map[], {}, {}, {}, 0)
  }
}
