/** A concrete run: a file is written, packed, uploaded and about to be finalized. The assumptions of the other
    modules are met by a real run, and its states are those that need the guards: a client overwrites the file while
    it is being uploaded or about to be finalized, or the finalize comes later than the reaper's grace. */
module Scenario {
  import opened Base
  import opened Paths
  import opened Wal
  import opened Extents
  import opened Tables
  import opened Tree
  import opened Packer
  import opened World
  import opened Invariant
  import opened Runs
  import opened Fates
  import opened Guarantees
  import opened Grace
  import opened Overwrite
  import S = Splitting

  /** File 1 and what the packer holds of it. */
  ghost predicate Snap(w: World, nd: Node, tracks: Tracks, jobs: Jobs, buf: Bytes, data: Data, blobs: Blobs) {
    && 1 in w.nodes && w.nodes[1] == nd && w.tracks == tracks && w.jobs == jobs && BufOf(w, 0) == buf
    && w.data == data && w.blobs == blobs && w.now == 0 && w.lost == {} && w.condemned == {}
  }

  predicate Small(c: Bytes) {
    0 < |c| <= CHUNK
  }

  function FileAt(state: NodeState, size: nat, owner: Option<Owner>, c: Bytes): Node {
    Node(0, Some(0), "f", "/f", false, size, state, owner, if owner.None? then None else Some(LEASE),
         if c == [] then [] else [c], [])
  }

  function TrackAt(c: Bytes, stage: Stage, remaining: int, ex: seq<Extent>, calls: nat): Track {
    Track(0, 1, |c|, stage, remaining, false, false, ex, calls, false)
  }

  function Whole(c: Bytes): seq<Extent> {
    [Extent(0, 0, |c|, 0, 0)]
  }

  lemma {:induction false} ExtendRun(ws: seq<World>, steps: seq<Step>, s: Step)
    requires IsRun(ws, steps) && Can(ws[|steps|], s)
    ensures IsRun(ws + [Do(ws[|steps|], s)], steps + [s])
  {
    hide Can, Do;
  }

  // ---- PUT ----------------------------------------------------------------------------------------

  lemma {:induction false} RootMade()
    ensures Can(Empty(), MakeRoot(0)) && Do(Empty(), MakeRoot(0)) == Added(Empty(), RootNode(0))
  {
    hide RootNode;
  }

  lemma {:induction false} Created(w: World)
    requires w == Added(Empty(), RootNode(0))
    ensures Can(w, Create(0, "/f", 0))
    ensures Snap(Do(w, Create(0, "/f", 0)), FileAt(Writing, 0, None, []), map[], map[], [], map[], map[])
  {
    assert Child("/", "f") == "/f" && IsPath("/") && IsName("f");
    ChildIsPath("/", "f");
    hide Paths.Dir, BaseName, LastSlash;
    assert w.nodes.Keys == {0} && KeyOf(w.nodes[0]) == Key(0, "/");
    assert Keys(w.nodes) == {Key(0, "/")};
  }

  lemma {:induction false} Written(w: World, c: Bytes)
    requires Small(c) && Snap(w, FileAt(Writing, 0, None, []), map[], map[], [], map[], map[])
    ensures Can(w, Append(1, c))
    ensures Snap(Do(w, Append(1, c)), FileAt(Writing, 0, None, c), map[], map[], [], map[], map[])
  {
  }

  lemma {:induction false} ClosedFile(w: World, c: Bytes)
    requires Small(c) && Snap(w, FileAt(Writing, 0, None, c), map[], map[], [], map[], map[])
    ensures Can(w, Close(1))
    ensures Snap(Do(w, Close(1)), FileAt(Buffered, |c|, None, c), map[], map[], [], map[], map[])
  {
    FlattenOne(c);
  }

  // ---- the packer ---------------------------------------------------------------------------------

  lemma {:induction false} Claimed(w: World, c: Bytes)
    requires Small(c) && Snap(w, FileAt(Buffered, |c|, None, c), map[], map[], [], map[], map[])
    ensures Can(w, Claim(0, 1, 0))
    ensures Snap(Do(w, Claim(0, 1, 0)), FileAt(Buffered, |c|, Some(0), c),
        map[0 := TrackAt(c, Stage.Claimed, 0, [], 0)],
                 map[], [], map[], map[])
  {
  }

  lemma {:induction false} OneChunk(c: Bytes)
    requires Small(c)
    ensures ReadRange([c], 0, |c|) == c
  {
    FlattenOne(c);
    assert Disciplined([c]);
    hide Flatten, ReadRange;
    ReadRangeIsSlice([c], 0, |c|);
    assert c[0..|c|] == c;
  }

  lemma {:induction false} Packed(w: World, c: Bytes)
    requires Small(c)
    requires Snap(w, FileAt(Buffered, |c|, Some(0), c), map[0 := TrackAt(c, Stage.Claimed, 0, [], 0)], map[], [], map[],
        map[])
    ensures Can(w, PackSmall(0))
    ensures Snap(Do(w, PackSmall(0)), FileAt(Buffered, |c|, Some(0), c),
                 map[0 := TrackAt(c, InRun(0, |c|), 0, [], 0)], map[], c, map[], map[])
  {
    OneChunk(c);
    assert WalOf(w, 1) == [c] && w.tracks[0].node == 1 && w.tracks[0].size == |c| && w.tracks[0].packer == 0;
    hide Flatten, ReadRange;
    assert BufOf(w, 0) + ReadRange(WalOf(w, 1), 0, |c|) == c;
    var w' := DoPackSmall(w, 0);
    assert w'.tracks == map[0 := TrackAt(c, InRun(0, |c|), 0, [], 0)];
    assert BufOf(w', 0) == c;
  }

  lemma {:induction false} SealedBlob(w: World, c: Bytes)
    requires Small(c)
    requires Snap(w, FileAt(Buffered, |c|, Some(0), c), map[0 := TrackAt(c, InRun(0, |c|), 0, [], 0)], map[], c, map[],
        map[])
    ensures Can(w, Seal(0, 0))
    ensures Snap(Do(w, Seal(0, 0)), FileAt(Buffered, |c|, Some(0), c),
                 map[0 := TrackAt(c, Sealing, 1, Whole(c), 0)], map[0 := Job(0, {0}, Staged)], [], map[0 := c], map[])
  {
    assert RunOf(w.tracks, 0) == {0};
    assert [] + Whole(c) == Whole(c);
    assert SealTrack(w.tracks[0], 0) == TrackAt(c, Sealing, 1, Whole(c), 0);
    assert Sealed(w.tracks, 0, 0) == map[0 := TrackAt(c, Sealing, 1, Whole(c), 0)];
  }

  lemma {:induction false} PlannedFile(w: World, c: Bytes, job: Job)
    requires Small(c)
    requires Snap(w, FileAt(Buffered, |c|, Some(0), c), map[0 := TrackAt(c, Sealing, 1, Whole(c), 0)],
                  map[0 := job], [], map[0 := c], map[])
    ensures Can(w, SealDone(0))
    ensures Snap(Do(w, SealDone(0)), FileAt(Buffered, |c|, Some(0), c),
                 map[0 := TrackAt(c, Planned, 1, Whole(c), 0)], map[0 := job], [], map[0 := c], map[])
  {
    assert SealingOf(w.tracks, 0) == {0};
  }

  // ---- the worker ---------------------------------------------------------------------------------

  lemma {:induction false} Moved(w: World, c: Bytes, s: Step, from: JobStage, to: JobStage)
    requires Small(c)
    requires Snap(w, FileAt(Buffered, |c|, Some(0), c), map[0 := TrackAt(c, Planned, 1, Whole(c), 0)],
                  map[0 := Job(0, {0}, from)], [], map[0 := c], map[])
    requires (s == Send(0) && from == Staged && to == Queued) || (s == Take(0) && from == Queued && to == Uploading)
             || (s == Upload(0) && from == Uploading && to == Uploaded)
    ensures Can(w, s)
    ensures Snap(Do(w, s), FileAt(Buffered, |c|, Some(0), c), map[0 := TrackAt(c, Planned, 1, Whole(c), 0)],
                 map[0 := Job(0, {0}, to)], [], map[0 := c], map[])
  {
  }

  lemma {:induction false} PersistedBlob(w: World, c: Bytes)
    requires Small(c)
    requires Snap(w, FileAt(Buffered, |c|, Some(0), c), map[0 := TrackAt(c, Planned, 1, Whole(c), 0)],
                  map[0 := Job(0, {0}, Uploaded)], [], map[0 := c], map[])
    ensures Can(w, Persist(0, 0, 0))
    ensures Snap(Do(w, Persist(0, 0, 0)), FileAt(Buffered, |c|, Some(0), c),
        map[0 := TrackAt(c, Planned, 1, Whole(c), 0)],
                 map[0 := Job(0, {0}, Persisted)], [], map[0 := c], map[0 := Blob(0, 0, |c|, StoredBlob, 0, 0)])
  {
  }

  lemma {:induction false} LandedBlob(w: World, c: Bytes)
    requires Small(c)
    requires Snap(w, FileAt(Buffered, |c|, Some(0), c), map[0 := TrackAt(c, Planned, 1, Whole(c), 0)],
                  map[0 := Job(0, {0}, Persisted)], [], map[0 := c], map[0 := Blob(0, 0, |c|, StoredBlob, 0, 0)])
    ensures Can(w, Land(0))
    ensures Snap(Do(w, Land(0)), FileAt(Buffered, |c|, Some(0), c), map[0 := TrackAt(c, Planned, 0, Whole(c), 1)],
                 map[0 := Job(0, {0}, Landed)], [], map[0 := c], map[0 := Blob(0, 0, |c|, StoredBlob, 0, 0)])
  {
  }

  // ---- the run ------------------------------------------------------------------------------------

  /** The PUT: the run up to the file's Close. */
  lemma {:induction false} Put(c: Bytes) returns (ws: seq<World>, steps: seq<Step>)
    requires Small(c)
    ensures IsRun(ws, steps) && ws[0] == Empty()
    ensures Snap(ws[|steps|], FileAt(Buffered, |c|, None, c), map[], map[], [], map[], map[])
  {
    hide Can, Do, Snap, FileAt, Small, Added;
    RootMade();
    var w0 := Empty();
    ws, steps := [w0], [];
    ExtendRun(ws, steps, MakeRoot(0));
    var w1 := Do(w0, MakeRoot(0));
    ws, steps := ws + [w1], steps + [MakeRoot(0)];
    Created(w1);
    ExtendRun(ws, steps, Create(0, "/f", 0));
    var w2 := Do(w1, Create(0, "/f", 0));
    ws, steps := ws + [w2], steps + [Create(0, "/f", 0)];
    Written(w2, c);
    ExtendRun(ws, steps, Append(1, c));
    var w3 := Do(w2, Append(1, c));
    ws, steps := ws + [w3], steps + [Append(1, c)];
    ClosedFile(w3, c);
    ExtendRun(ws, steps, Close(1));
    ws, steps := ws + [Do(w3, Close(1))], steps + [Close(1)];
  }

  /** The builder: claimed, packed, sealed, planned. */
  lemma {:induction false} Build(ws0: seq<World>, steps0: seq<Step>, c: Bytes)
    returns (ws: seq<World>, steps: seq<Step>)
    requires Small(c) && IsRun(ws0, steps0)
    requires Snap(ws0[|steps0|], FileAt(Buffered, |c|, None, c), map[], map[], [], map[], map[])
    ensures IsRun(ws, steps) && ws[0] == ws0[0]
    ensures Snap(ws[|steps|], FileAt(Buffered, |c|, Some(0), c), map[0 := TrackAt(c, Planned, 1, Whole(c), 0)],
                 map[0 := Job(0, {0}, Staged)], [], map[0 := c], map[])
  {
    hide Can, Do, Snap, FileAt, TrackAt, Small;
    ws, steps := ws0, steps0;
    var w := ws[|steps|];
    Claimed(w, c);
    ExtendRun(ws, steps, Claim(0, 1, 0));
    var w1 := Do(w, Claim(0, 1, 0));
    ws, steps := ws + [w1], steps + [Claim(0, 1, 0)];
    Packed(w1, c);
    ExtendRun(ws, steps, PackSmall(0));
    var w2 := Do(w1, PackSmall(0));
    ws, steps := ws + [w2], steps + [PackSmall(0)];
    SealedBlob(w2, c);
    ExtendRun(ws, steps, Seal(0, 0));
    var w3 := Do(w2, Seal(0, 0));
    ws, steps := ws + [w3], steps + [Seal(0, 0)];
    PlannedFile(w3, c, Job(0, {0}, Staged));
    ExtendRun(ws, steps, SealDone(0));
    ws, steps := ws + [Do(w3, SealDone(0))], steps + [SealDone(0)];
  }

  /** The worker: sent, taken, uploaded, persisted, landed. Finalize is decided and has not run. */
  lemma {:induction false} Work(ws0: seq<World>, steps0: seq<Step>, c: Bytes) returns (ws: seq<World>, steps: seq<Step>)
    requires Small(c) && IsRun(ws0, steps0)
    requires Snap(ws0[|steps0|], FileAt(Buffered, |c|, Some(0), c), map[0 := TrackAt(c, Planned, 1, Whole(c), 0)],
                  map[0 := Job(0, {0}, Staged)], [], map[0 := c], map[])
    ensures IsRun(ws, steps) && ws[0] == ws0[0]
    ensures Snap(ws[|steps|], FileAt(Buffered, |c|, Some(0), c), map[0 := TrackAt(c, Planned, 0, Whole(c), 1)],
                 map[0 := Job(0, {0}, Landed)], [], map[0 := c], map[0 := Blob(0, 0, |c|, StoredBlob, 0, 0)])
  {
    hide Can, Do, Snap, FileAt, TrackAt, Small;
    ws, steps := ws0, steps0;
    var w := ws[|steps|];
    Moved(w, c, Send(0), Staged, Queued);
    ExtendRun(ws, steps, Send(0));
    var w1 := Do(w, Send(0));
    ws, steps := ws + [w1], steps + [Send(0)];
    Moved(w1, c, Take(0), Queued, Uploading);
    ExtendRun(ws, steps, Take(0));
    var w2 := Do(w1, Take(0));
    ws, steps := ws + [w2], steps + [Take(0)];
    Moved(w2, c, Upload(0), Uploading, Uploaded);
    ExtendRun(ws, steps, Upload(0));
    var w3 := Do(w2, Upload(0));
    ws, steps := ws + [w3], steps + [Upload(0)];
    PersistedBlob(w3, c);
    ExtendRun(ws, steps, Persist(0, 0, 0));
    var w4 := Do(w3, Persist(0, 0, 0));
    ws, steps := ws + [w4], steps + [Persist(0, 0, 0)];
    LandedBlob(w4, c);
    ExtendRun(ws, steps, Land(0));
    ws, steps := ws + [Do(w4, Land(0))], steps + [Land(0)];
  }

  /** A reachable state in which an overwrite, unguarded as it is, is undone: the client has replaced c by d and
      closed the file, then the packer's pending finalize commits, and the file reads c again. */
  lemma {:induction false} OverwriteUndone(c: Bytes, d: Bytes) returns (ws: seq<World>, steps: seq<Step>)
    requires Small(c) && Small(d)
    ensures IsRun(ws, steps) && ws[0] == Empty()
    ensures var w := ws[|steps|];
      && 1 in w.nodes && FinalizePending(w, 1, 0)
      && var over := Overwritten(w, 1, [d]);
      && over.nodes[1].state.Buffered? && Flatten(over.nodes[1].wal) == d
      && var nd := DoFinalize(over, 0).nodes[1];
      && nd.state.Stored? && Mapped(nd.extents, w.data) && Assemble(nd.extents, w.data) == c
  {
    hide Inv, Can, Do, DoFinalize, Overwritten, Flatten, Assemble, Snap, FileAt, TrackAt, Small, FinalizePending,
      Mapped;
    ws, steps := Put(c);
    ws, steps := Build(ws, steps, c);
    ws, steps := Work(ws, steps, c);
    InitInv();
    RunInv(ws, steps, |steps|);
    Undone(ws[|steps|], c, d);
  }

  lemma {:induction false} Undone(w: World, c: Bytes, d: Bytes)
    requires Small(c) && Small(d) && Inv(w)
    requires Snap(w, FileAt(Buffered, |c|, Some(0), c), map[0 := TrackAt(c, Planned, 0, Whole(c), 1)],
                  map[0 := Job(0, {0}, Landed)], [], map[0 := c], map[0 := Blob(0, 0, |c|, StoredBlob, 0, 0)])
    ensures 1 in w.nodes && FinalizePending(w, 1, 0)
    ensures var over := Overwritten(w, 1, [d]);
      && over.nodes[1].state.Buffered? && Flatten(over.nodes[1].wal) == d
      && var nd := DoFinalize(over, 0).nodes[1];
      && nd.state.Stored? && Mapped(nd.extents, w.data) && Assemble(nd.extents, w.data) == c
  {
    FlattenOne(c);
    FlattenOne(d);
    NodeOf(w, 1);
    assert w.nodes[1].wal == [c] && c[..|c|] == c && Content(w.nodes[1], w.data) == c;
    hide Inv, DoFinalize, Overwritten, Flatten, Assemble, NodeOk, Content;
    OverwrittenIs(w, 1, [d]);
    StaleFinalize(w, 1, [d], 0);
  }

  // ---- overwritten while still uploading ------------------------------------------------------------

  lemma {:induction false} StillUploading(w: World, c: Bytes)
    requires Small(c) && Inv(w)
    requires Snap(w, FileAt(Buffered, |c|, Some(0), c), map[0 := TrackAt(c, Planned, 1, Whole(c), 0)],
                  map[0 := Job(0, {0}, Staged)], [], map[0 := c], map[])
    ensures 1 in w.nodes && 0 in w.tracks && Live(w.tracks[0]) && w.tracks[0].node == 1 && HasLiveTrack(w, 1)
    ensures w.tracks[0].stage.Planned? && w.nodes[1].state.Buffered? && !w.nodes[1].isDir
        && Flatten(w.nodes[1].wal) == c
    ensures forall t :: !FinalizePending(w, 1, t)
  {
    FlattenOne(c);
  }

  lemma {:induction false} OneChunkOk(d: Bytes)
    requires Small(d)
    ensures Disciplined([d]) && Flatten([d]) == d
  {
    FlattenOne(d);
  }

  /** A reachable state in which no finalize is decided yet, and still an overwrite is undone: the client has replaced
      c by d and closed the file, and a run of the packer alone brings c back. */
  lemma {:induction false} UploadUndone(c: Bytes, d: Bytes) returns (ws: seq<World>, steps: seq<Step>, w': World)
    requires Small(c) && Small(d)
    ensures IsRun(ws, steps) && ws[0] == Empty()
    ensures var w := ws[|steps|];
      && 1 in w.nodes && w.nodes[1].state.Buffered? && Flatten(w.nodes[1].wal) == c
      && (forall t :: !FinalizePending(w, 1, t)) && !OverwriteSafe(w, 1)
      && Leads(Overwritten(w, 1, [d]), w', 1)
      && 1 in w'.nodes && w'.nodes[1].state.Stored?
      && Mapped(w'.nodes[1].extents, w'.data) && Assemble(w'.nodes[1].extents, w'.data) == c
  {
    hide Inv, Can, Do, Overwritten, Flatten, Assemble, Snap, FileAt, TrackAt, Small, FinalizePending, Mapped, Leads,
      OverwriteSafe, Disciplined, Live;
    ws, steps := Put(c);
    ws, steps := Build(ws, steps, c);
    var w := ws[|steps|];
    ReachInv(ws, steps, |steps|);
    StillUploading(w, c);
    OneChunkOk(d);
    OverwriteRule(w, 1);
    w' := OldBytesReturn(w, 1, 0, [d]);
  }

  lemma {:induction false} CrashIs(w: World, c: Bytes)
    requires Small(c)
    requires Snap(w, FileAt(Buffered, |c|, Some(0), c), map[0 := TrackAt(c, Planned, 1, Whole(c), 0)],
                  map[0 := Job(0, {0}, Staged)], [], map[0 := c], map[])
    ensures Can(w, Crash(0)) && Do(w, Crash(0)).nodes == w.nodes && Do(w, Crash(0)).blobs == w.blobs
    ensures !HasLiveTrack(Do(w, Crash(0)), 1)
  {
  }

  /** The tables do not tell: two reachable states have the same nodes and blobs, and the same lease on file 1, yet an
      overwrite is safe in one, where the packer has crashed, and not in the other. The tables a PUT sees do not decide
      the rule. */
  lemma {:induction false} TablesDoNotTell(c: Bytes) returns (ws: seq<World>, steps: seq<Step>)
    requires Small(c)
    ensures IsRun(ws, steps) && ws[0] == Empty() && Can(ws[|steps|], Crash(0))
    ensures var w, crashed := ws[|steps|], Do(ws[|steps|], Crash(0));
      && crashed.nodes == w.nodes && crashed.blobs == w.blobs && 1 in w.nodes
      && !OverwriteSafe(w, 1) && OverwriteSafe(crashed, 1)
  {
    hide Inv, Can, Do, Flatten, Snap, FileAt, TrackAt, Small, FinalizePending, OverwriteSafe, Live;
    ws, steps := Put(c);
    ws, steps := Build(ws, steps, c);
    var w := ws[|steps|];
    ReachInv(ws, steps, |steps|);
    StillUploading(w, c);
    OverwriteRule(w, 1);
    CrashIs(w, c);
    StepInv(w, Crash(0));
    OverwriteRule(Do(w, Crash(0)), 1);
  }

  // ---- finalized too late -----------------------------------------------------------------------------

  lemma {:induction false} PendingFile(w: World, c: Bytes)
    requires Small(c) && Inv(w)
    requires Snap(w, FileAt(Buffered, |c|, Some(0), c), map[0 := TrackAt(c, Planned, 0, Whole(c), 1)],
                  map[0 := Job(0, {0}, Landed)], [], map[0 := c], map[0 := Blob(0, 0, |c|, StoredBlob, 0, 0)])
    ensures 0 in w.tracks && w.tracks[0].calls > 0 && !w.tracks[0].done && Owned(w, w.tracks[0])
    ensures Names(w.tracks[0].extents, 0) && 0 in w.messages && 0 in w.blobs
    ensures w.blobs[0].state.StoredBlob? && w.blobs[0].createdAt == 0 && !Named(w.nodes, 0)
  {
    assert Whole(c)[0].blob == 0;
    RefsNamed(w.nodes, 0);
    assert RefOk(w.blobs[0], Refs(w.nodes, 0));
    hide Refs;
  }

  /** A reachable state with a finalize decided whose blob is new: the reaper can make it commit a file without its
      message exactly when the clock has passed the grace period. */
  lemma {:induction false} GraceReached(c: Bytes, later: Time) returns (ws: seq<World>, steps: seq<Step>)
    requires Small(c)
    ensures IsRun(ws, steps) && ws[0] == Empty() && ws[|steps|].now == 0
    ensures CanLose(ws[|steps|].(now := later), 0, 0) <==> GRACE < later
  {
    hide Inv, Can, Do, Snap, FileAt, TrackAt, Small, CanLose, Owned, Names, Named;
    ws, steps := Put(c);
    ws, steps := Build(ws, steps, c);
    ws, steps := Work(ws, steps, c);
    var w := ws[|steps|];
    ReachInv(ws, steps, |steps|);
    PendingFile(w, c);
    SnapNow(w, FileAt(Buffered, |c|, Some(0), c), map[0 := TrackAt(c, Planned, 0, Whole(c), 1)],
            map[0 := Job(0, {0}, Landed)], [], map[0 := c], map[0 := Blob(0, 0, |c|, StoredBlob, 0, 0)]);
    LateFinalize(w, 0, 0, later);
  }

  lemma {:induction false} SnapNow(w: World, nd: Node, tracks: Tracks, jobs: Jobs, buf: Bytes, data: Data, blobs: Blobs)
    requires Snap(w, nd, tracks, jobs, buf, data, blobs)
    ensures w.now == 0
  {
  }

  // ---- split without a log ----------------------------------------------------------------------------

  lemma {:induction false} SplitStarted(w: World, c: Bytes)
    requires Small(c)
    requires Snap(w, FileAt(Buffered, |c|, Some(0), c), map[0 := TrackAt(c, Stage.Claimed, 0, [], 0)], map[], [],
                  map[], map[])
    ensures Can(w, SplitStart(0))
    ensures Snap(Do(w, SplitStart(0)), FileAt(Buffered, |c|, Some(0), c), map[0 := TrackAt(c, Splitting, 0, [], 0)],
                 map[], [], map[], map[])
  {
  }

  lemma {:induction false} FileRemoved(w: World, c: Bytes)
    requires Small(c)
    requires Snap(w, FileAt(Buffered, |c|, Some(0), c), map[0 := TrackAt(c, Splitting, 0, [], 0)], map[], [],
                  map[], map[])
    ensures Can(w, Remove(0, "/f"))
    ensures var w' := Do(w, Remove(0, "/f"));
      S.Stuck(w', 0) && w'.tracks[0].size == |c| && S.Off(w', 0) == 0 && S.LogOf(w', 0) == []
  {
    assert Child("/", "f") == "/f" && IsPath("/") && IsName("f");
    ChildIsPath("/", "f");
    assert KeyOf(w.nodes[1]) == Key(0, "/f");
    assert InSubtree(w.nodes[1], 0, "/f");
    FlattenNil();
    hide Settle, AtOrUnder, IsPath;
  }

  /** A reachable loop that is never left: a file is claimed, its split has begun, and the client deletes the file. For
      every k the loop turns k times and enqueues k empty blobs, and no state on the way lets it end. */
  lemma {:induction false} SplitStarved(c: Bytes, max: nat, k: nat)
    returns (ws: seq<World>, steps: seq<Step>, ws': seq<World>, steps': seq<Step>)
    requires Small(c) && max > 0
    ensures IsRun(ws, steps) && ws[0] == Empty()
    ensures |steps'| == k && S.LoopRun(ws', steps', 0, max) && ws'[0] == ws[|steps|] && S.AllEmpty(ws', steps')
    ensures forall i :: 0 <= i <= k ==> !Can(ws'[i], SplitDone(0))
  {
    hide Can, Do, Snap, FileAt, TrackAt, Small, S.Stuck, S.LoopRun, S.AllEmpty;
    ws, steps := Put(c);
    var w := ws[|steps|];
    Claimed(w, c);
    ExtendRun(ws, steps, Claim(0, 1, 0));
    var w1 := Do(w, Claim(0, 1, 0));
    ws, steps := ws + [w1], steps + [Claim(0, 1, 0)];
    SplitStarted(w1, c);
    ExtendRun(ws, steps, SplitStart(0));
    var w2 := Do(w1, SplitStart(0));
    ws, steps := ws + [w2], steps + [SplitStart(0)];
    FileRemoved(w2, c);
    ExtendRun(ws, steps, Remove(0, "/f"));
    var w3 := Do(w2, Remove(0, "/f"));
    ws, steps := ws + [w3], steps + [Remove(0, "/f")];
    FlattenNil();
    ws', steps' := S.TurnsForever(w3, 0, max, k);
  }
}
