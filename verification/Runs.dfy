/** The invariant over whole runs. */
module Runs {
  import opened Base
  import opened Paths
  import opened Wal
  import opened Extents
  import opened Tables
  import opened Tree
  import opened Packer
  import opened World
  import opened Invariant
  import opened Safety
  import opened DataPath
  import opened Lifecycle

  lemma {:induction false} AddStep(w: World, u: UserId, p: string, parent: NodeId)
    requires Inv(w) && CanAdd(w, u, p, parent)
    ensures Inv(Added(w, DirNode(u, p, parent))) && Inv(Added(w, FileNode(u, p, parent)))
  {
    DirBase(p);
    FlattenNil();
    hide Inv, Flatten, IsPath, IsName, Added, Paths.Dir, BaseName, LastSlash;
    AddNode(w, DirNode(u, p, parent));
    AddNode(w, FileNode(u, p, parent));
  }

  lemma {:induction false} RootStep(w: World, u: UserId)
    requires Inv(w) && FreeKey(w, u, "/")
    ensures Inv(Added(w, RootNode(u)))
  {
    hide Inv;
    AddNode(w, RootNode(u));
  }

  lemma {:induction false} AppendStep(w: World, n: NodeId, chunk: Bytes)
    requires Inv(w) && IsWriting(w, n) && AllFull(w.nodes[n].wal) && 0 < |chunk| <= CHUNK
    ensures Inv(w.(nodes := w.nodes[n := w.nodes[n].(wal := w.nodes[n].wal + [chunk])]))
  {
    NodeOf(w, n);
    RewriteNode(w, n, w.nodes[n].(wal := w.nodes[n].wal + [chunk]));
  }

  lemma {:induction false} CloseStep(w: World, n: NodeId)
    requires Inv(w) && IsWriting(w, n)
    ensures Inv(w.(nodes := w.nodes[n := Closed(w.nodes[n])]))
  {
    NodeOf(w, n);
    RewriteNode(w, n, Closed(w.nodes[n]));
  }

  predicate IsFs(s: Step) {
    s.MakeRoot? || s.Mkdir? || s.Create? || s.Truncate? || s.Append? || s.Close? || s.CloseFail? || s.Remove?
    || s.Rename? || s.Copy?
  }

  predicate IsRows(s: Step) {
    s.PermGone? || s.Evict? || s.ChannelDown? || s.ChannelUp? || s.Lose?
  }

  predicate IsReaper(s: Step) {
    s.Tick? || s.Condemn? || s.DeleteMessage? || s.DeleteRow?
  }

  predicate IsBuilder(s: Step) {
    s.Claim? || s.Release? || s.StoreEmpty? || s.Abandon? || s.SplitStart? || s.Crash?
  }

  predicate IsPlanner(s: Step) {
    s.SplitEmit? || s.SplitDone? || s.PackSmall? || s.Seal? || s.SealFail? || s.SealDone?
  }

  lemma {:induction false} FsInv(w: World, s: Step)
    requires Inv(w) && Can(w, s) && IsFs(s)
    ensures Inv(Do(w, s))
  {
    hide Inv, Relocatable, CopiedTree, RemoveTree, RenameTree, WithNodes, Added, DirNode, FileNode, CanAdd, Closed,
      Truncated, AllFull, Keys, HasLiveTrack, IsPath;
    match s
    case MakeRoot(u) => RootStep(w, u);
    case Mkdir(u, p, parent) => AddStep(w, u, p, parent);
    case Create(u, p, parent) => AddStep(w, u, p, parent);
    case Truncate(n) => TruncateNode(w, n);
    case Append(n, chunk) => AppendStep(w, n, chunk);
    case Close(n) => CloseStep(w, n);
    case CloseFail(n) => DropWriting(w, n);
    case Remove(u, p) => RemoveStep(w, u, p);
    case Rename(u, src, d, top, parent) => RenameStep(w, u, src, d, top, parent);
    case Copy(u, src, d, top, parent, recursive, m, after, next) =>
      CopyStep(w, u, src, d, top, parent, recursive, m, after, next);
  }

  lemma {:induction false} RowsInv(w: World, s: Step)
    requires Inv(w) && Can(w, s) && IsRows(s)
    ensures Inv(Do(w, s))
  {
    hide Inv, Named, Evicted, Downed, Upped, WithoutSole, InGrace, Collectable;
    match s
    case PermGone(b) => PermGoneStep(w, b);
    case Evict(channel, minSeq) => EvictStep(w, channel, minSeq);
    case ChannelDown(channel) => DownStep(w, channel);
    case ChannelUp(channel) => UpStep(w, channel);
    case Lose(b) => LoseStep(w, b);
  }

  lemma {:induction false} ReaperInv(w: World, s: Step)
    requires Inv(w) && Can(w, s) && IsReaper(s)
    ensures Inv(Do(w, s))
  {
    hide Inv, Named, InGrace, Collectable;
    match s
    case Tick(later) => TickStep(w, later);
    case Condemn(b) => CondemnStep(w, b);
    case DeleteMessage(b) => DeleteMessageStep(w, b);
    case DeleteRow(b) => DeleteRowStep(w, b);
  }

  lemma {:induction false} EvictStep(w: World, channel: nat, minSeq: nat)
    requires Inv(w)
    ensures Inv(w.(blobs := map b | b in w.blobs :: Evicted(w.blobs[b], channel, minSeq)))
  {
    hide Inv;
    StatesStep(w, map b | b in w.blobs :: Evicted(w.blobs[b], channel, minSeq));
  }

  lemma {:induction false} DownStep(w: World, channel: nat)
    requires Inv(w)
    ensures Inv(w.(blobs := map b | b in w.blobs :: Downed(w.blobs[b], channel)))
  {
    hide Inv;
    StatesStep(w, map b | b in w.blobs :: Downed(w.blobs[b], channel));
  }

  lemma {:induction false} UpStep(w: World, channel: nat)
    requires Inv(w)
    ensures Inv(w.(blobs := map b | b in w.blobs :: Upped(w.blobs[b], channel)))
  {
    hide Inv;
    StatesStep(w, map b | b in w.blobs :: Upped(w.blobs[b], channel));
  }

  lemma {:induction false} LoseStep(w: World, b: BlobId)
    requires Inv(w)
    ensures Inv(w.(messages := w.messages - {b}, lost := w.lost + {b}))
  {
    assert forall c :: c in w.jobs && w.jobs[c].stage.Uploaded? ==> c in w.messages + w.lost;
    hide Inv;
    MessageStep(w, w.messages - {b}, w.lost + {b});
  }

  lemma {:induction false} LeaseInv(w: World, s: Step)
    requires Inv(w) && Can(w, s) && (s.Claim? || s.Release? || s.StoreEmpty?)
    ensures Inv(Do(w, s))
  {
    hide Inv, DoStoreEmpty, NewTrack, WithTrack, Live, LeaseFree;
    match s
    case Claim(p, n, t) => ClaimStep(w, p, n, t);
    case Release(n) => ReleaseStep(w, n);
    case StoreEmpty(t) => StoreEmptyStep(w, t);
  }

  lemma {:induction false} BuilderInv(w: World, s: Step)
    requires Inv(w) && Can(w, s) && (s.Abandon? || s.SplitStart? || s.Crash?)
    ensures Inv(Do(w, s))
  {
    hide Inv, DoCrash, DropTrack, WithTrack;
    match s
    case Abandon(t) => AbandonStep(w, t);
    case SplitStart(t) => SplitStartStep(w, t);
    case Crash(p) => CrashStep(w, p);
  }

  lemma {:induction false} PlannerInv(w: World, s: Step)
    requires Inv(w) && Can(w, s) && IsPlanner(s)
    ensures Inv(Do(w, s))
  {
    hide Inv, DoSplitEmit, DoPackSmall, DoSeal, PlanTrack, SealDropped, PlannedAll, WithTrack, BufOf, Covered;
    match s
    case SplitEmit(t, b, n) => SplitEmitStep(w, t, b, n);
    case SplitDone(t) => SplitDoneStep(w, t);
    case PackSmall(t) => PackSmallStep(w, t);
    case Seal(p, b) => SealStep(w, p, b);
    case SealFail(p) => SealFailStep(w, p);
    case SealDone(p) => SealDoneStep(w, p);
  }

  lemma {:induction false} WorkerInv(w: World, s: Step)
    requires Inv(w) && Can(w, s) && !IsFs(s) && !IsRows(s) && !IsReaper(s) && !IsBuilder(s) && !IsPlanner(s)
    ensures Inv(Do(w, s))
  {
    hide Inv;
    match s
    case Send(b) => JobStep(w, b, Queued, w.messages);
    case Take(b) => JobStep(w, b, Uploading, w.messages);
    case Upload(b) => JobStep(w, b, Uploaded, w.messages + {b});
    case UploadFail(b) => UploadFailStep(w, b);
    case Persist(b, channel, messageSeq) => PersistStep(w, b, channel, messageSeq);
    case Land(b) => LandStep(w, b);
    case FailOne(b, t) => FailOneStep(w, b, t);
    case Finalize(t) => FinalizeStep(w, t);
    case FinalizeError(t) => DoneStep(w, t);
  }

  /** Every step, from every state that satisfies the invariant. */
  lemma {:induction false} StepInv(w: World, s: Step)
    requires Inv(w) && Can(w, s)
    ensures Inv(Do(w, s))
  {
    hide Inv, Can, Do;
    if IsFs(s) {
      FsInv(w, s);
    } else if IsRows(s) {
      RowsInv(w, s);
    } else if IsReaper(s) {
      ReaperInv(w, s);
    } else if s.Claim? || s.Release? || s.StoreEmpty? {
      LeaseInv(w, s);
    } else if IsBuilder(s) {
      BuilderInv(w, s);
    } else if IsPlanner(s) {
      PlannerInv(w, s);
    } else {
      WorkerInv(w, s);
    }
  }

  /** A run: each state follows from the one before by a step that may happen there. */
  ghost predicate IsRun(ws: seq<World>, steps: seq<Step>) {
    && |ws| == |steps| + 1
    && forall i :: 0 <= i < |steps| ==> Can(ws[i], steps[i]) && ws[i + 1] == Do(ws[i], steps[i])
  }

  lemma {:induction false} RunStep(ws: seq<World>, steps: seq<Step>, k: nat)
    requires IsRun(ws, steps) && k < |steps|
    ensures |ws| == |steps| + 1 && Can(ws[k], steps[k]) && ws[k + 1] == Do(ws[k], steps[k])
  {
    hide Can, Do;
  }

  lemma {:induction false} ReachInv(ws: seq<World>, steps: seq<Step>, k: nat)
    requires IsRun(ws, steps) && ws[0] == Empty() && k < |ws|
    ensures Inv(ws[k])
  {
    InitInv();
    hide Inv, Can, Do;
    RunInv(ws, steps, k);
  }

  lemma {:induction false} RunInv(ws: seq<World>, steps: seq<Step>, k: nat)
    requires IsRun(ws, steps) && Inv(ws[0]) && k < |ws|
    ensures Inv(ws[k])
  {
    hide Inv, Can, Do;
    if k > 0 {
      RunInv(ws, steps, k - 1);
      StepInv(ws[k - 1], steps[k - 1]);
    }
  }
}
