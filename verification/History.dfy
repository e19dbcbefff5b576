/** Whole runs: the engine's history replayed on a plain map, and each file's log read off its handle's steps. */
module History {
  import opened Base
  import opened Wal
  import opened Extents
  import opened Tables
  import opened Tree
  import opened Packer
  import opened World
  import opened Invariant
  import opened Runs
  import opened Refinement
  import opened Fates

  // ---- what was written ------------------------------------------------------------------------------

  /** The chunks the first k steps appended to file n since it was created or last truncated: a fact about the
      steps alone. */
  function Written(steps: seq<Step>, k: nat, n: NodeId): seq<Bytes>
    requires k <= |steps|
  {
    if k == 0 then []
    else
      match steps[k - 1]
      case Append(m, chunk) => Written(steps, k - 1, n) + if m == n then [chunk] else []
      case Truncate(m) => if m == n then [] else Written(steps, k - 1, n)
      case _ => Written(steps, k - 1, n)
  }

  lemma {:induction false} FsGrows(w: World, s: Step)
    requires Can(w, s) && IsFs(s)
    ensures w.nextNode <= Do(w, s).nextNode
  {
    hide Settle, Relocatable, CopiedTree, RemoveTree, RenameTree, Keys, CanAdd, FreeKey, AllFull, HasLiveTrack;
  }

  lemma {:induction false} RowsNext(w: World, s: Step)
    requires Can(w, s) && IsRows(s)
    ensures Do(w, s).nextNode == w.nextNode
  {
    hide WithoutSole, Evicted, Downed, Upped, Keys, CanAdd, FreeKey, Relocatable, CopiedTree, HasLiveTrack, AllFull,
      Covered, BufOf;
  }

  lemma {:induction false} TickNext(w: World, later: Time)
    requires Can(w, Tick(later))
    ensures Do(w, Tick(later)).nextNode == w.nextNode
  {
    hide InGrace;
  }

  lemma {:induction false} ReaperNext(w: World, s: Step)
    requires Can(w, s) && IsReaper(s)
    ensures Do(w, s).nextNode == w.nextNode
  {
    if s.Tick? {
      hide Can, Do;
      TickNext(w, s.later);
    } else {
      hide InGrace, Named, Collectable, Keys, Relocatable, CopiedTree, HasLiveTrack;
    }
  }

  lemma {:induction false} CrashNext(w: World, p: Owner)
    ensures DoCrash(w, p).nextNode == w.nextNode
  {
  }

  lemma {:induction false} BuilderNext(w: World, s: Step)
    requires Can(w, s) && IsBuilder(s)
    ensures Do(w, s).nextNode == w.nextNode
  {
    hide LeaseFree, Owned, StoredNode, NewTrack, DropTrack, Live, DoCrash, Keys, CanAdd, FreeKey, Relocatable,
      CopiedTree, HasLiveTrack, AllFull, Covered, BufOf;
    if s.Crash? {
      CrashNext(w, s.p);
    }
  }

  lemma {:induction false} EmitNext(w: World, s: Step)
    requires Can(w, s) && (s.SplitEmit? || s.Seal?)
    ensures Do(w, s).nextNode == w.nextNode
  {
    hide ReadRange, Covered, EmitPiece, BufOf, WalOf, Sealed, RunOf;
  }

  lemma {:induction false} PlannerNext(w: World, s: Step)
    requires Can(w, s) && IsPlanner(s)
    ensures Do(w, s).nextNode == w.nextNode
  {
    if s.SplitEmit? || s.Seal? {
      hide Can, Do;
      EmitNext(w, s);
    } else {
      hide ReadRange, Covered, EmitPiece, PlanTrack, BufOf, WalOf, Sealed, SealDropped, PlannedAll, RunOf;
    }
  }

  lemma {:induction false} WorkerNext(w: World, s: Step)
    requires Can(w, s) && !IsFs(s) && !IsRows(s) && !IsReaper(s) && !IsBuilder(s) && !IsPlanner(s)
    ensures Do(w, s).nextNode == w.nextNode
  {
    hide LandedAll, DoomedAll, FailTrack, Owned, StoredNode, RowsExist, Settle;
  }

  lemma {:induction false} NextGrows(w: World, s: Step)
    requires Can(w, s)
    ensures w.nextNode <= Do(w, s).nextNode
  {
    hide Can, Do;
    if IsFs(s) {
      FsGrows(w, s);
    } else if IsRows(s) {
      RowsNext(w, s);
    } else if IsReaper(s) {
      ReaperNext(w, s);
    } else if IsBuilder(s) {
      BuilderNext(w, s);
    } else if IsPlanner(s) {
      PlannerNext(w, s);
    } else {
      WorkerNext(w, s);
    }
  }

  lemma {:induction false} WrittenNone(steps: seq<Step>, n: NodeId)
    ensures Written(steps, 0, n) == []
  {
  }

  lemma {:induction false} NoneYet(n: NodeId)
    ensures n !in Empty().nodes
  {
  }

  lemma {:induction false} WrittenMore(steps: seq<Step>, k: nat, n: NodeId)
    requires k < |steps|
    ensures var s := steps[k];
      Written(steps, k + 1, n) == if s == Truncate(n) then []
                                  else Written(steps, k, n) + if s.Append? && s.n == n then [s.chunk] else []
  {
  }

  lemma {:induction false} NotYet(w: World, s: Step, n: NodeId)
    requires Inv(w) && Can(w, s) && w.nextNode <= n
    ensures s != Truncate(n) && !(s.Append? && s.n == n)
  {
    hide Inv, Can, Do;
    if WritesTo(s, n) {
      WriterIs(w, s, n);
      NodeOf(w, n);
    }
  }

  lemma {:induction false} Unwritten(ws: seq<World>, steps: seq<Step>, k: nat, n: NodeId)
    requires IsRun(ws, steps) && ws[0] == Empty() && k <= |steps| && ws[k].nextNode <= n
    ensures Written(steps, k, n) == []
    decreases k
  {
    hide *;
    if k == 0 {
      WrittenNone(steps, n);
    } else {
      RunStep(ws, steps, k - 1);
      ReachInv(ws, steps, k - 1);
      NextGrows(ws[k - 1], steps[k - 1]);
      NotYet(ws[k - 1], steps[k - 1], n);
      WrittenMore(steps, k - 1, n);
      Unwritten(ws, steps, k - 1, n);
    }
  }

  /** In every state of every run the log of an open file is exactly the chunks its handle appended. */
  lemma {:induction false} LogIsWritten(ws: seq<World>, steps: seq<Step>, k: nat, n: NodeId)
    requires IsRun(ws, steps) && ws[0] == Empty() && k <= |steps| && n in ws[k].nodes && ws[k].nodes[n].state.Writing?
    ensures ws[k].nodes[n].wal == Written(steps, k, n)
    decreases k
  {
    hide *;
    if k == 0 {
      NoneYet(n);
    } else {
      RunStep(ws, steps, k - 1);
      var w, s := ws[k - 1], steps[k - 1];
      ReachInv(ws, steps, k - 1);
      WritingLog(w, s, n);
      WrittenMore(steps, k - 1, n);
      if s == Truncate(n) {
      } else if n !in w.nodes {
        NotYet(w, s, n);
        Unwritten(ws, steps, k - 1, n);
      } else {
        LogIsWritten(ws, steps, k - 1, n);
      }
    }
  }

  // ---- the replay --------------------------------------------------------------------------------------

  /** What step k of a run does to the map. A Close publishes the chunks that the steps appended. */
  ghost function OpAt(ws: seq<World>, steps: seq<Step>, k: nat): Op
    requires IsRun(ws, steps) && k < |steps|
  {
    assert Can(ws[k], steps[k]);
    if steps[k].Close? then Put(ClosedKey(ws[k], steps[k].n), File(Flatten(Written(steps, k, steps[k].n))))
    else OpOf(ws[k], steps[k])
  }

  function ClosedKey(w: World, n: NodeId): Key {
    if n in w.nodes then KeyOf(w.nodes[n]) else Key(0, "")
  }

  lemma {:induction false} CloseOp(w: World, n: NodeId)
    requires Can(w, Close(n))
    ensures n in w.nodes && w.nodes[n].state.Writing?
    ensures OpOf(w, Close(n)) == Put(ClosedKey(w, n), File(Flatten(w.nodes[n].wal)))
  {
  }

  lemma {:induction false} OpAtIs(ws: seq<World>, steps: seq<Step>, k: nat)
    requires IsRun(ws, steps) && ws[0] == Empty() && k < |steps|
    ensures OpAt(ws, steps, k) == OpOf(ws[k], steps[k])
  {
    if steps[k].Close? {
      CloseOp(ws[k], steps[k].n);
      hide Can, Do, OpOf;
      LogIsWritten(ws, steps, k, steps[k].n);
    }
  }

  ghost function Replay(v: View, ops: seq<Op>): View {
    if ops == [] then v else ApplyOp(Replay(v, ops[..|ops| - 1]), ops[|ops| - 1])
  }

  ghost function OpsOf(ws: seq<World>, steps: seq<Step>, k: nat): (ops: seq<Op>)
    requires IsRun(ws, steps) && k <= |steps|
    ensures |ops| == k
  {
    if k == 0 then [] else OpsOf(ws, steps, k - 1) + [OpAt(ws, steps, k - 1)]
  }

  lemma {:induction false} OpsNone(ws: seq<World>, steps: seq<Step>, v: View)
    requires IsRun(ws, steps)
    ensures Replay(v, OpsOf(ws, steps, 0)) == v
  {
    hide Can, Do;
  }

  lemma {:induction false} OpsMore(ws: seq<World>, steps: seq<Step>, k: nat, v: View)
    requires IsRun(ws, steps) && k < |steps|
    ensures Replay(v, OpsOf(ws, steps, k + 1)) == ApplyOp(Replay(v, OpsOf(ws, steps, k)), OpAt(ws, steps, k))
  {
    hide Can, Do, OpAt, ApplyOp, IsRun;
    var ops := OpsOf(ws, steps, k + 1);
    assert ops[..|ops| - 1] == OpsOf(ws, steps, k);
  }

  lemma {:induction false} EmptySeen()
    ensures Inv(Empty()) && Seen(Empty()) == map[]
  {
    InitInv();
  }

  /** After any run from the empty store, under any interleaving, what is seen is what the filesystem
      transactions of the run, replayed in order on an empty map, leave there. */
  lemma {:induction false} RunRefines(ws: seq<World>, steps: seq<Step>, k: nat)
    requires IsRun(ws, steps) && ws[0] == Empty() && k <= |steps|
    ensures Inv(ws[k]) && Seen(ws[k]) == Replay(map[], OpsOf(ws, steps, k))
    decreases k
  {
    hide *;
    if k == 0 {
      EmptySeen();
      OpsNone(ws, steps, map[]);
    } else {
      RunStep(ws, steps, k - 1);
      RunRefines(ws, steps, k - 1);
      OpAtIs(ws, steps, k - 1);
      StepRefines(ws[k - 1], steps[k - 1]);
      OpsMore(ws, steps, k - 1, map[]);
    }
  }

  // ---- one file over a run -----------------------------------------------------------------------------

  /** A stretch of a run in which file n is neither truncated nor deleted. */
  ghost predicate Undisturbed(ws: seq<World>, steps: seq<Step>, i: nat, j: nat, n: NodeId) {
    && i <= j <= |steps| < |ws|
    && (forall k :: i <= k <= j ==> n in ws[k].nodes)
    && forall k :: i <= k < j ==> steps[k] != Truncate(n)
  }

  /** A closed file keeps its bytes along every run that neither truncates nor deletes it. */
  lemma {:induction false} ReadsAlong(ws: seq<World>, steps: seq<Step>, i: nat, j: nat, n: NodeId, content: Bytes)
    requires IsRun(ws, steps) && Undisturbed(ws, steps, i, j, n) && Inv(ws[i]) && Reads(ws[i], n, content)
    ensures Inv(ws[j]) && Reads(ws[j], n, content)
    decreases j - i
  {
    hide Can, Do, Inv, Reads;
    if i < j {
      ReadsAlong(ws, steps, i, j - 1, n, content);
      assert ws[j - 1 + 1] == Do(ws[j - 1], steps[j - 1]) && n in ws[j].nodes;
      StepInv(ws[j - 1], steps[j - 1]);
      ContentKept(ws[j - 1], steps[j - 1], n, content);
    }
  }

  lemma {:induction false} ClosedReads(w: World, n: NodeId)
    requires Inv(w) && Can(w, Close(n)) && Inv(Do(w, Close(n)))
    ensures Reads(Do(w, Close(n)), n, Flatten(w.nodes[n].wal))
  {
    CloseIs(w, n);
    NodeOf(Do(w, Close(n)), n);
    hide Inv, Can, Do, Flatten;
    assert Flatten(w.nodes[n].wal)[..|Flatten(w.nodes[n].wal)|] == Flatten(w.nodes[n].wal);
  }

  /** What a Close published is what every later handle reads, until the file is truncated or deleted: exactly the
      chunks appended before that Close, whatever is packed, moved, copied, evicted, crashed or reaped meanwhile. */
  lemma {:induction false} CloseIsRead(ws: seq<World>, steps: seq<Step>, i: nat, j: nat, n: NodeId)
    requires IsRun(ws, steps) && ws[0] == Empty() && i < |steps| && steps[i] == Close(n)
    requires Undisturbed(ws, steps, i + 1, j, n)
    ensures Reads(ws[j], n, Flatten(Written(steps, i, n)))
  {
    hide Inv, Can, Do, Reads, Flatten;
    ReachInv(ws, steps, i);
    StepInv(ws[i], steps[i]);
    CloseIs(ws[i], n);
    LogIsWritten(ws, steps, i, n);
    ClosedReads(ws[i], n);
    ReadsAlong(ws, steps, i + 1, j, n, Flatten(Written(steps, i, n)));
  }
}
