/** The loop of splitLarge against a log that may have lost its rows. Each turn reads at the loop's offset, enqueues
    what it read and moves on by as much; the loop is left when the offset reaches the file's size. */
module Splitting {
  import opened Base
  import opened Wal
  import opened Extents
  import opened Tables
  import opened Packer
  import opened World
  import opened Invariant
  import opened Runs
  import opened Overwrite

  predicate AtWork(w: World, t: TrackId) {
    t in w.tracks && w.tracks[t].stage.Splitting?
  }

  /** The loop's offset. */
  function Off(w: World, t: TrackId): nat
    requires t in w.tracks
  {
    Covered(w.tracks[t].extents)
  }

  /** The rows the loop reads from: none once the file is deleted or stored. */
  function LogOf(w: World, t: TrackId): seq<Bytes>
    requires t in w.tracks
  {
    WalOf(w, w.tracks[t].node)
  }

  /** One turn: up to max bytes are asked for, never past the file's size. */
  predicate IsTurn(w: World, s: Step, t: TrackId, max: nat) {
    t in w.tracks && s.SplitEmit? && s.t == t && s.n == Min(max, w.tracks[t].size - Off(w, t))
  }

  /** A run of turns of this one loop. */
  ghost predicate LoopRun(ws: seq<World>, steps: seq<Step>, t: TrackId, max: nat) {
    IsRun(ws, steps) && forall i :: 0 <= i < |steps| ==> IsTurn(ws[i], steps[i], t, max)
  }

  /** Neither the pieces so far nor the log reach the file's size. */
  predicate Stuck(w: World, t: TrackId) {
    AtWork(w, t) && Disciplined(LogOf(w, t)) && Off(w, t) < w.tracks[t].size
      && |Flatten(LogOf(w, t))| < w.tracks[t].size
  }

  // ---- one turn --------------------------------------------------------------------------------------

  /** What a read gives: as much of what was asked for as the log still reaches. */
  lemma {:induction false} PieceLength(log: seq<Bytes>, off: nat, n: nat)
    requires Disciplined(log) && n > 0
    ensures |ReadRange(log, off, n)| == if off >= |Flatten(log)| then 0 else Min(n, |Flatten(log)| - off)
  {
    hide Flatten, ReadRange, Disciplined;
    ReadRangeIsSlice(log, off, n);
  }

  lemma {:induction false} TurnDo(w: World, s: Step, t: TrackId, max: nat)
    requires Can(w, s) && IsTurn(w, s, t, max)
    ensures AtWork(w, t) && s.n > 0 && Do(w, s) == DoSplitEmit(w, t, s.b, s.n)
  {
    hide Covered;
  }

  lemma {:induction false} TurnIs(w: World, s: Step, t: TrackId, max: nat)
    requires Can(w, s) && IsTurn(w, s, t, max)
    ensures var w' := Do(w, s); var piece := ReadRange(LogOf(w, t), Off(w, t), s.n);
      && AtWork(w', t) && w'.tracks[t].size == w.tracks[t].size && LogOf(w', t) == LogOf(w, t)
      && Off(w', t) == Off(w, t) + |piece| && s.b in w'.data && w'.data[s.b] == piece && s.n > 0
  {
    hide Can, Do, ReadRange, EmitPiece, Covered;
    TurnDo(w, s, t, max);
    EmitIs(w.tracks[t], s.b, |ReadRange(LogOf(w, t), Off(w, t), s.n)|);
  }

  lemma {:induction false} TurnCan(w: World, t: TrackId, max: nat) returns (s: Step)
    requires AtWork(w, t) && Off(w, t) < w.tracks[t].size && max > 0
    ensures Can(w, s) && IsTurn(w, s, t, max)
  {
    hide Covered;
    var b := Fresh(w.data.Keys + w.jobs.Keys);
    s := SplitEmit(t, b, Min(max, w.tracks[t].size - Off(w, t)));
  }

  lemma {:induction false} DoneWhen(w: World, t: TrackId)
    requires AtWork(w, t)
    ensures Can(w, SplitDone(t)) <==> Off(w, t) >= w.tracks[t].size
  {
    hide Covered;
  }

  lemma {:induction false} TurnStuck(w: World, s: Step, t: TrackId, max: nat)
    requires Stuck(w, t) && Can(w, s) && IsTurn(w, s, t, max)
    ensures Stuck(Do(w, s), t) && LogOf(Do(w, s), t) == LogOf(w, t)
    ensures |Flatten(LogOf(w, t))| <= Off(w, t) ==>
      Off(Do(w, s), t) == Off(w, t) && s.b in Do(w, s).data && Do(w, s).data[s.b] == []
  {
    hide Can, Do, Flatten, ReadRange, Disciplined, Covered;
    TurnIs(w, s, t, max);
    PieceLength(LogOf(w, t), Off(w, t), s.n);
  }

  // ---- a log that falls short: the loop is never left --------------------------------------------------

  lemma {:induction false} TurnOf(ws: seq<World>, steps: seq<Step>, t: TrackId, max: nat, k: nat)
    requires LoopRun(ws, steps, t, max) && k < |steps|
    ensures |ws| == |steps| + 1 && Can(ws[k], steps[k]) && ws[k + 1] == Do(ws[k], steps[k])
    ensures IsTurn(ws[k], steps[k], t, max)
  {
    hide Can, Do, IsTurn;
  }

  lemma {:induction false} LoopStuck(ws: seq<World>, steps: seq<Step>, t: TrackId, max: nat, k: nat)
    requires LoopRun(ws, steps, t, max) && k <= |steps| && Stuck(ws[0], t)
    ensures k < |ws| && Stuck(ws[k], t)
    decreases k
  {
    hide Can, Do, Stuck, IsTurn;
    if k > 0 {
      LoopStuck(ws, steps, t, max, k - 1);
      TurnOf(ws, steps, t, max, k - 1);
      TurnStuck(ws[k - 1], steps[k - 1], t, max);
    }
  }

  lemma {:induction false} StuckNotDone(w: World, t: TrackId)
    requires Stuck(w, t)
    ensures !Can(w, SplitDone(t))
  {
    hide Can, Flatten, Covered, Disciplined;
    DoneWhen(w, t);
  }

  lemma {:induction false} OneMoreTurn(ws: seq<World>, steps: seq<Step>, t: TrackId, max: nat, s: Step)
    requires LoopRun(ws, steps, t, max) && Can(ws[|steps|], s) && IsTurn(ws[|steps|], s, t, max)
    ensures LoopRun(ws + [Do(ws[|steps|], s)], steps + [s], t, max)
  {
    hide Can, Do, IsTurn;
  }

  /** What the turns of a starved loop enqueue. */
  ghost predicate AllEmpty(ws: seq<World>, steps: seq<Step>) {
    |ws| == |steps| + 1 &&
    forall i :: 0 <= i < |steps| ==>
      (steps[i].SplitEmit? && steps[i].b in ws[i + 1].data && ws[i + 1].data[steps[i].b] == [])
  }

  /** When the log falls short the loop turns as often as one likes and is never left; once its offset has passed the
      end of the log, every further turn enqueues an empty blob and changes nothing else of it. */
  lemma {:induction false} TurnsForever(w: World, t: TrackId, max: nat, k: nat)
    returns (ws: seq<World>, steps: seq<Step>)
    requires Stuck(w, t) && max > 0
    ensures |steps| == k && LoopRun(ws, steps, t, max) && |ws| == k + 1 && ws[0] == w
    ensures forall i :: 0 <= i <= k ==> Stuck(ws[i], t) && !Can(ws[i], SplitDone(t))
    ensures t in ws[k].tracks && LogOf(ws[k], t) == LogOf(w, t)
    ensures |Flatten(LogOf(w, t))| <= Off(w, t) ==> AllEmpty(ws, steps) && Off(ws[k], t) == Off(w, t)
    decreases k
  {
    hide Can, Do, Flatten, Covered, Disciplined, IsTurn, Off, LogOf;
    if k == 0 {
      ws, steps := [w], [];
      StuckNotDone(w, t);
    } else {
      var ws0, steps0 := TurnsForever(w, t, max, k - 1);
      var v := ws0[k - 1];
      StuckHas(v, t);
      StuckHas(w, t);
      var s := TurnCan(v, t, max);
      OneMoreTurn(ws0, steps0, t, max, s);
      TurnStuck(v, s, t, max);
      StuckNotDone(Do(v, s), t);
      StuckHas(Do(v, s), t);
      IsEmit(v, s, t, max);
      ws, steps := ws0 + [Do(v, s)], steps0 + [s];
    }
  }

  lemma {:induction false} StuckHas(w: World, t: TrackId)
    requires Stuck(w, t)
    ensures AtWork(w, t) && Off(w, t) < w.tracks[t].size
  {
  }

  lemma {:induction false} IsEmit(w: World, s: Step, t: TrackId, max: nat)
    requires IsTurn(w, s, t, max)
    ensures s.SplitEmit?
  {
  }

  // ---- a log that reaches the size: the loop is left ---------------------------------------------------

  lemma {:induction false} TurnFirst(w: World, s: Step, ws: seq<World>, steps: seq<Step>, t: TrackId, max: nat)
    requires Can(w, s) && IsTurn(w, s, t, max) && LoopRun(ws, steps, t, max) && ws[0] == Do(w, s)
    ensures LoopRun([w] + ws, [s] + steps, t, max) && ([w] + ws)[|[s] + steps|] == ws[|steps|]
  {
    hide Can, Do, IsTurn;
    var ws', steps' := [w] + ws, [s] + steps;
    forall i | 0 <= i < |steps'|
      ensures Can(ws'[i], steps'[i]) && ws'[i + 1] == Do(ws'[i], steps'[i]) && IsTurn(ws'[i], steps'[i], t, max)
    {
      if i > 0 {
        assert ws'[i] == ws[i - 1] && steps'[i] == steps[i - 1] && ws'[i + 1] == ws[i - 1 + 1];
      }
    }
  }

  lemma {:induction false} NoTurns(w: World, t: TrackId, max: nat)
    ensures LoopRun([w], [], t, max)
  {
  }

  lemma {:induction false} Finishes(w: World, t: TrackId, max: nat) returns (ws: seq<World>, steps: seq<Step>)
    requires AtWork(w, t) && Disciplined(LogOf(w, t)) && max > 0
    requires w.tracks[t].size <= Off(w, t) || w.tracks[t].size <= |Flatten(LogOf(w, t))|
    ensures LoopRun(ws, steps, t, max) && |ws| == |steps| + 1 && ws[0] == w && Can(ws[|steps|], SplitDone(t))
    decreases w.tracks[t].size - Off(w, t)
  {
    hide Can, Do, Flatten, Covered, Disciplined, IsTurn, LoopRun, ReadRange, LogOf;
    if w.tracks[t].size <= Off(w, t) {
      DoneWhen(w, t);
      NoTurns(w, t, max);
      ws, steps := [w], [];
    } else {
      var s := TurnCan(w, t, max);
      TurnIs(w, s, t, max);
      TurnAsks(w, s, t, max);
      PieceLength(LogOf(w, t), Off(w, t), s.n);
      var ws0, steps0 := Finishes(Do(w, s), t, max);
      TurnFirst(w, s, ws0, steps0, t, max);
      ws, steps := [w] + ws0, [s] + steps0;
    }
  }

  lemma {:induction false} TurnAsks(w: World, s: Step, t: TrackId, max: nat)
    requires IsTurn(w, s, t, max)
    ensures s.SplitEmit? && t in w.tracks && s.n <= w.tracks[t].size - Off(w, t)
  {
  }

  lemma {:induction false} LogDisciplined(w: World, t: TrackId)
    requires Inv(w) && t in w.tracks
    ensures Disciplined(LogOf(w, t))
  {
    if w.tracks[t].node in w.nodes {
      NodeOf(w, w.tracks[t].node);
    }
  }

  /** Exactly when splitLarge ends: with nobody changing the log, the loop reaches the point where it is left exactly
      when the file's size is covered already or the log still holds that many bytes, for every blob size. */
  lemma {:induction false} LoopEnds(w: World, t: TrackId, max: nat)
    requires Inv(w) && AtWork(w, t) && max > 0
    ensures (exists ws, steps :: LoopRun(ws, steps, t, max) && ws[0] == w && Can(ws[|steps|], SplitDone(t)))
            <==> w.tracks[t].size <= Off(w, t) || w.tracks[t].size <= |Flatten(LogOf(w, t))|
  {
    LogDisciplined(w, t);
    hide Inv, Can, Do, Flatten, Covered, Disciplined, IsTurn;
    if w.tracks[t].size <= Off(w, t) || w.tracks[t].size <= |Flatten(LogOf(w, t))| {
      var ws, steps := Finishes(w, t, max);
    } else {
      forall ws, steps | LoopRun(ws, steps, t, max) && ws[0] == w ensures !Can(ws[|steps|], SplitDone(t)) {
        LoopStuck(ws, steps, t, max, |steps|);
        StuckNotDone(ws[|steps|], t);
      }
    }
  }

  /** As long as the file stays buffered under a live track its log holds the size the track claimed. */
  lemma {:induction false} BufferedEnds(w: World, t: TrackId, max: nat) returns (ws: seq<World>, steps: seq<Step>)
    requires Inv(w) && AtWork(w, t) && max > 0 && Live(w.tracks[t])
    requires w.tracks[t].node in w.nodes && w.nodes[w.tracks[t].node].state.Buffered?
    ensures LoopRun(ws, steps, t, max) && |ws| == |steps| + 1 && ws[0] == w && Can(ws[|steps|], SplitDone(t))
  {
    LogDisciplined(w, t);
    DataOf(w, t);
    hide Inv, Can, Do, Flatten, Covered, Disciplined, IsTurn, LoopRun;
    ws, steps := Finishes(w, t, max);
  }
}
