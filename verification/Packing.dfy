/** The builder of the packer: claimed files are split into blob-sized pieces or packed next-fit into a shared
    buffer that is sealed into one blob. Its loops under the mutex are proved equal to the steps of the packer's
    state machine, and the blobs they emit are proved to hold the files. */
module Packing {
  import opened Base
  import opened Wal
  import opened Extents
  import opened Tables
  import opened Packer

  /** A file's span in the blob being built. */
  datatype Seg = Seg(track: TrackId, fileOffset: nat, blobOffset: nat, length: nat)

  datatype BlobJob = BlobJob(blob: BlobId, bytes: Bytes, channel: nat, tracks: seq<TrackId>)

  // ---- next-fit -----------------------------------------------------------------------------------

  function Sum(sizes: seq<nat>): nat {
    if sizes == [] then 0 else Sum(sizes[..|sizes| - 1]) + sizes[|sizes| - 1]
  }

  /** Two consecutive blobs never fit into one, nor does the last one with what is in the buffer. */
  predicate NextFit(sizes: seq<nat>, buffered: nat, max: nat) {
    && (forall i :: 0 <= i < |sizes| ==> 0 < sizes[i] <= max) && buffered <= max
    && (forall i :: 0 <= i < |sizes| - 1 ==> sizes[i] + sizes[i + 1] > max)
    && (sizes != [] && buffered > 0 ==> sizes[|sizes| - 1] + buffered > max)
  }

  /** k blobs hold more than floor(k/2) full ones: at most about twice the blobs an optimal packing needs. */
  lemma {:induction false} NextFitBound(sizes: seq<nat>, max: nat)
    requires NextFit(sizes, 0, max)
    ensures |sizes| >= 2 ==> |sizes| / 2 * max < Sum(sizes)
    ensures |sizes| / 2 * max <= Sum(sizes)
    decreases |sizes|
  {
    if |sizes| >= 2 {
      var init := sizes[..|sizes| - 2];
      NextFitInit(sizes, max);
      NextFitBound(init, max);
      SumTwo(sizes);
      HalfMore(|init|, max);
      assert sizes[|sizes| - 2] + sizes[|sizes| - 2 + 1] > max;
      hide NextFit, Sum;
    }
  }

  lemma {:induction false} HalfMore(k: nat, max: nat)
    ensures (k + 2) / 2 * max == k / 2 * max + max
  {
    assert (k + 2) / 2 == k / 2 + 1;
  }

  lemma {:induction false} NextFitInit(sizes: seq<nat>, max: nat)
    requires NextFit(sizes, 0, max) && |sizes| >= 2
    ensures NextFit(sizes[..|sizes| - 2], 0, max)
  {
    var init := sizes[..|sizes| - 2];
    forall i | 0 <= i < |init| - 1 ensures init[i] + init[i + 1] > max {
      assert init[i] == sizes[i] && init[i + 1] == sizes[i + 1];
    }
  }

  lemma {:induction false} SumTwo(sizes: seq<nat>)
    requires |sizes| >= 2
    ensures Sum(sizes) == Sum(sizes[..|sizes| - 2]) + sizes[|sizes| - 2] + sizes[|sizes| - 1]
  {
    assert sizes[..|sizes| - 1][..|sizes| - 2] == sizes[..|sizes| - 2];
  }

  lemma {:induction false} SumSnoc(sizes: seq<nat>, n: nat)
    ensures Sum(sizes + [n]) == Sum(sizes) + n
  {
    assert (sizes + [n])[..|sizes|] == sizes;
  }

  lemma {:induction false} NextFitSeal(sizes: seq<nat>, buffered: nat, max: nat)
    requires NextFit(sizes, buffered, max) && buffered > 0
    ensures NextFit(sizes + [buffered], 0, max)
  {
    var all := sizes + [buffered];
    forall i | 0 <= i < |all| - 1 ensures all[i] + all[i + 1] > max {
      if i < |sizes| - 1 {
        assert all[i] == sizes[i] && all[i + 1] == sizes[i + 1];
      }
    }
  }

  // ---- the run buffer -----------------------------------------------------------------------------

  /** The segments lie in the buffer back to back, in order, and fill it. */
  predicate Tiles(segs: seq<Seg>, end: nat) {
    if segs == [] then end == 0
    else
      var last := segs[|segs| - 1];
      last.blobOffset + last.length == end && Tiles(segs[..|segs| - 1], last.blobOffset)
  }

  lemma {:induction false} TilesApart(segs: seq<Seg>, end: nat, i: nat, j: nat)
    requires Tiles(segs, end) && i < j < |segs|
    ensures segs[i].blobOffset + segs[i].length <= segs[j].blobOffset
    ensures segs[j].blobOffset + segs[j].length <= end
    decreases |segs|
  {
    var init := segs[..|segs| - 1];
    if j == |segs| - 1 {
      TilesBelow(init, segs[j].blobOffset, i);
    } else {
      TilesApart(init, segs[|segs| - 1].blobOffset, i, j);
    }
  }

  lemma {:induction false} TilesBelow(segs: seq<Seg>, end: nat, i: nat)
    requires Tiles(segs, end) && i < |segs|
    ensures segs[i].blobOffset + segs[i].length <= end
    decreases |segs|
  {
    if i < |segs| - 1 {
      TilesBelow(segs[..|segs| - 1], segs[|segs| - 1].blobOffset, i);
    }
  }

  function SetOf(ts: seq<TrackId>): set<TrackId> {
    set t | t in ts
  }

  predicate SegOf(seg: Seg, t: TrackId, tr: Track) {
    seg.track == t && seg.fileOffset == 0 && tr.stage == InRun(seg.blobOffset, seg.length)
  }

  /** The run buffer's segments are the packer's tracks whose bytes wait in the buffer. */
  ghost predicate RunOk(tracks: Tracks, owner: Owner, end: nat, segs: seq<Seg>, pending: seq<TrackId>) {
    && |segs| == |pending| && Distinct(pending) && SetOf(pending) == RunOf(tracks, owner) && Tiles(segs, end)
    && forall i :: 0 <= i < |segs| ==> pending[i] in tracks && SegOf(segs[i], pending[i], tracks[pending[i]])
  }

  // ---- what a loop has done so far ----------------------------------------------------------------

  function PartSealed(tracks: Tracks, done: set<TrackId>, b: BlobId): Tracks {
    map t | t in tracks :: if t in done && tracks[t].stage.InRun? then SealTrack(tracks[t], b) else tracks[t]
  }

  function PartDropped(tracks: Tracks, done: set<TrackId>): Tracks {
    map t | t in tracks :: if t in done then DropTrack(tracks[t]) else tracks[t]
  }

  function PartPlanned(tracks: Tracks, done: set<TrackId>): Tracks {
    map t | t in tracks :: if t in done then PlanTrack(tracks[t]) else tracks[t]
  }

  function PartLanded(tracks: Tracks, done: set<TrackId>): Tracks {
    map t | t in tracks :: if t in done then LandTrack(tracks[t]) else tracks[t]
  }

  lemma {:induction false} OneMore(ts: seq<TrackId>, i: nat)
    requires Distinct(ts) && i < |ts|
    ensures SetOf(ts[..i + 1]) == SetOf(ts[..i]) + {ts[i]} && ts[i] !in SetOf(ts[..i])
  {
    assert ts[..i + 1] == ts[..i] + [ts[i]];
  }

  lemma {:induction false} AllDone(ts: seq<TrackId>)
    ensures ts[..|ts|] == ts && SetOf(ts[..0]) == {}
  {
  }

  lemma {:induction false} PartNone(tracks: Tracks, b: BlobId)
    ensures PartSealed(tracks, {}, b) == tracks == PartDropped(tracks, {})
    ensures PartPlanned(tracks, {}) == tracks == PartLanded(tracks, {})
  {
  }

  lemma {:induction false} PartAll(tracks: Tracks, owner: Owner, b: BlobId, ts: seq<TrackId>)
    ensures SetOf(ts) == RunOf(tracks, owner) ==>
      PartSealed(tracks, SetOf(ts), b) == Sealed(tracks, owner, b)
        && PartDropped(tracks, SetOf(ts)) == SealDropped(tracks, owner)
    ensures SetOf(ts) == SealingOf(tracks, owner) ==> PartPlanned(tracks, SetOf(ts)) == PlannedAll(tracks, owner)
    ensures PartLanded(tracks, SetOf(ts)) == LandedAll(tracks, SetOf(ts))
  {
  }

  /** How many bytes each file's log gives: its size, or less if rows have vanished. */
  function Given(sizes: seq<nat>, logs: seq<seq<Bytes>>): seq<nat>
    requires |sizes| == |logs|
  {
    seq(|logs|, i requires 0 <= i < |logs| => Min(sizes[i], |Flatten(logs[i])|))
  }

  /** A claimed small file and the rows left in its log. */
  predicate IsSmall(tracks: Tracks, owner: Owner, t: TrackId, log: seq<Bytes>, size: nat, max: nat) {
    && t in tracks && tracks[t].packer == owner && tracks[t].stage.Claimed?
    && Disciplined(log) && 0 < tracks[t].size == size <= max
  }

  class Builder {
    const owner: Owner
    var tracks: Tracks
    var buf: Bytes
    var segs: seq<Seg>
    var pendingSmall: seq<TrackId>
    var queue: seq<BlobJob>
    var nextBlob: BlobId
    /** The bytes of every blob emitted, the sizes of those sealed from the buffer, and those of all runs that were
        ended, sealed or given up. */
    ghost var data: Data
    ghost var sealed: seq<nat>
    ghost var runs: seq<nat>

    ghost predicate Valid()
      reads this
    {
      && RunOk(tracks, owner, |buf|, segs, pendingSmall) && SealingOf(tracks, owner) == {}
      && forall b :: b in data ==> b < nextBlob
    }

    // ---- the sections under the mutex -------------------------------------------------------------

    /** seal's first section: an extent and one outstanding blob for every track in the run. */
    method RecordSegs(b: BlobId) returns (distinct: seq<TrackId>)
      requires RunOk(tracks, owner, |buf|, segs, pendingSmall)
      modifies this`tracks
      ensures tracks == Sealed(old(tracks), owner, b) && distinct == pendingSmall
    {
      hide Sealed, Tiles, RunOf, SealTrack, SetOf;
      ghost var before := tracks;
      var seen: set<TrackId> := {};
      distinct := [];
      PartNone(before, b);
      AllDone(pendingSmall);
      for i := 0 to |segs|
        invariant tracks == PartSealed(before, SetOf(pendingSmall[..i]), b)
        invariant distinct == pendingSmall[..i] && seen == SetOf(pendingSmall[..i])
      {
        var s := segs[i];
        var t := s.track;
        OneMore(pendingSmall, i);
        var tr := tracks[t];
        assert SegOf(s, t, before[t]) && tr == before[t];
        tr := tr.(extents := tr.extents + [Extent(0, s.fileOffset, s.length, b, s.blobOffset)], stage := Sealing);
        if t !in seen {
          seen := seen + {t};
          tr := tr.(remaining := tr.remaining + 1);
          distinct := distinct + [t];
        }
        SealedIs(before[t], s, t, b, tr);
        tracks := tracks[t := tr];
        assert pendingSmall[..i + 1] == pendingSmall[..i] + [t];
      }
      AllDone(pendingSmall);
      PartAll(before, owner, b, pendingSmall);
    }

    lemma {:induction false} SealedIs(old0: Track, s: Seg, t: TrackId, b: BlobId, tr: Track)
      requires SegOf(s, t, old0)
      requires tr == old0.(extents := old0.extents + [Extent(0, s.fileOffset, s.length, b, s.blobOffset)],
          stage := Sealing,
                           remaining := old0.remaining + 1)
      ensures tr == SealTrack(old0, b)
    {
    }

    /** seal without a channel: the run is given up and every track in it will be packed again. */
    method DropPending()
      requires RunOk(tracks, owner, |buf|, segs, pendingSmall)
      modifies this`tracks, this`pendingSmall
      ensures tracks == SealDropped(old(tracks), owner) && pendingSmall == []
    {
      hide SealDropped, RunOf, Tiles, SetOf;
      ghost var before := tracks;
      var pending := pendingSmall;
      pendingSmall := [];
      PartNone(before, 0);
      AllDone(pending);
      for i := 0 to |pending|
        invariant tracks == PartDropped(before, SetOf(pending[..i])) && pendingSmall == []
      {
        var t := pending[i];
        OneMore(pending, i);
        tracks := tracks[t := tracks[t].(failed := true, stage := Dropped)];
      }
      AllDone(pending);
      PartAll(before, owner, 0, pending);
    }

    /** seal's last section: the pending tracks become planned, and those with nothing outstanding are ready. */
    method PlanPending(pending: seq<TrackId>) returns (ready: seq<TrackId>)
      requires Distinct(pending) && SetOf(pending) == SealingOf(tracks, owner)
      modifies this`tracks
      ensures tracks == PlannedAll(old(tracks), owner)
      ensures forall t :: t in ready <==> t in pending && t in tracks && Ready(tracks[t])
    {
      hide PlannedAll, SetOf;
      ghost var before := tracks;
      ready := [];
      PartNone(before, 0);
      AllDone(pending);
      PendingIn(pending, before, owner);
      for i := 0 to |pending|
        invariant tracks == PartPlanned(before, SetOf(pending[..i]))
        invariant forall t :: t in ready <==> t in pending[..i] && Ready(tracks[t])
      {
        var t := pending[i];
        OneMore(pending, i);
        var tr := tracks[t].(stage := Planned);
        if tr.remaining == 0 && !tr.failed {
          tr := tr.(calls := tr.calls + 1);
          ready := ready + [t];
        }
        tracks := tracks[t := tr];
        assert pending[..i + 1] == pending[..i] + [t];
      }
      PartAll(before, owner, 0, pending);
    }

    lemma {:induction false} PendingIn(pending: seq<TrackId>, tracks: Tracks, owner: Owner)
      requires SetOf(pending) == SealingOf(tracks, owner)
      ensures forall t :: t in pending ==> t in tracks
    {
      forall t | t in pending ensures t in tracks {
        assert t in SetOf(pending);
      }
    }

    /** The worker's section once a blob is stored. */
    method LandJob(ts: seq<TrackId>) returns (ready: seq<TrackId>)
      requires Distinct(ts) && forall t :: t in ts ==> t in tracks
      modifies this`tracks
      ensures tracks == LandedAll(old(tracks), SetOf(ts))
      ensures forall t :: t in ready <==> t in ts && Ready(tracks[t])
    {
      hide LandedAll, SetOf;
      ghost var before := tracks;
      ready := [];
      PartNone(before, 0);
      AllDone(ts);
      for i := 0 to |ts|
        invariant tracks == PartLanded(before, SetOf(ts[..i]))
        invariant forall t :: t in ready <==> t in ts[..i] && Ready(tracks[t])
      {
        var t := ts[i];
        OneMore(ts, i);
        var tr := tracks[t].(remaining := tracks[t].remaining - 1);
        if tr.stage.Planned? && tr.remaining == 0 && !tr.failed {
          tr := tr.(calls := tr.calls + 1);
          ready := ready + [t];
        }
        tracks := tracks[t := tr];
        assert ts[..i + 1] == ts[..i] + [t];
      }
      PartAll(before, owner, 0, ts);
    }
  
    // ---- small files ------------------------------------------------------------------------------

    /** seal: nothing for an empty buffer; without a channel the run is dropped; otherwise the buffer becomes one
        blob holding every file in it, and its tracks are planned. */
    method Seal(channel: Option<nat>) returns (ready: seq<TrackId>)
      requires Valid()
      modifies this
      ensures nextBlob >= old(nextBlob) && SealingOf(tracks, owner) == {} && forall b :: b in data ==> b < nextBlob
      ensures old(buf) == [] ==>
        && tracks == old(tracks) && queue == old(queue) && data == old(data) && sealed == old(sealed)
        && runs == old(runs)
        && pendingSmall == old(pendingSmall)
      ensures old(buf) != [] && channel.None? ==>
        && tracks == SealDropped(old(tracks), owner) && queue == old(queue) && data == old(data)
            && sealed == old(sealed) && runs == old(runs) + [|old(buf)|]
        && pendingSmall == []
      ensures old(buf) != [] && channel.Some? ==>
        && tracks == PlannedAll(Sealed(old(tracks), owner, old(nextBlob)), owner)
        && queue == old(queue) + [BlobJob(old(nextBlob), old(buf), channel.value, old(pendingSmall))]
        && data == old(data)[old(nextBlob) := old(buf)] && sealed == old(sealed) + [|old(buf)|] && pendingSmall == []
        && runs == old(runs) + [|old(buf)|]
      ensures buf == old(buf) && segs == old(segs)
      ensures forall t :: t in ready <==>
        old(buf) != [] && channel.Some? && t in old(pendingSmall) && t in tracks && Ready(tracks[t])
    {
      hide RunOk, Sealed, SealDropped, PlannedAll, RunOf, SealingOf;
      ready := [];
      if buf == [] {
        return;
      }
      runs := runs + [|buf|];
      if channel.None? {
        NoneSealing(tracks, owner);
        DropPending();
        return;
      }
      var b := nextBlob;
      nextBlob := nextBlob + 1;
      NowSealing(tracks, owner, |buf|, segs, pendingSmall, b);
      var distinct := RecordSegs(b);
      var pending := pendingSmall;
      pendingSmall := [];
      queue := queue + [BlobJob(b, buf, channel.value, distinct)];
      data := data[b := buf];
      sealed := sealed + [|buf|];
      NonePlanned(tracks, owner);
      ready := PlanPending(pending);
    }

    lemma {:induction false} NoneSealing(tracks: Tracks, owner: Owner)
      requires SealingOf(tracks, owner) == {}
      ensures SealingOf(SealDropped(tracks, owner), owner) == {}
    {
      forall t | t in SealingOf(SealDropped(tracks, owner), owner) ensures t in SealingOf(tracks, owner) {
      }
    }

    lemma {:induction false} NowSealing(tracks: Tracks, owner: Owner, end: nat, segs: seq<Seg>, pending: seq<TrackId>,
            b: BlobId)
      requires RunOk(tracks, owner, end, segs, pending) && SealingOf(tracks, owner) == {}
      ensures SetOf(pending) == SealingOf(Sealed(tracks, owner, b), owner) && Distinct(pending)
    {
      forall t ensures t in SealingOf(Sealed(tracks, owner, b), owner) <==> t in RunOf(tracks, owner) {
        assert t in SealingOf(tracks, owner) <==> t in tracks && tracks[t].packer == owner && tracks[t].stage.Sealing?;
      }
    }

    lemma {:induction false} NonePlanned(tracks: Tracks, owner: Owner)
      ensures SealingOf(PlannedAll(tracks, owner), owner) == {}
    {
    }

    lemma {:induction false} RunEmpty(tracks: Tracks, owner: Owner, b: BlobId)
      ensures RunOf(SealDropped(tracks, owner), owner) == {}
          == RunOf(PlannedAll(Sealed(tracks, owner, b), owner), owner)
    {
    }

    /** A sealed run leaves an empty one. */
    method Flush(channel: Option<nat>) returns (ready: seq<TrackId>)
      requires Valid() && buf != []
      modifies this
      ensures Valid() && buf == [] && pendingSmall == []
      ensures tracks == if channel.None? then SealDropped(old(tracks), owner)
                        else PlannedAll(Sealed(old(tracks), owner, old(nextBlob)), owner)
      ensures queue == if channel.None? then old(queue)
                       else old(queue) + [BlobJob(old(nextBlob), old(buf), channel.value, old(pendingSmall))]
      ensures sealed == if channel.None? then old(sealed) else old(sealed) + [|old(buf)|]
      ensures runs == old(runs) + [|old(buf)|]
      ensures forall t :: t in ready <==>
        channel.Some? && t in old(pendingSmall) && t in tracks && Ready(tracks[t])
    {
      hide Sealed, SealDropped, PlannedAll, SealingOf, RunOf;
      RunEmpty(tracks, owner, nextBlob);
      ready := Seal(channel);
      buf, segs := [], [];
      assert SetOf([]) == {};
    }

    /** packSmall: seals first if the file would overflow the buffer, then appends what the log gives of it: the
        whole file unless rows have vanished. The file's bytes are in the buffer at its segment, other claimed files
        are untouched, and the runs, sealed or given up, keep next-fit order. */
    method PackSmall(t: TrackId, chunks: seq<Bytes>, blobMax: nat, channel: Option<nat>)
      returns (ready: seq<TrackId>, piece: Bytes)
      requires Valid() && t in tracks && tracks[t].packer == owner && tracks[t].stage.Claimed?
      requires Disciplined(chunks) && 0 < tracks[t].size <= blobMax
      modifies this
      ensures piece == Flatten(chunks)[..Min(old(tracks[t]).size, |Flatten(chunks)|)]
      ensures Valid() && t in tracks && pendingSmall != [] && pendingSmall[|pendingSmall| - 1] == t
      ensures |piece| <= |buf| && buf[|buf| - |piece|..] == piece
      ensures tracks[t] == old(tracks[t]).(stage := InRun(|buf| - |piece|, |piece|))
      ensures forall x :: x in old(tracks) && x != t && old(tracks)[x].stage.Claimed? ==>
        x in tracks && tracks[x] == old(tracks)[x]
      ensures |old(buf)| <= blobMax ==> |buf| <= blobMax
      ensures forall x :: x in ready <==>
        && old(buf) != [] && |old(buf)| + |piece| > blobMax && channel.Some?
        && x in old(pendingSmall) && x in tracks && Ready(tracks[x])
      ensures if old(buf) != [] && |old(buf)| + |piece| > blobMax
              then buf == piece && runs == old(runs) + [|old(buf)|]
                   && sealed == (if channel.Some? then old(sealed) + [|old(buf)|] else old(sealed))
              else buf == old(buf) + piece && runs == old(runs) && sealed == old(sealed) && queue == old(queue)
      ensures NextFit(old(runs), |old(buf)|, blobMax) && (old(buf) != [] || old(runs) == []) ==>
        && NextFit(runs, |buf|, blobMax) && Sum(runs) + |buf| == Sum(old(runs)) + |old(buf)| + |piece|
        && (buf != [] || runs == [])
    {
      hide RunOk, Sealed, SealDropped, PlannedAll, RunOf, SealingOf, Flatten, ReadRange, NextFit, Disciplined;
      ready := [];
      ReadRangeIsSlice(chunks, 0, tracks[t].size);
      piece := ReadRangeLoop(chunks, 0, tracks[t].size);
      assert piece == Flatten(chunks)[..Min(tracks[t].size, |Flatten(chunks)|)];
      if |buf| + |piece| > blobMax && |buf| > 0 {
        ClaimedKept(tracks, owner, nextBlob);
        FitsSealed(runs, |buf|, |piece|, blobMax);
        ready := Flush(channel);
      } else {
        FitsKept(runs, |buf|, |piece|, blobMax);
      }
      RunMore(tracks, owner, |buf|, segs, pendingSmall, t, |piece|);
      segs := segs + [Seg(t, 0, |buf|, |piece|)];
      tracks := tracks[t := tracks[t].(stage := InRun(|buf|, |piece|))];
      buf := buf + piece;
      pendingSmall := pendingSmall + [t];
    }

    lemma {:induction false} ClaimedKept(tracks: Tracks, owner: Owner, b: BlobId)
      ensures var after := SealDropped(tracks, owner);
        forall x :: x in tracks && tracks[x].stage.Claimed? ==> x in after && after[x] == tracks[x]
      ensures var after := PlannedAll(Sealed(tracks, owner, b), owner);
        forall x :: x in tracks && tracks[x].stage.Claimed? ==> x in after && after[x] == tracks[x]
    {
    }

    lemma {:induction false} FitsSealed(sizes: seq<nat>, buffered: nat, more: nat, max: nat)
      requires buffered > 0 && more <= max && buffered + more > max
      ensures NextFit(sizes, buffered, max) ==>
        more > 0 && NextFit(sizes + [buffered], more, max) && Sum(sizes + [buffered]) == Sum(sizes) + buffered
    {
      if NextFit(sizes, buffered, max) {
        NextFitSeal(sizes, buffered, max);
        SumSnoc(sizes, buffered);
      }
    }

    lemma {:induction false} FitsKept(sizes: seq<nat>, buffered: nat, more: nat, max: nat)
      requires (buffered + more <= max || buffered == 0) && more <= max
      ensures NextFit(sizes, buffered, max) && (buffered > 0 || sizes == []) ==> NextFit(sizes, buffered + more, max)
    {
    }

    /** The builder over a batch of small files without an idle seal in between, and the seal at the end. Logs may have
        lost rows, and any seal may find no channel and give its run up. The runs hold exactly what the logs gave, every
        blob has 1 to blobMax bytes, and k blobs mean more than floor(k/2) full ones among the bytes packed. */
    method PackRun(ts: seq<TrackId>, ghost sizes: seq<nat>, logs: seq<seq<Bytes>>, blobMax: nat,
            channels: nat -> Option<nat>)
      requires Valid() && buf == [] && sealed == [] == runs && |ts| == |logs| == |sizes| && Distinct(ts)
      requires forall i :: 0 <= i < |ts| ==> IsSmall(tracks, owner, ts[i], logs[i], sizes[i], blobMax)
      modifies this
      ensures Sum(runs) == Sum(Given(sizes, logs)) && |sealed| <= |runs|
      ensures forall i :: 0 <= i < |sealed| ==> 0 < sealed[i] <= blobMax
      ensures (forall i :: channels(i).Some?) ==> sealed == runs
      ensures |sealed| >= 2 ==> |sealed| / 2 * blobMax < Sum(Given(sizes, logs))
    {
      hide RunOk, Sealed, SealDropped, PlannedAll, RunOf, SealingOf, Flatten, Disciplined, Sum;
      ghost var start := tracks;
      NoneYet(blobMax);
      for i := 0 to |ts|
        invariant Valid() && NextFit(runs, |buf|, blobMax) && (buf != [] || runs == [])
        invariant Sum(runs) + |buf| == Sum(Given(sizes[..i], logs[..i]))
        invariant |sealed| <= |runs| && forall j :: 0 <= j < |sealed| ==> 0 < sealed[j] <= blobMax
        invariant (forall j :: channels(j).Some?) ==> sealed == runs
        invariant forall j :: i <= j < |ts| ==> ts[j] in tracks && tracks[ts[j]] == start[ts[j]]
      {
        assert IsSmall(start, owner, ts[i], logs[i], sizes[i], blobMax);
        OneLonger(sizes, logs, i);
        var ready, piece := PackSmall(ts[i], logs[i], blobMax, channels(i));
      }
      assert logs[..|ts|] == logs && sizes[..|ts|] == sizes;
      if buf != [] {
        NextFitSeal(runs, |buf|, blobMax);
        SumSnoc(runs, |buf|);
      }
      var _ := Seal(channels(|ts|));
      NextFitBound(runs, blobMax);
      Halves(|sealed|, |runs|, blobMax);
    }

    lemma {:induction false} Halves(a: nat, b: nat, m: nat)
      requires a <= b
      ensures a / 2 * m <= b / 2 * m
    {
      Times(a / 2, b / 2, m);
    }

    lemma {:induction false} NoneYet(max: nat)
      ensures NextFit([], 0, max) && Sum([]) == 0 && Given([], []) == []
    {
    }

    lemma {:induction false} OneLonger(sizes: seq<nat>, logs: seq<seq<Bytes>>, i: nat)
      requires i < |logs| == |sizes|
      ensures Sum(Given(sizes[..i + 1], logs[..i + 1]))
           == Sum(Given(sizes[..i], logs[..i])) + Min(sizes[i], |Flatten(logs[i])|)
    {
      hide Sum, Flatten;
      assert Given(sizes[..i + 1], logs[..i + 1]) == Given(sizes[..i], logs[..i]) + [Min(sizes[i], |Flatten(logs[i])|)];
      SumSnoc(Given(sizes[..i], logs[..i]), Min(sizes[i], |Flatten(logs[i])|));
    }

    lemma {:induction false} RunMore(tracks: Tracks, owner: Owner, end: nat, segs: seq<Seg>, pending: seq<TrackId>,
            t: TrackId, len: nat)
      requires RunOk(tracks, owner, end, segs, pending) && SealingOf(tracks, owner) == {}
      requires t in tracks && tracks[t].packer == owner && tracks[t].stage.Claimed?
      ensures var tracks' := tracks[t := tracks[t].(stage := InRun(end, len))];
        RunOk(tracks', owner, end + len, segs + [Seg(t, 0, end, len)], pending + [t]) && SealingOf(tracks', owner) == {}
    {
      var tracks' := tracks[t := tracks[t].(stage := InRun(end, len))];
      var segs', pending' := segs + [Seg(t, 0, end, len)], pending + [t];
      assert segs'[..|segs|] == segs;
      forall x ensures x in RunOf(tracks', owner) <==> x in RunOf(tracks, owner) || x == t {
      }
      assert t !in RunOf(tracks, owner);
      forall x ensures x in SetOf(pending') <==> x in SetOf(pending) || x == t {
      }
      assert t !in SetOf(pending);
      forall x | x in SealingOf(tracks', owner) ensures x in SealingOf(tracks, owner) {
      }
    }
  
    // ---- large files ------------------------------------------------------------------------------

    /** One turn of splitLarge's loop: read, record, enqueue. */
    method SplitPiece(t: TrackId, seqNo: nat, off: nat, n: nat, chunks: seq<Bytes>, channel: nat) returns (len: nat)
      requires t in tracks && Disciplined(chunks) && 0 < n && off + n <= |Flatten(chunks)|
      modifies this`tracks, this`queue, this`nextBlob, this`data
      ensures len == n && nextBlob == old(nextBlob) + 1
      ensures tracks == old(tracks)[t := old(tracks)[t].(
                extents := old(tracks)[t].extents + [Extent(seqNo, off, n, old(nextBlob), 0)],
                remaining := old(tracks)[t].remaining + 1)]
      ensures queue == old(queue) + [BlobJob(old(nextBlob), Flatten(chunks)[off..off + n], channel, [t])]
      ensures data == old(data)[old(nextBlob) := Flatten(chunks)[off..off + n]]
    {
      hide Flatten, ReadRange, Disciplined;
      ReadRangeIsSlice(chunks, off, n);
      var piece := ReadRangeLoop(chunks, off, n);
      var b := nextBlob;
      nextBlob := nextBlob + 1;
      var tr := tracks[t];
      tracks := tracks[t := tr.(extents := tr.extents + [Extent(seqNo, off, |piece|, b, 0)],
        remaining := tr.remaining + 1)];
      queue := queue + [BlobJob(b, piece, channel, [t])];
      data := data[b := piece];
      len := |piece|;
    }

    /** splitLarge: the pieces of the file, in order, each its own blob of 1..blobMax bytes and all in one channel;
        the file's extents tile it over those blobs. It asks what it needs to end: that the log reaches the size. */
    method SplitLarge(t: TrackId, chunks: seq<Bytes>, blobMax: nat, channel: Option<nat>) returns (ready: bool)
      requires blobMax > 0 && t in tracks && tracks[t].stage.Claimed? && tracks[t].extents == []
      requires Disciplined(chunks) && (channel.Some? ==> tracks[t].size <= |Flatten(chunks)|)
      requires forall b :: b in data ==> b < nextBlob
      modifies this`tracks, this`queue, this`nextBlob, this`data
      ensures forall b :: b in data ==> b < nextBlob
      ensures channel.None? ==> tracks == old(tracks)[t := DropTrack(old(tracks[t]))] && queue == old(queue)
      ensures channel.Some? ==>
        && IsSplit(queue, old(queue), Flatten(chunks)[..old(tracks[t]).size], blobMax, old(nextBlob), channel.value, t)
        && |queue| >= |old(queue)| && Start(|queue| - |old(queue)|, blobMax) >= old(tracks[t]).size
        && t in tracks && tracks == old(tracks)[t := tracks[t]]
        && Tiled(tracks[t].extents) && Mapped(tracks[t].extents, data)
        && Assemble(tracks[t].extents, data) == Flatten(chunks)[..old(tracks[t]).size]
        && tracks[t] == PlanTrack(old(tracks[t]).(extents := tracks[t].extents,
                                                  remaining := old(tracks[t]).remaining + |tracks[t].extents|))
      ensures channel.Some? ==> forall i :: 0 <= i < |tracks[t].extents| ==> tracks[t].extents[i].seqNo == i
      ensures ready <==> channel.Some? && Ready(tracks[t])
    {
      hide Flatten, ReadRange, Disciplined, Tiled, Mapped, Assemble, Covered, IsSplit, EmitPiece, Start, SplitSoFar,
        RunOk, SealingOf, RunOf;
      ghost var before, was, first := tracks, queue, nextBlob;
      if channel.None? {
        tracks := tracks[t := tracks[t].(failed := true, stage := Dropped)];
        return false;
      }
      ghost var content := Flatten(chunks)[..tracks[t].size];
      var size := tracks[t].size;
      var off, seqNo := 0, 0;
      tracks := tracks[t := tracks[t].(stage := Splitting)];
      SplitNone(data, content, blobMax, first, channel.value, t, was);
      StartStep(0, blobMax);
      while off < size
        invariant off <= size && t in tracks && tracks == before[t := tracks[t]]
        invariant tracks[t] == before[t].(stage := Splitting, extents := tracks[t].extents,
                                          remaining := before[t].remaining + |tracks[t].extents|)
        invariant SplitSoFar(tracks[t].extents, data, content, off, nextBlob) && seqNo == |tracks[t].extents|
        invariant forall i :: 0 <= i < |tracks[t].extents| ==> tracks[t].extents[i].seqNo == i
        invariant off <= Start(seqNo, blobMax) && (off < size ==> off == Start(seqNo, blobMax))
        invariant IsSplit(queue, was, content[..off], blobMax, first, channel.value, t)
        invariant nextBlob == first + seqNo && |queue| == |was| + seqNo
        decreases size - off
      {
        var n := if blobMax <= size - off then blobMax else size - off;
        PrefixSlices(Flatten(chunks), size, off, off + n);
        SplitMore(tracks[t].extents, data, content, off, n, nextBlob, seqNo);
        SplitEmits(queue, was, content, off, n, blobMax, first, channel.value, t);
        var len := SplitPiece(t, seqNo, off, n, chunks, channel.value);
        StartStep(seqNo, blobMax);
        off := off + len;
        seqNo := seqNo + 1;
      }
      assert content[..off] == content;
      SplitDone(tracks[t].extents, data, content, off, nextBlob);
      var tr := tracks[t].(stage := Planned);
      ready := tr.remaining == 0 && !tr.failed;
      if ready {
        tr := tr.(calls := tr.calls + 1);
      }
      tracks := tracks[t := tr];
    }
  }

  /** The jobs after was are the consecutive blobMax-sized pieces of content, on fresh blobs of one channel. */
  ghost predicate IsSplit(queue: seq<BlobJob>, was: seq<BlobJob>, content: Bytes, max: nat, first: BlobId, channel: nat,
          t: TrackId)
  {
    && was <= queue
    && forall i :: |was| <= i < |queue| ==> IsPiece(queue[i], i - |was|, content, max, first, channel, t)
  }

  /** The job for piece k. */
  predicate IsPiece(job: BlobJob, k: nat, content: Bytes, max: nat, first: BlobId, channel: nat, t: TrackId) {
    var at := Start(k, max);
    at < |content| && job == BlobJob(first + k, content[at..Min(at + max, |content|)], channel, [t])
  }

  /** Where piece k begins. */
  function Start(k: nat, max: nat): nat {
    k * max
  }

  lemma {:induction false} StartStep(k: nat, max: nat)
    ensures Start(k + 1, max) == Start(k, max) + max && Start(0, max) == 0
  {
  }

  lemma {:induction false} StartBefore(a: nat, b: nat, max: nat)
    requires a < b
    ensures Start(a, max) + max <= Start(b, max)
  {
    StartStep(a, max);
    Times(a + 1, b, max);
  }

  ghost predicate SplitSoFar(ex: seq<Extent>, data: Data, content: Bytes, off: nat, next: BlobId) {
    && Tiled(ex) && Mapped(ex, data) && off <= |content| && Covered(ex) == off && Assemble(ex, data) == content[..off]
    && forall b :: b in data ==> b < next
  }

  lemma {:induction false} SplitNone(data: Data, content: Bytes, max: nat, first: BlobId, channel: nat, t: TrackId,
          was: seq<BlobJob>)
    requires forall b :: b in data ==> b < first
    ensures SplitSoFar([], data, content, 0, first)
    ensures IsSplit(was, was, content[..0], max, first, channel, t)
  {
  }

  lemma {:induction false} SplitMore(ex: seq<Extent>, data: Data, content: Bytes, off: nat, n: nat, b: BlobId,
          seqNo: nat)
    requires SplitSoFar(ex, data, content, off, b) && 0 < n <= |content| - off && seqNo == |ex|
    ensures SplitSoFar(ex + [Extent(seqNo, off, n, b, 0)], data[b := content[off..off + n]], content, off + n, b + 1)
  {
    var piece := content[off..off + n];
    var more := data[b := piece];
    var e := Extent(seqNo, off, n, b, 0);
    assert piece[0..n] == piece;
    assert InRange(e, more) && Piece(e, more) == piece;
    assert b !in data;
    assert !Names(ex, b) by {
      assert forall i :: 0 <= i < |ex| ==> InRange(ex[i], data);
    }
    hide Tiled, Mapped, Assemble, Covered, Names, Piece;
    AssembleMonotone(ex, data, more);
    Extend(ex, e, more);
    assert content[..off] + piece == content[..off + n];
  }

  lemma {:induction false} SplitDone(ex: seq<Extent>, data: Data, content: Bytes, off: nat, next: BlobId)
    requires SplitSoFar(ex, data, content, off, next) && off == |content|
    ensures Tiled(ex) && Mapped(ex, data) && Assemble(ex, data) == content && forall b :: b in data ==> b < next
  {
    assert content[..off] == content;
  }

  lemma {:induction false} SplitEmits(queue: seq<BlobJob>, was: seq<BlobJob>, content: Bytes, off: nat, n: nat,
          max: nat, first: BlobId, channel: nat, t: TrackId)
    requires max > 0 && |was| <= |queue| && off == Start(|queue| - |was|, max) && off <= |content|
    requires n == Min(max, |content| - off) && n > 0 && IsSplit(queue, was, content[..off], max, first, channel, t)
    ensures IsSplit(queue + [BlobJob(first + (|queue| - |was|), content[off..off + n], channel, [t])], was,
                    content[..off + n], max, first, channel, t)
  {
    hide Start, IsPiece;
    var k0 := |queue| - |was|;
    var job := BlobJob(first + k0, content[off..off + n], channel, [t]);
    var queue' := queue + [job];
    assert was <= queue && queue'[..|was|] == queue[..|was|];
    forall i | |was| <= i < |queue'| ensures IsPiece(queue'[i], i - |was|, content[..off + n], max, first, channel, t) {
      if i < |queue| {
        StartBefore(i - |was|, k0, max);
        assert queue'[i] == queue[i];
        PieceKept(queue[i], i - |was|, content, off, n, max, first, channel, t);
      } else {
        NewPiece(job, k0, content, off, n, max, first, channel, t);
      }
    }
  }

  lemma {:induction false} PieceKept(job: BlobJob, k: nat, content: Bytes, off: nat, n: nat, max: nat, first: BlobId,
          channel: nat, t: TrackId)
    requires off + n <= |content| && Start(k, max) + max <= off
        && IsPiece(job, k, content[..off], max, first, channel, t)
    requires n > 0
    ensures IsPiece(job, k, content[..off + n], max, first, channel, t)
  {
    hide Start;
    PrefixSlices(content, off, Start(k, max), Start(k, max) + max);
    PrefixSlices(content, off + n, Start(k, max), Start(k, max) + max);
  }

  lemma {:induction false} NewPiece(job: BlobJob, k: nat, content: Bytes, off: nat, n: nat, max: nat, first: BlobId,
          channel: nat, t: TrackId)
    requires off == Start(k, max) && off + n <= |content| && n == Min(max, |content| - off) && n > 0
    requires job == BlobJob(first + k, content[off..off + n], channel, [t])
    ensures IsPiece(job, k, content[..off + n], max, first, channel, t)
  {
    hide Start;
    PrefixSlices(content, off + n, off, off + n);
  }

  lemma {:induction false} PrefixSlices(content: Bytes, a: nat, lo: nat, hi: nat)
    requires lo <= hi <= a <= |content|
    ensures content[..a][lo..hi] == content[lo..hi]
  {
  }

  lemma {:induction false} Times(a: nat, b: nat, m: nat)
    requires a <= b
    ensures a * m <= b * m
  {
  }

  /** Cutting content into blobs of at most max bytes takes ceil(size / max) of them, none empty. */
  lemma {:induction false} SplitCount(queue: seq<BlobJob>, was: seq<BlobJob>, content: Bytes, max: nat, first: BlobId,
          channel: nat, t: TrackId)
    requires max > 0 && IsSplit(queue, was, content, max, first, channel, t)
    requires |queue| >= |was| && Start(|queue| - |was|, max) >= |content|
    ensures forall i :: |was| <= i < |queue| ==> 0 < |queue[i].bytes| <= max && queue[i].channel == channel
    ensures |queue| - |was| == (|content| + max - 1) / max
  {
    hide IsSplit;
    forall i | |was| <= i < |queue| ensures 0 < |queue[i].bytes| <= max && queue[i].channel == channel {
      PieceSize(queue, was, content, max, first, channel, t, i);
    }
    if |queue| > |was| {
      PieceSize(queue, was, content, max, first, channel, t, |queue| - 1);
    }
    Ceiling(|queue| - |was|, |content|, max);
  }

  lemma {:induction false} PieceSize(queue: seq<BlobJob>, was: seq<BlobJob>, content: Bytes, max: nat, first: BlobId,
          channel: nat, t: TrackId, i: nat)
    requires max > 0 && IsSplit(queue, was, content, max, first, channel, t) && |was| <= i < |queue|
    ensures 0 < |queue[i].bytes| <= max && queue[i].channel == channel && Start(i - |was|, max) < |content|
  {
    hide Start;
    assert IsPiece(queue[i], i - |was|, content, max, first, channel, t);
  }

  lemma {:induction false} Ceiling(k: nat, size: nat, max: nat)
    requires max > 0 && Start(k, max) >= size && (k > 0 ==> Start(k - 1, max) < size)
    ensures k == (size + max - 1) / max
  {
    if k > 0 {
      assert k * max == (k - 1) * max + max;
      var q, r := (size + max - 1) / max, (size + max - 1) % max;
      assert q * max + r == size + max - 1;
      if q < k {
        Times(q + 1, k, max);
      } else if q > k {
        Times(k + 1, q, max);
      }
    }
  }

  /** A piece read at off makes progress exactly when the log still reaches past off. */
  lemma {:induction false} SplitProgress(chunks: seq<Bytes>, off: nat, n: nat)
    requires Disciplined(chunks) && n > 0
    ensures ReadRange(chunks, off, n) != [] <==> off < |Flatten(chunks)|
  {
    hide Flatten, ReadRange, Disciplined;
    ReadRangeIsSlice(chunks, off, n);
  }
}
