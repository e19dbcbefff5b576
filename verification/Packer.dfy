/** The state the packer's builder and upload workers share, and what each mutex section does to it. */
module Packer {
  import opened Base
  import opened Extents
  import opened Tables

  type TrackId = nat
  type Tracks = map<TrackId, Track>
  type Jobs = map<BlobId, Job>

  /** How far the builder has come with a claimed node: claimed but untouched, being split, its bytes in the
      run buffer, its blob staged but not yet planned, planned, or given up. */
  datatype Stage = Claimed | Splitting | InRun(from: nat, len: nat) | Sealing | Planned | Dropped

  /** One claimed node. calls counts how often finalize was decided on; done says the call has run. doomed records
      that the upload of one of its blobs has failed; failed is set later, when failTrack reaches the track. */
  datatype Track = Track(
    packer: Owner, node: NodeId, size: nat, stage: Stage, remaining: int, failed: bool, doomed: bool,
    extents: seq<Extent>, calls: nat, done: bool)

  datatype JobStage = Staged | Queued | Uploading | Uploaded | Persisted | Landed | Failing(rest: set<TrackId>)

  datatype Job = Job(packer: Owner, tracks: set<TrackId>, stage: JobStage)

  /** The track may still finalize its node. */
  predicate Live(tr: Track) {
    !tr.failed && !tr.doomed && !tr.done && !tr.stage.Dropped?
  }

  function NewTrack(p: Owner, n: NodeId, size: nat): Track {
    Track(p, n, size, Claimed, 0, false, false, [], 0, false)
  }

  predicate Ready(tr: Track) {
    tr.stage.Planned? && tr.remaining == 0 && !tr.failed
  }

  /** splitLarge's first section: one more extent, one more outstanding blob. */
  function EmitPiece(tr: Track, b: BlobId, len: nat): Track {
    tr.(extents := tr.extents + [Extent(|tr.extents|, Covered(tr.extents), len, b, 0)],
        remaining := tr.remaining + 1)
  }

  /** Setting planned; if nothing is outstanding the builder calls finalize itself. */
  function PlanTrack(tr: Track): Track {
    var tr' := tr.(stage := Planned);
    if Ready(tr') then tr'.(calls := tr.calls + 1) else tr'
  }

  /** A blob of the track landed; the worker that sees the count reach zero calls finalize. */
  function LandTrack(tr: Track): Track {
    var tr' := tr.(remaining := tr.remaining - 1);
    if Ready(tr') then tr'.(calls := tr.calls + 1) else tr'
  }

  function SealTrack(tr: Track, b: BlobId): Track
    requires tr.stage.InRun?
  {
    tr.(extents := tr.extents + [Extent(0, 0, tr.stage.len, b, tr.stage.from)],
        remaining := tr.remaining + 1, stage := Sealing)
  }

  function FailTrack(tr: Track): Track {
    tr.(failed := true)
  }

  function DoomTrack(tr: Track): Track {
    tr.(doomed := true)
  }

  function DropTrack(tr: Track): Track {
    tr.(failed := true, stage := Dropped)
  }

  ghost function RunOf(tracks: Tracks, p: Owner): set<TrackId> {
    set t | t in tracks && tracks[t].packer == p && tracks[t].stage.InRun?
  }

  ghost function SealingOf(tracks: Tracks, p: Owner): set<TrackId> {
    set t | t in tracks && tracks[t].packer == p && tracks[t].stage.Sealing?
  }

  ghost function Sealed(tracks: Tracks, p: Owner, b: BlobId): Tracks {
    map t | t in tracks :: if t in RunOf(tracks, p) then SealTrack(tracks[t], b) else tracks[t]
  }

  ghost function SealDropped(tracks: Tracks, p: Owner): Tracks {
    map t | t in tracks :: if t in RunOf(tracks, p) then DropTrack(tracks[t]) else tracks[t]
  }

  ghost function PlannedAll(tracks: Tracks, p: Owner): Tracks {
    map t | t in tracks :: if t in SealingOf(tracks, p) then PlanTrack(tracks[t]) else tracks[t]
  }

  ghost function LandedAll(tracks: Tracks, ts: set<TrackId>): Tracks {
    map t | t in tracks :: if t in ts then LandTrack(tracks[t]) else tracks[t]
  }

  ghost function DoomedAll(tracks: Tracks, ts: set<TrackId>): Tracks {
    map t | t in tracks :: if t in ts then DoomTrack(tracks[t]) else tracks[t]
  }

  // ---- the handshake ----------------------------------------------------------------------------

  /** The blobs of a track that have not landed. */
  ghost function Pending(jobs: Jobs, t: TrackId): set<BlobId> {
    set b | b in jobs && t in jobs[b].tracks && !jobs[b].stage.Landed?
  }

  predicate FailedIn(job: Job, t: TrackId) {
    t in job.tracks && job.stage.Failing? && t !in job.stage.rest
  }

  predicate FailingIn(job: Job, t: TrackId) {
    t in job.tracks && job.stage.Failing?
  }

  ghost predicate TrackShake(tracks: Tracks, jobs: Jobs, t: TrackId)
    requires t in tracks
  {
    var tr := tracks[t];
    && tr.remaining == |Pending(jobs, t)|
    && tr.calls == (if Ready(tr) then 1 else 0)
    && (tr.done ==> tr.calls == 1 || tr.stage.Claimed?)
    && (tr.failed <==> tr.stage.Dropped? || exists b :: b in jobs && FailedIn(jobs[b], t))
    && (tr.doomed <==> exists b :: b in jobs && FailingIn(jobs[b], t))
    && (tr.stage.Claimed? || tr.stage.InRun? ==> tr.extents == [])
  }

  ghost predicate Handshake(tracks: Tracks, jobs: Jobs) {
    && (forall b, t :: b in jobs && t in jobs[b].tracks ==> t in tracks && tracks[t].packer == jobs[b].packer)
    && (forall t, b :: t in tracks ==> (Names(tracks[t].extents, b) <==> b in jobs && t in jobs[b].tracks))
    && (forall b :: b in jobs && jobs[b].stage.Failing? ==> jobs[b].stage.rest <= jobs[b].tracks)
    && forall t :: t in tracks ==> TrackShake(tracks, jobs, t)
  }

  /** Finalize is decided at most once per track, only when the track is planned and unfailed and every blob
      it names has landed; and once a track is planned and all its blobs have landed it has been decided. */
  lemma {:induction false} FinalizeDecided(tracks: Tracks, jobs: Jobs, t: TrackId)
    requires Handshake(tracks, jobs) && t in tracks
    ensures tracks[t].calls <= 1
    ensures var tr := tracks[t];
            tr.calls == 1 <==> tr.stage.Planned? && forall b :: Names(tr.extents, b) ==> jobs[b].stage.Landed?
    ensures tracks[t].calls == 1 ==> !tracks[t].failed
  {
    var tr := tracks[t];
    var pending := Pending(jobs, t);
    if tr.calls == 1 {
      assert pending == {};
      forall b | Names(tr.extents, b) ensures jobs[b].stage.Landed? {
        assert b !in pending;
      }
    }
    if tr.stage.Planned? && forall b :: Names(tr.extents, b) ==> jobs[b].stage.Landed? {
      forall b | b in jobs && t in jobs[b].tracks ensures jobs[b].stage.Landed? {
        assert Names(tr.extents, b);
      }
      assert pending == {};
      assert !exists b :: b in jobs && FailedIn(jobs[b], t);
    }
  }
}
