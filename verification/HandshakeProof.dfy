/** Every mutex section of the builder and the workers keeps the handshake between them. */
module HandshakeProof {
  import opened Base
  import opened Extents
  import opened Tables
  import opened Packer

  /** Jobs that differ in no track's pending blobs and no failure. */
  ghost predicate SameJobs(jobs: Jobs, jobs': Jobs, t: TrackId) {
    && Pending(jobs', t) == Pending(jobs, t)
    && (forall b :: b in jobs' && FailedIn(jobs'[b], t) <==> b in jobs && FailedIn(jobs[b], t))
    && forall b :: b in jobs' && FailingIn(jobs'[b], t) <==> b in jobs && FailingIn(jobs[b], t)
  }

  lemma {:induction false} ShakeKept(tracks: Tracks, jobs: Jobs, tracks': Tracks, jobs': Jobs, t: TrackId)
    requires t in tracks && t in tracks' && tracks'[t] == tracks[t]
    requires TrackShake(tracks, jobs, t) && SameJobs(jobs, jobs', t)
    ensures TrackShake(tracks', jobs', t)
  {
    SameFailed(jobs, jobs', t);
    SameFailing(jobs, jobs', t);
  }

  lemma {:induction false} SameFailing(jobs: Jobs, jobs': Jobs, t: TrackId)
    requires forall b :: b in jobs' && FailingIn(jobs'[b], t) <==> b in jobs && FailingIn(jobs[b], t)
    ensures (exists b :: b in jobs && FailingIn(jobs[b], t)) <==> exists b :: b in jobs' && FailingIn(jobs'[b], t)
  {
    if b :| b in jobs && FailingIn(jobs[b], t) {
      assert b in jobs' && FailingIn(jobs'[b], t);
    }
    if b :| b in jobs' && FailingIn(jobs'[b], t) {
      assert b in jobs && FailingIn(jobs[b], t);
    }
  }

  /** Jobs and extents unchanged: only the per-track facts need a new proof. */
  lemma {:induction false} Regroup(tracks: Tracks, jobs: Jobs, tracks': Tracks, jobs': Jobs)
    requires Handshake(tracks, jobs) && tracks'.Keys == tracks.Keys && jobs'.Keys == jobs.Keys
    requires forall t :: t in tracks ==>
      tracks'[t].extents == tracks[t].extents && tracks'[t].packer == tracks[t].packer
    requires forall b :: b in jobs ==> jobs'[b].tracks == jobs[b].tracks && jobs'[b].packer == jobs[b].packer
    requires forall b :: b in jobs && jobs'[b].stage.Failing? ==> jobs'[b].stage.rest <= jobs'[b].tracks
    requires forall t :: t in tracks ==> TrackShake(tracks', jobs', t)
    ensures Handshake(tracks', jobs')
  {
    hide TrackShake, Names;
    forall t, b | t in tracks' ensures Names(tracks'[t].extents, b) <==> b in jobs' && t in jobs'[b].tracks {
      assert Names(tracks[t].extents, b) <==> b in jobs && t in jobs[b].tracks;
    }
  }

  /** Send, Take, Upload and Persist: a stage moves, nothing lands and nothing fails. */
  lemma {:induction false} StageMoves(tracks: Tracks, jobs: Jobs, b: BlobId, s: JobStage)
    requires Handshake(tracks, jobs) && b in jobs
    requires !jobs[b].stage.Landed? && !jobs[b].stage.Failing? && !s.Landed? && !s.Failing?
    ensures Handshake(tracks, jobs[b := jobs[b].(stage := s)])
  {
    var jobs' := jobs[b := jobs[b].(stage := s)];
    forall t | t in tracks ensures TrackShake(tracks, jobs', t) {
      assert Pending(jobs', t) == Pending(jobs, t);
      ShakeKept(tracks, jobs, tracks, jobs', t);
    }
    Regroup(tracks, jobs, tracks, jobs');
  }

  /** A failed upload dooms every track of the job. */
  lemma {:induction false} JobDoomed(tracks: Tracks, jobs: Jobs, b: BlobId)
    requires Handshake(tracks, jobs) && b in jobs && !jobs[b].stage.Landed? && !jobs[b].stage.Failing?
    ensures Handshake(DoomedAll(tracks, jobs[b].tracks), jobs[b := jobs[b].(stage := Failing(jobs[b].tracks))])
  {
    hide TrackShake;
    var jobs' := jobs[b := jobs[b].(stage := Failing(jobs[b].tracks))];
    var tracks' := DoomedAll(tracks, jobs[b].tracks);
    forall t | t in tracks' ensures TrackShake(tracks', jobs', t) {
      JobDoomedTrack(tracks, jobs, b, t);
    }
    Regroup(tracks, jobs, tracks', jobs');
  }

  lemma {:induction false} JobDoomedTrack(tracks: Tracks, jobs: Jobs, b: BlobId, t: TrackId)
    requires t in tracks && b in jobs && !jobs[b].stage.Landed? && !jobs[b].stage.Failing?
        && TrackShake(tracks, jobs, t)
    ensures TrackShake(DoomedAll(tracks, jobs[b].tracks), jobs[b := jobs[b].(stage := Failing(jobs[b].tracks))], t)
  {
    var jobs' := jobs[b := jobs[b].(stage := Failing(jobs[b].tracks))];
    var tracks' := DoomedAll(tracks, jobs[b].tracks);
    assert Pending(jobs', t) == Pending(jobs, t);
    if t in jobs[b].tracks {
      assert FailingIn(jobs'[b], t);
      SameFailed(jobs, jobs', t);
    } else {
      ShakeKept(tracks, jobs, tracks', jobs', t);
    }
  }

  lemma {:induction false} SameFailed(jobs: Jobs, jobs': Jobs, t: TrackId)
    requires forall b :: b in jobs' && FailedIn(jobs'[b], t) <==> b in jobs && FailedIn(jobs[b], t)
    ensures (exists b :: b in jobs && FailedIn(jobs[b], t)) <==> exists b :: b in jobs' && FailedIn(jobs'[b], t)
  {
    if b :| b in jobs && FailedIn(jobs[b], t) {
      assert b in jobs' && FailedIn(jobs'[b], t);
    }
    if b :| b in jobs' && FailedIn(jobs'[b], t) {
      assert b in jobs && FailedIn(jobs[b], t);
    }
  }

  /** A track changes only in ways the handshake does not look at. */
  lemma {:induction false} TrackMoves(tracks: Tracks, jobs: Jobs, t: TrackId, tr: Track)
    requires Handshake(tracks, jobs) && t in tracks
    requires tr == tracks[t].(stage := tr.stage, done := tr.done, failed := tr.failed)
    requires !tr.stage.Planned? || tracks[t].stage == tr.stage
    requires !tracks[t].stage.Planned? || tracks[t].stage == tr.stage
    requires tr.failed == (tracks[t].failed || tr.stage.Dropped?) && (tracks[t].stage.Dropped? ==> tr.stage.Dropped?)
    requires tr.done ==> tr.calls == 1 || tr.stage.Claimed?
    requires tr.stage.Claimed? || tr.stage.InRun? ==> tr.extents == []
    ensures Handshake(tracks[t := tr], jobs)
  {
    var tracks' := tracks[t := tr];
    forall x | x in tracks' ensures TrackShake(tracks', jobs, x) {
      assert TrackShake(tracks, jobs, x);
    }
    Regroup(tracks, jobs, tracks', jobs);
  }

  lemma {:induction false} TrackAdded(tracks: Tracks, jobs: Jobs, t: TrackId, tr: Track)
    requires Handshake(tracks, jobs) && t !in tracks
    requires tr.stage.Claimed? && tr.extents == [] && tr.remaining == 0 && !tr.failed && !tr.doomed && tr.calls == 0
    requires !tr.done
    ensures Handshake(tracks[t := tr], jobs)
  {
    var tracks' := tracks[t := tr];
    assert Pending(jobs, t) == {};
    forall x | x in tracks' ensures TrackShake(tracks', jobs, x) {
      if x != t {
        assert TrackShake(tracks, jobs, x);
      }
    }
    forall x, b | x in tracks' ensures Names(tracks'[x].extents, b) <==> b in jobs && x in jobs[b].tracks {
      if x != t {
        assert Names(tracks[x].extents, b) <==> b in jobs && x in jobs[b].tracks;
      }
    }
  }

  lemma {:induction false} NamesSnoc(ex: seq<Extent>, e: Extent, b: BlobId)
    ensures Names(ex + [e], b) <==> Names(ex, b) || e.blob == b
  {
    var all := ex + [e];
    if Names(ex, b) {
      var i :| 0 <= i < |ex| && ex[i].blob == b;
      assert all[i].blob == b;
    }
    if e.blob == b {
      assert all[|ex|].blob == b;
    }
    if Names(all, b) && e.blob != b {
      var i :| 0 <= i < |all| && all[i].blob == b;
      assert ex[i].blob == b;
    }
  }

  /** A staged blob is added and every track in it has one more blob outstanding. */
  lemma {:induction false} JobAdded(tracks: Tracks, jobs: Jobs, b: BlobId, p: Owner, ts: set<TrackId>, tracks': Tracks)
    requires Handshake(tracks, jobs) && b !in jobs && tracks'.Keys == tracks.Keys
    requires forall t :: t in ts ==> t in tracks && tracks[t].packer == p && !tracks[t].stage.Planned?
    requires forall t :: t in tracks && t !in ts ==> tracks'[t] == tracks[t]
    requires forall t :: t in ts ==>
      (&& tracks'[t] == tracks[t].(extents := tracks'[t].extents, remaining := tracks[t].remaining + 1,
                                   stage := tracks'[t].stage)
       && |tracks'[t].extents| == |tracks[t].extents| + 1
       && tracks'[t].extents == tracks[t].extents + [tracks'[t].extents[|tracks[t].extents|]]
       && tracks'[t].extents[|tracks[t].extents|].blob == b
       && (tracks'[t].stage.Splitting? || tracks'[t].stage.Sealing?) && !tracks[t].stage.Dropped? && !tracks[t].done)
    ensures Handshake(tracks', jobs[b := Job(p, ts, Staged)])
  {
    var jobs' := jobs[b := Job(p, ts, Staged)];
    forall t | t in tracks' ensures TrackShake(tracks', jobs', t) {
      JobAddedTrack(tracks, jobs, b, p, ts, tracks', t);
    }
    forall t, c | t in tracks' ensures Names(tracks'[t].extents, c) <==> c in jobs' && t in jobs'[c].tracks {
      assert Names(tracks[t].extents, c) <==> c in jobs && t in jobs[c].tracks;
      if t in ts {
        NamesSnoc(tracks[t].extents, tracks'[t].extents[|tracks[t].extents|], c);
      }
    }
  }

  lemma {:induction false} JobAddedTrack(tracks: Tracks, jobs: Jobs, b: BlobId, p: Owner, ts: set<TrackId>,
          tracks': Tracks, t: TrackId)
    requires t in tracks && t in tracks' && b !in jobs && TrackShake(tracks, jobs, t)
    requires t !in ts ==> tracks'[t] == tracks[t]
    requires t in ts ==>
      (&& tracks'[t] == tracks[t].(extents := tracks'[t].extents, remaining := tracks[t].remaining + 1,
                                   stage := tracks'[t].stage)
       && (tracks'[t].stage.Splitting? || tracks'[t].stage.Sealing?) && !tracks[t].stage.Dropped? && !tracks[t].done
       && !tracks[t].stage.Planned?)
    ensures TrackShake(tracks', jobs[b := Job(p, ts, Staged)], t)
  {
    var jobs' := jobs[b := Job(p, ts, Staged)];
    if t in ts {
      assert Pending(jobs', t) == Pending(jobs, t) + {b};
      SameFailed(jobs, jobs', t);
      SameFailing(jobs, jobs', t);
    } else {
      assert Pending(jobs', t) == Pending(jobs, t);
      ShakeKept(tracks, jobs, tracks', jobs', t);
    }
  }

  /** The worker's section after a blob is stored. */
  lemma {:induction false} JobLanded(tracks: Tracks, jobs: Jobs, b: BlobId)
    requires Handshake(tracks, jobs) && b in jobs && jobs[b].stage.Persisted?
    ensures Handshake(LandedAll(tracks, jobs[b].tracks), jobs[b := jobs[b].(stage := Landed)])
  {
    hide TrackShake, LandTrack;
    var jobs' := jobs[b := jobs[b].(stage := Landed)];
    var tracks' := LandedAll(tracks, jobs[b].tracks);
    LandTrackRest(tracks);
    forall t | t in tracks' ensures TrackShake(tracks', jobs', t) {
      JobLandedTrack(tracks, jobs, b, t);
    }
    Regroup(tracks, jobs, tracks', jobs');
  }

  lemma {:induction false} LandTrackRest(tracks: Tracks)
    ensures forall t :: t in tracks ==>
      LandTrack(tracks[t]).extents == tracks[t].extents && LandTrack(tracks[t]).packer == tracks[t].packer
  {
  }

  lemma {:induction false} JobLandedTrack(tracks: Tracks, jobs: Jobs, b: BlobId, t: TrackId)
    requires t in tracks && b in jobs && jobs[b].stage.Persisted? && TrackShake(tracks, jobs, t)
    ensures TrackShake(LandedAll(tracks, jobs[b].tracks), jobs[b := jobs[b].(stage := Landed)], t)
  {
    var jobs' := jobs[b := jobs[b].(stage := Landed)];
    var tracks' := LandedAll(tracks, jobs[b].tracks);
    if t in jobs[b].tracks {
      assert b in Pending(jobs, t);
      assert Pending(jobs', t) == Pending(jobs, t) - {b};
      SameFailed(jobs, jobs', t);
      SameFailing(jobs, jobs', t);
    } else {
      assert Pending(jobs', t) == Pending(jobs, t);
      ShakeKept(tracks, jobs, tracks', jobs', t);
    }
  }

  /** failTrack on one track of a failing job. */
  lemma {:induction false} OneFailed(tracks: Tracks, jobs: Jobs, b: BlobId, t: TrackId)
    requires Handshake(tracks, jobs) && b in jobs && jobs[b].stage.Failing? && t in jobs[b].stage.rest && t in tracks
    ensures Handshake(tracks[t := FailTrack(tracks[t])],
        jobs[b := jobs[b].(stage := Failing(jobs[b].stage.rest - {t}))])
  {
    var jobs' := jobs[b := jobs[b].(stage := Failing(jobs[b].stage.rest - {t}))];
    var tracks' := tracks[t := FailTrack(tracks[t])];
    forall x | x in tracks' ensures TrackShake(tracks', jobs', x) {
      assert TrackShake(tracks, jobs, x);
      assert Pending(jobs', x) == Pending(jobs, x);
      if x == t {
        assert b in Pending(jobs, t);
        assert tracks[t].remaining > 0;
        assert b in jobs' && FailedIn(jobs'[b], t);
        SameFailing(jobs, jobs', t);
      } else {
        ShakeKept(tracks, jobs, tracks', jobs', x);
      }
    }
    Regroup(tracks, jobs, tracks', jobs');
  }

  /** The builder's last section: a set of tracks becomes planned. */
  lemma {:induction false} BecomePlanned(tracks: Tracks, jobs: Jobs, ts: set<TrackId>, tracks': Tracks)
    requires Handshake(tracks, jobs) && tracks'.Keys == tracks.Keys
    requires forall t :: t in tracks ==> tracks'[t] == if t in ts then PlanTrack(tracks[t]) else tracks[t]
    requires forall t :: t in ts && t in tracks ==> tracks[t].stage.Splitting? || tracks[t].stage.Sealing?
    ensures Handshake(tracks', jobs)
  {
    hide Names, Pending, FailedIn, FailingIn;
    forall t | t in tracks' ensures TrackShake(tracks', jobs, t) {
      assert TrackShake(tracks, jobs, t);
    }
    Regroup(tracks, jobs, tracks', jobs);
  }

  lemma {:induction false} RunDropped(tracks: Tracks, jobs: Jobs, p: Owner)
    requires Handshake(tracks, jobs)
    ensures Handshake(SealDropped(tracks, p), jobs)
  {
    hide Names, Pending, FailedIn, FailingIn;
    var tracks' := SealDropped(tracks, p);
    forall t | t in tracks' ensures TrackShake(tracks', jobs, t) {
      assert TrackShake(tracks, jobs, t);
    }
    Regroup(tracks, jobs, tracks', jobs);
  }

  lemma {:induction false} PackerGone(tracks: Tracks, jobs: Jobs, p: Owner, tracks': Tracks, jobs': Jobs)
    requires Handshake(tracks, jobs)
    requires tracks' == map t | t in tracks && tracks[t].packer != p :: tracks[t]
    requires jobs' == map b | b in jobs && jobs[b].packer != p :: jobs[b]
    ensures Handshake(tracks', jobs')
  {
    hide Names, TrackShake;
    forall t | t in tracks' ensures TrackShake(tracks', jobs', t) {
      assert TrackShake(tracks, jobs, t);
      assert forall b :: b in jobs && t in jobs[b].tracks ==> b in jobs';
      assert Pending(jobs', t) == Pending(jobs, t);
      ShakeKept(tracks, jobs, tracks', jobs', t);
    }
    forall x, c | x in tracks' ensures Names(tracks'[x].extents, c) <==> c in jobs' && x in jobs'[c].tracks {
      assert Names(tracks[x].extents, c) <==> c in jobs && x in jobs[c].tracks;
    }
  }
}
