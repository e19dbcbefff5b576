/** Resolving a blob: the cache, then every usable member bot of the channel, the ones that already know a file id
    first. Reads fail closed on a hash mismatch, and a blob is given up for lost only when every bot has failed
    and one of them was told that the message is gone. Telegram's answers are inputs. */
module BlobReader {
  import opened Base
  import opened Extents
  import opened Tables
  import opened Tree
  import Fs = FileSystem
  import Lru = BlobCache

  type BotId = nat
  type FileId = string

  datatype Answer<T> = Good(value: T) | NotFound | RateLimited(retryAfter: nat) | Forbidden | Broken

  /** What Telegram answers one bot: to a download by the cached file id, to forwarding the message, and to a
      download by the fresh file id. */
  datatype Replies = Replies(cached: Answer<Bytes>, forward: Answer<FileId>, recovered: Answer<Bytes>)

  datatype Bot = Bot(enabled: bool, unavailableUntil: Option<Time>)

  datatype Membership = Membership(bot: BotId, member: bool)

  datatype Candidate = Candidate(bot: BotId, fileId: FileId)

  type Files = map<(BlobId, BotId), FileId>

  // ---- candidates ---------------------------------------------------------------------------------

  predicate Available(bots: map<BotId, Bot>, id: BotId, now: Time) {
    id in bots && bots[id].enabled && (bots[id].unavailableUntil.None? || now >= bots[id].unavailableUntil.value)
  }

  /** The member bots of a listing, each at its first mention. */
  function Members(listing: seq<Membership>): seq<BotId> {
    if listing == [] then []
    else
      var init, last := Members(listing[..|listing| - 1]), listing[|listing| - 1];
      if last.member && last.bot !in init then init + [last.bot] else init
  }

  function Filter<T>(p: T -> bool, s: seq<T>): seq<T> {
    if s == [] then []
    else
      var init, last := Filter(p, s[..|s| - 1]), s[|s| - 1];
      if p(last) then init + [last] else init
  }

  lemma {:induction false} FilterSnoc<T>(p: T -> bool, s: seq<T>, i: nat)
    requires i < |s|
    ensures Filter(p, s[..i + 1]) == Filter(p, s[..i]) + if p(s[i]) then [s[i]] else []
  {
    assert s[..i + 1][..i] == s[..i];
  }

  lemma {:induction false} FilterIs<T>(p: T -> bool, s: seq<T>)
    ensures forall x :: x in Filter(p, s) <==> x in s && p(x)
    ensures Distinct(s) ==> Distinct(Filter(p, s))
  {
    if s != [] {
      FilterIs(p, s[..|s| - 1]);
      assert s == s[..|s| - 1] + [s[|s| - 1]];
    }
  }

  lemma {:induction false} MembersIs(listing: seq<Membership>)
    ensures Distinct(Members(listing))
    ensures forall id :: id in Members(listing) <==> Membership(id, true) in listing
  {
    if listing != [] {
      MembersIs(listing[..|listing| - 1]);
      assert listing == listing[..|listing| - 1] + [listing[|listing| - 1]];
    }
  }

  function Bots(cs: seq<Candidate>): seq<BotId> {
    if cs == [] then [] else Bots(cs[..|cs| - 1]) + [cs[|cs| - 1].bot]
  }

  lemma {:induction false} BotsSnoc(cs: seq<Candidate>, c: Candidate)
    ensures Bots(cs + [c]) == Bots(cs) + [c.bot]
  {
    assert (cs + [c])[..|cs|] == cs;
  }

  lemma {:induction false} BotsAt(cs: seq<Candidate>)
    ensures |Bots(cs)| == |cs| && forall i :: 0 <= i < |cs| ==> Bots(cs)[i] == cs[i].bot
  {
    if cs != [] {
      BotsAt(cs[..|cs| - 1]);
    }
  }

  function UsableMembers(listing: seq<Membership>, bots: map<BotId, Bot>, now: Time): seq<BotId> {
    Filter(id => Available(bots, id, now), Members(listing))
  }

  /** The candidate order: usable members with a cached file id, then the others, each group as listed. */
  predicate InOrder(cs: seq<Candidate>, order: seq<BotId>, files: Files, b: BlobId) {
    && Bots(cs) == Filter(id => (b, id) in files, order) + Filter(id => (b, id) !in files, order)
    && forall c :: c in cs ==> c.fileId == if (b, c.bot) in files then files[(b, c.bot)] else ""
  }

  /** Each usable member bot is a candidate exactly once, and none without a cached file id precedes one with. */
  lemma {:induction false} CandidatesOnce(cs: seq<Candidate>, listing: seq<Membership>, bots: map<BotId, Bot>,
          now: Time, files: Files, b: BlobId)
    requires InOrder(cs, UsableMembers(listing, bots, now), files, b)
    ensures forall i, j :: 0 <= i < j < |cs| ==> cs[i].bot != cs[j].bot
    ensures forall id :: (exists i :: 0 <= i < |cs| && cs[i].bot == id) <==>
      && Membership(id, true) in listing && id in bots && bots[id].enabled
      && (bots[id].unavailableUntil.Some? ==> now >= bots[id].unavailableUntil.value)
    ensures forall i, j :: 0 <= i < j < |cs| && (b, cs[j].bot) in files ==> (b, cs[i].bot) in files
    ensures forall i :: 0 <= i < |cs| ==> cs[i].fileId == if (b, cs[i].bot) in files then files[(b, cs[i].bot)] else ""
  {
    AvailableIs(bots, now);
    hide Available, Members, Filter, Bots;
    var order := UsableMembers(listing, bots, now);
    MembersIs(listing);
    FilterIs(id => Available(bots, id, now), Members(listing));
    FilterIs(id => (b, id) in files, order);
    FilterIs(id => (b, id) !in files, order);
    BotsAt(cs);
    TwoGroups(Bots(cs), Filter(id => (b, id) in files, order), Filter(id => (b, id) !in files, order), files, b);
    forall i, j | 0 <= i < j < |cs| ensures cs[i].bot != cs[j].bot {
      assert Bots(cs)[i] != Bots(cs)[j];
    }
    forall id ensures id in Bots(cs) <==> Membership(id, true) in listing && Available(bots, id, now) {
    }
    forall id ensures (exists i :: 0 <= i < |cs| && cs[i].bot == id) <==> id in Bots(cs) {
      if id in Bots(cs) {
        var i :| 0 <= i < |cs| && Bots(cs)[i] == id;
      }
    }
    forall i | 0 <= i < |cs| ensures cs[i].fileId == if (b, cs[i].bot) in files then files[(b, cs[i].bot)] else "" {
      assert cs[i] in cs;
    }
  }

  /** A disabled bot is never usable; a parked one is again exactly once its time has come. */
  lemma {:induction false} AvailableIs(bots: map<BotId, Bot>, now: Time)
    ensures forall id :: Available(bots, id, now) <==>
      && id in bots && bots[id].enabled
      && (bots[id].unavailableUntil.Some? ==> now >= bots[id].unavailableUntil.value)
  {
  }

  /** What a failed answer does to its bot: a rate limit of r seconds makes it unusable until now + r and no longer, a
      refusal ends its membership of this channel, anything else leaves it as it was; other bots are untouched. */
  lemma {:induction false} NoteMeans<T>(bots: map<BotId, Bot>, members: map<nat, seq<Membership>>, channel: nat,
          id: BotId, answer: Answer<T>, now: Time)
    ensures var bots' := Parked(bots, id, NoteOf(answer), now);
      && (answer.RateLimited? ==> forall t: Time ::
            Available(bots', id, t) <==> id in bots && bots[id].enabled && t >= now + answer.retryAfter)
      && (!answer.RateLimited? ==> bots' == bots)
      && forall x :: x != id ==> (x in bots' <==> x in bots) && (x in bots ==> bots'[x] == bots[x])
    ensures var members' := Refused(members, channel, id, NoteOf(answer));
      && (answer.Forbidden? && channel in members ==>
           && channel in members' && |members'[channel]| == |members[channel]|
           && forall i :: 0 <= i < |members[channel]| ==>
                members'[channel][i] == if members[channel][i].bot == id then Membership(id, false)
                                        else members[channel][i])
      && (!answer.Forbidden? ==> members' == members)
      && forall c :: c != channel ==> (c in members' <==> c in members) && (c in members ==> members'[c] == members[c])
  {
  }

  lemma {:induction false} TwoGroups(all: seq<BotId>, fast: seq<BotId>, slow: seq<BotId>, files: Files, b: BlobId)
    requires all == fast + slow && Distinct(fast) && Distinct(slow)
    requires (forall id :: id in fast ==> (b, id) in files) && forall id :: id in slow ==> (b, id) !in files
    ensures Distinct(all)
    ensures forall i, j :: 0 <= i < j < |all| && (b, all[j]) in files ==> (b, all[i]) in files
  {
    assert forall i :: 0 <= i < |fast| ==> all[i] == fast[i] && fast[i] in fast;
    assert forall i :: |fast| <= i < |all| ==> all[i] == slow[i - |fast|] && slow[i - |fast|] in slow;
  }

  method Candidates(b: BlobId, listing: seq<Membership>, bots: map<BotId, Bot>, files: Files, now: Time)
    returns (cs: seq<Candidate>)
    ensures InOrder(cs, UsableMembers(listing, bots, now), files, b)
  {
    hide Available, Bots;
    var memberIDs := MemberIDs(listing);
    var order: seq<BotId> := [];
    ghost var usable := id => Available(bots, id, now);
    for i := 0 to |memberIDs|
      invariant order == Filter(usable, memberIDs[..i])
    {
      FilterSnoc(usable, memberIDs, i);
      if Available(bots, memberIDs[i], now) {
        order := order + [memberIDs[i]];
      }
    }
    assert memberIDs[..|memberIDs|] == memberIDs;
    MembersIs(listing);
    FilterIs(usable, memberIDs);
    cs := Ordered(b, order, files);
  }

  method MemberIDs(listing: seq<Membership>) returns (memberIDs: seq<BotId>)
    ensures memberIDs == Members(listing)
  {
    memberIDs := [];
    var seen: set<BotId> := {};
    for i := 0 to |listing|
      invariant memberIDs == Members(listing[..i])
      invariant forall id :: id in seen <==> id in memberIDs
    {
      assert listing[..i + 1][..i] == listing[..i];
      if listing[i].member && listing[i].bot !in seen {
        seen := seen + {listing[i].bot};
        memberIDs := memberIDs + [listing[i].bot];
      }
    }
    assert listing[..|listing|] == listing;
  }

  /** The two passes over the usable members. */
  method Ordered(b: BlobId, order: seq<BotId>, files: Files) returns (cs: seq<Candidate>)
    requires Distinct(order)
    ensures InOrder(cs, order, files, b)
  {
    hide Bots;
    ghost var fast, slow := id => (b, id) in files, id => (b, id) !in files;
    cs := [];
    var added: set<BotId> := {};
    BotsAt(cs);
    for i := 0 to |order|
      invariant Bots(cs) == Filter(fast, order[..i])
      invariant forall c :: c in cs ==> c.fileId == if (b, c.bot) in files then files[(b, c.bot)] else ""
      invariant forall k :: 0 <= k < |order| ==> (order[k] in added <==> k < i && (b, order[k]) in files)
    {
      FilterSnoc(fast, order, i);
      if (b, order[i]) in files {
        BotsSnoc(cs, Candidate(order[i], files[(b, order[i])]));
        cs := cs + [Candidate(order[i], files[(b, order[i])])];
        added := added + {order[i]};
      }
    }
    assert order[..|order|] == order;
    ghost var first := Filter(fast, order);
    for i := 0 to |order|
      invariant Bots(cs) == first + Filter(slow, order[..i])
      invariant forall c :: c in cs ==> c.fileId == if (b, c.bot) in files then files[(b, c.bot)] else ""
      invariant forall k :: i <= k < |order| ==> (order[k] in added <==> (b, order[k]) in files)
    {
      FilterSnoc(slow, order, i);
      if order[i] !in added {
        BotsSnoc(cs, Candidate(order[i], ""));
        cs := cs + [Candidate(order[i], "")];
        added := added + {order[i]};
      }
    }
  }

  // ---- one bot ------------------------------------------------------------------------------------

  /** verifyIntegrity: a blob without a recorded hash is accepted as it is. */
  predicate Verifies(digest: Bytes -> Bytes, hash: Bytes, bytes: Bytes) {
    hash == [] || digest(bytes) == hash
  }

  /** Whether this bot's attempt gets as far as forwarding the message. */
  predicate Forwards(digest: Bytes -> Bytes, hash: Bytes, c: Candidate, reply: Replies) {
    c.fileId == "" || reply.cached.NotFound? || (reply.cached.Good? && !Verifies(digest, hash, reply.cached.value))
  }

  /** The bytes this bot gets, if any: verified, by the cached file id or else by a forwarded copy. */
  function Serves(digest: Bytes -> Bytes, hash: Bytes, c: Candidate, reply: Replies): (r: Option<Bytes>)
    ensures r.Some? ==> Verifies(digest, hash, r.value)
  {
    if Forwards(digest, hash, c, reply) then
      if reply.forward.Good? && reply.recovered.Good? && Verifies(digest, hash, reply.recovered.value)
      then Some(reply.recovered.value) else None
    else if reply.cached.Good? then Some(reply.cached.value)
    else None
  }

  /** This bot was told, on forwarding, that the message is gone. */
  predicate ToldGone(digest: Bytes -> Bytes, hash: Bytes, c: Candidate, reply: Replies) {
    Forwards(digest, hash, c, reply) && reply.forward.NotFound?
  }

  /** What a failed request teaches about its bot: wait, or no member any more. */
  datatype Note = Nothing | Park(retryAfter: nat) | Leave

  function NoteOf<T>(answer: Answer<T>): Note {
    match answer
    case RateLimited(retryAfter) => Park(retryAfter)
    case Forbidden => Leave
    case _ => Nothing
  }

  /** The request that ends the attempt decides; a download by a cached id ends it unless the message is forwarded. */
  function NotedBy(digest: Bytes -> Bytes, hash: Bytes, c: Candidate, reply: Replies): Note {
    if !Forwards(digest, hash, c, reply) then NoteOf(reply.cached)
    else if !reply.forward.Good? then NoteOf(reply.forward)
    else NoteOf(reply.recovered)
  }

  function Parked(bots: map<BotId, Bot>, id: BotId, note: Note, now: Time): map<BotId, Bot> {
    if note.Park? && id in bots then bots[id := bots[id].(unavailableUntil := Some(now + note.retryAfter))] else bots
  }

  function Refused(members: map<nat, seq<Membership>>, channel: nat, id: BotId, note: Note): map<nat, seq<Membership>> {
    if note.Leave? && channel in members then members[channel := NoMember(members[channel], id)] else members
  }

  ghost predicate SameForOthers(b: BlobId, files: Files, files': Files) {
    forall k: (BlobId, BotId) :: k.0 != b ==> (k in files' <==> k in files) && (k in files ==> files'[k] == files[k])
  }

  function NoMember(listing: seq<Membership>, id: BotId): seq<Membership> {
    seq(|listing|, i requires 0 <= i < |listing| => if listing[i].bot == id then Membership(id, false) else listing[i])
  }

  /** The tables after a read: untouched, or the blob marked and the files that lived only on it deleted. */
  predicate Marked(nodes: Nodes, blobs: Blobs, nodes': Nodes, blobs': Blobs, b: BlobId, lost: bool) {
    if lost then b in blobs && nodes' == WithoutSole(nodes, b)
        && blobs' == blobs[b := blobs[b].(state := PermUnavailable)]
    else nodes' == nodes && blobs' == blobs
  }

  class BlobReader {
    const fs: Fs.FileSystem
    const cache: Lru.Cache
    /** SHA-256. */
    const digest: Bytes -> Bytes
    /** blobs.content_hash. */
    const hashes: map<BlobId, Bytes>
    var files: Files
    var bots: map<BotId, Bot>
    var members: map<nat, seq<Membership>>

    constructor (fs: Fs.FileSystem, cache: Lru.Cache, digest: Bytes -> Bytes, hashes: map<BlobId, Bytes>, files: Files,
            bots: map<BotId, Bot>, members: map<nat, seq<Membership>>)
      ensures this.fs == fs && this.cache == cache && this.digest == digest && this.hashes == hashes
    {
      this.fs, this.cache, this.digest, this.hashes := fs, cache, digest, hashes;
      this.files, this.bots, this.members := files, bots, members;
    }

    function Hash(b: BlobId): Bytes {
      if b in hashes then hashes[b] else []
    }

    /** Every file in the cache directory holds bytes that match its blob's hash. */
    ghost predicate CacheTrusted()
      reads this, cache
    {
      cache.Valid() &&
      forall b :: b in cache.dir && b in hashes && hashes[b] != [] ==> digest(cache.dir[b]) == hashes[b]
    }

    method ParkBot(id: BotId, retryAfter: nat, now: Time)
      modifies this`bots
      ensures bots == Parked(old(bots), id, Park(retryAfter), now)
    {
      if id in bots {
        bots := bots[id := bots[id].(unavailableUntil := Some(now + retryAfter))];
      }
    }

    /** deleteStaleFileID drops every bot's file id for the blob and no other blob's. */
    method DeleteStale(b: BlobId)
      modifies this`files
      ensures SameForOthers(b, old(files), files) && forall id: BotId :: (b, id) !in files
    {
      files := map k | k in files && k.0 != b :: files[k];
    }

    method RecordNonMember(id: BotId, channel: nat)
      modifies this`members
      ensures members == Refused(old(members), channel, id, Leave)
    {
      if channel in members {
        members := members[channel := NoMember(members[channel], id)];
      }
    }

    /** The failures every request handles alike: a rate limit parks the bot, a refusal ends its membership. */
    method NoteFailure<T>(c: Candidate, channel: nat, answer: Answer<T>, now: Time)
      modifies this`bots, this`members
      ensures bots == Parked(old(bots), c.bot, NoteOf(answer), now)
      ensures members == Refused(old(members), channel, c.bot, NoteOf(answer))
    {
      match answer
      case RateLimited(retryAfter) => ParkBot(c.bot, retryAfter, now);
      case Forbidden => RecordNonMember(c.bot, channel);
      case _ =>
    }

    /** tryCandidate: only verified bytes come back, and gone is reported only when forwarding itself found no
        message. A stale or corrupt file id is dropped before the message is forwarded. */
    method TryCandidate(b: BlobId, channel: nat, c: Candidate, reply: Replies, now: Time)
      returns (r: Option<Bytes>, gone: bool)
      modifies this`files, this`bots, this`members
      ensures r == Serves(digest, Hash(b), c, reply)
      ensures gone <==> ToldGone(digest, Hash(b), c, reply)
      ensures r.Some? && Hash(b) != [] ==> digest(r.value) == Hash(b)
      ensures r.Some? ==> reply.cached == Good(r.value) || reply.recovered == Good(r.value)
      ensures c.fileId != "" && reply.cached.Good? && (Hash(b) == [] || digest(reply.cached.value) == Hash(b)) ==>
        r == Some(reply.cached.value) && files == old(files)
      ensures (c.fileId == "" || reply.cached.NotFound?
              || (reply.cached.Good? && Hash(b) != [] && digest(reply.cached.value) != Hash(b))) ==>
        && (gone <==> reply.forward.NotFound?)
        && (reply.forward.Good? && reply.recovered.Good? ==>
              (Hash(b) == [] || digest(reply.recovered.value) == Hash(b) ==> r == Some(reply.recovered.value)))
      ensures gone ==> reply.forward.NotFound? && r.None?
      ensures c.fileId != "" && !reply.cached.Good? && !reply.cached.NotFound? ==> r.None? && !gone
      ensures SameForOthers(b, old(files), files)
      ensures !Forwards(digest, Hash(b), c, reply) ==> files == old(files)
      ensures c.fileId == "" ==>
        files == if r.Some? then old(files)[(b, c.bot) := reply.forward.value] else old(files)
      ensures Forwards(digest, Hash(b), c, reply) && c.fileId != "" ==> forall id :: id != c.bot ==> (b, id) !in files
      ensures Forwards(digest, Hash(b), c, reply) && r.Some? ==>
          (b, c.bot) in files && files[(b, c.bot)] == reply.forward.value
      ensures r.Some? || gone ==> bots == old(bots) && members == old(members)
      ensures c.fileId != "" && !reply.cached.Good? && !reply.cached.NotFound? ==>
        && bots == Parked(old(bots), c.bot, NoteOf(reply.cached), now)
        && members == Refused(old(members), channel, c.bot, NoteOf(reply.cached))
      ensures c.fileId == "" && !reply.forward.Good? ==>
        && bots == Parked(old(bots), c.bot, NoteOf(reply.forward), now)
        && members == Refused(old(members), channel, c.bot, NoteOf(reply.forward))
      ensures c.fileId == "" && reply.forward.Good? ==>
        && bots == Parked(old(bots), c.bot, NoteOf(reply.recovered), now)
        && members == Refused(old(members), channel, c.bot, NoteOf(reply.recovered))
      ensures bots == Parked(old(bots), c.bot, NotedBy(digest, Hash(b), c, reply), now)
      ensures members == Refused(old(members), channel, c.bot, NotedBy(digest, Hash(b), c, reply))
    {
      gone := false;
      if c.fileId != "" {
        match reply.cached {
          case Good(bytes) =>
            if Verifies(digest, Hash(b), bytes) {
              return Some(bytes), false;
            }
            DeleteStale(b);
          case NotFound =>
            DeleteStale(b);
          case _ =>
            NoteFailure(c, channel, reply.cached, now);
            return None, false;
        }
      }
      if reply.forward.NotFound? {
        return None, true;
      }
      if !reply.forward.Good? {
        NoteFailure(c, channel, reply.forward, now);
        return None, false;
      }
      if !reply.recovered.Good? {
        NoteFailure(c, channel, reply.recovered, now);
        return None, false;
      }
      if !Verifies(digest, Hash(b), reply.recovered.value) {
        return None, false;
      }
      files := files[(b, c.bot) := reply.forward.value];
      r := Some(reply.recovered.value);
    }

    /** r is what candidate i serves, and no candidate before it serves anything. */
    ghost predicate FirstServes(b: BlobId, cs: seq<Candidate>, replies: BotId -> Replies, r: Option<Bytes>) {
      exists i :: 0 <= i < |cs| && r == Serves(digest, Hash(b), cs[i], replies(cs[i].bot))
                  && forall j :: 0 <= j < i ==> Serves(digest, Hash(b), cs[j], replies(cs[j].bot)).None?
    }

    /** The loop over the candidates: the first that serves the blob wins; otherwise every one was tried. */
    method TryAll(b: BlobId, channel: nat, cs: seq<Candidate>, replies: BotId -> Replies, now: Time)
      returns (r: Option<Bytes>, permGone: bool)
      modifies this`files, this`bots, this`members
      ensures r.Some? && Hash(b) != [] ==> digest(r.value) == Hash(b)
      ensures r.Some? ==> FirstServes(b, cs, replies, r)
      ensures r.None? ==> forall c :: c in cs ==> Serves(digest, Hash(b), c, replies(c.bot)).None?
      ensures r.None? ==> (permGone <==> exists c :: c in cs && ToldGone(digest, Hash(b), c, replies(c.bot)))
      ensures SameForOthers(b, old(files), files)
    {
      hide Serves, ToldGone;
      permGone := false;
      for i := 0 to |cs|
        invariant forall j :: 0 <= j < i ==> Serves(digest, Hash(b), cs[j], replies(cs[j].bot)).None?
        invariant permGone <==> exists j :: 0 <= j < i && ToldGone(digest, Hash(b), cs[j], replies(cs[j].bot))
        invariant SameForOthers(b, old(files), files)
      {
        var gone;
        r, gone := TryCandidate(b, channel, cs[i], replies(cs[i].bot), now);
        if r.Some? {
          return;
        }
        if gone {
          permGone := true;
        }
      }
      r := None;
      forall c | c in cs ensures Serves(digest, Hash(b), c, replies(c.bot)).None? {
        var j :| 0 <= j < |cs| && cs[j] == c;
      }
      if permGone {
        var j :| 0 <= j < |cs| && ToldGone(digest, Hash(b), cs[j], replies(cs[j].bot));
        assert cs[j] in cs;
      } else {
        forall c | c in cs ensures !ToldGone(digest, Hash(b), c, replies(c.bot)) {
          var j :| 0 <= j < |cs| && cs[j] == c;
        }
      }
    }
  
    /** r is what the first candidate that serves the blob serves, or none serves it. */
    ghost predicate Answered(b: BlobId, cs: seq<Candidate>, replies: BotId -> Replies, r: Option<Bytes>) {
      if r.Some? then FirstServes(b, cs, replies, r)
      else forall c :: c in cs ==> Serves(digest, Hash(b), c, replies(c.bot)).None?
    }

    ghost predicate Lost(b: BlobId, cs: seq<Candidate>, replies: BotId -> Replies, r: Option<Bytes>) {
      r.None? && exists c :: c in cs && ToldGone(digest, Hash(b), c, replies(c.bot))
    }

    /** The part of ReadBlob that goes to the network. */
    method Fetch(b: BlobId, cs: seq<Candidate>, replies: BotId -> Replies, now: Time) returns (r: Option<Bytes>)
      requires fs.Valid() && CacheTrusted() && b in fs.blobs
      modifies this`files, this`bots, this`members, cache, fs`nodes, fs`blobs
      ensures fs.Valid() && CacheTrusted() && (r.Some? && Hash(b) != [] ==> digest(r.value) == Hash(b))
      ensures Answered(b, cs, replies, r) && SameForOthers(b, old(files), files)
      ensures r.Some? && (cache.maxBytes <= 0 || |r.value| <= cache.maxBytes) ==>
        b in cache.index && b in cache.dir && cache.dir[b] == r.value
      ensures Marked(old(fs.nodes), old(fs.blobs), fs.nodes, fs.blobs, b, Lost(b, cs, replies, r))
    {
      hide Serves, ToldGone, Verifies, SameForOthers;
      var permGone;
      r, permGone := TryAll(b, fs.blobs[b].channel, cs, replies, now);
      assert Answered(b, cs, replies, r) && (r.None? ==> (permGone <==> Lost(b, cs, replies, r)));
      hide Answered, Lost;
      if r.Some? {
        assert !Lost(b, cs, replies, r) by { ServedNotLost(b, cs, replies, r); }
        cache.Put(b, r.value, now);
      } else if permGone {
        fs.MarkPermUnavailable(b);
      }
    }

    method FromCache(b: BlobId, now: Time) returns (r: Option<Bytes>)
      requires CacheTrusted()
      modifies cache
      ensures CacheTrusted() && r == if old(Cached(b)) then Some(old(cache.dir)[b]) else None
      ensures r.Some? && Hash(b) != [] ==> digest(r.value) == Hash(b)
      ensures r.Some? ==> b in cache.index && b in cache.dir && cache.dir[b] == r.value
    {
      r := cache.Get(b, now);
    }

    /** With no candidate tried nothing was lost, and no answer is the right one. */
    lemma {:induction false} NothingLost(b: BlobId, replies: BotId -> Replies)
      ensures forall r :: !Lost(b, [], replies, r)
      ensures Answered(b, [], replies, None)
      ensures forall files: Files :: SameForOthers(b, files, files)
    {
    }

    lemma {:induction false} ServedNotLost(b: BlobId, cs: seq<Candidate>, replies: BotId -> Replies, r: Option<Bytes>)
      requires r.Some?
      ensures !Lost(b, cs, replies, r)
    {
    }

    /** ReadBlob. With a recorded hash only matching bytes are returned or cached, whatever the bots deliver; the
        blob is marked lost exactly when every candidate failed and one was told the message is gone. */
    method ReadBlob(b: BlobId, replies: BotId -> Replies, now: Time)
      returns (r: Option<Bytes>, ghost cs: seq<Candidate>)
      requires fs.Valid() && CacheTrusted()
      modifies this`files, this`bots, this`members, cache, fs`nodes, fs`blobs
      ensures fs.Valid() && CacheTrusted()
      ensures r.Some? && b in hashes && hashes[b] != [] ==> digest(r.value) == hashes[b]
      ensures r.Some? && (cache.maxBytes <= 0 || |r.value| <= cache.maxBytes) ==>
        b in cache.index && b in cache.dir && cache.dir[b] == r.value
      ensures b !in old(fs.blobs) || !old(fs.blobs)[b].state.StoredBlob? ==> r.None? && cs == []
      ensures !old(Readable(b)) ==> r.None? && cs == []
      ensures old(Readable(b) && Cached(b)) ==> r == Some(old(cache.dir)[b]) && cs == []
      ensures old(Readable(b) && !Cached(b)) ==> Answered(b, cs, replies, r)
      ensures old(Readable(b) && !Cached(b)) ==>
        InOrder(cs, UsableMembers(old(Listing(b)), old(bots), now), old(files), b)
      ensures Marked(old(fs.nodes), old(fs.blobs), fs.nodes, fs.blobs, b, Lost(b, cs, replies, r))
      ensures fs.blobs != old(fs.blobs) || fs.nodes != old(fs.nodes) ==>
        && r.None? && (exists c :: c in cs && replies(c.bot).forward.NotFound?)
        && b in old(fs.blobs) && fs.blobs == old(fs.blobs)[b := old(fs.blobs)[b].(state := PermUnavailable)]
        && Fs.LostSole(old(fs.nodes), fs.nodes, b)
      ensures forall k: (BlobId, BotId) :: k.0 != b && k in old(files) ==> k in files && files[k] == old(files)[k]
      ensures old(Readable(b) && !Cached(b)) && r.None? ==> forall c :: c in cs ==>
        && (c.fileId != "" && replies(c.bot).cached.Good? ==>
              Hash(b) != [] && digest(replies(c.bot).cached.value) != Hash(b))
        && (c.fileId == "" && replies(c.bot).forward.Good? && replies(c.bot).recovered.Good? ==>
              Hash(b) != [] && digest(replies(c.bot).recovered.value) != Hash(b))
        && (c.fileId == "" && replies(c.bot).forward.NotFound? ==>
              b in fs.blobs && fs.blobs[b].state.PermUnavailable?)
      ensures SameForOthers(b, old(files), files)
    {
      hide InOrder, UsableMembers, Serves, ToldGone, Verifies, Fs.LostSole;
      cs := [];
      NothingLost(b, replies);
      Fs.SoleMeans(fs.nodes, b);
      hide Answered, Lost;
      if b !in fs.blobs || !fs.blobs[b].state.StoredBlob? {
        return None, cs;
      }
      var hit := FromCache(b, now);
      if hit.Some? {
        NothingLost(b, replies);
        return hit, cs;
      }
      var tried := Candidates(b, Listing(b), bots, files, now);
      cs := tried;
      if tried == [] {
        return None, cs;
      }
      r := Fetch(b, tried, replies, now);
      AnswerMeans(b, cs, replies, r);
    }

    /** What the answer over all candidates says of each of them. */
    lemma {:induction false} AnswerMeans(b: BlobId, cs: seq<Candidate>, replies: BotId -> Replies, r: Option<Bytes>)
      requires Answered(b, cs, replies, r)
      ensures r.None? ==> forall c :: c in cs ==>
        && (c.fileId != "" && replies(c.bot).cached.Good? ==>
              Hash(b) != [] && digest(replies(c.bot).cached.value) != Hash(b))
        && (c.fileId == "" && replies(c.bot).forward.Good? && replies(c.bot).recovered.Good? ==>
              Hash(b) != [] && digest(replies(c.bot).recovered.value) != Hash(b))
        && (c.fileId == "" && replies(c.bot).forward.NotFound? ==> Lost(b, cs, replies, r))
      ensures Lost(b, cs, replies, r) ==> r.None? && exists c :: c in cs && replies(c.bot).forward.NotFound?
    {
      forall c | r.None? && c in cs
        ensures c.fileId == "" && replies(c.bot).forward.NotFound? ==> Lost(b, cs, replies, r)
        ensures Serves(digest, Hash(b), c, replies(c.bot)).None?
      {
        if c.fileId == "" && replies(c.bot).forward.NotFound? {
          assert ToldGone(digest, Hash(b), c, replies(c.bot));
        }
      }
    }

    predicate Readable(b: BlobId)
      reads fs
    {
      b in fs.blobs && fs.blobs[b].state.StoredBlob?
    }

    predicate Cached(b: BlobId)
      reads cache
    {
      b in cache.index && b in cache.dir
    }

    function Listing(b: BlobId): seq<Membership>
      requires b in fs.blobs
      reads this, fs
    {
      if fs.blobs[b].channel in members then members[fs.blobs[b].channel] else []
    }
  }
}
