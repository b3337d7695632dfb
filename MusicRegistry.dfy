/** The guild music queues of `PlaySongCommand`: one registry mapping each
    guild to its queue, shared with the pause, resume, queue and status
    commands. The ytdl stream, the voice connection and the dispatcher are
    opaque: what joining a voice channel and resolving a video return are
    inputs, and the dispatcher's `end` and `error` events and the stream's
    `error` event are methods the environment calls on the `Playback` that a
    call of `play` left behind. A call into an absent registry entry, which
    throws a TypeError in the source, is modelled as an outcome that changes
    nothing. */
module MusicRegistry {
  import opened Wrappers
  import opened Text
  import opened Admission
  import opened YouTubeLinks

  type GuildId = string

  /** What joining a voice channel returns. */
  datatype VoiceConnection = VoiceConnection(handle: nat)

  /** Messages sent to a guild's text channel, and leaving its voice channel. */
  datatype Notice =
    | NowPlaying(guild: GuildId, song: SongInfo)
    | CouldNotPlay(guild: GuildId, song: SongInfo)
    | PlaybackError(guild: GuildId)
    | RanOutOfSongs(guild: GuildId)
    | LeftVoiceChannel(guild: GuildId)

  /** The stream dispatcher, reduced to whether it is paused. */
  class Dispatcher {
    var paused: bool

    constructor ()
      ensures !paused
    {
      paused := false;
    }
  }

  /** A queued song: fixed details and the two fields the commands update. */
  class Song {
    const info: SongInfo
    var playing: bool
    var dispatcher: Dispatcher?

    constructor (video: Video, requester: MemberId)
      ensures info == SongOf(video, requester) && !playing && dispatcher == null
    {
      info := SongOf(video, requester);
      playing := false;
      dispatcher := null;
    }
  }

  /** `IMusicQueue`: the songs in play order, head first. */
  class GuildQueue {
    const guild: GuildId
    var songs: seq<Song>
    var playing: bool
    var connection: Option<VoiceConnection>
    var volume: int
    var isTriggeredByStop: bool

    constructor (guild: GuildId, volume: int)
      ensures this.guild == guild && songs == [] && !playing && connection == None
      ensures this.volume == volume && !isTriggeredByStop
    {
      this.guild := guild;
      songs := [];
      playing := false;
      connection := None;
      this.volume := volume;
      isTriggeredByStop := false;
    }
  }

  /** What one call of `play` leaves for the stream callbacks: the queue and
      song it captured, its dispatcher and its own `streamErrored` flag. */
  class Playback {
    const queue: GuildQueue
    const song: Song
    const dispatcher: Dispatcher
    var streamErrored: bool

    constructor (queue: GuildQueue, song: Song, dispatcher: Dispatcher)
      ensures this.queue == queue && this.song == song && this.dispatcher == dispatcher
      ensures !streamErrored
    {
      this.queue := queue;
      this.song := song;
      this.dispatcher := dispatcher;
      streamErrored := false;
    }
  }

  function InfosOf(songs: seq<Song>): (r: seq<SongInfo>)
    ensures |r| == |songs| && forall i | 0 <= i < |songs| :: r[i] == songs[i].info
  {
    seq(|songs|, i requires 0 <= i < |songs| => songs[i].info)
  }

  /** A queue that can be played from: it has a head and a connection. */
  ghost predicate Ready(q: GuildQueue)
    reads q
  {
    |q.songs| > 0 && q.connection.Some?
  }

  /** The notices `play` sends: none when the guild has no entry (the
      source throws first); for no song the "run out of songs" message
      unless a stop caused it, then leaving the voice channel; for a song
      its now-playing message. */
  function PlayNotices(g: GuildId, present: bool, stopped: bool, song: Option<SongInfo>): (r: seq<Notice>)
    ensures !present ==> r == []
    ensures present && song.None? ==> 1 <= |r| <= 2 && r[|r| - 1] == LeftVoiceChannel(g)
                                      && (RanOutOfSongs(g) in r <==> !stopped)
    ensures present && song.Some? ==> r == [NowPlaying(g, song.value)]
  {
    if !present then []
    else match song
      case None => (if stopped then [] else [RanOutOfSongs(g)]) + [LeftVoiceChannel(g)]
      case Some(s) => [NowPlaying(g, s)]
  }

  /** The song list after `shift()`: without its head, if it has one. */
  function Shifted(songs: seq<Song>): (r: seq<Song>)
    ensures |songs| > 0 ==> r == songs[1..]
    ensures |songs| == 0 ==> r == []
  {
    if |songs| > 0 then songs[1..] else songs
  }

  /** `queue.songs[0]` after the shift, or no song. */
  function NextHead(songs: seq<Song>): (r: Song?)
    ensures r != null <==> |songs| >= 2
    ensures r != null ==> r == songs[1]
  {
    if |songs| >= 2 then songs[1] else null
  }

  /** `songs` is `before` followed by songs of positive length only: no
      live stream was added. */
  ghost predicate Extended(songs: seq<Song>, before: seq<Song>) {
    |songs| >= |before| && songs[..|before|] == before
    && forall k | |before| <= k < |songs| :: songs[k].info.lengthSeconds > 0
  }

  /** Growing twice is growing once. */
  lemma ExtendedTrans(a: seq<Song>, b: seq<Song>, c: seq<Song>)
    requires Extended(b, a) && Extended(c, b)
    ensures Extended(c, a)
  {
    assert c[..|a|] == c[..|b|][..|a|];
  }

  /** What `handlePlaylist` does to an entry whose songs were `before`:
      an admitted video is appended and the entry kept; a refused one
      leaves the songs alone and the entry is deleted (`kept` is false). */
  ghost predicate ItemEffect(q: GuildQueue, before: seq<Song>, requester: MemberId, isOwner: bool, policy: Policy,
                             video: Video, outcome: ItemOutcome, kept: bool)
    reads q
  {
    var v := Admit(InfosOf(before), requester, isOwner, policy, video);
    if v == Accepted then
      outcome == Added && kept && |q.songs| == |before| + 1 && q.songs[..|before|] == before
      && q.songs[|before|].info == SongOf(video, requester)
    else
      outcome == Refused(Reply(v, video, policy)) && !kept && q.songs == before
  }

  /** The songs the first `|items|` videos of a playlist added, in order:
      one for each video whose item was `Added`, asked for by the
      requester. */
  function Admitted(vs: seq<Video>, items: seq<ItemOutcome>, requester: MemberId): (r: seq<SongInfo>)
    requires |items| <= |vs|
    ensures |r| <= |items|
    decreases |items|
  {
    if |items| == 0 then []
    else
      var n := |items| - 1;
      Admitted(vs, items[..n], requester) + (if items[n] == Added then [SongOf(vs[n], requester)] else [])
  }

  /** Every song a playlist added was asked for by its requester. */
  lemma {:induction false} AdmittedByRequester(vs: seq<Video>, items: seq<ItemOutcome>, requester: MemberId)
    requires |items| <= |vs|
    ensures forall k | 0 <= k < |Admitted(vs, items, requester)| :: Admitted(vs, items, requester)[k].requester == requester
    decreases |items|
  {
    if |items| > 0 {
      AdmittedByRequester(vs, items[..|items| - 1], requester);
    }
  }

  /** When every video was added, the playlist added exactly their songs,
      in the playlist's order. */
  lemma {:induction false} AdmittedAll(vs: seq<Video>, items: seq<ItemOutcome>, requester: MemberId)
    requires |items| <= |vs| && forall k | 0 <= k < |items| :: items[k] == Added
    ensures var r := Admitted(vs, items, requester);
      |r| == |items| && forall k | 0 <= k < |items| :: r[k] == SongOf(vs[k], requester)
    decreases |items|
  {
    if |items| > 0 {
      var n := |items| - 1;
      assert forall k | 0 <= k < n :: items[..n][k] == items[k];
      AdmittedAll(vs, items[..n], requester);
    }
  }

  /** A playlist none of whose videos was added added no song. */
  lemma {:induction false} AdmittedNone(vs: seq<Video>, items: seq<ItemOutcome>, requester: MemberId)
    requires |items| <= |vs| && forall k | 0 <= k < |items| :: items[k] != Added
    ensures Admitted(vs, items, requester) == []
    decreases |items|
  {
    if |items| > 0 {
      var n := |items| - 1;
      assert forall k | 0 <= k < n :: items[..n][k] == items[k];
      AdmittedNone(vs, items[..n], requester);
    }
  }

  /** No item so far has lost the guild its entry. */
  predicate AllKept(items: seq<ItemOutcome>) {
    forall k | 0 <= k < |items| :: items[k] == SkippedLiveStream || items[k] == Added
  }

  /** What `handlePlaylist` makes of the next video, given the details of
      the songs queued at that point and whether the guild's entry is still
      there: a live stream is skipped; on a present entry the video is added
      or refused as `addSong` decides; with no entry left `addSong` still
      refuses a too-long video for anyone but the owner, and otherwise
      throws. */
  function NextOutcome(queued: seq<SongInfo>, kept: bool, requester: MemberId, isOwner: bool, policy: Policy,
                       video: Video): (o: ItemOutcome)
    ensures o == SkippedLiveStream <==> video.durationSeconds == 0
    ensures o == Added <==> video.durationSeconds > 0 && kept && Admit(queued, requester, isOwner, policy, video) == Accepted
  {
    if video.durationSeconds == 0 then SkippedLiveStream
    else if !kept then
      if !isOwner && TooLongFor(policy, video) then Refused(Reply(TooLong, video, policy)) else Failed
    else
      var v := Admit(queued, requester, isOwner, policy, video);
      if v == Accepted then Added else Refused(Reply(v, video, policy))
  }

  /** How far a playlist has got: the details of the entry's songs, whether
      the entry is still there, and the item outcomes so far. */
  datatype Fill = Fill(queued: seq<SongInfo>, kept: bool, items: seq<ItemOutcome>)

  /** The playlist `vs` after its first `n` videos, added to an entry whose
      songs had the details `infos0`: each video meets the songs queued
      before it, an added one is appended, and an item that is neither
      skipped nor added leaves no entry. */
  function FillAfter(infos0: seq<SongInfo>, vs: seq<Video>, n: nat, requester: MemberId, isOwner: bool,
                     policy: Policy): (f: Fill)
    requires n <= |vs|
    ensures |f.items| == n
    decreases n
  {
    if n == 0 then Fill(infos0, true, [])
    else
      var f := FillAfter(infos0, vs, n - 1, requester, isOwner, policy);
      var o := NextOutcome(f.queued, f.kept, requester, isOwner, policy, vs[n - 1]);
      Fill(if o == Added then f.queued + [SongOf(vs[n - 1], requester)] else f.queued,
           f.kept && (o == SkippedLiveStream || o == Added), f.items + [o])
  }

  /** The songs queued after a playlist's first videos are the old ones
      followed by `Admitted`. */
  lemma {:induction false} FillAfterQueued(infos0: seq<SongInfo>, vs: seq<Video>, n: nat, requester: MemberId,
                                          isOwner: bool, policy: Policy)
    requires n <= |vs|
    ensures var f := FillAfter(infos0, vs, n, requester, isOwner, policy);
      f.queued == infos0 + Admitted(vs, f.items, requester)
    decreases n
  {
    if n > 0 {
      FillAfterQueued(infos0, vs, n - 1, requester, isOwner, policy);
      var p := FillAfter(infos0, vs, n - 1, requester, isOwner, policy);
      QueuedStep(infos0, vs, p.items, p.queued, NextOutcome(p.queued, p.kept, requester, isOwner, policy, vs[n - 1]),
                 requester);
    }
  }

  /** One more item extends the queued songs as it extends `Admitted`. */
  lemma QueuedStep(infos0: seq<SongInfo>, vs: seq<Video>, items: seq<ItemOutcome>, queued: seq<SongInfo>,
                   o: ItemOutcome, requester: MemberId)
    requires |items| < |vs| && queued == infos0 + Admitted(vs, items, requester)
    ensures (if o == Added then queued + [SongOf(vs[|items|], requester)] else queued)
         == infos0 + Admitted(vs, items + [o], requester)
  {
    AdmittedStep(vs, items, o, requester);
  }

  /** One more item keeps `AllKept` exactly when it is skipped or added. */
  lemma AllKeptSnoc(items: seq<ItemOutcome>, o: ItemOutcome)
    ensures AllKept(items + [o]) <==> AllKept(items) && (o == SkippedLiveStream || o == Added)
  {
    assert (items + [o])[|items|] == o;
    assert forall k | 0 <= k < |items| :: (items + [o])[k] == items[k];
  }

  /** The entry is kept exactly when every item so far was skipped or
      added. */
  lemma {:induction false} FillAfterKept(infos0: seq<SongInfo>, vs: seq<Video>, n: nat, requester: MemberId,
                                        isOwner: bool, policy: Policy)
    requires n <= |vs|
    ensures var f := FillAfter(infos0, vs, n, requester, isOwner, policy); f.kept <==> AllKept(f.items)
    decreases n
  {
    if n > 0 {
      FillAfterKept(infos0, vs, n - 1, requester, isOwner, policy);
      var p := FillAfter(infos0, vs, n - 1, requester, isOwner, policy);
      var f := FillAfter(infos0, vs, n, requester, isOwner, policy);
      var o := f.items[n - 1];
      assert f.items == p.items + [o];
      assert f.kept == (p.kept && (o == SkippedLiveStream || o == Added));
      AllKeptSnoc(p.items, o);
    }
  }

  /** Exactly the live streams are skipped. */
  lemma {:induction false} FillAfterSkips(infos0: seq<SongInfo>, vs: seq<Video>, n: nat, requester: MemberId,
                                         isOwner: bool, policy: Policy)
    requires n <= |vs|
    ensures var f := FillAfter(infos0, vs, n, requester, isOwner, policy);
      forall k | 0 <= k < n :: f.items[k] == SkippedLiveStream <==> vs[k].durationSeconds == 0
    decreases n
  {
    if n > 0 {
      FillAfterSkips(infos0, vs, n - 1, requester, isOwner, policy);
      var p := FillAfter(infos0, vs, n - 1, requester, isOwner, policy);
      var f := FillAfter(infos0, vs, n, requester, isOwner, policy);
      assert forall k | 0 <= k < n - 1 :: f.items[k] == p.items[k];
    }
  }

  /** The items after a playlist's first videos are the first items after
      any longer prefix. */
  lemma {:induction false} FillAfterPrefix(infos0: seq<SongInfo>, vs: seq<Video>, requester: MemberId, isOwner: bool,
                                          policy: Policy, n: nat, m: nat)
    requires n <= m <= |vs|
    ensures FillAfter(infos0, vs, n, requester, isOwner, policy).items
         == FillAfter(infos0, vs, m, requester, isOwner, policy).items[..n]
    decreases m
  {
    var r := FillAfter(infos0, vs, m, requester, isOwner, policy).items;
    if n < m {
      FillAfterPrefix(infos0, vs, requester, isOwner, policy, n, m - 1);
      assert r[..m - 1][..n] == r[..n];
    } else {
      assert r[..n] == r;
    }
  }

  /** Once the entry is gone it stays gone for the rest of the playlist. */
  lemma {:induction false} GoneStaysGone(infos0: seq<SongInfo>, vs: seq<Video>, requester: MemberId, isOwner: bool,
                                        policy: Policy, n: nat, m: nat)
    requires n <= m <= |vs| && !FillAfter(infos0, vs, n, requester, isOwner, policy).kept
    ensures !FillAfter(infos0, vs, m, requester, isOwner, policy).kept
    decreases m
  {
    if n < m {
      GoneStaysGone(infos0, vs, requester, isOwner, policy, n, m - 1);
    }
  }

  /** The bot owner's playlist of videos that are not live streams is added
      whole, in order, after the songs already queued. */
  lemma {:induction false} OwnerPlaylistAllAdded(infos0: seq<SongInfo>, vs: seq<Video>, n: nat, requester: MemberId,
                                                policy: Policy)
    requires n <= |vs| && forall k | 0 <= k < |vs| :: vs[k].durationSeconds > 0
    ensures var f := FillAfter(infos0, vs, n, requester, true, policy);
      && f.kept && (forall k | 0 <= k < n :: f.items[k] == Added)
      && |f.queued| == |infos0| + n && f.queued[..|infos0|] == infos0
      && forall k | 0 <= k < n :: f.queued[|infos0| + k] == SongOf(vs[k], requester)
    decreases n
  {
    if n > 0 {
      OwnerPlaylistAllAdded(infos0, vs, n - 1, requester, policy);
      var p := FillAfter(infos0, vs, n - 1, requester, true, policy);
      OwnerAlwaysAccepted(p.queued, requester, policy, vs[n - 1]);
      var f := FillAfter(infos0, vs, n, requester, true, policy);
      assert f.queued == p.queued + [SongOf(vs[n - 1], requester)];
      assert forall k | 0 <= k < n - 1 :: f.items[k] == p.items[k];
    }
  }

  /** For a guild that had no queue: the owner's playlist of videos that
      are not live streams keeps the entry and adds every video's song, in
      order. */
  lemma OwnerPlaylistAdmitted(vs: seq<Video>, requester: MemberId, policy: Policy)
    requires forall k | 0 <= k < |vs| :: vs[k].durationSeconds > 0
    ensures var items := FillAfter([], vs, |vs|, requester, true, policy).items;
      var all := [] + Admitted(vs, items, requester);
      && AllKept(items) && (forall k | 0 <= k < |vs| :: items[k] == Added)
      && |all| == |vs| && forall k | 0 <= k < |vs| :: all[k] == SongOf(vs[k], requester)
  {
    var none: seq<SongInfo> := [];
    OwnerPlaylistAllAdded(none, vs, |vs|, requester, policy);
    FillAfterQueued(none, vs, |vs|, requester, true, policy);
    FillAfterKept(none, vs, |vs|, requester, true, policy);
  }

  /** Once an item has been refused or has failed, no later video of the
      playlist is added: the entry is gone. */
  lemma NothingAddedAfterRefusal(infos0: seq<SongInfo>, vs: seq<Video>, requester: MemberId,
                                 isOwner: bool, policy: Policy, i: nat, j: nat)
    requires i < j < |vs|
    requires var r := FillAfter(infos0, vs, |vs|, requester, isOwner, policy).items; r[i].Refused? || r[i].Failed?
    ensures FillAfter(infos0, vs, |vs|, requester, isOwner, policy).items[j] != Added
  {
    var r := FillAfter(infos0, vs, |vs|, requester, isOwner, policy).items;
    FillAfterPrefix(infos0, vs, requester, isOwner, policy, i + 1, |vs|);
    var fi := FillAfter(infos0, vs, i + 1, requester, isOwner, policy);
    assert fi.items[i] == r[i];
    assert !fi.kept;
    GoneStaysGone(infos0, vs, requester, isOwner, policy, i + 1, j);
    FillAfterPrefix(infos0, vs, requester, isOwner, policy, j + 1, |vs|);
    var fj := FillAfter(infos0, vs, j + 1, requester, isOwner, policy);
    assert fj.items[j] == r[j];
  }

  /** A playlist whose first video `addSong` refuses on the entry's songs
      loses the guild its entry, whatever follows. */
  lemma RefusedHeadDropsEntry(infos0: seq<SongInfo>, vs: seq<Video>, requester: MemberId, isOwner: bool,
                              policy: Policy)
    requires |vs| > 0 && vs[0].durationSeconds > 0
    requires Admit(infos0, requester, isOwner, policy, vs[0]) != Accepted
    ensures !FillAfter(infos0, vs, |vs|, requester, isOwner, policy).kept
  {
    GoneStaysGone(infos0, vs, requester, isOwner, policy, 1, |vs|);
  }

  /** Songs a non-owner's playlist adds never take any member past the
      per-member cap. */
  lemma {:induction false} PlaylistKeepsQuota(infos0: seq<SongInfo>, vs: seq<Video>, n: nat, requester: MemberId,
                                             policy: Policy, m: MemberId)
    requires n <= |vs| && policy.maxSongs > 0 && CountBy(infos0, m) <= policy.maxSongs
    ensures CountBy(FillAfter(infos0, vs, n, requester, false, policy).queued, m) <= policy.maxSongs
    decreases n
  {
    if n > 0 {
      PlaylistKeepsQuota(infos0, vs, n - 1, requester, policy, m);
      var p := FillAfter(infos0, vs, n - 1, requester, false, policy);
      if NextOutcome(p.queued, p.kept, requester, false, policy, vs[n - 1]) == Added {
        AdmissionKeepsQuota(p.queued, requester, policy, vs[n - 1], m);
      }
    }
  }

  /** A non-owner's playlist keeps the ids in a queue distinct. */
  lemma {:induction false} PlaylistKeepsIdsDistinct(infos0: seq<SongInfo>, vs: seq<Video>, n: nat,
                                                   requester: MemberId, policy: Policy)
    requires n <= |vs| && DistinctIds(infos0)
    ensures DistinctIds(FillAfter(infos0, vs, n, requester, false, policy).queued)
    decreases n
  {
    if n > 0 {
      PlaylistKeepsIdsDistinct(infos0, vs, n - 1, requester, policy);
      var p := FillAfter(infos0, vs, n - 1, requester, false, policy);
      if NextOutcome(p.queued, p.kept, requester, false, policy, vs[n - 1]) == Added {
        AdmissionKeepsIdsDistinct(p.queued, requester, policy, vs[n - 1]);
      }
    }
  }

  /** One more item extends the admitted songs by its own song, if added. */
  lemma AdmittedStep(vs: seq<Video>, items: seq<ItemOutcome>, o: ItemOutcome, requester: MemberId)
    requires |items| < |vs|
    ensures Admitted(vs, items + [o], requester)
         == Admitted(vs, items, requester) + (if o == Added then [SongOf(vs[|items|], requester)] else [])
  {
    assert (items + [o])[..|items|] == items;
  }

  /** Appending one song appends its details. */
  lemma InfosOfSnoc(songs: seq<Song>, before: seq<Song>)
    requires |songs| == |before| + 1 && songs[..|before|] == before
    ensures InfosOf(songs) == InfosOf(before) + [songs[|before|].info]
  {
    assert forall i | 0 <= i < |before| :: songs[i] == before[i];
  }

  /** One playlist item on the entry's songs: its outcome is the one
      `NextOutcome` gives on the songs before; an added video is appended to
      a kept entry, a skipped live stream changes nothing, and any other
      outcome leaves no entry. */
  predicate ItemStep(kept0: bool, songs0: seq<Song>, kept: bool, songs: seq<Song>, outcome: ItemOutcome,
                     video: Video, requester: MemberId, isOwner: bool, policy: Policy)
  {
    && outcome == NextOutcome(InfosOf(songs0), kept0, requester, isOwner, policy, video)
    && match outcome
       case Added =>
         kept0 && kept && |songs| == |songs0| + 1 && songs[..|songs0|] == songs0
         && songs[|songs0|].info == SongOf(video, requester)
       case SkippedLiveStream => kept == kept0 && songs == songs0
       case _ => !kept && songs == songs0
  }

  /** After the items so far, the entry (whether it is there, and its
      songs' details) is where `FillAfter` says the playlist has got. */
  predicate Filled(kept: bool, songs: seq<Song>, before: seq<Song>, vs: seq<Video>, items: seq<ItemOutcome>,
                   requester: MemberId, isOwner: bool, policy: Policy)
  {
    |items| <= |vs| && FillAfter(InfosOf(before), vs, |items|, requester, isOwner, policy) == Fill(InfosOf(songs), kept, items)
  }

  /** One more item keeps `Filled`. */
  lemma FilledStep(kept0: bool, songs0: seq<Song>, kept: bool, songs: seq<Song>, before: seq<Song>,
                   vs: seq<Video>, items: seq<ItemOutcome>, o: ItemOutcome, requester: MemberId,
                   isOwner: bool, policy: Policy)
    requires Filled(kept0, songs0, before, vs, items, requester, isOwner, policy) && |items| < |vs|
    requires ItemStep(kept0, songs0, kept, songs, o, vs[|items|], requester, isOwner, policy)
    ensures Filled(kept, songs, before, vs, items + [o], requester, isOwner, policy)
  {
    if o == Added {
      InfosOfSnoc(songs, songs0);
    }
  }

  /** A whole playlist `Filled` has added the `Admitted` songs, and has
      kept the entry exactly when every item was skipped or added. */
  lemma FilledAdmits(kept: bool, songs: seq<Song>, before: seq<Song>, vs: seq<Video>, items: seq<ItemOutcome>,
                     requester: MemberId, isOwner: bool, policy: Policy)
    requires Filled(kept, songs, before, vs, items, requester, isOwner, policy) && |items| == |vs|
    ensures InfosOf(songs) == InfosOf(before) + Admitted(vs, items, requester)
    ensures kept <==> AllKept(items)
  {
    FillAfterQueued(InfosOf(before), vs, |vs|, requester, isOwner, policy);
    FillAfterKept(InfosOf(before), vs, |vs|, requester, isOwner, policy);
  }

  function SongFrame(s: Song?): set<object> {
    if s == null then {} else {s}
  }

  datatype VideoOutcome =
    | LiveStream              // the live-stream refusal
    | Rejected(reply: Reply) // first song refused: the entry is removed again
    | JoinFailed              // the voice join failed: the entry is removed
    | Started(reply: Reply)  // first song accepted and playing
    | Replied(reply: Reply)  // the guild already had a queue: addSong's reply

  datatype ItemOutcome =
    | SkippedLiveStream
    | Added
    | Refused(reply: Reply)  // the guild's entry is deleted
    | Failed                  // the entry was already gone: the source throws

  datatype PlaylistOutcome =
    | LookupFailed
    | PlaylistJoinFailed
    | Enqueued(items: seq<ItemOutcome>)

  /** Where the member and the bot stand with respect to voice channels. */
  datatype VoiceState = VoiceState(memberInChannel: bool, canConnect: bool, canSpeak: bool, memberInQueueChannel: bool)

  datatype RunOutcome =
    | JoinVoiceFirst
    | CannotConnect
    | CannotSpeak
    | FromPlaylist(playlist: PlaylistOutcome)
    | FromVideo(video: VideoOutcome)
    | NoSearchResults
    | SearchVideoMissing   // the search hit could not be looked up: handleVideo throws

  /** The voice checks of `run`: without a queue the member must be in a
      voice channel the bot may join and speak in; with one, the member
      must be in the queue's channel. `None` lets the command go on. */
  function VoiceGuard(hasQueue: bool, voice: VoiceState): (r: Option<RunOutcome>)
    ensures r.None? <==> if hasQueue then voice.memberInQueueChannel
                         else voice.memberInChannel && voice.canConnect && voice.canSpeak
    ensures r.Some? ==> r.value in {JoinVoiceFirst, CannotConnect, CannotSpeak}
    ensures r == Some(JoinVoiceFirst) <==> if hasQueue then !voice.memberInQueueChannel else !voice.memberInChannel
  {
    if !hasQueue then
      if !voice.memberInChannel then Some(JoinVoiceFirst)
      else if !voice.canConnect then Some(CannotConnect)
      else if !voice.canSpeak then Some(CannotSpeak)
      else None
    else if !voice.memberInQueueChannel then Some(JoinVoiceFirst)
    else None
  }

  /** `getVideoID` followed by `getVideo`: no id, or a failed lookup, is
      `None`. */
  function Direct(query: string, lookup: string -> Option<Video>): (r: Option<Video>)
    ensures VideoId(query).None? ==> r.None?
    ensures VideoId(query).Some? ==> r == lookup(VideoId(query).value)
  {
    match VideoId(query)
    case None => None
    case Some(id) => lookup(id)
  }

  /** `PlaySongCommand.queue` with the skip votes it clears and the notices
      sent so far. */
  class Registry {
    var queues: map<GuildId, GuildQueue>
    var votes: set<GuildId>
    var sent: seq<Notice>

    constructor ()
      ensures queues == map[] && votes == {} && sent == []
    {
      queues := map[];
      votes := {};
      sent := [];
    }

    /** Every entry is filed under its own guild. */
    ghost predicate Keyed()
      reads this
    {
      forall h | h in queues :: queues[h].guild == h
    }

    /** The registry invariant between commands: every entry is keyed by its
        guild, has a head song and a voice connection. */
    ghost predicate Valid()
      reads this, queues.Values
    {
      Keyed() && forall h | h in queues :: Ready(queues[h])
    }

    /** Valid except possibly for guild `g`'s entry. */
    ghost predicate ValidExcept(g: GuildId)
      reads this, queues.Values
    {
      Keyed() && forall h | h in queues && h != g :: Ready(queues[h])
    }

    /** While a playlist is being added to `g`'s entry: connected, and not
        marked playing unless it has a head. */
    ghost predicate Filling(g: GuildId)
      reads this, queues.Values
    {
      ValidExcept(g) &&
      (g in queues ==> queues[g].connection.Some? && (queues[g].playing ==> |queues[g].songs| > 0))
    }

    /** `addSong` on `g`'s entry. */
    method AddSong(g: GuildId, requester: MemberId, isOwner: bool, policy: Policy, video: Video) returns (result: Reply)
      requires g in queues
      modifies queues[g]
      ensures var q := queues[g];
        var v := Admit(InfosOf(old(q.songs)), requester, isOwner, policy, video);
        && result == Reply(v, video, policy)
        && (v == Accepted ==>
              |q.songs| == |old(q.songs)| + 1 && q.songs[..|old(q.songs)|] == old(q.songs)
              && fresh(q.songs[|old(q.songs)|]) && q.songs[|old(q.songs)|].info == SongOf(video, requester)
              && !q.songs[|old(q.songs)|].playing && q.songs[|old(q.songs)|].dispatcher == null)
        && (v != Accepted ==> q.songs == old(q.songs))
      ensures var q := queues[g];
        q.playing == old(q.playing) && q.connection == old(q.connection)
        && q.volume == old(q.volume) && q.isTriggeredByStop == old(q.isTriggeredByStop)
    {
      var q := queues[g];
      var v := Admit(InfosOf(q.songs), requester, isOwner, policy, video);
      if v == Accepted {
        var song := new Song(video, requester);
        q.songs := q.songs + [song];
      }
      result := Reply(v, video, policy);
    }
    /** `play(guild, song)`: clears the guild's pending skip vote; with no
      song, reports the end of the queue, leaves the voice channel and
      deletes the entry; with a song, announces it and starts it on a new
      dispatcher. */
    method Play(g: GuildId, song: Song?) returns (pb: Playback?)
      requires ValidExcept(g)
      requires song != null && g in queues ==> Ready(queues[g])
      modifies this, if song != null then {song} else {}, if g in queues then {queues[g]} else {}
      ensures Valid()
      ensures votes == old(votes) - {g}
      ensures sent == old(sent) + PlayNotices(g, g in old(queues), g in old(queues) && old(queues[g].isTriggeredByStop),
                                              if song == null then None else Some(song.info))
      ensures song == null ==> pb == null && queues == old(queues) - {g}
      ensures song != null ==> queues == old(queues)
      ensures g in old(queues) ==> var q := old(queues[g]);
        q.songs == old(q.songs) && q.connection == old(q.connection)
        && q.volume == old(q.volume) && q.isTriggeredByStop == old(q.isTriggeredByStop)
      ensures song != null && g !in old(queues) ==> pb == null && unchanged(song)
      ensures song != null && g in old(queues) ==> var q := old(queues[g]);
        && pb != null && fresh(pb) && fresh(pb.dispatcher)
        && pb.queue == q && pb.song == song && !pb.streamErrored && !pb.dispatcher.paused
        && song.dispatcher == pb.dispatcher && song.playing && q.playing
    {
      votes := votes - {g};
      if song == null {
        pb := null;
        if g in queues {
          var q := queues[g];
          sent := sent + PlayNotices(g, true, q.isTriggeredByStop, None);
          queues := queues - {g};
        }
        return;
      }
      if g !in queues {
        pb := null;
        return;
      }
      var q := queues[g];
      sent := sent + [NowPlaying(g, song.info)];
      var d := new Dispatcher();
      pb := new Playback(q, song, d);
      song.dispatcher := d;
      song.playing := true;
      q.playing := true;
    }
    /** The stream's `error` event: marks the playback as errored, edits the
      now-playing message into "couldn't play", drops the head and plays
      the next song. */
    method StreamError(pb: Playback) returns (next: Playback?)
      requires Valid()
      modifies this, pb, pb.queue, SongFrame(NextHead(pb.queue.songs))
      modifies if pb.queue.guild in queues then {queues[pb.queue.guild]} else {}
      ensures Valid()
      ensures pb.streamErrored
      ensures Advanced(pb, old(pb.queue.songs), old(queues), old(votes), next)
      ensures next != null ==> fresh(next) && fresh(next.dispatcher)
      ensures var g := pb.queue.guild; var head := NextHead(old(pb.queue.songs));
        sent == old(sent) + [CouldNotPlay(g, pb.song.info)]
                + PlayNotices(g, g in old(queues), g in old(queues) && old(queues[g].isTriggeredByStop),
                              if head == null then None else Some(head.info))
    {
      pb.streamErrored := true;
      sent := sent + [CouldNotPlay(pb.queue.guild, pb.song.info)];
      next := Advance(pb);
    }

    /** The dispatcher's `end` event: unless the stream already errored,
        drops the head and plays the next song; after an error it does
        nothing, so an errored song is dropped once, by the error. */
    method DispatcherEnd(pb: Playback) returns (next: Playback?)
      requires Valid()
      modifies this, pb.queue, SongFrame(NextHead(pb.queue.songs))
      modifies if pb.queue.guild in queues then {queues[pb.queue.guild]} else {}
      ensures Valid()
      ensures old(pb.streamErrored) ==> next == null && unchanged(this, pb.queue) && unchanged(pb.queue.songs)
      ensures !old(pb.streamErrored) ==> Advanced(pb, old(pb.queue.songs), old(queues), old(votes), next)
      ensures next != null ==> fresh(next) && fresh(next.dispatcher)
      ensures !old(pb.streamErrored) ==> var g := pb.queue.guild; var head := NextHead(old(pb.queue.songs));
        sent == old(sent) + PlayNotices(g, g in old(queues), g in old(queues) && old(queues[g].isTriggeredByStop),
                                        if head == null then None else Some(head.info))
    {
      if pb.streamErrored {
        next := null;
        return;
      }
      next := Advance(pb);
    }

    /** The dispatcher's `error` event: only reports the error. */
    method DispatcherError(pb: Playback)
      modifies this
      ensures sent == old(sent) + [PlaybackError(pb.queue.guild)]
      ensures queues == old(queues) && votes == old(votes)
    {
      sent := sent + [PlaybackError(pb.queue.guild)];
    }

    /** The state after `queue.songs.shift(); this.play(guild, queue.songs[0])`
        in a callback of `pb`, given the queue's songs, the registry and the
        votes before. */
    ghost predicate Advanced(pb: Playback, songs: seq<Song>, queues0: map<GuildId, GuildQueue>, votes0: set<GuildId>, next: Playback?)
      reads this, pb.queue, SongFrame(NextHead(songs)), queues0.Values, next
    {
      var g := pb.queue.guild;
      var head := NextHead(songs);
      && pb.queue.songs == Shifted(songs)
      && votes == votes0 - {g}
      && (head == null ==> next == null && queues == queues0 - {g})
      && (head != null ==> queues == queues0)
      && (head != null && g !in queues0 ==> next == null)
      && (head != null && g in queues0 ==>
            next != null && next.queue == queues0[g] && next.song == head
            && !next.streamErrored && head.playing && head.dispatcher == next.dispatcher && queues0[g].playing)
    }

    /** The shift and the call of `play` shared by both callbacks. */
    method Advance(pb: Playback) returns (next: Playback?)
      requires Valid()
      modifies this, pb.queue, SongFrame(NextHead(pb.queue.songs))
      modifies if pb.queue.guild in queues then {queues[pb.queue.guild]} else {}
      ensures Valid()
      ensures Advanced(pb, old(pb.queue.songs), old(queues), old(votes), next)
      ensures next != null ==> fresh(next) && fresh(next.dispatcher)
      ensures var g := pb.queue.guild; var head := NextHead(old(pb.queue.songs));
        sent == old(sent) + PlayNotices(g, g in old(queues), g in old(queues) && old(queues[g].isTriggeredByStop),
                                        if head == null then None else Some(head.info))
    {
      var g := pb.queue.guild;
      var q := pb.queue;
      ghost var before := q.songs;
      q.songs := Shifted(q.songs);
      var head := if |q.songs| > 0 then q.songs[0] else null;
      assert head == NextHead(before);
      next := Play(g, head);
    }
    /** `handleVideo`: refuses live streams; for a guild without a queue,
      creates its entry, admits the song, removes the entry again if the
      song is refused or the voice join fails, and otherwise starts
      playing; for a guild with a queue, only admits the song. */
    method HandleVideo(g: GuildId, requester: MemberId, isOwner: bool, policy: Policy, video: Video,
                       volume: int, join: Option<VoiceConnection>)
      returns (outcome: VideoOutcome, pb: Playback?)
      requires Valid()
      modifies this, if g in queues then {queues[g]} else {}
      ensures Valid()
      ensures video.durationSeconds == 0 ==>
        outcome == LiveStream && pb == null && queues == old(queues) && sent == old(sent) && votes == old(votes)
        && (g in old(queues) ==> unchanged(old(queues[g])))
      ensures video.durationSeconds > 0 && g in old(queues) ==>
        var q := old(queues[g]);
        var v := Admit(InfosOf(old(q.songs)), requester, isOwner, policy, video);
        && outcome == Replied(Reply(v, video, policy)) && pb == null
        && queues == old(queues) && sent == old(sent) && votes == old(votes)
        && (v == Accepted ==> |q.songs| == |old(q.songs)| + 1 && q.songs[..|old(q.songs)|] == old(q.songs)
                               && InfosOf(q.songs) == InfosOf(old(q.songs)) + [SongOf(video, requester)])
        && (v != Accepted ==> q.songs == old(q.songs))
        && q.playing == old(q.playing) && q.connection == old(q.connection)
      ensures video.durationSeconds > 0 && g !in old(queues) ==> Opened(g, requester, isOwner, policy, video, volume, join, old(queues), old(sent), old(votes), outcome, pb)
      ensures pb != null ==> fresh(pb)
    {
      pb := null;
      if video.durationSeconds == 0 {
        outcome := LiveStream;
        return;
      }
      if g in queues {
        var result := AddSong(g, requester, isOwner, policy, video);
        outcome := Replied(result);
        return;
      }
      outcome, pb := OpenQueue(g, requester, isOwner, policy, video, volume, join);
    }

    /** The state `handleVideo` leaves for a guild that had no queue, given
        the registry, the notices and the votes before. */
    ghost predicate Opened(g: GuildId, requester: MemberId, isOwner: bool, policy: Policy, video: Video,
                           volume: int, join: Option<VoiceConnection>, queues0: map<GuildId, GuildQueue>,
                           sent0: seq<Notice>, votes0: set<GuildId>, outcome: VideoOutcome, pb: Playback?)
      reads this, queues.Values, pb, if pb != null then {pb.song} else {}
    {
      var v := Admit([], requester, isOwner, policy, video);
      && (v != Accepted ==>
            outcome == Rejected(Reply(v, video, policy)) && pb == null
            && queues == queues0 && sent == sent0 && votes == votes0)
      && (v == Accepted && join.None? ==>
            outcome == JoinFailed && pb == null
            && queues == queues0 && sent == sent0 && votes == votes0)
      && (v == Accepted && join.Some? ==>
            && outcome == Started(Reply(v, video, policy))
            && g in queues && queues == queues0[g := queues[g]]
            && InfosOf(queues[g].songs) == [SongOf(video, requester)]
            && queues[g].connection == join && queues[g].volume == volume && queues[g].playing
            && pb != null && pb.queue == queues[g] && pb.song == queues[g].songs[0]
            && pb.song.playing && pb.song.dispatcher == pb.dispatcher
            && sent == sent0 + [NowPlaying(g, SongOf(video, requester))] && votes == votes0 - {g})
    }

    /** The first-song branch of `handleVideo`. */
    method OpenQueue(g: GuildId, requester: MemberId, isOwner: bool, policy: Policy, video: Video,
                     volume: int, join: Option<VoiceConnection>)
      returns (outcome: VideoOutcome, pb: Playback?)
      requires Valid() && g !in queues
      modifies this
      ensures Valid()
      ensures Opened(g, requester, isOwner, policy, video, volume, join, old(queues), old(sent), old(votes), outcome, pb)
      ensures pb != null ==> fresh(pb)
    {
      pb := null;
      var q := new GuildQueue(g, volume);
      queues := queues[g := q];
      var result := AddSong(g, requester, isOwner, policy, video);
      if !result.Approves() {
        queues := queues - {g};
        outcome := Rejected(result);
        return;
      }
      if join.None? {
        queues := queues - {g};
        outcome := JoinFailed;
        return;
      }
      q.connection := join;
      pb := Play(g, q.songs[0]);
      outcome := Started(result);
    }

    /** `handlePlaylist` for one video of a playlist: live streams are
        skipped; a refused song deletes the guild's whole entry, even one
        that was already playing. With no entry left, `addSong` still
        refuses a too-long video for anyone but the owner, and otherwise
        throws. */
    method HandlePlaylistItem(g: GuildId, ghost q: GuildQueue, requester: MemberId, isOwner: bool, policy: Policy,
                              video: Video)
      returns (outcome: ItemOutcome)
      requires Filling(g) && q.guild == g && (g in queues ==> queues[g] == q)
      modifies this, q
      ensures Growing(g, q, old(queues), old(q.songs))
      ensures sent == old(sent) && votes == old(votes)
      ensures outcome == SkippedLiveStream <==> video.durationSeconds == 0
      ensures q.connection == old(q.connection) && q.playing == old(q.playing)
      ensures q.isTriggeredByStop == old(q.isTriggeredByStop)
      ensures forall k | |old(q.songs)| <= k < |q.songs| :: fresh(q.songs[k])
      ensures video.durationSeconds == 0 ==> queues == old(queues) && unchanged(q)
      ensures video.durationSeconds > 0 && g !in old(queues) ==>
        queues == old(queues) && q.songs == old(q.songs)
        && outcome == if !isOwner && TooLongFor(policy, video) then Refused(Reply(TooLong, video, policy)) else Failed
      ensures video.durationSeconds > 0 && g in old(queues) ==>
        ItemEffect(q, old(q.songs), requester, isOwner, policy, video, outcome, g in queues)
      ensures ItemStep(g in old(queues), old(q.songs), g in queues, q.songs, outcome, video, requester, isOwner, policy)
    {
      if video.durationSeconds == 0 {
        outcome := SkippedLiveStream;
        return;
      }
      if g !in queues {
        if !isOwner && TooLongFor(policy, video) {
          outcome := Refused(Reply(TooLong, video, policy));
        } else {
          outcome := Failed;
        }
        return;
      }
      outcome := AddOrDrop(g, q, requester, isOwner, policy, video);
    }

    method AddOrDrop(g: GuildId, ghost q: GuildQueue, requester: MemberId, isOwner: bool, policy: Policy,
                     video: Video)
      returns (outcome: ItemOutcome)
      requires Filling(g) && q.guild == g && g in queues && queues[g] == q && video.durationSeconds > 0
      modifies this, q
      ensures Growing(g, q, old(queues), old(q.songs))
      ensures sent == old(sent) && votes == old(votes)
      ensures q.connection == old(q.connection) && q.playing == old(q.playing)
      ensures q.isTriggeredByStop == old(q.isTriggeredByStop)
      ensures forall k | |old(q.songs)| <= k < |q.songs| :: fresh(q.songs[k])
      ensures ItemEffect(q, old(q.songs), requester, isOwner, policy, video, outcome, g in queues)
    {
      var result := AddSong(g, requester, isOwner, policy, video);
      if !result.Approves() {
        queues := queues - {g};
        outcome := Refused(result);
      } else {
        outcome := Added;
      }
    }
    /** The playlist branch of `run`, with the lookup's failure checked
      before a queue is created: a guild without a queue gets one and
      joins the voice channel, every video goes through `handlePlaylist`
      in order, and if the entry is still there and not playing its head
      is played. */
    method EnqueuePlaylist(g: GuildId, requester: MemberId, isOwner: bool, policy: Policy,
                           videos: Option<seq<Video>>, volume: int, join: Option<VoiceConnection>)
      returns (outcome: PlaylistOutcome, pb: Playback?)
      requires Valid()
      modifies this, if g in queues then {queues[g], queues[g].songs[0]} else {}
      ensures Valid()
      ensures queues - {g} == old(queues) - {g}
      ensures videos.None? ==>
        outcome == LookupFailed && pb == null && queues == old(queues) && sent == old(sent) && votes == old(votes)
        && (g in old(queues) ==> unchanged(old(queues[g])))
      ensures videos.Some? && g !in old(queues) && join.None? ==>
        outcome == PlaylistJoinFailed && pb == null && queues == old(queues) && sent == old(sent) && votes == old(votes)
      ensures videos.Some? && (g in old(queues) || join.Some?) ==> outcome.Enqueued?
      ensures outcome.Enqueued? ==>
        videos.Some? && |outcome.items| == |videos.value|
        && forall i | 0 <= i < |videos.value| :: outcome.items[i] == SkippedLiveStream <==> videos.value[i].durationSeconds == 0
      ensures g in queues && g in old(queues) ==>
        var q := old(queues[g]);
        queues[g] == q && |q.songs| >= |old(q.songs)| && q.songs[..|old(q.songs)|] == old(q.songs)
      ensures g in queues ==>
        var n0 := if g in old(queues) then |old(queues[g].songs)| else 0;
        n0 <= |queues[g].songs| && forall k | n0 <= k < |queues[g].songs| :: queues[g].songs[k].info.lengthSeconds > 0
      ensures pb != null ==>
        fresh(pb) && g in queues && pb.queue == queues[g] && pb.song == queues[g].songs[0]
        && pb.song.playing && queues[g].playing
      ensures outcome.Enqueued? ==>
        var had := g in old(queues);
        outcome.items == FillAfter(if had then InfosOf(old(queues[g].songs)) else [], videos.value, |videos.value|,
                                   requester, isOwner, policy).items
        && Listed(g, if had then InfosOf(old(queues[g].songs)) else [], !had || !old(queues[g].playing),
               had && old(queues[g].isTriggeredByStop), old(sent), old(votes),
               Admitted(videos.value, outcome.items, requester), AllKept(outcome.items), pb)
    {
      pb := null;
      if videos.None? {
        outcome := LookupFailed;
        return;
      }
      var q0 := OpenForPlaylist(g, volume, join);
      if q0 == null {
        outcome := PlaylistJoinFailed;
        return;
      }
      assert queues - {g} == old(queues) - {g};
      var items;
      items, pb := FillAndPlay(g, requester, isOwner, policy, videos.value, q0);
      outcome := Enqueued(items);
    }

    /** The playlist branch when `videos` is still empty at line 117, as it
        is while none of the lookups `getPlaylistVideos` started has
        finished: a guild that had no queue joins its voice channel, is told
        the songs ran out and leaves again. */
    method EmptyPlaylistForNewGuild(g: GuildId, requester: MemberId, isOwner: bool, policy: Policy, volume: int,
                                    join: Option<VoiceConnection>)
      returns (outcome: PlaylistOutcome, pb: Playback?)
      requires Valid() && g !in queues && join.Some?
      modifies this
      ensures Valid()
      ensures outcome == Enqueued([]) && pb == null
      ensures queues == old(queues) && votes == old(votes) - {g}
      ensures sent == old(sent) + [RanOutOfSongs(g), LeftVoiceChannel(g)]
    {
      outcome, pb := EnqueuePlaylist(g, requester, isOwner, policy, Some([]), volume, join);
      assert outcome.items == [] && Admitted([], [], requester) == [];
      ghost var none: seq<SongInfo> := [];
      assert Listed(g, none, true, false, old(sent), old(votes), none, AllKept([]), pb);
      assert none + none == none;
      assert queues == queues - {g} && old(queues) == old(queues) - {g};
    }

    /** The bot owner's playlist of videos that are not live streams, in a
        guild without a queue whose voice join succeeds: every video is
        queued in order and the first starts playing. */
    method OwnerPlaylistForNewGuild(g: GuildId, requester: MemberId, policy: Policy, vs: seq<Video>, volume: int,
                                    join: Option<VoiceConnection>)
      returns (outcome: PlaylistOutcome, pb: Playback?)
      requires Valid() && g !in queues && join.Some?
      requires |vs| > 0 && forall k | 0 <= k < |vs| :: vs[k].durationSeconds > 0
      modifies this
      ensures Valid()
      ensures outcome.Enqueued? && |outcome.items| == |vs| && forall k | 0 <= k < |vs| :: outcome.items[k] == Added
      ensures g in queues && |queues[g].songs| == |vs|
      ensures forall k | 0 <= k < |vs| :: queues[g].songs[k].info == SongOf(vs[k], requester)
      ensures pb != null && pb.queue == queues[g] && pb.song == queues[g].songs[0]
      ensures sent == old(sent) + [NowPlaying(g, SongOf(vs[0], requester))] && votes == old(votes) - {g}
    {
      outcome, pb := EnqueuePlaylist(g, requester, true, policy, Some(vs), volume, join);
      OwnerPlaylistAdmitted(vs, requester, policy);
    }

    /** Anyone but the owner asking, in a guild whose queue is playing, for
        a playlist that starts with the song already at the head of the
        queue (not too long, not a live stream): `addSong` refuses it, which
        deletes the guild's whole entry; nothing is played and nothing is
        sent. */
    method PlaylistRepeatingHead(g: GuildId, requester: MemberId, policy: Policy, vs: seq<Video>, volume: int,
                                 join: Option<VoiceConnection>)
      returns (outcome: PlaylistOutcome, pb: Playback?)
      requires Valid() && g in queues && queues[g].playing && |queues[g].songs| > 0
      requires |vs| > 0 && vs[0].durationSeconds > 0 && !TooLongFor(policy, vs[0])
      requires vs[0].id == queues[g].songs[0].info.id
      modifies this, queues[g], queues[g].songs[0]
      ensures Valid()
      ensures outcome.Enqueued? && |outcome.items| == |vs| && outcome.items[0] == Refused(Reply(AlreadyQueued, vs[0], policy))
      ensures g !in queues && queues == old(queues) - {g}
      ensures pb == null && sent == old(sent) && votes == old(votes)
    {
      ghost var infos0 := InfosOf(queues[g].songs);
      assert IsQueued(infos0, vs[0].id) by {
        assert infos0[0].id == vs[0].id;
      }
      outcome, pb := EnqueuePlaylist(g, requester, false, policy, Some(vs), volume, join);
      RefusedHeadDropsEntry(infos0, vs, requester, false, policy);
      FillAfterKept(infos0, vs, |vs|, requester, false, policy);
      FillAfterPrefix(infos0, vs, requester, false, policy, 1, |vs|);
      assert outcome.items[0] == FillAfter(infos0, vs, 1, requester, false, policy).items[0];
    }

    /** Lines 116-125 of the playlist branch on the guild's open entry `q`:
        every video through `handlePlaylist`, then the head played if the
        entry is idle. */
    method FillAndPlay(g: GuildId, requester: MemberId, isOwner: bool, policy: Policy, vs: seq<Video>,
                       q: GuildQueue)
      returns (items: seq<ItemOutcome>, pb: Playback?)
      requires Filling(g) && q.guild == g && g in queues && queues[g] == q
      modifies this, q, if |q.songs| > 0 then {q.songs[0]} else {}
      ensures Valid()
      ensures queues - {g} == old(queues) - {g}
      ensures |items| == |vs| && forall i | 0 <= i < |vs| :: items[i] == SkippedLiveStream <==> vs[i].durationSeconds == 0
      ensures items == FillAfter(InfosOf(old(q.songs)), vs, |vs|, requester, isOwner, policy).items
      ensures g in queues ==> queues[g] == q && Extended(q.songs, old(q.songs))
      ensures Listed(g, InfosOf(old(q.songs)), !old(q.playing), old(q.isTriggeredByStop), old(sent), old(votes),
                     Admitted(vs, items, requester), AllKept(items), pb)
      ensures pb != null ==>
        fresh(pb) && g in queues && pb.queue == q && pb.song == q.songs[0] && pb.song.playing && q.playing
    {
      ghost var joined := queues;
      items := AddPlaylistItems(g, requester, isOwner, policy, vs, q);
      assert queues - {g} == joined - {g};
      ghost var filled := queues;
      pb := PlayIfIdle(g, q);
      assert queues - {g} == filled - {g};
    }

    /** The end of the playlist branch, given the entry's song details
        `infos0` before, whether it was idle and stopped, the notices and
        votes before, the `added` songs and whether every item `kept` the
        entry: the entry survives exactly when it was kept and holds a song,
        its songs are the old ones followed by the added ones, and a kept
        idle entry starts playing its head, or leaves the voice channel when
        it has none. */
    ghost predicate Listed(g: GuildId, infos0: seq<SongInfo>, idle: bool, stopped: bool, sent0: seq<Notice>,
                           votes0: set<GuildId>, added: seq<SongInfo>, kept: bool, pb: Playback?)
      reads this, queues.Values
    {
      var all := infos0 + added;
      && (g in queues <==> kept && |all| > 0)
      && (g in queues ==> InfosOf(queues[g].songs) == all)
      && (pb != null <==> kept && idle && |all| > 0)
      && (kept && idle ==>
            sent == sent0 + PlayNotices(g, true, stopped, if |all| > 0 then Some(all[0]) else None)
            && votes == votes0 - {g})
      && (!(kept && idle) ==> sent == sent0 && votes == votes0)
    }

    /** `if (!this.queue.get(guild).playing) this.play(guild, songs[0])`
        after a playlist was added; with the entry gone the source throws. */
    method PlayIfIdle(g: GuildId, q: GuildQueue) returns (pb: Playback?)
      requires Filling(g) && q.guild == g
      requires g in queues ==> queues[g] == q
      modifies this, q, if |q.songs| > 0 then {q.songs[0]} else {}
      ensures Valid()
      ensures q.songs == old(q.songs) && q.isTriggeredByStop == old(q.isTriggeredByStop)
      ensures pb != null <==> g in old(queues) && !old(q.playing) && |q.songs| > 0
      ensures g !in old(queues) || old(q.playing) ==>
        queues == old(queues) && sent == old(sent) && votes == old(votes)
      ensures g in old(queues) && !old(q.playing) ==>
        && votes == old(votes) - {g}
        && sent == old(sent) + PlayNotices(g, true, old(q.isTriggeredByStop),
                                           if |q.songs| > 0 then Some(q.songs[0].info) else None)
        && queues == if |q.songs| > 0 then old(queues) else old(queues) - {g}
      ensures pb != null ==>
        fresh(pb) && g in queues && pb.queue == q && pb.song == q.songs[0] && pb.song.playing && q.playing
    {
      pb := null;
      if g in queues && !queues[g].playing {
        var head := if |q.songs| > 0 then q.songs[0] else null;
        pb := Play(g, head);
      }
    }

    /** Lines 93-115 of the playlist branch: a guild without a queue gets an
        empty one, which is removed again if the voice join fails. */
    method OpenForPlaylist(g: GuildId, volume: int, join: Option<VoiceConnection>) returns (q: GuildQueue?)
      requires Valid()
      modifies this
      ensures Filling(g) && sent == old(sent) && votes == old(votes)
      ensures g in old(queues) ==> q == old(queues[g]) && queues == old(queues)
      ensures g !in old(queues) && join.None? ==> q == null && queues == old(queues)
      ensures g !in old(queues) && join.Some? ==>
        q != null && fresh(q) && queues == old(queues)[g := q] && q.guild == g && q.songs == []
        && !q.playing && !q.isTriggeredByStop && q.connection == join && q.volume == volume
    {
      if g in queues {
        q := queues[g];
        return;
      }
      var created := new GuildQueue(g, volume);
      queues := queues[g := created];
      if join.None? {
        queues := queues - {g};
        q := null;
        return;
      }
      created.connection := join;
      q := created;
    }

    /** `g`'s entry, if still present, is `q`, and `q` has grown from
        `before` by songs of positive length, while the registry has kept
        every other entry. */
    ghost predicate Growing(g: GuildId, q: GuildQueue, queues0: map<GuildId, GuildQueue>, before: seq<Song>)
      reads this, queues.Values, q
    {
      Filling(g) && q.guild == g && (queues == queues0 || queues == queues0 - {g})
      && Extended(q.songs, before)
    }

    /** The loop state of `AddPlaylistItems` after `items`: the entry keeps
        its connection, playing flag and stop flag, has grown from `before`
        as `Filled` says, and each item records whether its video was a
        live stream. */
    ghost predicate Progress(g: GuildId, q: GuildQueue, queues0: map<GuildId, GuildQueue>, before: seq<Song>,
                             q0: GuildQueue, vs: seq<Video>, items: seq<ItemOutcome>, requester: MemberId,
                             isOwner: bool, policy: Policy)
      reads this, queues.Values, q, q0
    {
      && Growing(g, q, queues0, before) && g in queues0 && queues0[g] == q && q0 == q
      && Filled(g in queues, q.songs, before, vs, items, requester, isOwner, policy)
      && |items| <= |vs|
      && (forall k | 0 <= k < |items| :: items[k] == SkippedLiveStream <==> vs[k].durationSeconds == 0)
    }

    /** One video of the playlist, keeping `Progress`. */
    method PlaylistStep(g: GuildId, ghost q: GuildQueue, requester: MemberId, isOwner: bool, policy: Policy,
                        vs: seq<Video>, items: seq<ItemOutcome>, ghost queues0: map<GuildId, GuildQueue>,
                        ghost before: seq<Song>)
      returns (o: ItemOutcome)
      requires Progress(g, q, queues0, before, q, vs, items, requester, isOwner, policy) && |items| < |vs|
      modifies this, q
      ensures Progress(g, q, queues0, before, q, vs, items + [o], requester, isOwner, policy)
      ensures Extended(q.songs, old(q.songs))
      ensures forall k | |old(q.songs)| <= k < |q.songs| :: fresh(q.songs[k])
      ensures sent == old(sent) && votes == old(votes)
      ensures q.connection == old(q.connection) && q.playing == old(q.playing)
      ensures q.isTriggeredByStop == old(q.isTriggeredByStop)
    {
      ghost var songs0, kept0 := q.songs, g in queues;
      o := HandlePlaylistItem(g, q, requester, isOwner, policy, vs[|items|]);
      FilledStep(kept0, songs0, g in queues, q.songs, before, vs, items, o, requester, isOwner, policy);
      ExtendedTrans(before, songs0, q.songs);
      assert forall k | 0 <= k < |items| :: (items + [o])[k] == items[k];
    }

    /** `videos.forEach(... handlePlaylist ...)`: the videos one after the
        other on the guild's queue `q`. */
    method AddPlaylistItems(g: GuildId, requester: MemberId, isOwner: bool, policy: Policy,
                            vs: seq<Video>, q: GuildQueue)
      returns (items: seq<ItemOutcome>)
      requires Filling(g) && q.guild == g
      requires g in queues && queues[g] == q
      modifies this, q
      ensures Growing(g, q, old(queues), old(q.songs))
      ensures |items| == |vs| && forall k | 0 <= k < |vs| :: items[k] == SkippedLiveStream <==> vs[k].durationSeconds == 0
      ensures forall k | |old(q.songs)| <= k < |q.songs| :: fresh(q.songs[k])
      ensures sent == old(sent) && votes == old(votes)
      ensures Filled(g in queues, q.songs, old(q.songs), vs, items, requester, isOwner, policy)
      ensures InfosOf(q.songs) == InfosOf(old(q.songs)) + Admitted(vs, items, requester)
      ensures g in queues <==> AllKept(items)
      ensures q.connection == old(q.connection) && q.playing == old(q.playing)
      ensures q.isTriggeredByStop == old(q.isTriggeredByStop)
    {
      items := [];
      var i := 0;
      while i < |vs|
        invariant i == |items| <= |vs|
        invariant Progress(g, q, old(queues), old(q.songs), q, vs, items, requester, isOwner, policy)
        invariant forall k | |old(q.songs)| <= k < |q.songs| :: fresh(q.songs[k])
        invariant sent == old(sent) && votes == old(votes)
        invariant q.connection == old(q.connection) && q.playing == old(q.playing)
        invariant q.isTriggeredByStop == old(q.isTriggeredByStop)
      {
        ghost var songs0 := q.songs;
        var o := PlaylistStep(g, q, requester, isOwner, policy, vs, items, old(queues), old(q.songs));
        assert forall k | |old(q.songs)| <= k < |songs0| :: q.songs[k] == songs0[k];
        items := items + [o];
        i := i + 1;
      }
      FilledAdmits(g in queues, q.songs, old(q.songs), vs, items, requester, isOwner, policy);
    }

    /** The playlist branch of `run` as written, when the lookup fails
        (`getPlaylistVideos` returns null): a guild without a queue still
        gets one and joins the voice channel before `videos.forEach` throws,
        which leaves an entry with no songs that is not playing. */
    method PlaylistLookupFailedAsWritten(g: GuildId, volume: int, join: Option<VoiceConnection>)
      requires Valid()
      modifies this
      ensures g in old(queues) ==> queues == old(queues)
      ensures g !in old(queues) && join.None? ==> queues == old(queues)
      ensures g !in old(queues) && join.Some? ==>
        g in queues && queues[g].songs == [] && !queues[g].playing && queues[g].connection == join && !Valid()
    {
      if g !in queues {
        var q := new GuildQueue(g, volume);
        queues := queues[g := q];
        if join.None? {
          queues := queues - {g};
          return;
        }
        q.connection := join;
      }
    }
    /** `run` of the play command: the voice-channel checks, then the
      playlist branch for a playlist link, else the video named by the
      link, else the first search result. The resolvers stand for the
      YouTube Data API: `lookup` for `getVideo`, `search` for
      `getVideoByName` and `fetchPlaylist` for `getPlaylistVideos`, with
      `None` for a failed request. */
    method Run(g: GuildId, requester: MemberId, isOwner: bool, policy: Policy, raw: string, voice: VoiceState,
               lookup: string -> Option<Video>, search: string -> Option<string>,
               fetchPlaylist: string -> Option<seq<Video>>, volume: int, join: Option<VoiceConnection>)
      returns (outcome: RunOutcome, pb: Playback?)
      requires Valid()
      modifies this, if g in queues then {queues[g], queues[g].songs[0]} else {}
      ensures Valid()
      ensures VoiceGuard(g in old(queues), voice).Some? ==>
        outcome == VoiceGuard(g in old(queues), voice).value && pb == null && unchanged(this)
      ensures outcome.FromPlaylist? <==>
        VoiceGuard(g in old(queues), voice).None? && IsPlaylistUrl(ParseVideoQuery(raw))
      ensures outcome.FromPlaylist? ==>
        outcome.playlist.Enqueued? ==>
          PlaylistId(ParseVideoQuery(raw)).Some? && fetchPlaylist(PlaylistId(ParseVideoQuery(raw)).value).Some?
      ensures outcome.FromVideo? || outcome == NoSearchResults || outcome == SearchVideoMissing ==>
        VoiceGuard(g in old(queues), voice).None? && !IsPlaylistUrl(ParseVideoQuery(raw))
      ensures outcome == NoSearchResults ==>
        Direct(ParseVideoQuery(raw), lookup).None? && search(ParseVideoQuery(raw)).None? && unchanged(this)
      ensures outcome == SearchVideoMissing ==> Direct(ParseVideoQuery(raw), lookup).None? && unchanged(this)
      ensures pb != null ==> fresh(pb)
    {
      pb := null;
      var guard := VoiceGuard(g in queues, voice);
      if guard.Some? {
        outcome := guard.value;
        return;
      }
      var query := ParseVideoQuery(raw);
      if IsPlaylistUrl(query) {
        var videos := match PlaylistId(query) case None => None case Some(id) => fetchPlaylist(id);
        var p;
        p, pb := EnqueuePlaylist(g, requester, isOwner, policy, videos, volume, join);
        outcome := FromPlaylist(p);
        return;
      }
      var video := Direct(query, lookup);
      if video.None? {
        var found := search(query);
        if found.None? {
          outcome := NoSearchResults;
          return;
        }
        video := lookup(found.value);
        if video.None? {
          outcome := SearchVideoMissing;
          return;
        }
      }
      var v;
      v, pb := HandleVideo(g, requester, isOwner, policy, video.value, volume, join);
      outcome := FromVideo(v);
    }
    /** A stream error followed by the dispatcher's `end` for the same
      playback drops the errored song once: the queue loses exactly its
      head. */
    method ErrorThenEnd(pb: Playback) returns (next: Playback?)
      requires Valid() && !pb.streamErrored
      modifies this, pb, pb.queue, SongFrame(NextHead(pb.queue.songs))
      modifies if |pb.queue.songs| >= 3 then {pb.queue.songs[2]} else {}
      modifies if pb.queue.guild in queues then {queues[pb.queue.guild]} else {}
      ensures Valid()
      ensures pb.queue.songs == Shifted(old(pb.queue.songs))
      ensures |old(pb.queue.songs)| > 0 ==> |pb.queue.songs| == |old(pb.queue.songs)| - 1
    {
      next := StreamError(pb);
      var ignored := DispatcherEnd(pb);
    }
  }
}
