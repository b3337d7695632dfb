/** The admission decision of `PlaySongCommand.addSong`: whether a resolved
    video may join a guild's queue, checked against the guild's limits in a
    fixed order, and the reply text whose first character tells callers the
    outcome. */
module Admission {
  import opened Text

  type MemberId = string

  /** What the resolver returns for one video (`IYoutubeVideo`). */
  datatype Video = Video(id: string, title: string, durationSeconds: nat)

  /** The fixed identity of a queued song: the video and the member who
      asked for it. */
  datatype SongInfo = SongInfo(id: string, title: string, lengthSeconds: nat, requester: MemberId)

  function SongOf(video: Video, requester: MemberId): SongInfo {
    SongInfo(video.id, video.title, video.durationSeconds, requester)
  }

  /** The guild settings `maxLength` (in minutes) and `maxSongs`; a value of
      zero or less means "no limit". */
  datatype Policy = Policy(maxLengthMinutes: int, maxSongs: int)

  datatype Verdict = Accepted | TooLong | AlreadyQueued | TooMany

  const ThumbsUp: char := '\U{1F44D}'
  const ThumbsDown: char := '\U{1F44E}'

  /** How many queued songs `m` asked for (the `songNumerator` reduction). */
  function CountBy(queued: seq<SongInfo>, m: MemberId): nat
    decreases |queued|
  {
    if |queued| == 0 then 0
    else CountBy(queued[..|queued| - 1], m) + (if queued[|queued| - 1].requester == m then 1 else 0)
  }

  /** Some queued song has this id (`queue.songs.some(...)`). */
  predicate IsQueued(queued: seq<SongInfo>, id: string) {
    exists i | 0 <= i < |queued| :: queued[i].id == id
  }

  predicate TooLongFor(policy: Policy, video: Video) {
    policy.maxLengthMinutes > 0 && video.durationSeconds > policy.maxLengthMinutes * 60
  }

  predicate OverQuota(queued: seq<SongInfo>, requester: MemberId, policy: Policy) {
    policy.maxSongs > 0 && CountBy(queued, requester) >= policy.maxSongs
  }

  /** The checks of addSong, in the source's order. */
  function Admit(queued: seq<SongInfo>, requester: MemberId, isOwner: bool, policy: Policy, video: Video): Verdict {
    if isOwner then Accepted
    else if TooLongFor(policy, video) then TooLong
    else if IsQueued(queued, video.id) then AlreadyQueued
    else if OverQuota(queued, requester, policy) then TooMany
    else Accepted
  }

  /** The reply addSong returns: a thumbs-up for an accepted song and a
      thumbs-down for every refusal. Callers only inspect its first character. */
  function Message(v: Verdict, video: Video, policy: Policy): (r: string)
    ensures IsPrefix([ThumbsUp], r) <==> v == Accepted
    ensures !IsPrefix([ThumbsUp], r) ==> IsPrefix([ThumbsDown], r)
  {
    [if v == Accepted then ThumbsUp else ThumbsDown] + MessageText(v, video, policy)
  }

  /** The message after its leading emoji. `Song.timeString` and
      `Util.escapeMarkdown` are not part of this model: durations are printed
      in seconds and titles unescaped. */
  function MessageText(v: Verdict, video: Video, policy: Policy): string {
    match v
    case Accepted =>
      " [" + video.title + "](https://www.youtube.com/watch?v=" + video.id + ")"
    case TooLong =>
      " " + video.title + " (" + NatToString(video.durationSeconds) + ") is too long. No songs longer than "
        + NatToString(if policy.maxLengthMinutes > 0 then policy.maxLengthMinutes else 0) + " minutes!"
    case AlreadyQueued =>
      " " + video.title + " is already queued."
    case TooMany =>
      " you already have " + NatToString(if policy.maxSongs > 0 then policy.maxSongs else 0)
        + " songs in the queue. Don't hog all the airtime!"
  }

  /** The reply `addSong` returns, held as its verdict together with the
      video and the limits its text mentions; `Text()` is the string sent. */
  datatype Reply = Reply(verdict: Verdict, video: Video, policy: Policy) {
    function Text(): string {
      Message(verdict, video, policy)
    }

    /** `reply.startsWith('👍')`, decided on the verdict (see
        `ApprovesIffThumbsUp`). */
    predicate Approves() {
      verdict == Accepted
    }
  }

  /** Checking the verdict is checking the reply's first character. */
  lemma ApprovesIffThumbsUp(r: Reply)
    ensures r.Approves() <==> IsPrefix([ThumbsUp], r.Text())
  {
  }

  /** The bot owner skips every check. */
  lemma OwnerAlwaysAccepted(queued: seq<SongInfo>, requester: MemberId, policy: Policy, video: Video)
    ensures Admit(queued, requester, true, policy, video) == Accepted
  {
  }

  /** For anyone else, "too long" is decided first and exactly by the
      minutes limit. */
  lemma TooLongExactly(queued: seq<SongInfo>, requester: MemberId, policy: Policy, video: Video)
    ensures Admit(queued, requester, false, policy, video) == TooLong
        <==> policy.maxLengthMinutes > 0 && video.durationSeconds > policy.maxLengthMinutes * 60
  {
  }

  /** A duplicate is reported as a duplicate even when the requester is also
      over quota: the id check runs before the per-member cap. */
  lemma DuplicateBeforeQuota(queued: seq<SongInfo>, requester: MemberId, policy: Policy, video: Video)
    requires !TooLongFor(policy, video) && IsQueued(queued, video.id)
    ensures Admit(queued, requester, false, policy, video) == AlreadyQueued
  {
  }

  /** Anyone but the owner is refused a song that is already queued. */
  lemma DuplicateNeverAccepted(queued: seq<SongInfo>, requester: MemberId, policy: Policy, video: Video)
    requires IsQueued(queued, video.id)
    ensures Admit(queued, requester, false, policy, video) != Accepted
  {
  }

  /** The quota rejection, both ways. */
  lemma QuotaExactly(queued: seq<SongInfo>, requester: MemberId, policy: Policy, video: Video)
    ensures Admit(queued, requester, false, policy, video) == TooMany
        <==> !TooLongFor(policy, video) && !IsQueued(queued, video.id)
             && policy.maxSongs > 0 && CountBy(queued, requester) >= policy.maxSongs
  {
  }

  lemma {:induction false} CountByAppend(queued: seq<SongInfo>, more: seq<SongInfo>, m: MemberId)
    ensures CountBy(queued + more, m) == CountBy(queued, m) + CountBy(more, m)
    decreases |more|
  {
    if |more| == 0 {
      assert queued + more == queued;
    } else {
      var all := queued + more;
      assert all[..|all| - 1] == queued + more[..|more| - 1];
      CountByAppend(queued, more[..|more| - 1], m);
    }
  }

  /** Admitting a non-owner's song never takes any member past the cap. */
  lemma AdmissionKeepsQuota(queued: seq<SongInfo>, requester: MemberId, policy: Policy, video: Video, m: MemberId)
    requires policy.maxSongs > 0 && CountBy(queued, m) <= policy.maxSongs
    requires Admit(queued, requester, false, policy, video) == Accepted
    ensures CountBy(queued + [SongOf(video, requester)], m) <= policy.maxSongs
  {
    CountByAppend(queued, [SongOf(video, requester)], m);
    assert CountBy([SongOf(video, requester)], m) == if requester == m then 1 else 0 by {
      assert [SongOf(video, requester)][..0] == [];
    }
  }

  predicate DistinctIds(queued: seq<SongInfo>) {
    forall i, j | 0 <= i < j < |queued| :: queued[i].id != queued[j].id
  }

  /** Songs admitted for non-owners keep the ids in a queue distinct. */
  lemma AdmissionKeepsIdsDistinct(queued: seq<SongInfo>, requester: MemberId, policy: Policy, video: Video)
    requires DistinctIds(queued)
    requires Admit(queued, requester, false, policy, video) == Accepted
    ensures DistinctIds(queued + [SongOf(video, requester)])
  {
  }

  /** With a ten-minute limit and a cap of two songs per member, a member
      queueing three different five-minute songs gets the first two in and
      the third refused as over quota. */
  lemma QuotaScenario(a: Video, b: Video, c: Video, m: MemberId)
    requires a.id != b.id && a.id != c.id && b.id != c.id
    requires a.durationSeconds == 300 && b.durationSeconds == 300 && c.durationSeconds == 300
    ensures Admit([], m, false, Policy(10, 2), a) == Accepted
    ensures Admit([SongOf(a, m)], m, false, Policy(10, 2), b) == Accepted
    ensures Admit([SongOf(a, m), SongOf(b, m)], m, false, Policy(10, 2), c) == TooMany
  {
    var two := [SongOf(a, m), SongOf(b, m)];
    assert two[..1] == [SongOf(a, m)];
    assert [SongOf(a, m)][..0] == [];
    assert CountBy([SongOf(a, m)], m) == 1;
    assert CountBy(two, m) == CountBy(two[..1], m) + 1;
    assert !IsQueued(two, c.id);
  }
}
