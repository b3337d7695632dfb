# Ribbon music queue, dice and docs commands in Dafny

This project models the stateful core of the Ribbon Discord bot's music
commands, plus two smaller command cores, and proves properties of them.

The music core is the registry `PlaySongCommand.queue`, which maps each guild
to its queue. The following act on it:

- the admission check `addSong`;
- the first-song and playlist paths of `handleVideo` and `handlePlaylist`;
- `play`, together with the stream `error`, dispatcher `end` and dispatcher
  `error` callbacks it installs;
- the pause and resume commands, which flip the head song's `playing` flag;
- the read-only queue and status views.

The two smaller cores are:

- the dice command's `xdicey` roll loop;
- the docs command's string and URL logic and its per-version cache.

Modules:

- `Wrappers`: `Option`.
- `Text`: JavaScript string operations and the shapes of the few regular
  expression replacements the commands perform.
- `Admission`: the decision `addSong` takes, and its reply.
- `YouTubeLinks`: the argument parser, the playlist-link check,
  `getPlaylistID` and `getVideoID`.
- `MusicRegistry`:
  - the classes `Song`, `Dispatcher`, `GuildQueue` and `Playback`;
  - the registry class `Registry` and the play command's methods.
- `PauseCommand`, `ResumeCommand`, `QueueCommand` and `StatusCommand`: the
  sibling commands, which take the shared `Registry`.
- `Dice`: the dice command.
- `Docs`: the docs command.

Registry invariant. `Registry.Valid()` requires every entry to be filed under
its own guild, to have a head song and to have a voice connection. Every
command and callback keeps it.

- While a playlist is added, a fresh entry may be empty; this is
  `Registry.Filling`.
- A failed playlist lookup breaks the invariant in the source. See
  "## Findings".

Inputs. The environment enters the model in four ways:

- The YouTube Data API lookups are function parameters, with `None` for a
  failed request.
- The result of joining a voice channel is an `Option<VoiceConnection>`.
- The draws of `Math.random()` are a sequence of reals in [0, 1).
- The docs download is a `Download`: a failed request, a body that is not
  JSON, or parsed documentation.

Crashes. Where the source throws a TypeError on an absent registry entry, the
model returns an outcome that changes nothing.

Points where the model follows the source closely:

- The length limit is in minutes. The source compares `durationSeconds`
  with `maxLength * 60`.
- A refused playlist item deletes the guild's whole registry entry, even one
  that was already playing. Later items of the same playlist are then refused
  or fail; they are not queued separately. `FillAfter` gives every item's
  outcome from the songs queued before it, and `NothingAddedAfterRefusal`
  and `Registry.PlaylistRepeatingHead` state the consequences.
- An errored stream is not made inert. Its `streamErrored` flag makes the
  dispatcher's later `end` do nothing.
- The `stop` command is not part of this model. `isTriggeredByStop` is read
  from the queue as the command left it.

## Model

Source paths below are relative to the repository root.

| member | source | states |
|---|---|---|
| Admission.CountBy | src/commands/music/play.ts:274-280 | the `songNumerator` reduce: how many queued songs the member asked for; `CountByAppend` proves it adds up over concatenation |
| Admission.Admit | src/commands/music/play.ts:282-300 | the verdict in the source's order: the owner is accepted, then too long, then already queued, then over quota; its cases are proved by `OwnerAlwaysAccepted`, `TooLongExactly`, `DuplicateBeforeQuota` and `QuotaExactly` |
| Admission.Message | src/commands/music/play.ts:286-306 | the reply starts with 👍 exactly when the song was accepted, and with 👎 otherwise |
| Admission.ApprovesIffThumbsUp | src/commands/music/play.ts:187 | checking a reply's verdict is the same as `result.startsWith('👍')` on its text |
| Admission.OwnerAlwaysAccepted | src/commands/music/play.ts:282-306 | the bot owner's song is accepted whatever the queue and the limits |
| Admission.TooLongExactly | src/commands/music/play.ts:283-292 | a non-owner is refused as too long exactly when `maxLength > 0` and the duration exceeds `maxLength * 60` seconds |
| Admission.DuplicateBeforeQuota | src/commands/music/play.ts:293-299 | a song already queued gets "already queued" even when the requester is over quota |
| Admission.DuplicateNeverAccepted | src/commands/music/play.ts:293-295 | a non-owner is never accepted a song whose id is already queued |
| Admission.QuotaExactly | src/commands/music/play.ts:274-299 | over quota exactly when not too long, not a duplicate, `maxSongs > 0` and the requester already has `maxSongs` songs queued |
| Admission.CountByAppend | src/commands/music/play.ts:274-280 | the per-member count of two lists back to back is the sum of their counts |
| Admission.AdmissionKeepsQuota | src/commands/music/play.ts:297-306 | admitting a non-owner's song never takes any member past the cap |
| Admission.AdmissionKeepsIdsDistinct | src/commands/music/play.ts:293-306 | songs admitted for non-owners keep the ids in a queue distinct |
| Admission.QuotaScenario | src/commands/music/play.ts:283-299 | a worked example, not a general property: with a 10-minute limit and a cap of 2, a member's first two five-minute songs are accepted and the third refused as over quota |
| YouTubeLinks.ParseVideoQuery | src/commands/music/play.ts:53 | the argument's `replace(/<(.+)>/g, '$1')`; `UnwrapsAngleBrackets` and `PlainQueryUnchanged` state what it does |
| YouTubeLinks.IsPlaylistUrl | src/commands/music/play.ts:87 | the playlist-link regular expression, on `http` or `https` and the two hosts; `PlaylistLinkRecognised` and `ShortLinkIsNotPlaylist` state its cases |
| YouTubeLinks.QueryValue | src/commands/music/play.ts:374 | `parse(query)[key]` as the first pair with that key; `LookupPair` and `PairRoundTrip` state it |
| YouTubeLinks.PlaylistId | src/commands/music/play.ts:373-375 | the `list` parameter of the text after the first `?`; `PlaylistIdRoundTrip` reads back a playlist link's id |
| YouTubeLinks.VideoId | src/commands/music/play.ts:420-430 | the trailing id of a `youtu.be` link, else the `v` parameter; `ShortLinkId` and `WatchLinkId` state both cases |
| YouTubeLinks.UnwrapsAngleBrackets | src/commands/music/play.ts:53 | a one-line link written as `<link>` is parsed to the bare link |
| YouTubeLinks.PlainQueryUnchanged | src/commands/music/play.ts:53 | a query without `<` is passed on unchanged |
| YouTubeLinks.PlaylistLinkRecognised | src/commands/music/play.ts:87 | every one-line `https://www.youtube.com/playlist...` link is taken for a playlist |
| YouTubeLinks.ShortLinkIsNotPlaylist | src/commands/music/play.ts:87 | a `https://youtu.be/...` link is never taken for a playlist |
| YouTubeLinks.LookupPair | src/commands/music/play.ts:374 | a value is found exactly when some pair of the query string has the key |
| YouTubeLinks.PairRoundTrip | src/commands/music/play.ts:374 | `key=value` reads back as that key and that value, for a key without `=` |
| YouTubeLinks.PlaylistIdRoundTrip | src/commands/music/play.ts:373-375 | the id of `https://www.youtube.com/playlist?list=<id>` is `<id>` |
| YouTubeLinks.IdSuffixLen | src/commands/music/play.ts:423 | the longest suffix made of id characters: everything after it is an id character, the character before it is not |
| YouTubeLinks.TrailingId | src/commands/music/play.ts:423 | a found id is a non-empty final segment after `/` made of id characters; none is found only when every `/` is followed by some non-id character |
| YouTubeLinks.ShortLinkId | src/commands/music/play.ts:422-423 | the id of `https://youtu.be/<id>` is `<id>` |
| YouTubeLinks.WatchLinkId | src/commands/music/play.ts:426 | the id of a link without `youtu.be` is its `v` query parameter |
| Text.SubstChars | src/commands/searches/docs.ts:225 | every character of the set is replaced, every other kept, at the same position |
| Text.Split | src/commands/searches/docs.ts:42 | a split has at least one piece and no piece holds a separator |
| Text.JoinSplit | src/commands/searches/docs.ts:202 | joining the pieces of a split with one separator gives the text with each separator replaced by that one |
| Text.SplitNoSeparator | src/commands/searches/docs.ts:42 | a text without separators is one piece |
| Text.SplitAtSeparator | src/commands/searches/docs.ts:42 | the first separator ends the first piece |
| Text.ContainsAt | src/commands/music/play.ts:422 | finding the pattern at any position makes the text contain it |
| Text.ContainsWitness | src/commands/music/play.ts:422 | containment always has a position where the pattern sits |
| Text.LineEnd | src/commands/music/play.ts:53 | the first line terminator at or after a position, where a regular expression's `.` stops |
| Text.LastIndexIn | src/commands/music/play.ts:53 | the last occurrence of a character in a range, or proof that there is none |
| Text.FirstIndexIn | src/commands/searches/docs.ts:227 | the first occurrence of a character in a range, or proof that there is none |
| Text.ReplaceBracketed | src/commands/music/play.ts:53 | a global replacement of greedy one-line bracketed groups; `ReplaceBracketedPrefix`, `ReplaceBracketedNoOpen` and `ReplaceBracketedGroup` state what it does |
| Text.ReplaceBracketedPrefix | src/commands/music/play.ts:53 | text before the first opening bracket passes through the replacement unchanged |
| Text.ReplaceBracketedNoOpen | src/commands/music/play.ts:53 | a text with no opening bracket is unchanged |
| Text.ReplaceBracketedGroup | src/commands/music/play.ts:53 | one bracketed group on one line is one greedy match, replaced by its contents or deleted |
| Text.NatToString | src/commands/games/dice.ts:59 | a number prints as at least one decimal digit |
| Text.NatToStringRoundTrip | src/commands/games/dice.ts:59 | reading the printed digits back gives the number |
| Text.LowerAscii | src/commands/searches/docs.ts:50 | every character is lower-cased in place |
| Text.LowerAsciiKeepsLower | src/commands/searches/docs.ts:50 | lower-casing a text without capitals changes nothing |
| Text.LowerAsciiIdempotent | src/commands/searches/docs.ts:50 | lower-casing twice is lower-casing once |
| MusicRegistry.PlayNotices | src/commands/music/play.ts:318-337 | no entry gives no notice; no song gives "run out of songs" exactly when not stopped, then leaving the voice channel; a song gives its now-playing message |
| MusicRegistry.Shifted | src/commands/music/play.ts:345 | `shift()` drops the head if there is one |
| MusicRegistry.NextHead | src/commands/music/play.ts:346 | `songs[0]` after the shift exists exactly when two songs were queued, and is the second |
| MusicRegistry.VoiceGuard | src/commands/music/play.ts:71-81 | with no queue the member must be in a voice channel the bot may join and speak in; with one, in the queue's channel; both directions |
| MusicRegistry.Direct | src/commands/music/play.ts:127-128 | no video id means no video; otherwise the lookup of that id |
| MusicRegistry.Song.constructor | src/commands/music/play.ts:302 | a new song carries the video and requester, not playing, with no dispatcher |
| MusicRegistry.GuildQueue.constructor | src/commands/music/play.ts:94-101 | a new queue is empty, not playing, unconnected, at the given volume |
| MusicRegistry.Dispatcher.constructor | src/commands/music/play.ts:349-353 | a new dispatcher is not paused |
| MusicRegistry.Playback.constructor | src/commands/music/play.ts:325 | a new playback has not errored |
| MusicRegistry.Registry.constructor | src/commands/music/play.ts:58 | the registry starts empty |
| MusicRegistry.Registry.AddSong | src/commands/music/play.ts:272-307 | the reply carries `Admit`'s verdict; on acceptance exactly one new song is appended and earlier songs are kept; on refusal the songs are unchanged |
| MusicRegistry.Registry.Play | src/commands/music/play.ts:309-371 | clears the guild's vote; with no song deletes the entry and sends `PlayNotices`; with a song starts a fresh dispatcher and sets `song.dispatcher`, `song.playing` and `queue.playing`; keeps `Valid()` |
| MusicRegistry.Registry.StreamError | src/commands/music/play.ts:342-347 | marks the playback errored, reports the song that could not play, drops the head once and plays the next |
| MusicRegistry.Registry.DispatcherEnd | src/commands/music/play.ts:354-360 | after a stream error does nothing; otherwise drops the head once and plays the next |
| MusicRegistry.Registry.DispatcherError | src/commands/music/play.ts:361-365 | only sends the error notice |
| MusicRegistry.Registry.Advance | src/commands/music/play.ts:358-359 | the queue loses its head, and `play` runs on the new head or tears the entry down |
| MusicRegistry.Registry.ErrorThenEnd | src/commands/music/play.ts:342-360 | an error followed by the end of the same playback removes exactly one song |
| MusicRegistry.Registry.HandleVideo | src/commands/music/play.ts:158-226 | a live stream is refused with no change; an existing queue only goes through `addSong`; a new guild gets the effect `Opened` states |
| MusicRegistry.Registry.OpenQueue | src/commands/music/play.ts:166-209 | the entry is removed again when the first song is refused or the join fails; otherwise the guild holds one playing song on the joined connection |
| MusicRegistry.Admitted | src/commands/music/play.ts:117 | the songs the first items of a playlist added, in order: at most one per item |
| MusicRegistry.AdmittedAll | src/commands/music/play.ts:117 | when every item so far was added, the added songs are exactly those videos' songs, in playlist order |
| MusicRegistry.AdmittedNone | src/commands/music/play.ts:117 | when no item was added, no song was added |
| MusicRegistry.AdmittedStep | src/commands/music/play.ts:117 | one more item extends the added songs by that item's song, if it was added |
| MusicRegistry.AdmittedByRequester | src/commands/music/play.ts:117 | every song a playlist added was asked for by its requester |
| MusicRegistry.AllKeptSnoc | src/commands/music/play.ts:246-247 | one more item keeps the entry exactly when it is skipped or added |
| MusicRegistry.NextOutcome | src/commands/music/play.ts:228-252 | the next item is skipped exactly for a live stream, and added exactly when it is not one, the entry is still there and `Admit` accepts it on the songs queued before it; a refusal carries `addSong`'s verdict, and with no entry left a non-owner's too-long video is refused and anything else fails |
| MusicRegistry.FillAfter | src/commands/music/play.ts:117 | the playlist after its first n videos has one item per video; what its songs, kept flag and items are is stated by the `FillAfter...` lemmas and those below |
| MusicRegistry.FillAfterQueued | src/commands/music/play.ts:117 | the songs queued after a playlist's first videos are the entry's old songs followed by `Admitted` |
| MusicRegistry.QueuedStep | src/commands/music/play.ts:304 | one more item extends the queued songs exactly as it extends `Admitted` |
| MusicRegistry.FillAfterKept | src/commands/music/play.ts:246-247 | the entry is still there exactly when every item so far was skipped or added |
| MusicRegistry.FillAfterSkips | src/commands/music/play.ts:229-234 | exactly the live streams are skipped |
| MusicRegistry.FillAfterPrefix | src/commands/music/play.ts:117 | the items after the first n videos are the first n items after any longer prefix: later videos do not change earlier outcomes |
| MusicRegistry.GoneStaysGone | src/commands/music/play.ts:246-247 | once the entry is gone it stays gone for the rest of the playlist |
| MusicRegistry.OwnerPlaylistAllAdded | src/commands/music/play.ts:282 | the owner's playlist of videos that are not live streams keeps the entry, is added whole and appended in order after the songs already queued |
| MusicRegistry.OwnerPlaylistAdmitted | src/commands/music/play.ts:282 | for a guild that had no queue, the owner's playlist of videos that are not live streams keeps the entry and `Admitted` is every video's song, in order |
| MusicRegistry.NothingAddedAfterRefusal | src/commands/music/play.ts:246-252 | after an item is refused or fails, no later video is added |
| MusicRegistry.RefusedHeadDropsEntry | src/commands/music/play.ts:246-247 | a playlist whose first video `addSong` refuses loses the guild its entry, whatever follows |
| MusicRegistry.PlaylistKeepsQuota | src/commands/music/play.ts:297-306 | the songs a non-owner's playlist adds never take any member past the per-member cap |
| MusicRegistry.PlaylistKeepsIdsDistinct | src/commands/music/play.ts:293-306 | a non-owner's playlist keeps the ids in the queue distinct |
| MusicRegistry.InfosOfSnoc | src/commands/music/play.ts:304 | appending one song appends its details |
| MusicRegistry.ExtendedTrans | src/commands/music/play.ts:304 | growing by positive-length songs twice is growing once |
| MusicRegistry.FilledStep | src/commands/music/play.ts:228-252 | one more item, with the outcome `NextOutcome` gives it on the songs before, keeps the entry where `FillAfter` says the playlist has got |
| MusicRegistry.FilledAdmits | src/commands/music/play.ts:117 | a whole playlist `Filled` has appended the `Admitted` songs, and kept the entry exactly when every item was skipped or added |
| MusicRegistry.Registry.HandlePlaylistItem | src/commands/music/play.ts:228-252 | a live stream is skipped with no change; an admitted video is appended; a refused one deletes the entry; with no entry left, too long is still refused and anything else fails; `ItemStep` sums this up for the loop, with the outcome equal to `NextOutcome` on the songs before; the connection, playing and stop flags are kept |
| MusicRegistry.Registry.AddOrDrop | src/commands/music/play.ts:236-252 | `addSong` on the entry, and the entry deleted exactly when the reply is not 👍 |
| MusicRegistry.Registry.PlaylistStep | src/commands/music/play.ts:117 | one video through `handlePlaylist`, keeping the loop state `Progress` (the entry is where `FillAfter` says, for the requester, owner flag and limits given) and adding only fresh songs |
| MusicRegistry.Registry.AddPlaylistItems | src/commands/music/play.ts:117 | the items are `FillAfter` of the entry's songs, the videos, the requester, the owner flag and the limits, so each is the one `addSong` decides given the songs queued before it; one outcome per video, skipped exactly for the live streams; the entry survives exactly when every item was skipped or added, and holds its old songs followed by `Admitted`; other entries, sent notices, votes, connection and flags kept |
| MusicRegistry.Registry.OpenForPlaylist | src/commands/music/play.ts:93-115 | an existing entry is reused; a new one is created, and removed again if the join fails |
| MusicRegistry.Registry.PlayIfIdle | src/commands/music/play.ts:119-121 | a playback starts exactly when the entry is still there, idle and has a song; a gone or playing entry changes nothing; an idle one clears the vote and sends `PlayNotices`, and is deleted when it has no song |
| MusicRegistry.Registry.FillAndPlay | src/commands/music/play.ts:116-121 | the items are `FillAfter` of the entry's songs and the videos under the given owner flag and limits; then the head plays if the entry is idle; the end state is `Listed` |
| MusicRegistry.Registry.EnqueuePlaylist | src/commands/music/play.ts:87-124 | a failed lookup or join changes nothing, and otherwise the videos are enqueued with the items `FillAfter` gives from the entry's songs (none for a new guild) under the requester, owner flag and limits; then `Listed`: the entry survives exactly when no item deleted it and it holds a song, its songs are the old ones followed by the added ones, and a kept idle entry plays its head (the now-playing notice) or leaves (run out of songs, left the channel); other entries are kept; `Valid()` holds afterwards |
| MusicRegistry.Registry.EmptyPlaylistForNewGuild | src/commands/music/play.ts:93-121 | with `videos` still empty at line 117, a guild with no queue is told the songs ran out, leaves, and ends with no entry |
| MusicRegistry.Registry.OwnerPlaylistForNewGuild | src/commands/music/play.ts:87-124 | the owner's playlist of videos that are not live streams, in a new guild whose join succeeds: every item is added, the entry holds exactly those songs in order, the first plays, the now-playing notice is the only one sent and the vote is cleared |
| MusicRegistry.Registry.PlaylistRepeatingHead | src/commands/music/play.ts:87-124 | a non-owner's playlist that starts with the song at the head of a playing queue (not too long, not live) is refused as already queued, which deletes the whole entry; nothing plays and nothing is sent |
| MusicRegistry.Registry.PlaylistLookupFailedAsWritten | src/commands/music/play.ts:90-117 | as written, a failed lookup for a new guild leaves an empty, non-playing entry that breaks `Valid()` |
| MusicRegistry.Registry.Run | src/commands/music/play.ts:66-156 | built on the corrected `EnqueuePlaylist`: the voice guards answer first with no change; a playlist link takes the playlist branch exactly; otherwise the direct lookup, then the search |
| PauseCommand.Run | src/commands/music/pause.ts:42-71 | no queue, not started and already paused each reply and change nothing; otherwise only the head's `playing` becomes false and its dispatcher is paused |
| ResumeCommand.Run | src/commands/music/resume.js:45-61 | no queue, not started and not paused each reply and change nothing; otherwise only the head's `playing` becomes true and its dispatcher resumes |
| ResumeCommand.PauseThenResume | src/commands/music/resume.js:57-58 | pausing a playing song and resuming it leaves the same queue with the head playing again on the same dispatcher |
| QueueCommand.Paginate | src/commands/music/queue.ts:69 | the page clamped to `[1, maxPage]` and its slice; `MaxPageIsPageCount` and `PaginateShowsRequestedSlice` state it |
| QueueCommand.DefaultPageShowsFirstSongs | src/commands/music/queue.ts:40 | with no page given, page 1 shows the first five songs, or all when there are fewer |
| QueueCommand.TotalLength | src/commands/music/queue.ts:70 | the `reduce` of the song lengths; `TotalLengthAppend` and `TotalLengthAfterShift` state how it adds up |
| QueueCommand.MaxPageIsPageCount | src/commands/music/queue.ts:69 | `maxPage` is the number of five-song pages the queue needs |
| QueueCommand.PaginateShowsRequestedSlice | src/commands/music/queue.ts:69 | the page shown is clamped to `[1, maxPage]`, is the requested one when it exists, and holds between one and five songs from `(page - 1) * 5` on |
| QueueCommand.PagesCoverQueue | src/commands/music/queue.ts:4 | pages 1 to k hold the first k pages' worth of songs in order, and all pages together hold the whole queue |
| QueueCommand.TotalLengthAppend | src/commands/music/queue.ts:70 | the total of two lists back to back is the sum of their totals |
| QueueCommand.TotalLengthAfterShift | src/commands/music/queue.ts:70 | after the head finishes, the total drops by exactly its length |
| QueueCommand.View | src/commands/music/queue.ts:54-112 | no queue exactly when "no songs"; the head is now playing; "Paused: " exactly when it is not playing; time 0 without a dispatcher; total is the sum of lengths; the page hint exactly when more than five songs |
| StatusCommand.Status | src/commands/music/status.ts:30-61 | nothing playing exactly when there is no queue; reports the head; "The music is paused." exactly when it is not playing; time 0 without a dispatcher |
| StatusCommand.AgreesWithQueueView | src/commands/music/status.ts:40-52 | the status and the queue view agree on the queue's presence, the song, the time and the pause mark |
| Dice.Face | src/commands/games/dice.ts:78 | one face from one draw; `FaceInRange` puts it between 1 and the number of sides |
| Dice.Sum | src/commands/games/dice.ts:81 | the `reduce` total; `SumAppend` and `SumBounds` state how it adds up |
| Dice.FaceInRange | src/commands/games/dice.ts:78 | every face lies between 1 and the number of sides |
| Dice.SumAppend | src/commands/games/dice.ts:81 | the `reduce` total of a list with one more value grows by that value |
| Dice.SumBounds | src/commands/games/dice.ts:81 | a sum of values in [lo, hi] lies between n * lo and n * hi |
| Dice.XdiceyAsWritten | src/commands/games/dice.ts:74-87 | as written, `xdicey` rolls one die fewer than `Math.abs(rolls)`, one per draw in order, and totals them |
| Dice.OneRollAsWritten | src/commands/games/dice.ts:77-79 | as written, asking for one roll gives no rolls and a total of 0 |
| Dice.Xdicey | src/commands/games/dice.ts:74-87 | rolls `Math.abs(rolls)` dice, one per draw in order, each between 1 and `Math.abs(sides)`; the total is their sum, between `Math.abs(rolls)` and `Math.abs(rolls) * Math.abs(sides)` |
| Dice.Labels | src/commands/games/dice.ts:58-60 | one label per face |
| Dice.Describe | src/commands/games/dice.ts:55-65 | the loop pushing each face's text, and the description: every face's label, in order, between bars |
| Dice.Run | src/commands/games/dice.ts:52-72 | on the corrected `Xdicey` and within the argument bounds: `rolls` faces, each in `[1, sides]` and drawn in order; the description lists them between bars; the total lies in `[rolls, rolls * sides]` |
| Dice.RunAsWritten | src/commands/games/dice.ts:52-87 | as written: `rolls - 1` faces, each in `[1, sides]`; the description lists them between bars; the total lies in `[rolls - 1, (rolls - 1) * sides]` |
| Docs.ParseVersion | src/commands/searches/docs.ts:45-50 | default `stable`; a value is accepted exactly when its lower-case form is one of the three names, and selects the version of that name |
| Docs.VersionNameRoundTrip | src/commands/searches/docs.ts:45-50 | each version's own name selects that version |
| Docs.VersionIgnoresCase | src/commands/searches/docs.ts:50 | a spelling and its lower-case form select the same version |
| Docs.SplitQuery | src/commands/searches/docs.ts:42 | the query always has a first part, and no part holds `#` or `.` |
| Docs.QuerySplitsAtSeparator | src/commands/searches/docs.ts:42 | `Cls#member` and `Cls.member` both split into the class and the member |
| Docs.ParseInput | src/commands/searches/docs.ts:78-81 | `main` is the first part; `sub` is absent exactly when there is no non-empty second part |
| Docs.MemberCallParensDropped | src/commands/searches/docs.ts:80 | a member written as `name(args)` is looked up as `name` |
| Docs.PlainMemberKept | src/commands/searches/docs.ts:80 | a member name without parentheses is kept as typed, and the member branch runs |
| Docs.WantsMember | src/commands/searches/docs.ts:96 | `if (input.sub)`: a member part that is present and not empty; `PlainMemberKept` shows it taken |
| Docs.SourceBaseUrl | src/commands/searches/docs.ts:64-68 | the `sourceBaseURL` of the view-source links; `VersionsDistinguished` shows it names the version |
| Docs.FetchUrl | src/commands/searches/docs.ts:211-214 | the raw documentation JSON of the version; `FetchUrlInjective` shows different versions differ |
| Docs.DocsBaseUrl | src/commands/searches/docs.ts:258 | the `docsBaseURL` of `docifyLink`; `VersionsDistinguished` shows it names the version |
| Docs.AuthorLabel | src/commands/searches/docs.ts:89-94 | the embed's author line; `VersionsDistinguished` shows it names the version |
| Docs.VersionsDistinguished | src/commands/searches/docs.ts:64-94 | different versions get different author lines, documentation links and source links |
| Docs.NotFoundMessage | src/commands/searches/docs.ts:202 | the not-found reply; `NotFoundQuotesQuery` shows it quotes the query as typed |
| Docs.FetchUrlInjective | src/commands/searches/docs.ts:211-214 | different versions are fetched from different URLs |
| Docs.NotFoundQuotesQuery | src/commands/searches/docs.ts:202 | the not-found reply quotes the query as typed, with `#` written as `.` |
| Docs.DocifyLink | src/commands/searches/docs.ts:256-263 | a class page when some class is named `prop`, a typedef page otherwise, under `commando/master` or `main/<version>` |
| Docs.HasClass | src/commands/searches/docs.ts:259 | `find` succeeds exactly when some class has the name |
| Docs.ClassWinsOverTypedef | src/commands/searches/docs.ts:259-263 | a name that is a class gets its class page whatever the typedefs hold |
| Docs.Clean | src/commands/searches/docs.ts:223-228 | the cleaned text holds no newline |
| Docs.StripTags | src/commands/searches/docs.ts:226 | drops every `<info>`, `</info>`, `<warn>` and `</warn>`; the `StripTags...` lemmas state what it keeps and drops |
| Docs.Links | src/commands/searches/docs.ts:227 | rewrites each `{@link x}` to `x` in backquotes; the `Links...` lemmas state what it rewrites and keeps |
| Docs.StripTagsKeepsOut | src/commands/searches/docs.ts:226 | dropping tags adds no character |
| Docs.LinksKeepsOut | src/commands/searches/docs.ts:227 | rewriting links adds only backquotes |
| Docs.StripTagAtFront | src/commands/searches/docs.ts:226 | each of `<info>`, `</info>`, `<warn>` and `</warn>` is dropped where it stands |
| Docs.StripTagsPlainPrefix | src/commands/searches/docs.ts:226 | text before the first `<` passes through unchanged |
| Docs.StripTagsDropsTag | src/commands/searches/docs.ts:226 | the text before a tag is kept and the tag dropped |
| Docs.StripTagsNoTag | src/commands/searches/docs.ts:226 | a text without `<` keeps everything |
| Docs.LinkRewritten | src/commands/searches/docs.ts:227 | `{@link x}` becomes `` `x` `` and the lazy group stops at the first `}` |
| Docs.LinksPlainPrefix | src/commands/searches/docs.ts:227 | text before the first `{` passes through unchanged |
| Docs.LinksNoBrace | src/commands/searches/docs.ts:227 | a text without `{` keeps everything |
| Docs.CleanKeepsPlainText | src/commands/searches/docs.ts:223-228 | plain text with no newline, tag or link comes out as it went in |
| Docs.DocsCache.constructor | src/commands/searches/docs.ts:55 | the cache starts empty |
| Docs.DocsCache.FetchDocs | src/commands/searches/docs.ts:206-221 | a stored version is answered from the cache unchanged, a stored failure included; a failed request stores nothing and fails; a response is stored and returned, as `None` when it is not JSON |
| Docs.DocsCache.FetchTwice | src/commands/searches/docs.ts:207-209 | once a request for a version got a response, asking again gives the same answer whatever a second download returns |

## Left out

This section lists what the model does not capture.

Network, streaming and outside state:

- Network I/O. The YouTube Data API calls (`getVideo`, `getVideoByName`,
  `getPlaylistVideos`) and the docs JSON download are left out. Their results
  are parameters. `None` stands for a failed YouTube request, and a `Download`
  value gives the outcome of the docs download.
- ytdl, voice channels and the dispatcher. The ytdl stream, `voiceChannel.join`
  and `leave`, and the stream dispatcher are opaque. The dispatcher is reduced
  to its paused flag. Leaving the voice channel is a `LeftVoiceChannel` notice.
- Volume. `setVolumeLogarithmic(queue.volume / 5)` is floating-point gain and
  is left out. The volume is only stored.
- Skip and stop. Those commands are not part of this model. The skip votes are
  modelled as the set of guilds with a pending vote, and clearing a vote's
  timer is removing the guild. `isTriggeredByStop` is set by the stop command
  and only read here.

Playlists:

- Interleaving. Every command and callback is one atomic step; other
  commands cannot run in between. In the source they can, at each `await`,
  and the model leaves out the states and races this allows:
  - `run` reads the guild's entry once, at play.ts:67. It then awaits at
    play.ts:85 (the status reply), :88 (the status edit), :91
    (`getPlaylistVideos`), :127 (`getVideoID`), :138 (`getVideoByName`) and
    :141 (`getVideo`). After those awaits it still decides on the value read
    at :67: `if (!queue)` at :93 in the playlist branch, and
    `handleVideo(video, queue, ...)` at :133 and :144.
  - So two play commands in a guild without a queue can both create an
    entry: the later `this.queue.set` (play.ts:103 or :175) replaces the
    earlier entry and its songs.
  - An entry deleted during those awaits (by stop, or by `play` running out
    of songs) still looks present to `handleVideo`. `addSong` then reads
    `undefined` at play.ts:273 and throws at :293 (`queue.songs.some`), or at
    :304 (`queue.songs.push`) for the owner.
  - `await voiceChannel.join()` follows `queue.set`, at play.ts:107 in the
    playlist branch and at play.ts:197 in `handleVideo`. While the join is
    pending another command sees the new entry with `connection: null`, and
    in the playlist branch also with `songs: []`.
  - `fetchDocs` tests the cache at docs.ts:207 and awaits the download at
    docs.ts:215 before storing at docs.ts:218. Two lookups of an uncached
    version can therefore both download it, and the later store wins.
- Playlist concurrency. The `videos.forEach(async ...)` fan-out at
  play.ts:117 is taken as one item after the other. `handlePlaylist` never
  awaits, so each item's body runs atomically.
- `getPlaylistVideos` timing. At play.ts:393-394 it starts one `getVideo`
  lookup per playlist item and returns `arr` before any of them has pushed
  its video. So `videos` at play.ts:117 holds only the lookups finished by
  then, in the order they finished. For a guild that already has a queue
  nothing is awaited in between, so `videos` is empty and no playlist video
  is queued. For a new guild only lookups that finish during the voice join
  are queued. When none does, `play(guild, undefined)` at play.ts:119-121
  deletes the entry and leaves the voice channel; `EmptyPlaylistForNewGuild`
  proves this. The model takes `videos` as given: the sequence present at
  play.ts:117, which is the full playlist only if every lookup finished in
  time and in order.

Replies and side effects:

- Presentation. Embeds, `statusMsg.edit` texts, typing indicators and
  `deleteCommandMessages` are left out. Their effect shows in the model only
  as outcome values and notices.
- The "couldn't play" notice. In the source it edits the now-playing message;
  here it is a separate `CouldNotPlay` notice.
- Admission.Message: `Song.timeString` and `Util.escapeMarkdown` are not part
  of this model. Durations are printed in seconds and titles unescaped.
- Admission.Reply: the reply is held as its verdict and the values its
  text mentions. `Text()` is the string. `Approves()` checks the verdict, which
  `ApprovesIffThumbsUp` proves equal to checking the text's first character.
- `moment.duration`. The ISO 8601 duration parsing is left out; the duration
  is a given natural number.
- `Song.timeString`, `lengthString` and `timeLeft` are not part of this model.
  The views report times as numbers of seconds.
- `util.paginate` is not part of this model. `QueueCommand.Paginate` follows
  the command framework's published shape: clamp the page to `[1, maxPage]`,
  slice `(page - 1) * n` to `page * n`, and show the whole list when it fits
  on one page.
- The `Song` class is not part of this model. A new song is assumed not to be
  playing and to have no dispatcher. Admission.MessageText renders the
  accepted reply's `[${song}](${song.url})` as
  `[title](https://www.youtube.com/watch?v=id)`. That takes `Song.toString` to
  give the title and `song.url` to give the watch link of the id.

Strings and parsing:

- Fuse.js fuzzy search, `joinType` and the docs embed rendering are left out:
  they are a library call and untyped nested-array formatting.
- Strings are sequences of Unicode scalar values, not UTF-16 code units. This
  only matters for the 👍 prefix check, which is modelled on one character.
- `querystring.parse` is modelled as "the value of the first `key=value` pair
  with that key". Percent-decoding and arrays for repeated keys are left out.
- `toLowerCase` is modelled on ASCII letters only.
- Dice draws. `Math.random()` is a sequence of draws in [0, 1), taken as
  exact reals. The source multiplies IEEE 754 doubles, which is not modelled.
- Dice.Face: it computes `floor(r * sides) + 1` on exact reals, and rounding
  in the source can give a different face. Take sides = 11 and the double
  r = m * 2^-52, where m = (3 * 2^52 - 1) / 11 is a whole number. The exact
  product is 3 - 2^-52, so the model's face is 3. The double product rounds
  to 3.0, so the source's face is 4.

Contracts stated less fully than the source, or simplified:

- Docs.DocsCache.FetchDocs: the download is an input, because it is network
  I/O. Its three outcomes are a failed request, a body that is not JSON, and
  parsed documentation. The source stores the unawaited `res.json()` promise.
  A body that is not JSON therefore stays cached as a rejected promise, so
  every later `fetchDocs` for that version fails again. The model caches that
  failure as `None`. It does not model the promise or its rejection, which
  `run` turns into the not-found reply.
- Docs.Clean: its contract states only that no newline survives. What the
  tag and link passes do is stated by the `StripTags...` and `Links...` lemmas.
- MusicRegistry.Registry.Run: it states the guards, which branch runs and the
  no-result cases. What each branch does is stated on `EnqueuePlaylist` and
  `HandleVideo`, not repeated here.
- MusicRegistry.Registry.Run: it is built on the corrected `EnqueuePlaylist`,
  which checks the playlist lookup before creating an entry. As written, a
  failed lookup for a guild with no queue and a successful join leaves the
  empty, non-playing entry of `Registry.PlaylistLookupFailedAsWritten`
  (play.ts:103-117).
- MusicRegistry.Registry.Run: when a search hit cannot be looked up, the
  source's `handleVideo` throws asynchronously on the absent video, so the
  "couldn't obtain" reply at play.ts:150 is never reached. The model returns
  `SearchVideoMissing` and changes nothing.
- Dice.Run: it is built on the corrected `Dice.Xdicey`, so it lists and
  counts `rolls` faces. `Dice.RunAsWritten` is the command on `xdicey` as
  written, with one face fewer.
- MusicRegistry.Registry.Play: called without a song for a guild with no
  entry, the source throws on `queue.voiceChannel.leave()` after clearing the
  vote. The model only clears the vote.
- Dice.Labels: it states one label per face. Their text is `NatToString`,
  whose digits `NatToStringRoundTrip` reads back.

## Findings

| source | as written | input that shows it | evidently intended | confidence | as-written member | corrected member |
|---|---|---|---|---|---|---|
| src/commands/games/dice.ts:77 | the loop runs `i` from 1 while `i < Math.abs(rolls)`, so it rolls `Math.abs(rolls) - 1` dice | `dice 6 1`: no roll, total 0 | one die per requested roll (`i <= Math.abs(rolls)`) | high, not executed | Dice.OneRollAsWritten | Dice.Xdicey |
| src/commands/music/play.ts:91-117 | the queue is created and the voice channel joined before `videos.forEach`, which throws when `getPlaylistVideos` returned `null` | a playlist link whose lookup fails, in a guild with no queue and a successful join | report the failure and leave the registry as it was | medium, not executed | MusicRegistry.Registry.PlaylistLookupFailedAsWritten | MusicRegistry.Registry.EnqueuePlaylist |

For the dice finding, `Dice.XdiceyAsWritten` models the loop as written and
`Dice.RunAsWritten` the command on it. `Dice.Run` uses the corrected
`Dice.Xdicey`.

For the playlist finding, the as-written entry has no songs and is not
playing, so it breaks `Registry.Valid()`. Later commands in that guild then
see a queue with no head. The corrected `EnqueuePlaylist` checks the lookup
before creating anything, and `Run` uses it.
