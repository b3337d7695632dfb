/** `MusicStatusCommand.run`: what is playing in the guild and how far it
    has got. It only reads the registry. */
module StatusCommand {
  import opened Admission
  import opened MusicRegistry
  import QueueCommand

  datatype StatusView =
    | NothingPlaying
    | NowPlayingView(song: SongInfo, currentTime: real, pausedLine: string)

  /** The status of `g`'s head song; `streamTimeMs` is what its dispatcher
      reports as its stream time. */
  function Status(reg: Registry, g: GuildId, streamTimeMs: nat): (v: StatusView)
    reads reg, reg.queues.Values
    reads if g in reg.queues && |reg.queues[g].songs| > 0 then {reg.queues[g].songs[0]} else {}
    requires reg.Valid()
    ensures v.NothingPlaying? <==> g !in reg.queues
    ensures v.NowPlayingView? ==>
      var head := reg.queues[g].songs[0];
      && v.song == head.info
      && (v.pausedLine == "The music is paused." <==> !head.playing)
      && (v.pausedLine == "" <==> head.playing)
      && (head.dispatcher == null ==> v.currentTime == 0.0)
      && (head.dispatcher != null ==> v.currentTime == streamTimeMs as real / 1000.0)
  {
    if g !in reg.queues then NothingPlaying
    else
      var song := reg.queues[g].songs[0];
      NowPlayingView(song.info,
                     if song.dispatcher != null then streamTimeMs as real / 1000.0 else 0.0,
                     if !song.playing then "The music is paused." else "")
  }

  /** The status and the queue view agree: both see a queue or neither,
      the same song, the same time, and a pause mark in both or neither. */
  lemma AgreesWithQueueView(reg: Registry, g: GuildId, page: int, streamTimeMs: nat)
    requires reg.Valid()
    ensures var s := Status(reg, g, streamTimeMs);
      var v := QueueCommand.View(reg, g, page, streamTimeMs);
      && (s.NothingPlaying? <==> v.NoSongs?)
      && (s.NowPlayingView? ==>
            s.song == v.nowPlaying && s.currentTime == v.currentTime
            && (s.pausedLine == "" <==> v.progressLabel == ""))
  {
  }
}
