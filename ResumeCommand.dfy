/** `ResumeSongCommand.run`: resumes the head song of the guild's queue. */
module ResumeCommand {
  import opened MusicRegistry
  import PauseCommand

  datatype ResumeReply = NothingToResume | NotStarted | NotPaused | Resumed

  /** The guard chain in the source's order: no queue, a head that has not
      started, a head already playing; otherwise the dispatcher is resumed
      and the head marked playing. */
  method Run(reg: Registry, g: GuildId) returns (r: ResumeReply)
    requires reg.Valid()
    modifies PauseCommand.HeadFrame(reg, g)
    ensures reg.Valid()
    ensures unchanged(reg) && (g in reg.queues ==> unchanged(reg.queues[g]))
    ensures g !in reg.queues <==> r == NothingToResume
    ensures g in reg.queues ==>
      var s := reg.queues[g].songs[0];
      && (r == NotStarted <==> old(s.dispatcher) == null)
      && (r == NotPaused <==> old(s.dispatcher) != null && old(s.playing))
      && (r == Resumed <==> old(s.dispatcher) != null && !old(s.playing))
      && (r == Resumed ==> s.playing && s.dispatcher == old(s.dispatcher) && !s.dispatcher.paused)
      && (r != Resumed ==> unchanged(s) && (s.dispatcher != null ==> unchanged(s.dispatcher)))
  {
    if g !in reg.queues {
      return NothingToResume;
    }
    var s := reg.queues[g].songs[0];
    if s.dispatcher == null {
      return NotStarted;
    }
    if s.playing {
      return NotPaused;
    }
    s.dispatcher.paused := false;
    s.playing := true;
    r := Resumed;
  }

  /** Pausing a playing song and resuming it brings back the same head,
      playing again, on an unchanged queue. */
  method PauseThenResume(reg: Registry, g: GuildId)
    requires reg.Valid() && g in reg.queues
    requires reg.queues[g].songs[0].dispatcher != null && reg.queues[g].songs[0].playing
    modifies PauseCommand.HeadFrame(reg, g)
    ensures reg.Valid()
    ensures g in reg.queues && reg.queues[g].songs == old(reg.queues[g].songs)
    ensures reg.queues[g].songs[0].dispatcher == old(reg.queues[g].songs[0].dispatcher)
    ensures reg.queues[g].songs[0].playing && !reg.queues[g].songs[0].dispatcher.paused
  {
    var p := PauseCommand.Run(reg, g);
    assert p == PauseCommand.Paused;
    var r := Run(reg, g);
    assert r == Resumed;
  }
}
