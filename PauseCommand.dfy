/** `PauseSongCommand.run`: pauses the head song of the guild's queue. */
module PauseCommand {
  import opened MusicRegistry

  datatype PauseReply = NothingPlaying | NotStarted | AlreadyPaused | Paused

  /** The head song of `g`'s queue and its dispatcher, if any: all the
      command may change. */
  function HeadFrame(reg: Registry, g: GuildId): set<object>
    reads reg, reg.queues.Values
    reads if g in reg.queues && |reg.queues[g].songs| > 0 then {reg.queues[g].songs[0]} else {}
    requires reg.Valid()
  {
    if g !in reg.queues then {}
    else
      var s := reg.queues[g].songs[0];
      {s} + (if s.dispatcher != null then {s.dispatcher} else {})
  }

  /** The guard chain in the source's order: no queue, a head that has not
      started, a head already paused; otherwise the dispatcher is paused
      and the head marked not playing. */
  method Run(reg: Registry, g: GuildId) returns (r: PauseReply)
    requires reg.Valid()
    modifies HeadFrame(reg, g)
    ensures reg.Valid()
    ensures unchanged(reg) && (g in reg.queues ==> unchanged(reg.queues[g]))
    ensures g !in reg.queues <==> r == NothingPlaying
    ensures g in reg.queues ==>
      var s := reg.queues[g].songs[0];
      && (r == NotStarted <==> old(s.dispatcher) == null)
      && (r == AlreadyPaused <==> old(s.dispatcher) != null && !old(s.playing))
      && (r == Paused <==> old(s.dispatcher) != null && old(s.playing))
      && (r == Paused ==> !s.playing && s.dispatcher == old(s.dispatcher) && s.dispatcher.paused)
      && (r != Paused ==> unchanged(s) && (s.dispatcher != null ==> unchanged(s.dispatcher)))
  {
    if g !in reg.queues {
      return NothingPlaying;
    }
    var s := reg.queues[g].songs[0];
    if s.dispatcher == null {
      return NotStarted;
    }
    if !s.playing {
      return AlreadyPaused;
    }
    s.dispatcher.paused := true;
    s.playing := false;
    r := Paused;
  }
}
