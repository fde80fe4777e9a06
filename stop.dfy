/** The `stop` command of `src/commands/stop.rs`. */
module StopCommand {
  import opened Types
  import opened StoredQueue
  import opened GuildState
  import opened TrackEnd

  /** The stored queue after a stop: no queries left and loop continuation
      switched off. */
  function Stopped(stored: GuildStoredQueue): (s: GuildStoredQueue)
    ensures s.queue == [] && !s.continuePlay
  {
    stored.(continuePlay := false, queue := [])
  }

  /** Once stopped, a guild's stored queue cannot be replayed by a track
      end, whatever the settings and the live queue. */
  lemma StoppedNeverReplays(stored: GuildStoredQueue, settings: GuildSettings, liveQueue: seq<Track>)
    ensures !ShouldReplay(settings, Stopped(stored), liveQueue)
  {
  }

  /** `stop`: the stored queue is emptied and loop continuation switched off
      first, so even the `NothingPlaying` failure of an empty live queue
      leaves them so. With tracks queued, every track of the live queue is
      stopped, the reply is sent, and the displays are refreshed against
      the now empty queue (`failed` are the displays whose edit fails). */
  method Stop(bot: Bot, guild: GuildId, failed: set<MessageId>) returns (r: Result<Reply, ParrotError>)
    requires guild in bot.calls && guild in bot.storedQueues
    requires bot.DisplaysHaveCursors(guild)
    modifies bot`storedQueues, bot`calls, bot`engineLog, bot`caches, bot`cursors
    ensures bot.storedQueues == old(bot.storedQueues)[guild := Stopped(old(bot.storedQueues[guild]))]
    ensures old(bot.calls[guild]) == [] ==>
              && r == Err(NothingPlaying)
              && bot.calls == old(bot.calls) && bot.engineLog == old(bot.engineLog)
              && bot.caches == old(bot.caches) && bot.cursors == old(bot.cursors)
    ensures old(bot.calls[guild]) != [] ==>
              && r == Ok(Reply.Stop)
              && bot.calls == old(bot.calls)[guild := []]
              && bot.engineLog == old(bot.engineLog) + [StopQueue(guild)]
              && Refreshed(old(bot.caches), old(bot.cursors), bot.caches, bot.cursors, guild, failed, 0)
  {
    bot.storedQueues := bot.storedQueues[guild := Stopped(bot.storedQueues[guild])];
    if bot.calls[guild] == [] {
      return Err(NothingPlaying);
    }
    bot.StopAll(guild);
    r := Ok(Reply.Stop);
    var _ := UpdateQueueMessages(bot, guild, bot.calls[guild], failed);
  }

  /** A stop followed by the end of the track it stopped: the stop succeeds
      or fails as above, and the track end then replays nothing, whatever
      the settings. */
  method StopThenTrackEnd(bot: Bot, guild: GuildId, failed: set<MessageId>) returns (r: Result<Reply, ParrotError>, replayed: bool)
    requires guild in bot.calls && guild in bot.storedQueues
    requires bot.DisplaysHaveCursors(guild)
    modifies bot`storedQueues, bot`calls, bot`engineLog, bot`caches, bot`cursors
    ensures !replayed
    ensures guild in bot.storedQueues && bot.storedQueues[guild] == Stopped(old(bot.storedQueues[guild]))
    ensures bot.calls == old(bot.calls)[guild := []]
  {
    r := Stop(bot, guild, failed);
    replayed := TrackEndAct(bot, guild, []);
  }
}
