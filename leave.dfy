/** The `leave` command of `src/commands/leave.rs`. */
module LeaveCommand {
  import opened Types
  import opened StoredQueue
  import opened GuildState

  /** The stored queues after `leave` clears the guild's queries: a missing
      entry stays missing, loop continuation is kept, other guilds are
      untouched. */
  function ClearedStoredItems(storedQueues: map<GuildId, GuildStoredQueue>, guild: GuildId)
    : (r: map<GuildId, GuildStoredQueue>)
    ensures r.Keys == storedQueues.Keys
    ensures guild in r ==> r[guild].queue == [] && r[guild].continuePlay == storedQueues[guild].continuePlay
    ensures forall g :: g in storedQueues && g != guild ==> r[g] == storedQueues[g]
  {
    if guild in storedQueues then storedQueues[guild := storedQueues[guild].(queue := [])] else storedQueues
  }

  /** `leave`: clears the guild's stored queries (leaving `continue_play` as
      it was), then removes the voice connection, then replies. The removal
      is unwrapped in the bot, so the guild must be connected. */
  method Leave(bot: Bot, guild: GuildId) returns (r: Result<Reply, ParrotError>)
    requires guild in bot.calls
    modifies bot`storedQueues, bot`calls, bot`engineLog
    ensures bot.storedQueues == ClearedStoredItems(old(bot.storedQueues), guild)
    ensures bot.calls == old(bot.calls) - {guild}
    ensures bot.engineLog == old(bot.engineLog) + [LeaveCall(guild)]
    ensures r == Ok(Leaving)
  {
    if guild in bot.storedQueues {
      bot.storedQueues := bot.storedQueues[guild := bot.storedQueues[guild].(queue := [])];
    }
    var removed := bot.RemoveCall(guild, true);
    r := Ok(Leaving);
  }
}
