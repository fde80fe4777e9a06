/** The idle disconnect timer of `src/handlers/idle.rs`: a periodic event
    handler that counts consecutive ticks with nothing playing and leaves
    the voice channel once the count passes its limit. */
module Idle {
  import opened Types
  import opened GuildState

  /** `usize` on the 64-bit targets the bot is built for. */
  const USIZE_MODULUS: nat := 0x1_0000_0000_0000_0000

  /** What the handler is called with: the periodic tick carries the play
      state of every track of the call (`true` for `PlayMode::Play`), any
      other event context carries nothing the handler reads. */
  datatype IdleEvent = TrackTick(playing: seq<bool>) | OtherEvent

  /** Some track of the tick is playing; the list is not ordered, so every
      track counts. */
  predicate AnyPlaying(playing: seq<bool>)
    ensures AnyPlaying(playing) <==> exists i :: 0 <= i < |playing| && playing[i]
  {
    true in playing
  }

  /** `fetch_add(1)` on the `usize` counter: wraps to 0 past the maximum. */
  function Increment(count: nat): (c: nat)
    ensures count + 1 < USIZE_MODULUS ==> c == count + 1
    ensures count + 1 == USIZE_MODULUS ==> c == 0
    ensures c < USIZE_MODULUS
  {
    (count + 1) % USIZE_MODULUS
  }

  /** The effect of one call of the handler: the new count, whether it tried
      to disconnect, and whether it sent the idle alert. */
  datatype IdleStepResult = IdleStepResult(count: nat, attempt: bool, alert: bool)

  /** One call of the handler. `guild` is the guild of the interaction that
      installed it and `removed` whether the manager's removal of the call
      would succeed. */
  function IdleStep(count: nat, limit: nat, event: IdleEvent, guild: Option<GuildId>, removed: bool): (o: IdleStepResult)
    ensures event.OtherEvent? ==> o.count == count && !o.attempt
    ensures event.TrackTick? && AnyPlaying(event.playing) ==> o.count == 0 && !o.attempt
    ensures event.TrackTick? && !AnyPlaying(event.playing) ==> (o.attempt <==> count >= limit && guild.Some?)
    ensures o.alert <==> o.attempt && removed
    ensures o.alert ==> o.count == 0
    ensures event.TrackTick? && !AnyPlaying(event.playing) && !o.alert ==> o.count == Increment(count)
  {
    match event
    case OtherEvent => IdleStepResult(count, false, false)
    case TrackTick(playing) =>
      if AnyPlaying(playing) then IdleStepResult(0, false, false)
      else if count >= limit && guild.Some? then
        if removed then IdleStepResult(0, true, true) else IdleStepResult(Increment(count), true, false)
      else IdleStepResult(Increment(count), false, false)
  }

  /** A tick with nothing playing. */
  const IDLE_TICK: IdleEvent := TrackTick([])

  /** The count after `n` idle ticks from `count` when none of them tries to
      disconnect, or `None` when one does. */
  function QuietRun(count: nat, limit: nat, guild: Option<GuildId>, n: nat): Option<nat>
    decreases n
  {
    if n == 0 then Some(count)
    else
      match QuietRun(count, limit, guild, n - 1)
      case None => None
      case Some(c) =>
        var o := IdleStep(c, limit, IDLE_TICK, guild, false);
        if o.attempt then None else Some(o.count)
  }

  /** From a reset counter the first `limit` idle ticks only count, and the
      tick after them, the (limit+1)-th in a row, tries to disconnect. */
  lemma {:induction false} QuietUntilLimit(limit: nat, guild: Option<GuildId>, n: nat)
    requires n <= limit < USIZE_MODULUS
    ensures QuietRun(0, limit, guild, n) == Some(n)
    decreases n
  {
    if n > 0 {
      QuietUntilLimit(limit, guild, n - 1);
    }
  }

  lemma AttemptAfterLimit(limit: nat, guild: GuildId, removed: bool)
    requires limit < USIZE_MODULUS
    ensures QuietRun(0, limit, Some(guild), limit) == Some(limit)
    ensures IdleStep(limit, limit, IDLE_TICK, Some(guild), removed).attempt
  {
    QuietUntilLimit(limit, Some(guild), limit);
  }

  /** A failed removal leaves the counter past the limit, so the next idle
      tick tries again (short of the wrap of a counter at its maximum). */
  lemma FailedRemovalRetries(count: nat, limit: nat, guild: GuildId)
    requires count >= limit && count + 1 < USIZE_MODULUS
    ensures var o := IdleStep(count, limit, IDLE_TICK, Some(guild), false);
      o.attempt && !o.alert && IdleStep(o.count, limit, IDLE_TICK, Some(guild), false).attempt
  {
  }

  /** A playing track in any position resets the counter, so a tick with
      something playing never leads to a disconnect on the next tick unless
      the limit is 0. */
  lemma PlayingResets(count: nat, limit: nat, playing: seq<bool>, guild: Option<GuildId>, removed: bool)
    requires AnyPlaying(playing) && limit > 0
    ensures var o := IdleStep(count, limit, TrackTick(playing), guild, removed);
      o.count == 0 && !IdleStep(o.count, limit, IDLE_TICK, guild, removed).attempt
  {
  }

  /** `IdleHandler`: its limit, the guild of the installing interaction and
      its counter of consecutive idle ticks. */
  class IdleHandler {
    const limit: nat
    const guild: Option<GuildId>
    var count: nat

    constructor (limit: nat, guild: Option<GuildId>)
      ensures this.limit == limit && this.guild == guild && count == 0
    {
      this.limit := limit;
      this.guild := guild;
      count := 0;
    }

    /** `IdleHandler::act`: with something playing the counter is reset;
        otherwise it is incremented and, when it was at least the limit
        before, all global events of the call are removed and then the call
        itself; on success the counter is reset and the alert is sent.
        `removalSucceeds` is the outcome of the manager's removal. */
    method Act(bot: Bot, event: IdleEvent, removalSucceeds: bool) returns (alert: bool)
      requires (event.TrackTick? && !AnyPlaying(event.playing) && count >= limit && guild.Some?)
                 ==> guild.value in bot.calls
      modifies this`count, bot`calls, bot`engineLog
      ensures var o := IdleStep(old(count), limit, event, guild, removalSucceeds);
        && count == o.count && alert == o.alert
        && (o.attempt ==>
              && bot.engineLog == old(bot.engineLog) + [ClearGlobalEvents(guild.value), LeaveCall(guild.value)]
              && bot.calls == (if o.alert then old(bot.calls) - {guild.value} else old(bot.calls)))
        && (!o.attempt ==> bot.engineLog == old(bot.engineLog) && bot.calls == old(bot.calls))
    {
      alert := false;
      if event.OtherEvent? {
        return;
      }
      if AnyPlaying(event.playing) {
        count := 0;
        return;
      }
      var previous := count;
      count := Increment(count);
      if previous >= limit {
        if guild.None? {
          return;
        }
        var g := guild.value;
        bot.RemoveAllGlobalEvents(g);
        var removed := bot.RemoveCall(g, removalSucceeds);
        if removed {
          count := 0;
          alert := true;
        }
      }
    }
  }
}
