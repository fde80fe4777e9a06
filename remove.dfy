/** The `remove` command of `src/commands/remove.rs`: validation of the
    range, the lock-step drain of the live and the stored queue, the reply
    and the refresh of the open queue displays. */
module RemoveCommand {
  import opened Types
  import opened StoredQueue
  import opened GuildState
  import opened QueueCommand
  import opened SkipCommand
  import opened TrackEnd

  /** The lowest `index` and `until` the command registration accepts
      (`min_int_value(1)`): position 0, the playing track, cannot be named. */
  const MIN_REMOVE_POSITION: int := 1

  /** `until` when given, `index` otherwise. */
  function UntilOrIndex(index: int, until: Option<int>): (u: int)
    ensures until.None? ==> u == index
    ensures until.Some? ==> u == until.value
  {
    match until
    case None => index
    case Some(v) => v
  }

  /** `min(until, len.saturating_sub(1))` with `len` an `isize`: `until`
      pulled down to the last position of the queue. The subtraction cannot
      saturate (`len` is never negative), so an empty queue gives −1. */
  function ClampUntil(until: int, len: nat): (u: int)
    ensures u <= until && u <= len - 1
    ensures u == until || u == len - 1
  {
    var last := len - 1;
    if until <= last then until else last
  }

  /** An empty queue pulls every `until` down to −1. */
  lemma ClampUntilEmptyQueue(until: int)
    ensures ClampUntil(until, 0) == if until <= -1 then until else -1
  {
  }

  /** The checks of `remove`, in their order: a queue of at most the playing
      track is empty, then `index` must be a position of the queue, then the
      clamped `until` must not be below `index`. On success, the last
      position to remove. */
  function CheckRemove(index: int, until: int, len: nat): (r: Result<int, ParrotError>)
    ensures len <= 1 ==> r == Err(QueueEmpty)
    ensures len > 1 && index >= len ==> r == Err(NotInRange("index", index, 1, len))
    ensures (len > 1 && index < len && ClampUntil(until, len) < index)
              ==> r == Err(NotInRange("until", ClampUntil(until, len), index, len))
    ensures r.Ok? <==> len > 1 && index < len && index <= ClampUntil(until, len)
    ensures r.Ok? ==> r.value == ClampUntil(until, len)
  {
    var last := ClampUntil(until, len);
    if len <= 1 then Err(QueueEmpty)
    else if index >= len then Err(NotInRange("index", index, 1, len))
    else if last < index then Err(NotInRange("until", last, index, len))
    else Ok(last)
  }

  /** A range that passes the checks lies inside the queue and, given the
      registered minimum, leaves the playing track alone. */
  lemma AcceptedRangeInQueue(index: int, until: int, len: nat)
    requires index >= MIN_REMOVE_POSITION
    requires CheckRemove(index, until, len).Ok?
    ensures 1 <= index <= CheckRemove(index, until, len).value < len
  {
  }

  /** A removal only ever narrows the requested range: the last position
      removed is `until` itself, or the end of the queue when `until` is
      beyond it. */
  lemma RemoveClampsUntil(index: int, until: int, len: nat)
    requires CheckRemove(index, until, len).Ok?
    ensures var last := CheckRemove(index, until, len).value;
      && last <= until
      && (until < len ==> last == until)
      && (until >= len ==> last == len - 1)
  {
  }

  /** The reply of a successful removal: the removed track when a single
      position was named, the "removed multiple" message otherwise. */
  function RemoveReply(removed: Track, index: int, last: int): (r: Reply)
    ensures r.RemovedTrack? <==> last == index
    ensures r.RemovedTrack? ==> r.track == removed
    ensures !r.RemovedTrack? ==> r == RemoveMultiple
  {
    if last == index then RemovedTrack(removed) else RemoveMultiple
  }

  /** The live queue after a removal of positions index through last keeps
      the playing track and every track outside the range, in order. */
  lemma RemoveKeepsOthers(queue: seq<Track>, index: nat, last: nat)
    requires 1 <= index <= last < |queue|
    ensures var after := Drain(queue, index, last + 1);
      && |after| == |queue| - (last - index + 1)
      && after[0] == queue[0]
      && after == queue[..index] + queue[last + 1..]
  {
  }

  /** The live and the stored queue are index-aligned when query i of the
      stored queue is the one that produced track i of the live queue. */
  predicate Aligned(live: seq<Track>, stored: seq<Query>, origin: Track -> Query)
  {
    |live| == |stored| && forall i :: 0 <= i < |live| ==> origin(live[i]) == stored[i]
  }

  /** Removing the same range from both queues keeps them aligned. */
  lemma RemoveKeepsAlignment(live: seq<Track>, stored: seq<Query>, origin: Track -> Query, index: nat, last: nat)
    requires Aligned(live, stored, origin)
    requires index <= last < |live|
    ensures Aligned(Drain(live, index, last + 1), Drain(stored, index, last + 1), origin)
  {
  }

  /** A skip consumes live tracks but never stored queries, so afterwards
      the two queues are out of step, and a later removal drains stored
      positions that no longer hold the removed tracks' queries. */
  lemma SkipBreaksAlignment(live: seq<Track>, stored: seq<Query>, origin: Track -> Query, to: Option<nat>)
    requires Aligned(live, stored, origin) && live != []
    requires to.Some? ==> to.value >= MIN_SKIP_TO
    ensures !Aligned(Drain(live, 1, TracksToSkip(to, |live|))[1..], stored, origin)
  {
    DrainThenDequeue(live, TracksToSkip(to, |live|));
  }

  /** `remove`. `index` is the first position to remove and `until` the
      optional last one (registered with minimum 1); `failed` are the
      displays whose edit fails during the refresh. A failed check changes
      nothing. Otherwise positions index through the clamped `until` are
      drained from the live queue and from the stored queue in one step, the
      reply names the removed track or several, and the displays are
      refreshed against the new live queue. */
  method Remove(bot: Bot, guild: GuildId, index: int, until: Option<int>, failed: set<MessageId>)
    returns (r: Result<Reply, ParrotError>)
    requires guild in bot.calls && guild in bot.storedQueues
    requires index >= MIN_REMOVE_POSITION && (until.Some? ==> until.value >= MIN_REMOVE_POSITION)
    requires var c := CheckRemove(index, UntilOrIndex(index, until), |bot.calls[guild]|);
               c.Ok? ==> c.value < |bot.storedQueues[guild].queue|
    requires bot.DisplaysHaveCursors(guild)
    modifies bot`calls, bot`storedQueues, bot`caches, bot`cursors
    ensures var c := CheckRemove(index, UntilOrIndex(index, until), |old(bot.calls[guild])|);
              c.Err? ==>
                && r == Err(c.error)
                && bot.calls == old(bot.calls) && bot.storedQueues == old(bot.storedQueues)
                && bot.caches == old(bot.caches) && bot.cursors == old(bot.cursors)
    ensures var c := CheckRemove(index, UntilOrIndex(index, until), |old(bot.calls[guild])|);
              c.Ok? ==>
                var live := old(bot.calls[guild]);
                var stored := old(bot.storedQueues[guild]);
                && bot.calls == old(bot.calls)[guild := Drain(live, index, c.value + 1)]
                && bot.storedQueues == old(bot.storedQueues)[guild := stored.(queue := Drain(stored.queue, index, c.value + 1))]
                && r == Ok(RemoveReply(live[index], index, c.value))
                && Refreshed(old(bot.caches), old(bot.cursors), bot.caches, bot.cursors, guild, failed, |bot.calls[guild]|)
  {
    var removeUntil := UntilOrIndex(index, until);
    var queue := bot.calls[guild];
    var queueLen := |queue|;
    var check := CheckRemove(index, removeUntil, queueLen);
    if check.Err? {
      return Err(check.error);
    }
    var last := check.value;
    var track := queue[index];
    var stored := bot.storedQueues[guild];
    bot.calls := bot.calls[guild := Drain(queue, index, last + 1)];
    bot.storedQueues := bot.storedQueues[guild := stored.(queue := Drain(stored.queue, index, last + 1))];
    r := Ok(RemoveReply(track, index, last));
    var _ := UpdateQueueMessages(bot, guild, bot.calls[guild], failed);
  }
}
