/** The `skip` command of `src/commands/skip.rs`, with the force-skip
    sequence and the reply choice that `voteskip` shares. */
module SkipCommand {
  import opened Types
  import opened GuildState

  /** The lowest `to` the command registration accepts (`min_int_value(1)`). */
  const MIN_SKIP_TO: nat := 1

  /** The playing track: the head of the live queue. */
  function Current(queue: seq<Track>): (t: Option<Track>)
    ensures t.Some? <==> queue != []
    ensures t.Some? ==> t.value == queue[0]
  {
    if queue == [] then None else Some(queue[0])
  }

  /** `v.drain(lo..hi)`: removes positions lo through hi-1, keeping the rest in order. */
  function Drain<T>(s: seq<T>, lo: nat, hi: nat): (r: seq<T>)
    requires lo <= hi <= |s|
    ensures |r| == |s| - (hi - lo)
    ensures forall i :: 0 <= i < lo ==> r[i] == s[i]
    ensures forall i :: lo <= i < |r| ==> r[i] == s[i + (hi - lo)]
  {
    s[..lo] + s[hi..]
  }

  /** How many tracks a skip consumes: `min(to, len)`, with `to` defaulting
      to 1; always at least the playing track and at most the whole queue. */
  function TracksToSkip(to: Option<nat>, len: nat): (k: nat)
    requires to.Some? ==> to.value >= MIN_SKIP_TO
    requires len >= 1
    ensures 1 <= k <= len
    ensures to.None? ==> k == 1
    ensures to.Some? ==> k <= to.value && (k == to.value || k == len)
  {
    var toSkip := if to.Some? then to.value else 1;
    if toSkip <= len then toSkip else len
  }

  /** Draining positions 1..k-1 and then dequeuing the head removes exactly
      the first k tracks: what is left is the old queue from position k on. */
  lemma DrainThenDequeue(queue: seq<Track>, k: nat)
    requires 1 <= k <= |queue|
    ensures Drain(queue, 1, k)[1..] == queue[k..]
  {
    var drained := Drain(queue, 1, k);
    assert forall i :: 0 <= i < |drained[1..]| ==> drained[1..][i] == drained[i + 1];
  }

  /** The engine calls of the force skip, in their required order. */
  function ForceSkipCalls(guild: GuildId): (calls: seq<EngineCall>)
    ensures |calls| == 3
    ensures calls[0] == StopTrack(guild) && calls[1] == DequeueAt(guild, 0) && calls[2] == ResumeQueue(guild)
  {
    [StopTrack(guild), DequeueAt(guild, 0), ResumeQueue(guild)]
  }

  /** `force_skip_top_track`: stop the playing track (its error ignored), then
      dequeue position 0, then resume; returns the queue that is left. */
  method ForceSkipTopTrack(bot: Bot, guild: GuildId) returns (remaining: seq<Track>)
    requires guild in bot.calls && bot.calls[guild] != []
    modifies bot`calls, bot`engineLog
    ensures bot.calls == old(bot.calls)[guild := old(bot.calls[guild])[1..]]
    ensures bot.engineLog == old(bot.engineLog) + ForceSkipCalls(guild)
    ensures remaining == bot.calls[guild]
  {
    bot.StopCurrent(guild);
    bot.DequeueFront(guild);
    bot.Resume(guild);
    remaining := bot.calls[guild];
  }

  /** `create_skip_response`: the new playing track if there is one;
      otherwise "skipped all" when more than one track was skipped. */
  function SkipReply(current: Option<Track>, tracksToSkip: nat): (r: Reply)
    ensures r.SkipTo? <==> current.Some?
    ensures r.SkipTo? ==> r.title == current.value.title && r.url == current.value.url
    ensures r == SkipAll <==> current.None? && tracksToSkip > 1
  {
    match current
    case Some(track) => SkipTo(track.title, track.url)
    case None => if tracksToSkip > 1 then SkipAll else Reply.Skip
  }

  /** `skip`: fails on an empty queue and changes nothing; otherwise drops
      positions 1..k-1, force-skips the playing track and replies. The stored
      queue and the guild caches are not touched. */
  method Skip(bot: Bot, guild: GuildId, to: Option<nat>) returns (r: Result<Reply, ParrotError>)
    requires guild in bot.calls
    requires to.Some? ==> to.value >= MIN_SKIP_TO
    modifies bot`calls, bot`engineLog
    ensures bot.storedQueues == old(bot.storedQueues) && bot.caches == old(bot.caches)
    ensures old(bot.calls[guild]) == [] ==>
              r == Err(NothingPlaying) && bot.calls == old(bot.calls) && bot.engineLog == old(bot.engineLog)
    ensures old(bot.calls[guild]) != [] ==>
              var k := TracksToSkip(to, |old(bot.calls[guild])|);
              && bot.calls == old(bot.calls)[guild := old(bot.calls[guild])[k..]]
              && bot.engineLog == old(bot.engineLog) + ForceSkipCalls(guild)
              && r == Ok(SkipReply(Current(bot.calls[guild]), k))
  {
    var queue := bot.calls[guild];
    if queue == [] {
      return Err(NothingPlaying);
    }
    var tracksToSkip := TracksToSkip(to, |queue|);
    bot.calls := bot.calls[guild := Drain(queue, 1, tracksToSkip)];
    var _ := ForceSkipTopTrack(bot, guild);
    DrainThenDequeue(queue, tracksToSkip);
    r := Ok(SkipReply(Current(bot.calls[guild]), tracksToSkip));
  }

  /** What a skip replies, in terms of the queue before it: the track at
      position k when one is left, "skipped all" when a queue of two or more
      was used up, a plain skip when the only track was skipped. */
  lemma SkipReplyCases(queue: seq<Track>, to: Option<nat>)
    requires queue != [] && (to.Some? ==> to.value >= MIN_SKIP_TO)
    ensures var k := TracksToSkip(to, |queue|);
      var r := SkipReply(Current(queue[k..]), k);
      && (k < |queue| ==> r == SkipTo(queue[k].title, queue[k].url))
      && (k == |queue| && |queue| >= 2 ==> r == SkipAll)
      && (k == |queue| && |queue| == 1 ==> r == Reply.Skip)
  {
  }

  /** Skipping three with only two pending tracks skips both of them and the
      playing one, and reports that everything was skipped. */
  lemma SkipClampsToQueue(queue: seq<Track>)
    requires |queue| == 3
    ensures TracksToSkip(Some(3), |queue|) == 3
    ensures queue[TracksToSkip(Some(3), |queue|)..] == []
    ensures SkipReply(Current(queue[3..]), 3) == SkipAll
  {
  }
}
