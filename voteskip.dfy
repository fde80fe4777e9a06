/** The `voteskip` command of `src/commands/voteskip.rs` and the clearing
    of the votes that the track-end handler performs. */
module VoteSkipCommand {
  import opened Types
  import opened GuildState
  import opened SkipCommand

  /** The users whose voice state is in the given channel (the bot included
      when it is there). Every voice state has a channel. */
  function ChannelMembers(voiceStates: map<UserId, ChannelId>, channel: ChannelId): (members: set<UserId>)
    ensures forall u :: u in members <==> u in voiceStates && voiceStates[u] == channel
  {
    set u | u in voiceStates && voiceStates[u] == channel
  }

  /** `skip_threshold`: half the members of the bot's channel, rounded down,
      recomputed from the voice states on every vote. */
  function SkipThreshold(voiceStates: map<UserId, ChannelId>, botChannel: ChannelId): (t: nat)
    ensures 2 * t <= |ChannelMembers(voiceStates, botChannel)| <= 2 * t + 1
  {
    |ChannelMembers(voiceStates, botChannel)| / 2
  }

  /** The effect of one vote on the vote set. */
  datatype VoteOutcome = VoteOutcome(votes: set<UserId>, skips: bool, missing: nat)

  /** One vote: the voter joins the set; the track is skipped once the set is
      at least the threshold, otherwise the reply names how many votes are
      still missing, which is at least one. */
  function CastVote(votes: set<UserId>, voter: UserId, threshold: nat): (o: VoteOutcome)
    ensures o.votes == votes + {voter}
    ensures o.skips <==> |o.votes| >= threshold
    ensures !o.skips ==> o.missing >= 1 && |o.votes| + o.missing == threshold
  {
    var votes' := votes + {voter};
    if |votes'| >= threshold then VoteOutcome(votes', true, 0)
    else VoteOutcome(votes', false, threshold - |votes'|)
  }

  /** A repeated vote by the same user does not raise the count. */
  lemma RepeatVoteDoesNotCount(votes: set<UserId>, voter: UserId, threshold: nat)
    requires voter in votes
    ensures CastVote(votes, voter, threshold).votes == votes
  {
  }

  /** The set of users among a sequence of voters. */
  function Tally(voters: seq<UserId>): (s: set<UserId>)
    ensures forall u :: u in s <==> u in voters
  {
    set u | u in voters
  }

  predicate Distinct(voters: seq<UserId>)
  {
    forall i, j :: 0 <= i < j < |voters| ==> voters[i] != voters[j]
  }

  lemma {:induction false} DistinctTallySize(voters: seq<UserId>)
    requires Distinct(voters)
    ensures |Tally(voters)| == |voters|
    decreases |voters|
  {
    if voters != [] {
      var init := voters[..|voters| - 1];
      var last := voters[|voters| - 1];
      DistinctTallySize(init);
      assert Tally(voters) == Tally(init) + {last};
      assert last !in Tally(init);
    }
  }

  /** With N members in the bot's channel and votes cast by distinct users
      since the votes were last cleared, the k-th vote skips exactly when
      k is at least N / 2. */
  lemma DistinctVotesSkipAtThreshold(voters: seq<UserId>, voiceStates: map<UserId, ChannelId>, botChannel: ChannelId)
    requires voters != [] && Distinct(voters)
    ensures var threshold := SkipThreshold(voiceStates, botChannel);
      (CastVote(Tally(voters[..|voters| - 1]), voters[|voters| - 1], threshold).skips
       <==> |voters| >= threshold)
  {
    var init := voters[..|voters| - 1];
    assert Tally(init) + {voters[|voters| - 1]} == Tally(voters);
    DistinctTallySize(voters);
  }

  /** The guild's cache, or a fresh one (`entry(guild).or_default()`). */
  function CacheOrDefault(caches: map<GuildId, GuildCache>, guild: GuildId): (c: GuildCache)
    ensures guild in caches ==> c == caches[guild]
    ensures guild !in caches ==> c.queueMessages == [] && c.skipVotes == {}
  {
    if guild in caches then caches[guild] else EMPTY_CACHE
  }

  /** `voteskip`: an empty queue fails with no vote recorded; otherwise the
      voter is added to the guild's votes and, at the threshold, the playing
      track is force-skipped and the reply is that of a one-track skip. The
      votes are never cleared here. */
  method VoteSkip(bot: Bot, guild: GuildId, voter: UserId,
                  voiceStates: map<UserId, ChannelId>, botChannel: ChannelId)
    returns (r: Result<Reply, ParrotError>)
    requires guild in bot.calls
    modifies bot`calls, bot`engineLog, bot`caches
    ensures bot.storedQueues == old(bot.storedQueues)
    ensures old(bot.calls[guild]) == [] ==>
              && r == Err(NothingPlaying)
              && bot.calls == old(bot.calls) && bot.engineLog == old(bot.engineLog)
              && bot.caches == old(bot.caches)
    ensures old(bot.calls[guild]) != [] ==>
              var before := CacheOrDefault(old(bot.caches), guild);
              var o := CastVote(before.skipVotes, voter, SkipThreshold(voiceStates, botChannel));
              && bot.caches == old(bot.caches)[guild := before.(skipVotes := o.votes)]
              && (o.skips ==>
                    && bot.calls == old(bot.calls)[guild := old(bot.calls[guild])[1..]]
                    && bot.engineLog == old(bot.engineLog) + ForceSkipCalls(guild)
                    && r == Ok(SkipReply(Current(bot.calls[guild]), 1)))
              && (!o.skips ==>
                    && bot.calls == old(bot.calls) && bot.engineLog == old(bot.engineLog)
                    && r == Ok(Reply.VoteSkip(voter, o.missing)))
  {
    if bot.calls[guild] == [] {
      return Err(NothingPlaying);
    }
    var cache := CacheOrDefault(bot.caches, guild);
    var votes := cache.skipVotes + {voter};
    bot.caches := bot.caches[guild := cache.(skipVotes := votes)];
    var skipThreshold := |ChannelMembers(voiceStates, botChannel)| / 2;
    if |votes| >= skipThreshold {
      var _ := ForceSkipTopTrack(bot, guild);
      r := Ok(SkipReply(Current(bot.calls[guild]), 1));
    } else {
      r := Ok(Reply.VoteSkip(voter, skipThreshold - |votes|));
    }
  }

  /** `forget_skip_votes`: replaces the guild's votes with an empty set; with
      no cache entry it fails and creates none. */
  method ForgetSkipVotes(bot: Bot, guild: GuildId) returns (ok: bool)
    modifies bot`caches
    ensures ok <==> guild in old(bot.caches)
    ensures bot.caches == VotesCleared(old(bot.caches), guild)
  {
    if guild !in bot.caches {
      return false;
    }
    bot.caches := bot.caches[guild := bot.caches[guild].(skipVotes := {})];
    return true;
  }

  /** The caches after the guild's votes are forgotten: its displays stay,
      its vote set is empty, other guilds are untouched, no entry is made. */
  function VotesCleared(caches: map<GuildId, GuildCache>, guild: GuildId): (r: map<GuildId, GuildCache>)
    ensures r.Keys == caches.Keys
    ensures guild in caches ==> r[guild].skipVotes == {} && r[guild].queueMessages == caches[guild].queueMessages
    ensures forall g :: g in caches && g != guild ==> r[g] == caches[g]
  {
    if guild in caches then caches[guild := caches[guild].(skipVotes := {})] else caches
  }
}
