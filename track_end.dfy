/** The track-end reactor and the queue-change refresh of
    `src/handlers/track_end.rs`. */
module TrackEnd {
  import opened Types
  import opened GuildState
  import opened StoredQueue
  import opened QueueCommand
  import opened VoteSkipCommand

  // ---------------------------------------------------------------------------
  // update_queue_messages
  // ---------------------------------------------------------------------------

  /** The page a display is left on after a refresh: its old page, pulled
      back to the last page of the new queue. */
  function ClampedPage(page: nat, queueLength: nat): (p: nat)
    ensures p < NumPages(queueLength)
    ensures p <= page
    ensures page < NumPages(queueLength) ==> p == page
    ensures page >= NumPages(queueLength) ==> p == NumPages(queueLength) - 1
  {
    Min(page, NumPages(queueLength) - 1)
  }

  /** Clamping twice is clamping once, which makes the refresh indifferent
      to two displays sharing one page cursor. */
  lemma ClampedPageIdempotent(page: nat, queueLength: nat)
    ensures ClampedPage(ClampedPage(page, queueLength), queueLength) == ClampedPage(page, queueLength)
  {
  }

  /** The cursors of a sequence of displays. */
  function CursorsOf(msgs: seq<QueueMessage>): (cs: set<CursorId>)
    ensures forall i :: 0 <= i < |msgs| ==> msgs[i].cursor in cs
    ensures forall c :: c in cs ==> exists i :: 0 <= i < |msgs| && msgs[i].cursor == c
  {
    set i | 0 <= i < |msgs| :: msgs[i].cursor
  }

  /** The cursor table after the cursors in `clamped` are pulled back to the
      last page of a queue of `queueLength` tracks; other cursors keep their
      page. */
  function ClampCursors(cursors: map<CursorId, nat>, clamped: set<CursorId>, queueLength: nat): (r: map<CursorId, nat>)
    ensures r.Keys == cursors.Keys
    ensures forall c :: c in cursors && c in clamped ==> r[c] == ClampedPage(cursors[c], queueLength)
    ensures forall c :: c in cursors && c in clamped ==> r[c] < NumPages(queueLength) && r[c] <= cursors[c]
    ensures forall c :: c in cursors && c !in clamped ==> r[c] == cursors[c]
  {
    map c | c in cursors :: if c in clamped then ClampedPage(cursors[c], queueLength) else cursors[c]
  }

  /** One display of a refresh: pulling its cursor back once more extends
      the set of clamped cursors by its own, and the page it is left on is
      its page before the refresh, clamped, even when an earlier display
      shared the cursor. */
  lemma ClampNextDisplay(cursors0: map<CursorId, nat>, messages: seq<QueueMessage>, i: nat,
                         queueLength: nat, now: map<CursorId, nat>)
    requires i < |messages| && messages[i].cursor in cursors0
    requires now == ClampCursors(cursors0, CursorsOf(messages[..i]), queueLength)
    ensures messages[i].cursor in now
    ensures ClampedPage(now[messages[i].cursor], queueLength) == ClampedPage(cursors0[messages[i].cursor], queueLength)
    ensures now[messages[i].cursor := ClampedPage(now[messages[i].cursor], queueLength)]
              == ClampCursors(cursors0, CursorsOf(messages[..i + 1]), queueLength)
  {
    var c := messages[i].cursor;
    ClampedPageIdempotent(cursors0[c], queueLength);
    assert CursorsOf(messages[..i]) + {c} == CursorsOf(messages[..i + 1]) by {
      assert forall j :: 0 <= j < i ==> messages[..i + 1][j] == messages[..i][j];
    }
    var next := ClampCursors(cursors0, CursorsOf(messages[..i + 1]), queueLength);
    assert now[c := ClampedPage(now[c], queueLength)][c] == next[c];
  }

  /** The state a refresh works on: the guild caches, the cursor table and
      the buttons of the displays edited so far. */
  datatype Refresh = Refresh(caches: map<GuildId, GuildCache>, cursors: map<CursorId, nat>, shown: seq<NavButtons>)

  /** One turn of the refresh loop: the display's cursor is clamped, the
      display is edited with buttons for that page, and it is forgotten
      when its edit fails. */
  function RefreshDisplay(r: Refresh, guild: GuildId, m: QueueMessage, failed: set<MessageId>, queueLength: nat): (r': Refresh)
    requires m.cursor in r.cursors
    ensures r'.cursors.Keys == r.cursors.Keys
    ensures r'.cursors[m.cursor] < NumPages(queueLength)
    ensures |r'.shown| == |r.shown| + 1
  {
    var page := ClampedPage(r.cursors[m.cursor], queueLength);
    var caches :=
      if m.id in failed && guild in r.caches
      then r.caches[guild := r.caches[guild].(queueMessages := Retain(r.caches[guild].queueMessages, {m.id}))]
      else r.caches;
    Refresh(caches, r.cursors[m.cursor := page], r.shown + [BuildNavButtons(page, NumPages(queueLength))])
  }

  /** The refresh loop over a snapshot of the displays, in order. */
  function RefreshDisplays(r0: Refresh, guild: GuildId, msgs: seq<QueueMessage>, failed: set<MessageId>, queueLength: nat): (r: Refresh)
    requires forall i :: 0 <= i < |msgs| ==> msgs[i].cursor in r0.cursors
    ensures r.cursors.Keys == r0.cursors.Keys
    ensures |r.shown| == |r0.shown| + |msgs|
    decreases |msgs|
  {
    if msgs == [] then r0
    else
      var prev := RefreshDisplays(r0, guild, msgs[..|msgs| - 1], failed, queueLength);
      RefreshDisplay(prev, guild, msgs[|msgs| - 1], failed, queueLength)
  }

  /** The ids among the displays whose edit failed. */
  function FailedIds(msgs: seq<QueueMessage>, failed: set<MessageId>): (ids: set<MessageId>)
    ensures ids <= failed
    ensures forall i :: 0 <= i < |msgs| ==> (msgs[i].id in ids <==> msgs[i].id in failed)
    ensures forall x :: x in ids ==> exists i :: 0 <= i < |msgs| && msgs[i].id == x
  {
    set i | 0 <= i < |msgs| && msgs[i].id in failed :: msgs[i].id
  }

  /** The registry after the loop: every display of the snapshot whose edit
      failed is forgotten, and nothing else is. */
  lemma {:induction false} RefreshForgetsFailed(r0: Refresh, guild: GuildId, msgs: seq<QueueMessage>,
                                                 failed: set<MessageId>, queueLength: nat)
    requires guild in r0.caches
    requires forall i :: 0 <= i < |msgs| ==> msgs[i].cursor in r0.cursors
    ensures RefreshDisplays(r0, guild, msgs, failed, queueLength).caches
              == r0.caches[guild := r0.caches[guild].(queueMessages :=
                   Retain(r0.caches[guild].queueMessages, FailedIds(msgs, failed)))]
    decreases |msgs|
  {
    var q0 := r0.caches[guild].queueMessages;
    if msgs == [] {
      assert FailedIds(msgs, failed) == {};
      RetainNothing(q0);
      assert r0.caches[guild := r0.caches[guild].(queueMessages := q0)] == r0.caches;
    } else {
      var init := msgs[..|msgs| - 1];
      var m := msgs[|msgs| - 1];
      RefreshForgetsFailed(r0, guild, init, failed, queueLength);
      FailedIdsSnoc(msgs, failed);
      var prev := RefreshDisplays(r0, guild, init, failed, queueLength);
      var kept := Retain(q0, FailedIds(init, failed));
      assert prev.caches == r0.caches[guild := r0.caches[guild].(queueMessages := kept)];
      if m.id in failed {
        RetainTwice(q0, FailedIds(init, failed), {m.id});
        assert Retain(kept, {m.id}) == Retain(q0, FailedIds(msgs, failed));
      } else {
        assert FailedIds(msgs, failed) == FailedIds(init, failed);
      }
    }
  }

  /** The failed ids of a snapshot grow by the last display's id exactly
      when its edit failed. */
  lemma FailedIdsSnoc(msgs: seq<QueueMessage>, failed: set<MessageId>)
    requires msgs != []
    ensures var m := msgs[|msgs| - 1];
      FailedIds(msgs, failed) == FailedIds(msgs[..|msgs| - 1], failed) + (if m.id in failed then {m.id} else {})
  {
    var init := msgs[..|msgs| - 1];
    assert forall j :: 0 <= j < |init| ==> init[j] == msgs[j];
  }

  /** The cursor table after the loop: the cursor of every display of the
      snapshot is clamped, every other cursor keeps its page. */
  lemma {:induction false} RefreshClampsCursors(r0: Refresh, guild: GuildId, msgs: seq<QueueMessage>,
                                                 failed: set<MessageId>, queueLength: nat)
    requires forall i :: 0 <= i < |msgs| ==> msgs[i].cursor in r0.cursors
    ensures RefreshDisplays(r0, guild, msgs, failed, queueLength).cursors
              == ClampCursors(r0.cursors, CursorsOf(msgs), queueLength)
    decreases |msgs|
  {
    if msgs == [] {
      assert ClampCursors(r0.cursors, CursorsOf(msgs), queueLength) == r0.cursors;
    } else {
      var n := |msgs| - 1;
      RefreshClampsCursors(r0, guild, msgs[..n], failed, queueLength);
      var prev := RefreshDisplays(r0, guild, msgs[..n], failed, queueLength);
      ClampNextDisplay(r0.cursors, msgs, n, queueLength, prev.cursors);
      assert msgs[..n + 1] == msgs;
    }
  }

  /** The buttons of the loop: the i-th display is edited with buttons for
      its page before the refresh, clamped. */
  lemma {:induction false} RefreshShowsClampedPages(r0: Refresh, guild: GuildId, msgs: seq<QueueMessage>,
                                                     failed: set<MessageId>, queueLength: nat)
    requires r0.shown == []
    requires forall i :: 0 <= i < |msgs| ==> msgs[i].cursor in r0.cursors
    ensures var r := RefreshDisplays(r0, guild, msgs, failed, queueLength);
      forall i :: 0 <= i < |msgs| ==>
        r.shown[i] == BuildNavButtons(ClampedPage(r0.cursors[msgs[i].cursor], queueLength), NumPages(queueLength))
    decreases |msgs|
  {
    if msgs != [] {
      var n := |msgs| - 1;
      var numPages := NumPages(queueLength);
      RefreshShowsClampedPages(r0, guild, msgs[..n], failed, queueLength);
      RefreshClampsCursors(r0, guild, msgs[..n], failed, queueLength);
      var prev := RefreshDisplays(r0, guild, msgs[..n], failed, queueLength);
      ClampNextDisplay(r0.cursors, msgs, n, queueLength, prev.cursors);
      var r := RefreshDisplays(r0, guild, msgs, failed, queueLength);
      assert r.shown == prev.shown + [BuildNavButtons(ClampedPage(prev.cursors[msgs[n].cursor], queueLength), numPages)];
      forall i | 0 <= i < |msgs|
        ensures r.shown[i] == BuildNavButtons(ClampedPage(r0.cursors[msgs[i].cursor], queueLength), numPages)
      {
        if i < n {
          assert msgs[..n][i] == msgs[i];
        }
      }
    }
  }

  /** The displays of `guild` after a refresh against a queue of
      `queueLength` tracks, in terms of the caches and cursors before it:
      without a cache entry nothing changes; otherwise the displays whose
      edit failed are forgotten and the cursors of the displays are pulled
      back to the last page. */
  ghost predicate Refreshed(caches0: map<GuildId, GuildCache>, cursors0: map<CursorId, nat>,
                            caches: map<GuildId, GuildCache>, cursors: map<CursorId, nat>,
                            guild: GuildId, failed: set<MessageId>, queueLength: nat)
  {
    if guild in caches0 then
      var before := caches0[guild].queueMessages;
      && caches == caches0[guild := caches0[guild].(queueMessages := Retain(before, failed))]
      && cursors == ClampCursors(cursors0, CursorsOf(before), queueLength)
    else
      caches == caches0 && cursors == cursors0
  }

  /** One display of `update_queue_messages`: its cursor is pulled back to
      the last page, the message is edited with buttons for that page, and
      the display is forgotten when its edit fails. */
  method RefreshQueueMessage(bot: Bot, guild: GuildId, message: QueueMessage, failed: set<MessageId>,
                             queueLength: nat, shown: seq<NavButtons>)
    returns (shown': seq<NavButtons>)
    requires message.cursor in bot.cursors
    modifies bot`caches, bot`cursors
    ensures Refresh(bot.caches, bot.cursors, shown')
              == RefreshDisplay(Refresh(old(bot.caches), old(bot.cursors), shown), guild, message, failed, queueLength)
  {
    var numPages := NumPages(queueLength);
    var page := Min(bot.cursors[message.cursor], numPages - 1);
    bot.cursors := bot.cursors[message.cursor := page];
    shown' := shown + [BuildNavButtons(page, numPages)];
    if message.id in failed {
      var _ := ForgetQueueMessage(bot, guild, message.id);
    }
  }

  /** `update_queue_messages`: for every display registered when the refresh
      starts, in order, its cursor is pulled back to the new last page, the
      message is edited with buttons for that page, and a display whose edit
      fails (its id is in `failed`) is forgotten. Without a cache entry for
      the guild nothing happens. Returns the buttons each display was edited
      with. */
  method UpdateQueueMessages(bot: Bot, guild: GuildId, tracks: seq<Track>, failed: set<MessageId>)
    returns (shown: seq<NavButtons>)
    requires bot.DisplaysHaveCursors(guild)
    modifies bot`caches, bot`cursors
    ensures Refreshed(old(bot.caches), old(bot.cursors), bot.caches, bot.cursors, guild, failed, |tracks|)
    ensures guild !in old(bot.caches) ==> shown == []
    ensures guild in old(bot.caches) ==>
              var before := old(bot.caches[guild]).queueMessages;
              && |shown| == |before|
              && (forall i :: 0 <= i < |before| ==>
                    shown[i] == BuildNavButtons(ClampedPage(old(bot.cursors)[before[i].cursor], |tracks|), NumPages(|tracks|)))
  {
    if guild !in bot.caches {
      return [];
    }
    var messages := bot.caches[guild].queueMessages;
    ghost var r0 := Refresh(bot.caches, bot.cursors, []);
    shown := [];
    var numPages := NumPages(|tracks|);
    for i := 0 to |messages|
      invariant Refresh(bot.caches, bot.cursors, shown) == RefreshDisplays(r0, guild, messages[..i], failed, |tracks|)
    {
      assert messages[..i + 1][..i] == messages[..i];
      shown := RefreshQueueMessage(bot, guild, messages[i], failed, |tracks|, shown);
    }
    assert messages[..|messages|] == messages;
    RefreshForgetsFailed(r0, guild, messages, failed, |tracks|);
    RefreshClampsCursors(r0, guild, messages, failed, |tracks|);
    RefreshShowsClampedPages(r0, guild, messages, failed, |tracks|);
    RetainCongruent(messages, FailedIds(messages, failed), failed);
  }

  /** After a refresh every display still registered stands on a page the
      new queue has. */
  lemma RefreshLeavesLegalPages(cursors: map<CursorId, nat>, before: seq<QueueMessage>,
                                failed: set<MessageId>, queueLength: nat)
    requires forall i :: 0 <= i < |before| ==> before[i].cursor in cursors
    ensures var after := ClampCursors(cursors, CursorsOf(before), queueLength);
      forall i :: 0 <= i < |Retain(before, failed)| ==>
        Retain(before, failed)[i].cursor in after
        && after[Retain(before, failed)[i].cursor] < NumPages(queueLength)
  {
    RetainKeepsOthers(before, failed);
  }

  /** `ModifyQueueHandler::act`: refreshes the guild's displays against the
      live queue as it is now. */
  method ModifyQueueAct(bot: Bot, guild: GuildId, failed: set<MessageId>) returns (shown: seq<NavButtons>)
    requires guild in bot.calls
    requires bot.DisplaysHaveCursors(guild)
    modifies bot`caches, bot`cursors
    ensures Refreshed(old(bot.caches), old(bot.cursors), bot.caches, bot.cursors, guild, failed, |bot.calls[guild]|)
  {
    shown := UpdateQueueMessages(bot, guild, bot.calls[guild], failed);
  }

  // ---------------------------------------------------------------------------
  // TrackEndHandler::act
  // ---------------------------------------------------------------------------

  /** What the resolver made of one stored query: the tracks it enqueued, or
      an error that is only logged. */
  datatype Resolution = Resolved(tracks: seq<Track>) | Failed

  /** The tracks a replay appends, query by query in stored order; a failed
      query contributes nothing. */
  function ReplayedTracks(outcomes: seq<Resolution>): (tracks: seq<Track>)
    ensures forall t :: t in tracks ==>
              exists i :: 0 <= i < |outcomes| && outcomes[i].Resolved? && t in outcomes[i].tracks
    ensures (forall i :: 0 <= i < |outcomes| ==> outcomes[i].Failed?) ==> tracks == []
  {
    if outcomes == [] then []
    else
      var last := outcomes[|outcomes| - 1];
      ReplayedTracks(outcomes[..|outcomes| - 1]) + (if last.Resolved? then last.tracks else [])
  }

  /** The engine calls of a replay: one enqueue per resolved query. */
  function ReplayCalls(guild: GuildId, outcomes: seq<Resolution>): (calls: seq<EngineCall>)
    ensures |calls| <= |outcomes|
    ensures forall i :: 0 <= i < |calls| ==> calls[i].EnqueueAll? && calls[i].guild == guild
  {
    if outcomes == [] then []
    else
      var last := outcomes[|outcomes| - 1];
      ReplayCalls(guild, outcomes[..|outcomes| - 1]) + (if last.Resolved? then [EnqueueAll(guild, last.tracks)] else [])
  }

  /** One more query of a replay: its tracks and its enqueue come last. */
  lemma ReplayStep(guild: GuildId, outcomes: seq<Resolution>, i: nat)
    requires i < |outcomes|
    ensures ReplayedTracks(outcomes[..i + 1])
              == ReplayedTracks(outcomes[..i]) + (if outcomes[i].Resolved? then outcomes[i].tracks else [])
    ensures ReplayCalls(guild, outcomes[..i + 1])
              == ReplayCalls(guild, outcomes[..i])
                 + (if outcomes[i].Resolved? then [EnqueueAll(guild, outcomes[i].tracks)] else [])
  {
    assert outcomes[..i + 1][..i] == outcomes[..i];
  }

  lemma ReplayedTracksLast(outcomes: seq<Resolution>)
    requires outcomes != []
    ensures ReplayedTracks(outcomes)
            == ReplayedTracks(outcomes[..|outcomes| - 1])
               + (if outcomes[|outcomes| - 1].Resolved? then outcomes[|outcomes| - 1].tracks else [])
  {
  }

  /** Replaying two batches of queries appends the two batches' tracks in
      order. */
  lemma {:induction false} ReplayedTracksAppend(a: seq<Resolution>, b: seq<Resolution>)
    ensures ReplayedTracks(a + b) == ReplayedTracks(a) + ReplayedTracks(b)
    decreases |b|
  {
    if b == [] {
      assert a + b == a;
    } else {
      var init, last := b[..|b| - 1], b[|b| - 1];
      var whole := a + b;
      assert whole[..|whole| - 1] == a + init;
      assert whole[|whole| - 1] == last;
      ReplayedTracksLast(whole);
      ReplayedTracksLast(b);
      ReplayedTracksAppend(a, init);
      ConcatAssoc(ReplayedTracks(a), ReplayedTracks(init), if last.Resolved? then last.tracks else []);
    }
  }

  /** A query that fails is skipped: the replay of the rest is unaffected. */
  lemma FailedQueryIsSkipped(a: seq<Resolution>, b: seq<Resolution>)
    ensures ReplayedTracks(a + [Failed] + b) == ReplayedTracks(a) + ReplayedTracks(b)
  {
    var failed: seq<Resolution> := [Failed];
    assert failed[..0] == [];
    assert ReplayedTracks(failed) == [];
    ReplayedTracksAppend(a, failed);
    ReplayedTracksAppend(a + failed, b);
  }

  /** When every query resolves to its own tracks, the replay appends them
      all, in stored order. */
  lemma {:induction false} ReplayKeepsStoredOrder(perQuery: seq<seq<Track>>, outcomes: seq<Resolution>)
    requires |outcomes| == |perQuery|
    requires forall i :: 0 <= i < |outcomes| ==> outcomes[i] == Resolved(perQuery[i])
    ensures ReplayedTracks(outcomes) == Concat(perQuery)
    decreases |outcomes|
  {
    if outcomes != [] {
      var n := |outcomes| - 1;
      ReplayKeepsStoredOrder(perQuery[..n], outcomes[..n]);
      assert perQuery[..n] + [perQuery[n]] == perQuery;
      ConcatSnoc(perQuery[..n], perQuery[n]);
    }
  }

  /** The concatenation of a sequence of track lists, front to back. */
  function Concat(lists: seq<seq<Track>>): seq<Track>
  {
    if lists == [] then [] else lists[0] + Concat(lists[1..])
  }

  lemma {:induction false} ConcatSnoc(lists: seq<seq<Track>>, last: seq<Track>)
    ensures Concat(lists + [last]) == Concat(lists) + last
    decreases |lists|
  {
    if lists == [] {
      assert [] + [last] == [last];
      assert [last][1..] == [];
    } else {
      assert (lists + [last])[1..] == lists[1..] + [last];
      ConcatSnoc(lists[1..], last);
    }
  }

  /** Whether a track end replays the stored queue: queue-loop is on, the
      stored queue may continue, and the live queue has run dry. */
  predicate ShouldReplay(settings: GuildSettings, stored: GuildStoredQueue, liveQueue: seq<Track>)
  {
    settings.queueLoop && stored.continuePlay && liveQueue == []
  }

  /** A replay that put anything in the live queue cannot be followed by a
      second one at the next track end unless the queue ran dry again. */
  lemma NoReplayWhileQueued(settings: GuildSettings, stored: GuildStoredQueue, liveQueue: seq<Track>,
                            outcomes: seq<Resolution>)
    requires ReplayedTracks(outcomes) != []
    ensures !ShouldReplay(settings, stored, liveQueue + ReplayedTracks(outcomes))
  {
  }

  /** The replay loop of `TrackEndHandler::act`: every stored query, in
      order, is resolved and its tracks are enqueued; a query that fails to
      resolve is skipped. */
  method ReplayStoredQueue(bot: Bot, guild: GuildId, outcomes: seq<Resolution>)
    requires guild in bot.calls
    modifies bot`calls, bot`engineLog
    ensures bot.calls == old(bot.calls)[guild := old(bot.calls[guild]) + ReplayedTracks(outcomes)]
    ensures bot.engineLog == old(bot.engineLog) + ReplayCalls(guild, outcomes)
  {
    ghost var calls0 := bot.calls;
    ghost var queue0 := bot.calls[guild];
    ghost var log0 := bot.engineLog;
    assert outcomes[..0] == [];
    assert queue0 + [] == queue0;
    assert calls0[guild := queue0] == calls0;
    for i := 0 to |outcomes|
      invariant bot.calls == calls0[guild := queue0 + ReplayedTracks(outcomes[..i])]
      invariant bot.engineLog == log0 + ReplayCalls(guild, outcomes[..i])
    {
      ReplayStep(guild, outcomes, i);
      match outcomes[i]
      case Resolved(tracks) =>
        bot.Enqueue(guild, tracks);
        assert queue0 + ReplayedTracks(outcomes[..i]) + tracks == queue0 + ReplayedTracks(outcomes[..i + 1]);
      case Failed =>
        assert ReplayedTracks(outcomes[..i]) + [] == ReplayedTracks(outcomes[..i]);
    }
    assert outcomes[..|outcomes|] == outcomes;
  }

  /** `TrackEndHandler::act`. Without a stored queue for the guild the
      handler returns at once and changes nothing. Otherwise it pauses when
      autopause is on, replays every stored query in order when
      `ShouldReplay` holds (`outcomes[i]` is what the resolver made of the
      i-th stored query), and finally clears the guild's skip votes. */
  method TrackEndAct(bot: Bot, guild: GuildId, outcomes: seq<Resolution>) returns (replayed: bool)
    requires guild in bot.calls
    requires guild in bot.storedQueues ==> |outcomes| == |bot.storedQueues[guild].queue|
    modifies bot`calls, bot`engineLog, bot`caches
    ensures bot.storedQueues == old(bot.storedQueues) && bot.settings == old(bot.settings)
    ensures guild !in old(bot.storedQueues) ==>
              && !replayed && bot.calls == old(bot.calls)
              && bot.engineLog == old(bot.engineLog) && bot.caches == old(bot.caches)
    ensures guild in old(bot.storedQueues) ==>
              var s := SettingsOf(old(bot.settings), guild);
              && (replayed <==> ShouldReplay(s, old(bot.storedQueues[guild]), old(bot.calls[guild])))
              && bot.calls == old(bot.calls)[guild := old(bot.calls[guild])
                                                     + (if replayed then ReplayedTracks(outcomes) else [])]
              && bot.engineLog == old(bot.engineLog)
                                  + (if s.autopause then [PauseQueue(guild)] else [])
                                  + (if replayed then ReplayCalls(guild, outcomes) else [])
              && bot.caches == VotesCleared(old(bot.caches), guild)
  {
    var s := SettingsOf(bot.settings, guild);
    if guild !in bot.storedQueues {
      return false;
    }
    var stored := bot.storedQueues[guild];
    ghost var paused := if s.autopause then [PauseQueue(guild)] else [];
    if s.autopause {
      bot.Pause(guild);
    }
    assert bot.engineLog == old(bot.engineLog) + paused;
    replayed := false;
    if s.queueLoop && stored.continuePlay {
      var isQueueEmpty := bot.calls[guild] == [];
      if isQueueEmpty {
        replayed := true;
        ReplayStoredQueue(bot, guild, outcomes);
      }
    }
    if replayed {
      assert old(bot.calls[guild]) + ReplayedTracks(outcomes) == ReplayedTracks(outcomes);
      assert bot.engineLog == old(bot.engineLog) + paused + ReplayCalls(guild, outcomes);
    } else {
      assert old(bot.calls[guild]) + [] == old(bot.calls[guild]);
      assert old(bot.calls)[guild := old(bot.calls[guild]) + []] == old(bot.calls);
      assert bot.engineLog == old(bot.engineLog) + paused + [];
    }
    var _ := ForgetSkipVotes(bot, guild);
  }
}
