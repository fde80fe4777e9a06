/** The paginated queue display of `src/commands/queue.rs`: page count,
    button navigation, the window of tracks a page lists, and the registry of
    open displays in the guild cache. */
module QueueCommand {
  import opened Types
  import opened Utils
  import opened GuildState

  /** Tracks listed per page (the playing track is not paged). */
  const EMBED_PAGE_SIZE: nat := 6

  // ---------------------------------------------------------------------------
  // calculate_num_pages
  // ---------------------------------------------------------------------------

  /** `calculate_num_pages`: `max(1, ceil((len - 1) / 6))`. The result is the
      least number of pages of six that hold the `len - 1` pending tracks,
      and one page when there are none. */
  function NumPages(len: nat): (n: nat)
    ensures n >= 1
    ensures len <= 1 ==> n == 1
    ensures len >= 2 ==> EMBED_PAGE_SIZE * (n - 1) < len - 1 <= EMBED_PAGE_SIZE * n
  {
    // The source divides in floating point: for an empty queue the ceiling
    // is -0.0, which the cast to usize turns into 0.
    var raw := if len == 0 then 0 else (len - 1 + EMBED_PAGE_SIZE - 1) / EMBED_PAGE_SIZE;
    if raw < 1 then 1 else raw
  }

  lemma NumPagesExamples()
    ensures NumPages(0) == 1 && NumPages(1) == 1 && NumPages(7) == 1
    ensures NumPages(8) == 2 && NumPages(13) == 2 && NumPages(14) == 3
  {
  }

  // ---------------------------------------------------------------------------
  // Navigation buttons
  // ---------------------------------------------------------------------------

  const NAV_FIRST: string := "<<"
  const NAV_PREV: string := "<"
  const NAV_NEXT: string := ">"
  const NAV_LAST: string := ">>"

  /** The page a button click leads to (the match in the display loop), or
      `None` for an unknown button id, which the loop skips. */
  function NavigatePage(button: string, page: nat, numPages: nat): (r: Option<nat>)
    requires numPages >= 1
    ensures r.Some? <==> button in {NAV_FIRST, NAV_PREV, NAV_NEXT, NAV_LAST}
    ensures r.Some? ==> r.value < numPages
    ensures button == NAV_FIRST ==> r == Some(0)
    ensures button == NAV_LAST ==> r == Some(numPages - 1)
    ensures button == NAV_PREV && 0 < page < numPages ==> r == Some(page - 1)
    ensures button == NAV_PREV && page == 0 ==> r == Some(0)
    ensures button == NAV_NEXT && page + 1 < numPages ==> r == Some(page + 1)
    ensures button == NAV_NEXT && page + 1 >= numPages ==> r == Some(numPages - 1)
    ensures button in {NAV_PREV, NAV_NEXT} && page >= numPages ==> r == Some(numPages - 1)
  {
    if button == NAV_FIRST then Some(0)
    else if button == NAV_PREV then Some(Min(if page == 0 then 0 else page - 1, numPages - 1))
    else if button == NAV_NEXT then Some(Min(page + 1, numPages - 1))
    else if button == NAV_LAST then Some(numPages - 1)
    else None
  }

  function Min(a: nat, b: nat): nat { if a <= b then a else b }

  /** Which of the four buttons are disabled. */
  datatype NavButtons = NavButtons(first: bool, prev: bool, next: bool, last: bool)

  /** `build_nav_btns` (the same in the display loop and in the refresh):
      the left pair is disabled on page 0, the right pair on the last page. */
  function BuildNavButtons(page: nat, numPages: nat): (b: NavButtons)
    requires numPages >= 1
    ensures b.first == b.prev && b.next == b.last
  {
    var cantLeft := page < 1;
    var cantRight := page >= numPages - 1;
    NavButtons(cantLeft, cantLeft, cantRight, cantRight)
  }

  /** On a valid page, a button is disabled exactly when clicking it would
      leave the page where it is. */
  lemma DisabledIffNoOp(page: nat, numPages: nat)
    requires page < numPages
    ensures var b := BuildNavButtons(page, numPages);
      && (b.first <==> NavigatePage(NAV_FIRST, page, numPages) == Some(page))
      && (b.prev <==> NavigatePage(NAV_PREV, page, numPages) == Some(page))
      && (b.next <==> NavigatePage(NAV_NEXT, page, numPages) == Some(page))
      && (b.last <==> NavigatePage(NAV_LAST, page, numPages) == Some(page))
  {
  }

  /** Thirteen tracks make two pages: "last" from page 0 lands on page 1,
      where "next" is disabled and would stay on page 1. */
  lemma ThirteenTrackNavigation()
    ensures NumPages(13) == 2
    ensures NavigatePage(NAV_LAST, 0, NumPages(13)) == Some(1)
    ensures BuildNavButtons(1, NumPages(13)).next
    ensures NavigatePage(NAV_NEXT, 1, NumPages(13)) == Some(1)
  {
  }

  // ---------------------------------------------------------------------------
  // build_queue_page
  // ---------------------------------------------------------------------------

  /** The tracks one page lists: `skip(6 * page + 1).take(6)`, so positions
      6·page+1 through 6·page+6 of the queue. */
  function PageWindow(tracks: seq<Track>, page: nat): (w: seq<Track>)
    ensures |w| <= EMBED_PAGE_SIZE
    ensures forall i :: 0 <= i < |w| ==>
              EMBED_PAGE_SIZE * page + 1 + i < |tracks| && w[i] == tracks[EMBED_PAGE_SIZE * page + 1 + i]
    ensures |w| == EMBED_PAGE_SIZE || EMBED_PAGE_SIZE * page + 1 + |w| >= |tracks|
  {
    var start := EMBED_PAGE_SIZE * page + 1;
    if start >= |tracks| then [] else tracks[start..Min(start + EMBED_PAGE_SIZE, |tracks|)]
  }

  /** A page lists no track exactly when it lies beyond the last page (or the
      queue holds at most the playing track). */
  lemma EmptyWindowIffBeyondLastPage(tracks: seq<Track>, page: nat)
    ensures PageWindow(tracks, page) == [] <==> |tracks| <= 1 || page >= NumPages(|tracks|)
  {
    var n := NumPages(|tracks|);
    if |tracks| >= 2 && page < n {
      assert EMBED_PAGE_SIZE * page <= EMBED_PAGE_SIZE * (n - 1);
    }
    if |tracks| >= 2 && page >= n {
      assert EMBED_PAGE_SIZE * page >= EMBED_PAGE_SIZE * n;
    }
  }

  /** Every pending track (position k ≥ 1) is listed on page (k-1)/6, which
      is a valid page, at row (k-1) % 6. */
  lemma TrackListedOnItsPage(tracks: seq<Track>, k: nat)
    requires 1 <= k < |tracks|
    ensures (k - 1) / EMBED_PAGE_SIZE < NumPages(|tracks|)
    ensures (k - 1) % EMBED_PAGE_SIZE < |PageWindow(tracks, (k - 1) / EMBED_PAGE_SIZE)|
    ensures PageWindow(tracks, (k - 1) / EMBED_PAGE_SIZE)[(k - 1) % EMBED_PAGE_SIZE] == tracks[k]
  {
    var p := (k - 1) / EMBED_PAGE_SIZE;
    var r := (k - 1) % EMBED_PAGE_SIZE;
    assert k - 1 == EMBED_PAGE_SIZE * p + r;
  }

  /** The text of one listed track: "`N.` [title](url) • `duration`". */
  function QueueLine(position: nat, track: Track): (line: string)
    ensures var tag := "`" + Decimal(position) + ".`"; |tag| < |line| && line[..|tag|] == tag
    ensures line[|line| - 1] == '\n'
  {
    "`" + Decimal(position) + ".` [" + track.title + "](" + track.url + ") • `"
      + HumanTimestamp(track.duration) + "`\n"
  }

  /** The lines of a window whose first track is labelled `startIdx + 1`. */
  function PageLines(window: seq<Track>, startIdx: nat): (text: string)
    ensures text == "" <==> window == []
    ensures window != [] ==> text[|text| - 1] == '\n'
    decreases |window|
  {
    if window == [] then ""
    else PageLines(window[..|window| - 1], startIdx) + QueueLine(startIdx + |window|, window[|window| - 1])
  }

  lemma PageLinesExtend(window: seq<Track>, i: nat, startIdx: nat)
    requires i < |window|
    ensures PageLines(window[..i + 1], startIdx) == PageLines(window[..i], startIdx) + QueueLine(startIdx + i + 1, window[i])
  {
    var next := window[..i + 1];
    assert next[..|next| - 1] == window[..i];
  }

  lemma PageLinesLast(window: seq<Track>, startIdx: nat)
    requires window != []
    ensures PageLines(window, startIdx)
            == PageLines(window[..|window| - 1], startIdx) + QueueLine(startIdx + |window|, window[|window| - 1])
  {
  }

  /** Listing two consecutive runs of tracks is listing the first, then the
      second with its labels continuing where the first stopped. */
  lemma {:induction false} PageLinesAppend(a: seq<Track>, b: seq<Track>, startIdx: nat)
    ensures PageLines(a + b, startIdx) == PageLines(a, startIdx) + PageLines(b, startIdx + |a|)
    decreases |b|
  {
    if b == [] {
      assert a + b == a;
    } else {
      var init, last := b[..|b| - 1], b[|b| - 1];
      var line := QueueLine(startIdx + |a| + |b|, last);
      var whole := a + b;
      assert whole[..|whole| - 1] == a + init;
      assert whole[|whole| - 1] == last;
      PageLinesLast(whole, startIdx);
      PageLinesLast(b, startIdx + |a|);
      PageLinesAppend(a, init, startIdx);
      ConcatAssoc(PageLines(a, startIdx), PageLines(init, startIdx + |a|), line);
    }
  }

  /** What the "up next" field of a page shows. */
  datatype PageText = NoSongs | Lines(text: string)

  /** `build_queue_page`: "no songs" for an empty window, otherwise one line
      per listed track, each labelled with its position in the queue. */
  method BuildQueuePage(tracks: seq<Track>, page: nat) returns (text: PageText)
    ensures PageWindow(tracks, page) == [] ==> text == NoSongs
    ensures PageWindow(tracks, page) != [] ==>
              text == Lines(PageLines(PageWindow(tracks, page), EMBED_PAGE_SIZE * page))
  {
    var startIdx := EMBED_PAGE_SIZE * page;
    var queue := PageWindow(tracks, page);
    if queue == [] {
      return NoSongs;
    }
    var description := "";
    for i := 0 to |queue|
      invariant description == PageLines(queue[..i], startIdx)
    {
      PageLinesExtend(queue, i, startIdx);
      description := description + QueueLine(i + startIdx + 1, queue[i]);
    }
    assert queue[..|queue|] == queue;
    return Lines(description);
  }

  // ---------------------------------------------------------------------------
  // The registry of open displays
  // ---------------------------------------------------------------------------

  /** The registered displays whose message id is not in `gone`, in their
      original order (`retain`). */
  function Retain(msgs: seq<QueueMessage>, gone: set<MessageId>): (r: seq<QueueMessage>)
    ensures forall i :: 0 <= i < |r| ==> r[i].id !in gone
    ensures |r| <= |msgs|
    decreases |msgs|
  {
    if msgs == [] then []
    else
      var last := msgs[|msgs| - 1];
      Retain(msgs[..|msgs| - 1], gone) + (if last.id in gone then [] else [last])
  }

  /** What `Retain` keeps: only entries of the registry, and every entry
      whose id is not forgotten. */
  lemma {:induction false} RetainKeepsOthers(msgs: seq<QueueMessage>, gone: set<MessageId>)
    ensures forall i :: 0 <= i < |Retain(msgs, gone)| ==> Retain(msgs, gone)[i] in msgs
    ensures forall i :: 0 <= i < |msgs| && msgs[i].id !in gone ==> msgs[i] in Retain(msgs, gone)
    decreases |msgs|
  {
    if msgs != [] {
      var init := msgs[..|msgs| - 1];
      var last := msgs[|msgs| - 1];
      RetainKeepsOthers(init, gone);
      assert msgs == init + [last];
    }
  }

  /** Retaining distributes over concatenation: the kept entries keep their
      relative order. */
  lemma {:induction false} RetainAppend(a: seq<QueueMessage>, b: seq<QueueMessage>, gone: set<MessageId>)
    ensures Retain(a + b, gone) == Retain(a, gone) + Retain(b, gone)
    decreases |b|
  {
    if b != [] {
      var b' := b[..|b| - 1];
      assert (a + b)[..|a + b| - 1] == a + b';
      RetainAppend(a, b', gone);
    } else {
      assert a + b == a;
    }
  }

  /** Forgetting one id after another is forgetting both. */
  lemma {:induction false} RetainTwice(msgs: seq<QueueMessage>, a: set<MessageId>, b: set<MessageId>)
    ensures Retain(Retain(msgs, a), b) == Retain(msgs, a + b)
    decreases |msgs|
  {
    if msgs != [] {
      var init := msgs[..|msgs| - 1];
      var last := msgs[|msgs| - 1];
      RetainTwice(init, a, b);
      RetainAppend(Retain(init, a), if last.id in a then [] else [last], b);
    }
  }

  /** Forgetting no id keeps the whole registry. */
  lemma {:induction false} RetainNothing(msgs: seq<QueueMessage>)
    ensures Retain(msgs, {}) == msgs
    decreases |msgs|
  {
    if msgs != [] {
      RetainNothing(msgs[..|msgs| - 1]);
      assert msgs[..|msgs| - 1] + [msgs[|msgs| - 1]] == msgs;
    }
  }

  /** Only the ids that occur in the registry matter. */
  lemma {:induction false} RetainCongruent(msgs: seq<QueueMessage>, a: set<MessageId>, b: set<MessageId>)
    requires forall i :: 0 <= i < |msgs| ==> (msgs[i].id in a <==> msgs[i].id in b)
    ensures Retain(msgs, a) == Retain(msgs, b)
    decreases |msgs|
  {
    if msgs != [] {
      RetainCongruent(msgs[..|msgs| - 1], a, b);
    }
  }

  /** Registering a new display (the `queue` command after its first
      reply): the guild's cache is created if missing and the message is
      appended with a new page cursor of its own, on page 0. Then one more
      track-end handler that refreshes the displays is added to the call;
      earlier ones stay, so each invocation adds one. */
  method RegisterQueueMessage(bot: Bot, guild: GuildId, id: MessageId) returns (cursor: CursorId)
    requires bot.CursorsIssued()
    requires guild in bot.calls
    modifies bot`caches, bot`cursors, bot`nextCursor, bot`engineLog
    ensures cursor !in old(bot.cursors)
    ensures bot.engineLog == old(bot.engineLog) + [AddTrackEndHandler(guild)]
    ensures bot.cursors == old(bot.cursors)[cursor := 0]
    ensures var before := if guild in old(bot.caches) then old(bot.caches[guild]) else EMPTY_CACHE;
      bot.caches == old(bot.caches)[guild := before.(queueMessages := before.queueMessages + [QueueMessage(id, cursor)])]
    ensures bot.CursorsIssued()
  {
    cursor := bot.nextCursor;
    bot.nextCursor := bot.nextCursor + 1;
    bot.cursors := bot.cursors[cursor := 0];
    var cache := if guild in bot.caches then bot.caches[guild] else EMPTY_CACHE;
    bot.caches := bot.caches[guild := cache.(queueMessages := cache.queueMessages + [QueueMessage(id, cursor)])];
    bot.AddQueueRefresh(guild);
  }

  /** One click on a display's buttons, with the queue length fetched afresh:
      a known button moves the display's cursor where `NavigatePage` says and
      the display is re-rendered; any other id changes nothing. */
  method HandleButton(bot: Bot, cursor: CursorId, button: string, queueLength: nat)
    returns (shown: Option<NavButtons>)
    requires cursor in bot.cursors
    modifies bot`cursors
    ensures var target := NavigatePage(button, old(bot.cursors[cursor]), NumPages(queueLength));
      && (target.None? ==> bot.cursors == old(bot.cursors) && shown.None?)
      && (target.Some? ==> bot.cursors == old(bot.cursors)[cursor := target.value]
                           && shown == Some(BuildNavButtons(target.value, NumPages(queueLength))))
    ensures shown.Some? ==> bot.cursors[cursor] < NumPages(queueLength)
  {
    var numPages := NumPages(queueLength);
    var target := NavigatePage(button, bot.cursors[cursor], numPages);
    if target.None? {
      return None;
    }
    bot.cursors := bot.cursors[cursor := target.value];
    shown := Some(BuildNavButtons(target.value, numPages));
  }

  /** `forget_queue_message`: drops every registered display with the given
      message id and keeps the others in order; without a cache entry for
      the guild it fails and changes nothing. */
  method ForgetQueueMessage(bot: Bot, guild: GuildId, id: MessageId) returns (ok: bool)
    modifies bot`caches
    ensures ok <==> guild in old(bot.caches)
    ensures ok ==> bot.caches == old(bot.caches)[guild :=
              old(bot.caches[guild]).(queueMessages := Retain(old(bot.caches[guild].queueMessages), {id}))]
    ensures !ok ==> bot.caches == old(bot.caches)
  {
    if guild !in bot.caches {
      return false;
    }
    var cache := bot.caches[guild];
    bot.caches := bot.caches[guild := cache.(queueMessages := Retain(cache.queueMessages, {id}))];
    return true;
  }
}
