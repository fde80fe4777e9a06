# Parrot playback bookkeeping in Dafny

A model of the per-guild playback bookkeeping of Parrot, a Discord music bot.
Each guild has:

- a live queue of tracks, owned by the voice engine, with the playing track first;
- a stored queue of query descriptors, which the track-end handler replays when queue looping is on;
- a guild cache that holds the open queue displays (paginated messages with navigation buttons) and the current skip votes.

The model covers:

- the command guard and dispatch, and the bot-disconnect refresh (`src/handlers/serenity.rs`);
- the queue display: page count, navigation, page window and the display registry (`src/commands/queue.rs`);
- the track-end and queue-change handlers and the display refresh (`src/handlers/track_end.rs`);
- the `remove`, `skip`, `voteskip`, `stop` and `leave` commands;
- the stored-queue record (`src/guild/stored_queue.rs`);
- the idle disconnect counter (`src/handlers/idle.rs`);
- the timestamp, domain and footer helpers of `src/utils.rs`.

## Modelling choices

- **Bot state.** `GuildState.Bot` is one object for the bot's shared data:
  - guild settings, stored queues and guild caches, each a map keyed by guild;
  - the engine's calls, one live queue per connected guild;
  - a table of display page cursors.

  Each locked region of the source is one step of a method on it.
- **Engine calls.** Calls into the voice engine are methods of `Bot`:
  - stop the current track, dequeue, resume, pause, stop all, enqueue;
  - remove the call, drop the global events.

  Each appends to a ghost `engineLog`, so that the order of the calls can be stated.
- **Outside outcomes become parameters.** The model takes as parameters:
  - `failed`: which message edits fail;
  - `outcomes`: what the resolver makes of each stored query;
  - `removalSucceeds`: whether the voice connection can be removed;
  - the voice states of the guild.
- **Page cursors.** In the source, a display's page cursor is an `Arc<RwLock<usize>>`. Here it is an identity (`CursorId`) into the cursor table of `Bot`. Displays that share a cursor share an identity.
- **`update_queue_messages`.** It is specified by the recursive function `TrackEnd.RefreshDisplays` over a snapshot of the displays. Its closed form is given by three lemmas:
  - the displays whose edit failed are forgotten;
  - the cursors of the displays are clamped;
  - each display is edited with buttons for its clamped page.
- **Command names.** Command names stay strings, as in the source's `match`. Connection relations are a datatype.
- **`Mutual` connection.** `src/connection.rs` is not part of this model. Its relations are inferred from the `match` arms. `Mutual` stands for the relation that the wildcard arms accept: the author and the bot share a channel.
- **Spec and code.** Where the design description and the code differ, the model follows the code:
  - `voteskip` never clears the votes; only the track-end handler does;
  - `skip` never touches the stored queue, so the two queues do not stay index-aligned (`RemoveCommand.SkipBreaksAlignment`).
  - the comment at `src/utils.rs:140` speaks of a "www" prefix, but `replace` removes every occurrence of "www.", anywhere in the host; the model removes every occurrence (`Utils.StripWwwRemovesEveryWww`).

## Model

| member | source | states |
|---|---|---|
| Utils.Decimal | src/utils.rs:160 | `{}` of an unsigned number is a non-empty string of digits, one digit exactly below 10, "0" for zero and no leading zero otherwise |
| Utils.DecimalRoundTrip | src/utils.rs:160 | reading the rendered digits back gives the number |
| Utils.DecimalCanonical | src/utils.rs:160 | every digit string without a leading zero is the rendering of its own value, so the rendering is the only text for that number |
| Utils.Pad2 | src/utils.rs:158 | `{:02}` of a number below 100 is exactly two digits |
| Utils.Pad2RoundTrip | src/utils.rs:158 | the two padded digits read back to the number |
| Utils.Pad2Canonical | src/utils.rs:158 | every two-digit string is the padded rendering of its own value |
| Utils.Clock | src/utils.rs:153-155 | seconds < 60, minutes < 60, and hours·3600 + minutes·60 + seconds is the whole seconds |
| Utils.ClockUnique | src/utils.rs:153-155 | hours, minutes below 60 and seconds below 60 are the only split of h·3600 + m·60 + s |
| Utils.ClockText | src/utils.rs:157-161 | the clock text is five characters under an hour and at least seven from one hour on |
| Utils.RenderClock | src/utils.rs:152-161 | a finite duration whose seconds add up from a clock reading (minutes and seconds below 60) is rendered as that reading |
| Utils.HumanTimestamp | src/utils.rs:149-165 | "∞" exactly for no duration or `Duration::MAX`; five characters ("MM:SS") under an hour; at least seven ("H:MM:SS") from one hour on; with `TimestampRoundTrip` and `TimestampCanonical` the text is the one canonical clock reading of the whole seconds |
| Utils.TimestampRoundTrip | src/utils.rs:149-165 | every finite timestamp other than `Duration::MAX` reads back to its whole seconds, so only the nanoseconds are lost |
| Utils.ShortCanonical | src/utils.rs:157-158 | two-digit minute and second fields below 60, joined by ":", are the rendering of the seconds they spell |
| Utils.LongCanonical | src/utils.rs:159-160 | hours without a leading zero, then two-digit minutes and seconds below 60, joined by ":", are the rendering of the seconds they spell |
| Utils.TimestampCanonical | src/utils.rs:149-165 | every canonical clock text ("MM:SS" or "H:MM:SS", minutes and seconds below 60, no leading zero in the hours) is the rendering of the seconds it reads as, so rendering and reading are inverse bijections |
| Utils.CompareDomainsIsSuffix | src/utils.rs:167-169 | `compare_domains(d, s)` holds exactly when `d` is a suffix of `s` |
| Utils.CompareDomains | src/utils.rs:167-169 | `compare_domains(d, s)` is true exactly when `s` ends with `d` |
| Utils.CompareDomainsIgnoresLabelBoundary | src/utils.rs:167-169 | as written, "notyoutube.com" is accepted as a subdomain of "youtube.com" |
| Utils.CompareDomainsOnLabelSpec | src/utils.rs:167-169 | the corrected comparison accepts exactly the domain and hosts of the form labels + "." + domain, and never more than the original |
| Utils.StripWww | src/utils.rs:141 | removing "www." shortens the host by a multiple of four characters; `StripWwwRemovesEveryWww` pins the result |
| Utils.WwwNeverOverlaps | src/utils.rs:141 | two occurrences of "www." in a host never overlap |
| Utils.StripWwwFrom | src/utils.rs:141 | from any position not inside an earlier "www.", the scan yields exactly the characters outside every occurrence, in order |
| Utils.StripWwwRemovesEveryWww | src/utils.rs:141 | `replace("www.", "")` removes every occurrence of "www." and keeps all other characters in order |
| Utils.StripWwwKeepsPlainHost | src/utils.rs:141 | a host without "www." is unchanged |
| Utils.FooterInfo | src/utils.rs:136-147 | "Streaming via " and the favicon URL are each followed by the host with every "www." removed and all other characters kept in order |
| Utils.FooterDropsLeadingWww | src/utils.rs:140-146 | a leading "www." is dropped from both footer strings, and the footer is the same as for the bare host |
| Utils.StripWwwCanLeaveWww | src/utils.rs:141 | `replace` makes one left-to-right pass: "wwwww.w." followed by any tail becomes "www." followed by the tail's own result, so "wwwww.w.com" becomes "www.com" |
| StoredQueue.NewStoredQueue | src/guild/stored_queue.rs:14-21 | a new stored queue has no queries and allows loop continuation |
| GuildState.SettingsOf | src/handlers/track_end.rs:40-44 | a guild without settings has autopause and queue loop off |
| GuildState.Bot.StopCurrent | src/commands/skip.rs:78 | stopping the current track is logged and does not change the live queue |
| GuildState.Bot.DequeueFront | src/commands/skip.rs:79 | `dequeue(0)` drops the head of the live queue and nothing else |
| GuildState.Bot.Resume | src/commands/skip.rs:80 | resuming is logged and changes no queue |
| GuildState.Bot.Pause | src/handlers/track_end.rs:51-55 | pausing is logged and changes no queue |
| GuildState.Bot.StopAll | src/commands/stop.rs:26 | stopping the queue empties the live queue |
| GuildState.Bot.Enqueue | src/handlers/track_end.rs:63-76 | resolved tracks are appended at the end of the live queue |
| GuildState.Bot.RemoveCall | src/commands/leave.rs:29 | removal succeeds exactly when the guild has a call and the gateway agrees; the call is dropped only then |
| GuildState.Bot.RemoveAllGlobalEvents | src/handlers/idle.rs:41-43 | dropping the global events is logged and changes no queue |
| GuildState.Bot.AddQueueRefresh | src/commands/queue.rs:66-76 | registering a track-end refresh handler is logged and changes no queue |
| QueueCommand.NumPages | src/commands/queue.rs:227-230 | at least one page; one page for 0 or 1 tracks; otherwise the least number of six-track pages that hold the len−1 pending tracks |
| QueueCommand.NumPagesExamples | src/commands/queue.rs:227-230 | 0, 1 and 7 tracks give one page; 8 and 13 give two; 14 gives three |
| QueueCommand.NavigatePage | src/commands/queue.rs:94-100 | "<<" goes to page 0 and ">>" to the last page; "<" and ">" step with clamping to the last page; any other id changes nothing; every target page exists |
| QueueCommand.BuildNavButtons | src/commands/queue.rs:173-188 | the two left buttons are disabled together, and so are the two right buttons |
| QueueCommand.DisabledIffNoOp | src/commands/queue.rs:178 | on a valid page, a button is disabled exactly when clicking it would leave the page unchanged |
| QueueCommand.ThirteenTrackNavigation | src/commands/queue.rs:94-100 | with 13 tracks, ">>" leads to page 1, where ">" is disabled and stays on page 1 |
| QueueCommand.PageWindow | src/commands/queue.rs:190-196 | a page lists at most six tracks: queue positions 6·page+1 onward, in order |
| QueueCommand.EmptyWindowIffBeyondLastPage | src/commands/queue.rs:190-200 | a page lists no track exactly when the queue holds at most the playing track or the page is past the last one |
| QueueCommand.TrackListedOnItsPage | src/commands/queue.rs:190-196 | every pending track k is listed on the valid page (k−1)/6, at row (k−1) mod 6 |
| QueueCommand.QueueLine | src/commands/queue.rs:210-221 | the line for a track opens with its backquoted position label "`N.`" and ends in a newline |
| QueueCommand.PageLines | src/commands/queue.rs:204-222 | a window gives the empty text exactly when it is empty, and otherwise text ending in a newline |
| QueueCommand.PageLinesAppend | src/commands/queue.rs:204-222 | listing two consecutive runs of tracks is listing the first and then the second, whose labels continue from where the first stopped |
| QueueCommand.BuildQueuePage | src/commands/queue.rs:190-225 | an empty window gives the "no songs" text; otherwise one line per listed track, labelled startIdx+i+1 |
| QueueCommand.Retain | src/commands/queue.rs:241 | no kept display has a forgotten id, and the registry never grows |
| QueueCommand.RetainKeepsOthers | src/commands/queue.rs:241 | only registered displays are kept, and every display whose id is not forgotten is kept |
| QueueCommand.RetainAppend | src/commands/queue.rs:241 | `retain` distributes over concatenation, so kept displays keep their order |
| QueueCommand.RetainTwice | src/commands/queue.rs:241 | forgetting one id set and then another is forgetting their union |
| QueueCommand.RetainNothing | src/commands/queue.rs:241 | forgetting no id keeps the registry as it is |
| QueueCommand.RetainCongruent | src/commands/queue.rs:241 | only the ids present in the registry matter |
| QueueCommand.RegisterQueueMessage | src/commands/queue.rs:55-76 | the cache is created if missing; the display is appended with a fresh cursor on page 0; one more track-end refresh handler is registered on the call |
| QueueCommand.HandleButton | src/commands/queue.rs:83-111 | a known button moves the display's cursor to the `NavigatePage` target and re-renders; an unknown id changes nothing; afterwards the page exists |
| QueueCommand.ForgetQueueMessage | src/commands/queue.rs:232-244 | removes exactly the displays with the id, keeping the rest in order; without a cache entry it fails and changes nothing |
| SkipCommand.Current | src/commands/skip.rs:43 | the playing track is the head of the live queue, if there is one |
| SkipCommand.Drain | src/commands/skip.rs:29-31 | `drain(lo..hi)` removes exactly positions lo..hi−1 and keeps the rest in order |
| SkipCommand.TracksToSkip | src/commands/skip.rs:17-27 | `to` defaults to 1; the count is min(to, len), between 1 and the queue length |
| SkipCommand.DrainThenDequeue | src/commands/skip.rs:29-33 | draining 1..k and then dequeuing the head leaves the old queue from position k on |
| SkipCommand.ForceSkipCalls | src/commands/skip.rs:78-80 | exactly three calls: stop the track, then dequeue(0), then resume, all for the guild |
| SkipCommand.ForceSkipTopTrack | src/commands/skip.rs:71-83 | the head is dropped, and the three engine calls are logged in that order |
| SkipCommand.SkipReply | src/commands/skip.rs:37-69 | "skip to" the new current track when one is left; otherwise "skipped all" exactly when more than one track was skipped |
| SkipCommand.Skip | src/commands/skip.rs:11-35 | an empty queue fails with NothingPlaying and no change; otherwise the queue becomes old[k..], the force-skip calls are logged, the reply follows `SkipReply`, and the stored queue and caches are untouched |
| SkipCommand.SkipReplyCases | src/commands/skip.rs:37-69 | in terms of the old queue: the track at position k if any is left, "skipped all" for a used-up queue of two or more, a plain skip for one track |
| SkipCommand.SkipClampsToQueue | src/commands/skip.rs:27-31 | skipping 3 on a 3-track queue consumes all of it and replies "skipped all" |
| VoteSkipCommand.ChannelMembers | src/commands/voteskip.rs:40-43 | the members are exactly the users whose voice state is in the bot's channel |
| VoteSkipCommand.SkipThreshold | src/commands/voteskip.rs:39-43 | the threshold is half the bot's channel members, rounded down |
| VoteSkipCommand.CastVote | src/commands/voteskip.rs:37-58 | the voter joins the set; the track is skipped exactly when the set reaches the threshold; otherwise the missing count is at least 1 and makes up the threshold |
| VoteSkipCommand.RepeatVoteDoesNotCount | src/commands/voteskip.rs:37-38 | a repeated vote leaves the vote set unchanged |
| VoteSkipCommand.DistinctTallySize | src/commands/voteskip.rs:37-38 | n distinct voters make a set of n votes |
| VoteSkipCommand.DistinctVotesSkipAtThreshold | src/commands/voteskip.rs:40-48 | with distinct voters, the k-th vote skips exactly when k ≥ members/2 |
| VoteSkipCommand.CacheOrDefault | src/commands/voteskip.rs:37 | a missing cache reads as empty |
| VoteSkipCommand.VoteSkip | src/commands/voteskip.rs:16-60 | an empty queue fails with no vote recorded; otherwise the vote is recorded, the threshold is recomputed, and the result is a force skip with a one-track reply or the missing count; votes are never cleared |
| VoteSkipCommand.ForgetSkipVotes | src/commands/voteskip.rs:62-70 | empties the guild's votes; fails without creating an entry when the guild has no cache |
| VoteSkipCommand.VotesCleared | src/commands/voteskip.rs:62-70 | only the guild's vote set changes; the displays and the other guilds stay; no entry is created |
| TrackEnd.ClampedPage | src/handlers/track_end.rs:115-117 | the result is a valid page no higher than the old one; a valid page is kept, and a page past the end goes to the last page |
| TrackEnd.ClampedPageIdempotent | src/handlers/track_end.rs:113-117 | clamping twice is clamping once, so two displays sharing a cursor are refreshed consistently |
| TrackEnd.CursorsOf | src/handlers/track_end.rs:113 | exactly the cursors of the snapshot's displays: every display's cursor is in the set, and every cursor in it belongs to a display |
| TrackEnd.ClampCursors | src/handlers/track_end.rs:113-117 | same keys; every clamped cursor holds its old page passed through `ClampedPage`, so a valid page no higher than before; every other cursor keeps its page |
| TrackEnd.ClampNextDisplay | src/handlers/track_end.rs:113-117 | each further display extends the clamped set by its own cursor, and its page is its page before the refresh, clamped |
| TrackEnd.RefreshDisplay | src/handlers/track_end.rs:113-130 | one display of the loop leaves its cursor on a valid page and adds one edited display |
| TrackEnd.RefreshDisplays | src/handlers/track_end.rs:113-131 | the loop keeps the cursor table's keys, and edits each display of the snapshot once |
| TrackEnd.FailedIds | src/handlers/track_end.rs:128-130 | exactly the ids of displays in the snapshot whose edit failed: no others, and none missing |
| TrackEnd.RefreshForgetsFailed | src/handlers/track_end.rs:128-130 | after the loop, the registry is the old registry without the displays whose edit failed |
| TrackEnd.FailedIdsSnoc | src/handlers/track_end.rs:128-130 | the failed ids grow by the last display's id exactly when its edit failed |
| TrackEnd.RefreshClampsCursors | src/handlers/track_end.rs:115-117 | after the loop, the cursor table is the old one with every display's cursor clamped |
| TrackEnd.RefreshShowsClampedPages | src/handlers/track_end.rs:119-126 | the i-th display is edited with the buttons for its old page, clamped |
| TrackEnd.RefreshQueueMessage | src/handlers/track_end.rs:113-130 | one turn of the refresh loop is one `RefreshDisplay` step |
| TrackEnd.UpdateQueueMessages | src/handlers/track_end.rs:98-132 | without a cache nothing changes; otherwise failed displays are forgotten, cursors are clamped to the new last page, and each display is edited with buttons for its clamped page |
| TrackEnd.RefreshLeavesLegalPages | src/handlers/track_end.rs:113-130 | after a refresh, every display still registered stands on a page the new queue has |
| TrackEnd.ModifyQueueAct | src/handlers/track_end.rs:86-96 | the displays are refreshed against the live queue as it is now |
| TrackEnd.ReplayedTracksAppend | src/handlers/track_end.rs:63-76 | replaying two batches of queries appends their tracks in order |
| TrackEnd.ReplayedTracks | src/handlers/track_end.rs:63-76 | every replayed track comes from a query that resolved; if every query failed, nothing is replayed |
| TrackEnd.ReplayCalls | src/handlers/track_end.rs:63-76 | at most one engine call per stored query, and each is an enqueue for the guild |
| TrackEnd.FailedQueryIsSkipped | src/handlers/track_end.rs:64-75 | a failed query is skipped, and the queries after it are still replayed |
| TrackEnd.ReplayKeepsStoredOrder | src/handlers/track_end.rs:63-76 | when every query resolves, the replay is the concatenation of their tracks in stored order |
| TrackEnd.NoReplayWhileQueued | src/handlers/track_end.rs:57-62 | after a replay that queued something, a track end does not replay again until the queue has run dry |
| TrackEnd.ShouldReplay | src/handlers/track_end.rs:57-62 | the replay condition: queue loop on, `continue_play` set, live queue empty; its effect is stated by `TrackEndAct` |
| TrackEnd.ReplayStoredQueue | src/handlers/track_end.rs:63-76 | the live queue gains the replayed tracks in order, and the log gains one enqueue per resolved query |
| TrackEnd.TrackEndAct | src/handlers/track_end.rs:38-83 | without a stored queue nothing happens; otherwise: pause if autopause is on; replay exactly when queue loop and `continue_play` hold and the live queue is empty; then clear the votes |
| RemoveCommand.UntilOrIndex | src/commands/remove.rs:24-27 | `until` defaults to `index` |
| RemoveCommand.ClampUntil | src/commands/remove.rs:32-33 | the result is the minimum of `until` and len−1 (the `isize` subtraction never saturates): never above either, and equal to one of them |
| RemoveCommand.ClampUntilEmptyQueue | src/commands/remove.rs:32-33 | on an empty queue every `until` is pulled down to −1 |
| RemoveCommand.CheckRemove | src/commands/remove.rs:35-48 | checked in order: len ≤ 1 gives QueueEmpty; index ≥ len gives NotInRange("index", index, 1, len); clamped until < index gives NotInRange("until", until, index, len); otherwise it succeeds with the clamped until |
| RemoveCommand.AcceptedRangeInQueue | src/commands/remove.rs:33-48 | an accepted range lies within positions 1 … len−1, so the playing track is never removed |
| RemoveCommand.RemoveClampsUntil | src/commands/remove.rs:33 | the last removed position is `until`, or len−1 when `until` is beyond the queue |
| RemoveCommand.RemoveReply | src/commands/remove.rs:70-75 | the removed-track reply is sent exactly when until == index; otherwise "removed multiple" |
| RemoveCommand.RemoveKeepsOthers | src/commands/remove.rs:58-63 | the drain shortens the queue by until−index+1, keeps the playing track, and keeps every other track in order |
| RemoveCommand.RemoveKeepsAlignment | src/commands/remove.rs:58-63 | draining the same range from aligned live and stored queues keeps them aligned |
| RemoveCommand.SkipBreaksAlignment | src/commands/skip.rs:29-33 | the live queue left by a skip (drain 1..k, then dequeue the head) is no longer aligned with the unchanged stored queue |
| RemoveCommand.Remove | src/commands/remove.rs:12-79 | a failed check changes nothing and returns its error; otherwise the same inclusive range is drained from the live and the stored queues, the reply follows `RemoveReply`, and the displays are refreshed against the new queue |
| StopCommand.Stopped | src/commands/stop.rs:18-19 | a stopped stored queue has no queries and `continue_play` off |
| StopCommand.StoppedNeverReplays | src/commands/stop.rs:18 | a stopped stored queue never satisfies the replay condition |
| StopCommand.Stop | src/commands/stop.rs:10-35 | the stored queue is reset even when the live queue is empty (NothingPlaying, no other change); otherwise the whole live queue is stopped and the displays are refreshed against the empty queue |
| StopCommand.StopThenTrackEnd | src/commands/stop.rs:18 | a track end right after a stop replays nothing |
| LeaveCommand.ClearedStoredItems | src/commands/leave.rs:17-25 | the guild's stored queries are cleared with `continue_play` kept; a missing entry stays missing |
| LeaveCommand.Leave | src/commands/leave.rs:10-32 | clears the stored queries, then removes the call, then replies Leaving |
| Idle.Increment | src/handlers/idle.rs:37 | `fetch_add(1)` adds one and wraps to 0 at the `usize` limit |
| Idle.IdleStep | src/handlers/idle.rs:20-58 | other events change nothing; a playing track resets the counter; an idle tick increments it and attempts a disconnect exactly when the old count was ≥ limit and a guild is known; the alert is sent and the counter reset exactly when the removal succeeds |
| Idle.AnyPlaying | src/handlers/idle.rs:27-35 | true exactly when some track is playing |
| Idle.QuietUntilLimit | src/handlers/idle.rs:37 | from a reset counter, the first `limit` idle ticks only count |
| Idle.AttemptAfterLimit | src/handlers/idle.rs:37 | the (limit+1)-th consecutive idle tick attempts the disconnect |
| Idle.FailedRemovalRetries | src/handlers/idle.rs:45-53 | after a failed removal, the next idle tick tries again |
| Idle.PlayingResets | src/handlers/idle.rs:27-35 | a tick with any track playing resets the counter, so the next idle tick does not disconnect (limit > 0) |
| Idle.IdleHandler.Act | src/handlers/idle.rs:20-58 | the counter and the alert follow `IdleStep`; an attempt drops the global events before removing the call |
| Serenity.VoiceCommandGuard | src/handlers/serenity.rs:270-280 | each of the 13 voice commands passes exactly for a mutual connection; User or Neither gives NotConnected, Bot gives AuthorDisconnected, Separate gives WrongVoiceChannel |
| Serenity.PlayGuard | src/handlers/serenity.rs:281-296 | play and superplay pass for User or Mutual; Bot gives WrongVoiceChannel, Separate gives AlreadyConnected, Neither gives AuthorNotFound |
| Serenity.SummonGuard | src/handlers/serenity.rs:284-286 | summon is guarded like play, except that Bot gives AuthorNotFound |
| Serenity.ListGuard | src/handlers/serenity.rs:297-300 | np and queue fail with NotConnected for User or Neither, and pass otherwise |
| Serenity.OtherCommandsPass | src/handlers/serenity.rs:301 | any other command name passes the guard |
| Serenity.Guard | src/handlers/serenity.rs:269-302 | only a voice, join or list command can be refused, and a command whose author shares the bot's channel is never refused |
| Serenity.HandlerName | src/handlers/serenity.rs:304-325 | every handler is selected by a name |
| Serenity.Dispatch | src/handlers/serenity.rs:304-325 | a name has a handler exactly when it is one of the registered commands: the guarded ones, `managesources` and `version` |
| Serenity.DispatchNames | src/handlers/serenity.rs:304-325 | each name selects one handler, and no two names share one except play and superplay |
| Serenity.GuardedCommandsDispatch | src/handlers/serenity.rs:269-325 | every command the guard inspects has a handler |
| Serenity.RunCommand | src/handlers/serenity.rs:269-325 | a handler runs exactly when the guard passes and the name is known; a refusal carries the guard's error |
| Serenity.HandlerOnlyAfterGuard | src/handlers/serenity.rs:302-325 | a running handler implies the guard passed, and it is the handler its name selects |
| Serenity.VoiceStateUpdate | src/handlers/serenity.rs:60-78 | other users' updates and the bot joining a channel change nothing; when the bot leaves, the call is removed if present and the displays are refreshed against an empty queue |

## Left out

- **Discord I/O.** Every Discord request is left out:
  - responses, embeds, message texts, edits;
  - the response fallback helpers of `src/utils.rs`;
  - command registration, `ready`, settings loading, self-deafen;
  - the `managesources` modal flow.

  Replies are a `Reply` datatype, and failed edits are the `failed` parameter.
- **The engine's own behaviour.** The model keeps only the order and effect of the engine calls. It leaves out the latency that the force skip works around.
- **The resolver.** `normal_query_type_resolver` is the `outcomes` parameter: one success or failure per stored query.
  - `src/commands/play.rs`, where it is defined, is not part of this model.
  - It receives the whole shared data (`src/handlers/track_end.rs:64-71`). With `Mode::End`, it is assumed to change only the live queue: it appends the tracks of a resolved query and leaves the settings, the stored queues and the caches alone. `TrackEnd.TrackEndAct`'s frame rests on that assumption.
- **Repeated refresh handlers.** Every `queue` invocation registers one more track-end handler (`QueueCommand.RegisterQueueMessage` logs each registration). The engine then runs every registered handler at each track end, until the idle handler drops them all. `TrackEnd.ModifyQueueAct` models one such run; the model does not state that a track end runs it once per registration.
- **Concurrency.** Locks, the interaction stream's timeout and the atomics of the idle counter are left out. Each locked region is one atomic step.
- **Floating point.** The floating-point division of `calculate_num_pages` is replaced by integer ceiling division. It gives the same page counts, including 1 for an empty queue.
- **URL parsing.** `Url::parse` in `get_footer_info` is left out. The footer model starts from the host string.
- **Other command files.** `src/commands/repeat_queue.rs`, the settings persistence and `src/commands/version.rs` are not part of this model. `queue_loop` is only a flag in the settings record.
- **`src/connection.rs`** is not part of this model. The connection relation is an input of the guard.
- **Reconnect.** The reconnect step at the top of `run_command` (leave when the call has no connection) is left out. It is engine I/O.
- **Failing `unwrap`s become preconditions:**
  - the TypeMap keys exist;
  - the guild has a call or a stored-queue entry where the source unwraps one;
  - the stored queue is long enough for `remove`'s drain;
  - `leave`'s removal succeeds;
  - every voice state that `voteskip` counts has a channel (`src/commands/voteskip.rs:40-42` unwraps it). The voice states are a map from user to channel, so a state without a channel cannot be expressed.
- RemoveCommand.Remove: models `until` as optional, as the code does. The command registration marks `until` as required, so the default to `index` never applies in practice.
- GuildState.Bot.engineLog: a ghost record. It states call order only; it does not model the tracks' play state.
- Idle.FailedRemovalRetries: holds only below the `usize` maximum. At the maximum, the wrap of `fetch_add` sets the counter to 0 and the retry waits `limit` more ticks.
- Serenity.RunCommand: an unknown command name passes the guard and then reaches `unreachable!()`. The model reports this as `Unreachable` rather than as a panic.

## Findings

| source | as written | input that shows it | evidently intended | confidence | as-written member | corrected member |
|---|---|---|---|---|---|---|
| src/utils.rs:167-169 | `compare_domains` accepts any host that ends with the domain's characters | domain "youtube.com", subdomain "notyoutube.com" gives true | accept the domain itself or a subdomain, i.e. a host ending in "." + domain | medium, not executed | Utils.CompareDomainsIgnoresLabelBoundary | Utils.CompareDomainsOnLabelSpec |
