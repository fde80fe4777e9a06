/** The state the commands and event handlers share: the bot's global data
    (guild settings, stored queues, guild caches, each a map keyed by guild)
    and the playback engine's calls, one live queue per connected guild.
    Every locked region of the bot is one atomic step of a method here. */
module GuildState {
  import opened Types
  import opened StoredQueue

  /** Identifies the page cursor of an open queue display (an
      `Arc<RwLock<usize>>` in the bot). Displays holding the same identity
      share one cursor; the cursor table of `Bot` holds its page. */
  type CursorId = nat

  /** One registered queue display: its message and its page cursor. */
  datatype QueueMessage = QueueMessage(id: MessageId, cursor: CursorId)

  /** `GuildCache`: the open queue displays and the current skip votes. */
  datatype GuildCache = GuildCache(queueMessages: seq<QueueMessage>, skipVotes: set<UserId>)

  /** `GuildCache::default()`. */
  const EMPTY_CACHE: GuildCache := GuildCache([], {})

  /** The two guild settings the playback core reads. */
  datatype GuildSettings = GuildSettings(autopause: bool, queueLoop: bool)

  /** The settings of a guild, or both flags off when it has none
      (`unwrap_or_default` on the pair). */
  function SettingsOf(settings: map<GuildId, GuildSettings>, guild: GuildId): (s: GuildSettings)
    ensures guild !in settings ==> !s.autopause && !s.queueLoop
    ensures guild in settings ==> s == settings[guild]
  {
    if guild in settings then settings[guild] else GuildSettings(false, false)
  }

  /** The calls the core makes into the playback engine, in the order made. */
  datatype EngineCall =
    | StopTrack(guild: GuildId)
    | DequeueAt(guild: GuildId, index: nat)
    | ResumeQueue(guild: GuildId)
    | PauseQueue(guild: GuildId)
    | StopQueue(guild: GuildId)
    | EnqueueAll(guild: GuildId, tracks: seq<Track>)
    | LeaveCall(guild: GuildId)
    | ClearGlobalEvents(guild: GuildId)
    | AddTrackEndHandler(guild: GuildId)

  class Bot {
    /** `GuildSettingsMap`. */
    var settings: map<GuildId, GuildSettings>
    /** `GuildStoredQueueMap`: at most one stored queue per guild. */
    var storedQueues: map<GuildId, GuildStoredQueue>
    /** `GuildCacheMap`. */
    var caches: map<GuildId, GuildCache>
    /** The engine's calls: each connected guild's live queue, current track first. */
    var calls: map<GuildId, seq<Track>>
    /** The page of every display cursor, written by the display's buttons
        and by the background refresh. */
    var cursors: map<CursorId, nat>
    /** The next cursor identity to hand out. */
    var nextCursor: nat
    /** Every engine call made so far. */
    ghost var engineLog: seq<EngineCall>

    constructor ()
      ensures settings == map[] && storedQueues == map[] && caches == map[] && calls == map[]
      ensures cursors == map[] && nextCursor == 0
      ensures engineLog == []
      ensures CursorsIssued()
    {
      settings, storedQueues, caches, calls := map[], map[], map[], map[];
      cursors, nextCursor := map[], 0;
      engineLog := [];
    }

    /** Every cursor in the table was handed out before `nextCursor`, so a
        new cursor shares with no existing display. */
    ghost predicate CursorsIssued()
      reads this
    {
      forall c :: c in cursors ==> c < nextCursor
    }

    /** Every display registered for the guild has its cursor in the table
        (in the bot a display owns its `Arc`, so its cursor always exists). */
    ghost predicate DisplaysHaveCursors(guild: GuildId)
      reads this
    {
      guild in caches ==>
        forall i :: 0 <= i < |caches[guild].queueMessages| ==> caches[guild].queueMessages[i].cursor in cursors
    }

    /** Signals the current track to stop. The engine drops it from the queue
        only later, so the live queue is left as it is. */
    method StopCurrent(guild: GuildId)
      requires guild in calls && calls[guild] != []
      modifies this`engineLog
      ensures engineLog == old(engineLog) + [StopTrack(guild)]
    {
      engineLog := engineLog + [StopTrack(guild)];
    }

    /** `dequeue(0)`: removes the track at the head of the live queue, if any. */
    method DequeueFront(guild: GuildId)
      requires guild in calls
      modifies this`calls, this`engineLog
      ensures calls == old(calls)[guild := if old(calls[guild]) == [] then [] else old(calls[guild])[1..]]
      ensures engineLog == old(engineLog) + [DequeueAt(guild, 0)]
    {
      if calls[guild] != [] {
        calls := calls[guild := calls[guild][1..]];
      }
      engineLog := engineLog + [DequeueAt(guild, 0)];
    }

    /** Resumes playback of the live queue. */
    method Resume(guild: GuildId)
      requires guild in calls
      modifies this`engineLog
      ensures engineLog == old(engineLog) + [ResumeQueue(guild)]
    {
      engineLog := engineLog + [ResumeQueue(guild)];
    }

    /** Pauses playback of the live queue. */
    method Pause(guild: GuildId)
      requires guild in calls
      modifies this`engineLog
      ensures engineLog == old(engineLog) + [PauseQueue(guild)]
    {
      engineLog := engineLog + [PauseQueue(guild)];
    }

    /** Stops every track of the live queue and empties it. */
    method StopAll(guild: GuildId)
      requires guild in calls
      modifies this`calls, this`engineLog
      ensures calls == old(calls)[guild := []]
      ensures engineLog == old(engineLog) + [StopQueue(guild)]
    {
      calls := calls[guild := []];
      engineLog := engineLog + [StopQueue(guild)];
    }

    /** Appends resolved tracks at the end of the live queue. */
    method Enqueue(guild: GuildId, tracks: seq<Track>)
      requires guild in calls
      modifies this`calls, this`engineLog
      ensures calls == old(calls)[guild := old(calls[guild]) + tracks]
      ensures engineLog == old(engineLog) + [EnqueueAll(guild, tracks)]
    {
      calls := calls[guild := calls[guild] + tracks];
      engineLog := engineLog + [EnqueueAll(guild, tracks)];
    }

    /** The manager's `remove`: leaves the voice channel and drops the call.
        It fails when there is no call or when `succeeds` says the gateway
        refused; a failure changes nothing but the log. */
    method RemoveCall(guild: GuildId, succeeds: bool) returns (removed: bool)
      modifies this`calls, this`engineLog
      ensures removed <==> guild in old(calls) && succeeds
      ensures calls == if removed then old(calls) - {guild} else old(calls)
      ensures engineLog == old(engineLog) + [LeaveCall(guild)]
    {
      removed := guild in calls && succeeds;
      if removed {
        calls := calls - {guild};
      }
      engineLog := engineLog + [LeaveCall(guild)];
    }

    /** Registers one more global handler that refreshes the guild's queue
        displays at every track end. */
    method AddQueueRefresh(guild: GuildId)
      requires guild in calls
      modifies this`engineLog
      ensures engineLog == old(engineLog) + [AddTrackEndHandler(guild)]
    {
      engineLog := engineLog + [AddTrackEndHandler(guild)];
    }

    /** Drops every global event handler registered on the call. */
    method RemoveAllGlobalEvents(guild: GuildId)
      requires guild in calls
      modifies this`engineLog
      ensures engineLog == old(engineLog) + [ClearGlobalEvents(guild)]
    {
      engineLog := engineLog + [ClearGlobalEvents(guild)];
    }
  }
}
