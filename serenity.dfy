/** The command guard and dispatch of `run_command` and the bot-disconnect
    refresh of `voice_state_update`, from `src/handlers/serenity.rs`. */
module Serenity {
  import opened Types
  import opened GuildState
  import opened QueueCommand
  import opened TrackEnd

  /** How the author of a command and the bot stand in the guild's voice
      channels (the result of `check_voice_connections`): only the author
      is connected, only the bot is, both in the same channel, both in
      different channels, or neither. */
  datatype Connection =
    | User(userChannel: ChannelId)
    | Bot(botChannel: ChannelId)
    | Mutual(channel: ChannelId)
    | Separate(botChannel: ChannelId, userChannel: ChannelId)
    | Neither

  /** The commands that need the author in the bot's voice channel. */
  const VOICE_COMMANDS: set<string> :=
    {"autopause", "clear", "leave", "pause", "remove", "repeat", "repeatqueue",
     "resume", "seek", "shuffle", "skip", "stop", "voteskip"}

  /** The commands that bring the bot into the author's channel. */
  const JOIN_COMMANDS: set<string> := {"play", "superplay", "summon"}

  /** The commands that only show the queue. */
  const LIST_COMMANDS: set<string> := {"np", "queue"}

  /** The connection check of `run_command`: which relation lets each
      command through, and the error it answers otherwise. */
  function Guard(name: string, conn: Connection): (r: Result<(), ParrotError>)
    ensures r.Err? ==> name in VOICE_COMMANDS || name in JOIN_COMMANDS || name in LIST_COMMANDS
    ensures conn.Mutual? ==> r.Ok?
  {
    if name in VOICE_COMMANDS then
      match conn
      case User(_) => Err(NotConnected)
      case Neither => Err(NotConnected)
      case Bot(botChannel) => Err(AuthorDisconnected(botChannel))
      case Separate(_, _) => Err(WrongVoiceChannel)
      case _ => Ok(())
    else if name in JOIN_COMMANDS then
      match conn
      case User(_) => Ok(())
      case Bot(_) => if name == "summon" then Err(AuthorNotFound) else Err(WrongVoiceChannel)
      case Separate(botChannel, _) => Err(AlreadyConnected(botChannel))
      case Neither => Err(AuthorNotFound)
      case _ => Ok(())
    else if name in LIST_COMMANDS then
      match conn
      case User(_) => Err(NotConnected)
      case Neither => Err(NotConnected)
      case _ => Ok(())
    else
      Ok(())
  }

  /** Each of the thirteen voice commands runs only when the author shares
      the bot's channel; otherwise the error names what is wrong. */
  lemma VoiceCommandGuard(name: string, conn: Connection)
    requires name in VOICE_COMMANDS
    ensures Guard(name, conn).Ok? <==> conn.Mutual?
    ensures conn.User? || conn.Neither? ==> Guard(name, conn) == Err(NotConnected)
    ensures conn.Bot? ==> Guard(name, conn) == Err(AuthorDisconnected(conn.botChannel))
    ensures conn.Separate? ==> Guard(name, conn) == Err(WrongVoiceChannel)
  {
  }

  /** `play` and `superplay` run when the author is in a channel the bot is
      not elsewhere connected to. */
  lemma PlayGuard(name: string, conn: Connection)
    requires name == "play" || name == "superplay"
    ensures Guard(name, conn).Ok? <==> conn.User? || conn.Mutual?
    ensures conn.Bot? ==> Guard(name, conn) == Err(WrongVoiceChannel)
    ensures conn.Separate? ==> Guard(name, conn) == Err(AlreadyConnected(conn.botChannel))
    ensures conn.Neither? ==> Guard(name, conn) == Err(AuthorNotFound)
  {
  }

  /** `summon` is guarded like `play` except when only the bot is
      connected, where it answers that the author was not found. */
  lemma SummonGuard(conn: Connection)
    ensures !conn.Bot? ==> Guard("summon", conn) == Guard("play", conn)
    ensures conn.Bot? ==> Guard("summon", conn) == Err(AuthorNotFound) && Guard("play", conn) == Err(WrongVoiceChannel)
  {
  }

  /** `np` and `queue` run whenever the bot is connected. */
  lemma ListGuard(name: string, conn: Connection)
    requires name in LIST_COMMANDS
    ensures Guard(name, conn).Ok? <==> conn.Bot? || conn.Mutual? || conn.Separate?
    ensures Guard(name, conn).Err? ==> Guard(name, conn) == Err(NotConnected)
  {
  }

  /** Any other command passes the guard whatever the connection. */
  lemma OtherCommandsPass(name: string, conn: Connection)
    requires name !in VOICE_COMMANDS && name !in JOIN_COMMANDS && name !in LIST_COMMANDS
    ensures Guard(name, conn) == Ok(())
  {
  }

  /** The command handlers `run_command` calls. */
  datatype Handler =
    | AutopauseHandler | ClearHandler | LeaveHandler | AllowHandler | NowPlayingHandler
    | PauseHandler | PlayHandler | QueueHandler | RemoveHandler | RepeatHandler
    | RepeatQueueHandler | ResumeHandler | SeekHandler | ShuffleHandler | SkipHandler
    | StopHandler | SummonHandler | VersionHandler | VoteSkipHandler

  /** Every command name the bot registers: the guarded ones, plus
      `managesources` and `version`, which the guard lets through. */
  const REGISTERED_COMMANDS: set<string> :=
    VOICE_COMMANDS + JOIN_COMMANDS + LIST_COMMANDS + {"managesources", "version"}

  /** The handler of each command name; `None` for a name the bot does not
      register, which reaches `unreachable!()`. */
  function Dispatch(name: string): (h: Option<Handler>)
    ensures h.Some? <==> name in REGISTERED_COMMANDS
  {
    match name
    case "autopause" => Some(AutopauseHandler)
    case "clear" => Some(ClearHandler)
    case "leave" => Some(LeaveHandler)
    case "managesources" => Some(AllowHandler)
    case "np" => Some(NowPlayingHandler)
    case "pause" => Some(PauseHandler)
    case "play" => Some(PlayHandler)
    case "superplay" => Some(PlayHandler)
    case "queue" => Some(QueueHandler)
    case "remove" => Some(RemoveHandler)
    case "repeat" => Some(RepeatHandler)
    case "repeatqueue" => Some(RepeatQueueHandler)
    case "resume" => Some(ResumeHandler)
    case "seek" => Some(SeekHandler)
    case "shuffle" => Some(ShuffleHandler)
    case "skip" => Some(SkipHandler)
    case "stop" => Some(StopHandler)
    case "summon" => Some(SummonHandler)
    case "version" => Some(VersionHandler)
    case "voteskip" => Some(VoteSkipHandler)
    case _ => None
  }

  /** The name that selects a handler (`play` for the handler that
      `superplay` shares). */
  function HandlerName(h: Handler): (name: string)
    ensures Dispatch(name) == Some(h)
  {
    match h
    case AutopauseHandler => "autopause"
    case ClearHandler => "clear"
    case LeaveHandler => "leave"
    case AllowHandler => "managesources"
    case NowPlayingHandler => "np"
    case PauseHandler => "pause"
    case PlayHandler => "play"
    case QueueHandler => "queue"
    case RemoveHandler => "remove"
    case RepeatHandler => "repeat"
    case RepeatQueueHandler => "repeatqueue"
    case ResumeHandler => "resume"
    case SeekHandler => "seek"
    case ShuffleHandler => "shuffle"
    case SkipHandler => "skip"
    case StopHandler => "stop"
    case SummonHandler => "summon"
    case VersionHandler => "version"
    case VoteSkipHandler => "voteskip"
  }

  /** Every handler has exactly one name, except the play handler, which
      `play` and `superplay` share. */
  lemma DispatchNames(name: string, h: Handler)
    requires Dispatch(name) == Some(h)
    ensures name == HandlerName(h) || (h == PlayHandler && name == "superplay")
  {
    match name
    case "autopause" =>
    case "clear" =>
    case "leave" =>
    case "managesources" =>
    case "np" =>
    case "pause" =>
    case "play" =>
    case "superplay" =>
    case "queue" =>
    case "remove" =>
    case "repeat" =>
    case "repeatqueue" =>
    case "resume" =>
    case "seek" =>
    case "shuffle" =>
    case "skip" =>
    case "stop" =>
    case "summon" =>
    case "version" =>
    case "voteskip" =>
    case _ =>
  }

  /** Every command the guard inspects has a handler. */
  lemma GuardedCommandsDispatch(name: string)
    requires name in VOICE_COMMANDS || name in JOIN_COMMANDS || name in LIST_COMMANDS
    ensures Dispatch(name).Some?
  {
  }

  /** What `run_command` does with a command: refuse it with the guard's
      error, run its handler, or reach `unreachable!()`. */
  datatype Outcome = Refused(error: ParrotError) | Runs(handler: Handler) | Unreachable

  function RunCommand(name: string, conn: Connection): (o: Outcome)
    ensures o.Runs? <==> Guard(name, conn).Ok? && Dispatch(name).Some?
    ensures o.Runs? ==> Some(o.handler) == Dispatch(name)
    ensures o.Refused? <==> Guard(name, conn).Err?
    ensures o.Refused? ==> o.error == Guard(name, conn).error
  {
    match Guard(name, conn)
    case Err(e) => Refused(e)
    case Ok(_) =>
      match Dispatch(name)
      case Some(h) => Runs(h)
      case None => Unreachable
  }

  /** A handler never runs for a command the guard refused, and the
      handler that runs is the one its name selects. */
  lemma HandlerOnlyAfterGuard(name: string, conn: Connection, h: Handler)
    requires RunCommand(name, conn) == Runs(h)
    ensures Guard(name, conn).Ok?
    ensures name == HandlerName(h) || (h == PlayHandler && name == "superplay")
  {
    DispatchNames(name, h);
  }

  /** A voice state of the gateway: whose it is, in which guild, and the
      channel it is in now (`None` after leaving). */
  datatype VoiceState = VoiceState(user: UserId, guild: Option<GuildId>, channel: Option<ChannelId>)

  /** `voice_state_update`. Updates of other users are ignored, and so is
      the bot joining a channel (which only deafens it). When the bot has
      left its channel, the call is removed if there is one (a failure is
      ignored; `removalSucceeds` says whether it works) and the guild's
      displays are refreshed against an empty queue (`failed` are the
      displays whose edit fails). */
  method VoiceStateUpdate(bot: Bot, botUser: UserId, state: VoiceState, removalSucceeds: bool, failed: set<MessageId>)
    requires (state.user == botUser && state.channel.None?) ==> state.guild.Some? && bot.DisplaysHaveCursors(state.guild.value)
    modifies bot`calls, bot`engineLog, bot`caches, bot`cursors
    ensures (state.user != botUser || state.channel.Some?) ==>
              && bot.calls == old(bot.calls) && bot.engineLog == old(bot.engineLog)
              && bot.caches == old(bot.caches) && bot.cursors == old(bot.cursors)
    ensures (state.user == botUser && state.channel.None?) ==>
              var guild := state.guild.value;
              && (guild in old(bot.calls) ==>
                    && bot.engineLog == old(bot.engineLog) + [LeaveCall(guild)]
                    && bot.calls == (if removalSucceeds then old(bot.calls) - {guild} else old(bot.calls)))
              && (guild !in old(bot.calls) ==> bot.calls == old(bot.calls) && bot.engineLog == old(bot.engineLog))
              && Refreshed(old(bot.caches), old(bot.cursors), bot.caches, bot.cursors, guild, failed, 0)
  {
    if state.user != botUser {
      return;
    }
    if state.channel.Some? {
      return;
    }
    var guild := state.guild.value;
    if guild in bot.calls {
      var _ := bot.RemoveCall(guild, removalSucceeds);
    }
    var _ := UpdateQueueMessages(bot, guild, [], failed);
  }
}
