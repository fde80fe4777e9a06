/** Identifiers, values and errors shared by the whole model of the bot's
    per-guild playback bookkeeping. */
module Types {

  /** Snowflake identifiers of the chat platform. */
  type GuildId = nat
  type UserId = nat
  type ChannelId = nat
  type MessageId = nat

  datatype Option<+T> = None | Some(value: T)

  datatype Result<+T, +E> = Ok(value: T) | Err(error: E)

  /** A length of time: whole seconds plus nanoseconds, like `std::time::Duration`. */
  datatype Duration = Duration(secs: nat, nanos: nat)

  const U64_MAX: nat := 0xFFFF_FFFF_FFFF_FFFF

  /** `Duration::MAX`: the largest `u64` number of seconds and 999 999 999 nanoseconds. */
  const DURATION_MAX: Duration := Duration(U64_MAX, 999_999_999)

  /** A track handle of the playback engine, reduced to the metadata the
      queue displays read from it. */
  datatype Track = Track(title: string, url: string, duration: Option<Duration>)

  /** A stored query descriptor (the bot's `QueryType`): how to resolve a track
      again, not a playable handle. */
  datatype Query = Query(text: string)

  /** The command-path errors (`ParrotError`) that the modelled code raises. */
  datatype ParrotError =
    | QueueEmpty
    | NothingPlaying
    | NotInRange(param: string, value: int, lower: int, upper: int)
    | NotConnected
    | AuthorDisconnected(botChannel: ChannelId)
    | WrongVoiceChannel
    | AlreadyConnected(botChannel: ChannelId)
    | AuthorNotFound

  /** The user-visible replies (`ParrotMessage` and the removed-track embed). */
  datatype Reply =
    | Skip
    | SkipAll
    | SkipTo(title: string, url: string)
    | VoteSkip(mention: UserId, missing: nat)
    | Stop
    | Leaving
    | RemoveMultiple
    | RemovedTrack(track: Track)

  lemma ConcatAssoc<T>(x: seq<T>, y: seq<T>, z: seq<T>)
    ensures x + y + z == x + (y + z)
  {
  }
}
