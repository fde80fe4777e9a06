/** The per-guild replay buffer of `src/guild/stored_queue.rs`. */
module StoredQueue {
  import opened Types

  /** `GuildStoredQueue`: whether loop continuation may fire, and the query
      descriptors to resolve again when the live queue has run dry. */
  datatype GuildStoredQueue = GuildStoredQueue(continuePlay: bool, queue: seq<Query>)

  /** `GuildStoredQueue::new`: an empty buffer that allows loop continuation. */
  function NewStoredQueue(): (q: GuildStoredQueue)
    ensures q.queue == [] && q.continuePlay
  {
    GuildStoredQueue(true, [])
  }
}
