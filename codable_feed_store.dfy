/** The durable store as far as it exists: a retrieval that always finds the cache empty. */
module CodableFeedStore {
  import opened Calendar
  import LocalFeedCache

  /**
   * `retrieve(completion:)`: the outcomes its completion receives, in order.
   * It has no fields and no state to change.
   */
  function Retrieve(): (delivered: seq<LocalFeedCache.RetrieveCachedFeedResult>)
    ensures |delivered| == 1 && delivered[0].Empty?
  {
    [LocalFeedCache.Empty]
  }

  /**
   * Retrieving again from inside the first completion delivers empty both times.
   * The model's store has no state at all, so the absence of side effects holds
   * by construction; this only records the outcome the test asserts.
   */
  lemma RetrievingTwiceDeliversEmptyTwice()
    ensures Retrieve() + Retrieve() == [LocalFeedCache.Empty, LocalFeedCache.Empty]
  {
  }

  /** Validating a cache this store holds never evicts it. */
  lemma ValidatingNeverEvicts(now: Date)
    ensures !LocalFeedCache.ShouldEvict(Retrieve()[0], now)
  {
  }
}
