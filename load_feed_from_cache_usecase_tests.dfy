/** The load use case: `load` only retrieves. */
module LoadFeedFromCacheUsecaseTests {
  import opened Calendar
  import opened LocalFeedCache

  /**
   * `load` sends exactly one retrieval; whatever the retrieval then delivers,
   * no deletion and no insertion follows.
   */
  method LoadRequestsCacheRetrieval(now: Date, cache: RetrieveCachedFeedResult)
    returns (afterLoad: seq<ReceivedMessage>, afterCompletion: seq<ReceivedMessage>)
    ensures afterLoad == [Retrieve]
    ensures afterCompletion == [Retrieve]
  {
    var store := new FeedStoreSpy();
    var sut := new LocalFeedLoader(store, () => now);
    sut.Load();
    afterLoad := store.receivedMessages;
    store.FireRetrieval(cache, 0);
    afterCompletion := store.receivedMessages;
  }
}
