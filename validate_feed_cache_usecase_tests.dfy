/** The validate-cache use case, each test a method over a fresh spy and loader. */
module ValidateFeedCacheUsecaseTests {
  import opened Calendar
  import opened FeedImages
  import opened LocalFeedCache
  import FeedCachePolicy
  import FeedCacheTestHelpers

  /**
   * `validateCache` followed by the retrieval completing with `cache`: the
   * store is asked to delete iff the retrieval failed or found a stale
   * timestamp; nothing is ever inserted.
   */
  method ValidateCacheAfterRetrieval(now: Date, cache: RetrieveCachedFeedResult)
    returns (messages: seq<ReceivedMessage>)
    ensures messages == [Retrieve] || messages == [Retrieve, DeleteCachedFeed]
    ensures DeleteCachedFeed in messages <==>
      cache.Failure? || (cache.Found? && !FeedCachePolicy.Validate(cache.timestamp, now))
    ensures forall m :: m in messages ==> !m.Insert?
  {
    var store := new FeedStoreSpy();
    var sut := new LocalFeedLoader(store, () => now);
    sut.ValidateCache();
    store.FireRetrieval(cache, 0);
    messages := store.receivedMessages;
  }

  /** A retrieval error leads to a deletion. */
  method DeletesCacheOnRetrievalError(now: Date) returns (messages: seq<ReceivedMessage>)
    ensures messages == [Retrieve, DeleteCachedFeed]
  {
    var store := new FeedStoreSpy();
    var sut := new LocalFeedLoader(store, () => now);
    sut.ValidateCache();
    store.CompleteRetrieval(FeedCacheTestHelpers.AnyNSError());
    messages := store.receivedMessages;
  }

  /** An empty cache is left alone. */
  method DoesNotDeleteEmptyCache(now: Date) returns (messages: seq<ReceivedMessage>)
    ensures messages == [Retrieve]
  {
    var store := new FeedStoreSpy();
    var sut := new LocalFeedLoader(store, () => now);
    sut.ValidateCache();
    store.CompleteRetrievalWithEmptyCache();
    messages := store.receivedMessages;
  }

  /** A cache one day younger than the maximum age is kept. */
  method DoesNotDeleteNonExpiredCache(feed: seq<LocalFeedImage>, now: Date) returns (messages: seq<ReceivedMessage>)
    requires FeedCacheTestHelpers.AwayFromCalendarLimits(now)
    ensures messages == [Retrieve]
  {
    var timestamp := FeedCacheTestHelpers.AddingDays(FeedCacheTestHelpers.MinusFeedCacheMaxAge(now), 1);
    var store := new FeedStoreSpy();
    var sut := new LocalFeedLoader(store, () => now);
    sut.ValidateCache();
    store.CompleteRetrievalWithFound(feed, timestamp);
    FeedCacheTestHelpers.NonExpirationTimestampIsFresh(now);
    messages := store.receivedMessages;
  }

  /** A cache exactly the maximum age old is deleted: the boundary is stale. */
  method DeletesCacheOnExpiration(feed: seq<LocalFeedImage>, now: Date) returns (messages: seq<ReceivedMessage>)
    requires FeedCacheTestHelpers.AwayFromCalendarLimits(now)
    ensures messages == [Retrieve, DeleteCachedFeed]
  {
    var timestamp := FeedCacheTestHelpers.MinusFeedCacheMaxAge(now);
    var store := new FeedStoreSpy();
    var sut := new LocalFeedLoader(store, () => now);
    sut.ValidateCache();
    store.CompleteRetrievalWithFound(feed, timestamp);
    FeedCacheTestHelpers.ExpirationTimestampIsStale(now);
    messages := store.receivedMessages;
  }

  /** A cache older than the maximum age is deleted. */
  method DeletesExpiredCache(feed: seq<LocalFeedImage>, now: Date) returns (messages: seq<ReceivedMessage>)
    requires FeedCacheTestHelpers.AwayFromCalendarLimits(now)
    ensures messages == [Retrieve, DeleteCachedFeed]
  {
    var timestamp := FeedCacheTestHelpers.AddingDays(FeedCacheTestHelpers.MinusFeedCacheMaxAge(now), -1);
    var store := new FeedStoreSpy();
    var sut := new LocalFeedLoader(store, () => now);
    sut.ValidateCache();
    store.CompleteRetrievalWithFound(feed, timestamp);
    FeedCacheTestHelpers.ExpiredTimestampIsStale(now);
    messages := store.receivedMessages;
  }

  /** Released before the retrieval fails: no deletion is requested. */
  method DoesNotDeleteAfterRelease(now: Date, error: Error) returns (messages: seq<ReceivedMessage>)
    ensures messages == [Retrieve]
  {
    var store := new FeedStoreSpy();
    var sut := new LocalFeedLoader(store, () => now);
    sut.ValidateCache();
    sut.Release();
    store.CompleteRetrieval(error);
    messages := store.receivedMessages;
  }
}
