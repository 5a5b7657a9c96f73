/**
 * The save use case, each test a method that wires a fresh spy to a fresh
 * loader, plays the store's completions and returns what was observed.
 */
module LocalFeedLoaderTests {
  import opened Wrappers
  import opened Calendar
  import opened FeedImages
  import opened LocalFeedCache

  /** A new loader has sent nothing to its store. */
  method InitDoesNotMessageStore(now: Date) returns (messages: seq<ReceivedMessage>)
    ensures messages == []
  {
    var store := new FeedStoreSpy();
    var sut := new LocalFeedLoader(store, () => now);
    messages := store.receivedMessages;
  }

  /** `save` asks for exactly one deletion and nothing else, and completes nothing yet. */
  method SaveRequestsCacheDeletion(feed: seq<FeedImage>, now: Date)
    returns (messages: seq<ReceivedMessage>, delivered: seq<SaveDelivery>)
    ensures messages == [DeleteCachedFeed]
    ensures delivered == []
  {
    var store := new FeedStoreSpy();
    var sut := new LocalFeedLoader(store, () => now);
    var _ := sut.Save(feed);
    messages, delivered := store.receivedMessages, sut.deliveredSaves;
  }

  /**
   * The deletion completes with `deletionError`: an insertion of the locals
   * stamped with the current date is requested iff the deletion succeeded,
   * and a deletion error is handed to the caller unchanged.
   */
  method SaveAfterDeletionCompletes(feed: seq<FeedImage>, now: Date, deletionError: Option<Error>)
    returns (messages: seq<ReceivedMessage>, delivered: seq<SaveDelivery>)
    ensures deletionError.None? ==> messages == [DeleteCachedFeed, Insert(ToLocals(feed), now)]
    ensures deletionError.Some? ==> messages == [DeleteCachedFeed]
    ensures (exists m :: m in messages && m.Insert?) <==> deletionError.None?
    ensures delivered == if deletionError.Some? then [SaveDelivery(0, deletionError)] else []
  {
    var store := new FeedStoreSpy();
    var sut := new LocalFeedLoader(store, () => now);
    var request := sut.Save(feed);
    match deletionError {
      case Some(e) => store.CompleteDeletion(e);
      case None => store.CompleteDeletionSuccessfully();
    }
    messages, delivered := store.receivedMessages, sut.deliveredSaves;
    if deletionError.None? {
      assert messages[1] in messages;
    }
  }

  /**
   * The deletion succeeds and the insertion completes with `insertionError`:
   * the caller receives exactly that, once (nil when the insertion succeeded).
   */
  method SaveAfterInsertionCompletes(feed: seq<FeedImage>, now: Date, insertionError: Option<Error>)
    returns (messages: seq<ReceivedMessage>, delivered: seq<SaveDelivery>)
    ensures messages == [DeleteCachedFeed, Insert(ToLocals(feed), now)]
    ensures delivered == [SaveDelivery(0, insertionError)]
  {
    var store := new FeedStoreSpy();
    var sut := new LocalFeedLoader(store, () => now);
    var request := sut.Save(feed);
    store.CompleteDeletionSuccessfully();
    match insertionError {
      case Some(e) => store.CompleteInsertion(e);
      case None => store.CompleteInsertionSuccessfully();
    }
    messages, delivered := store.receivedMessages, sut.deliveredSaves;
  }

  /** Released before the deletion completes: the deletion error reaches no one and nothing is inserted. */
  method DeletionErrorAfterReleaseIsNotDelivered(feed: seq<FeedImage>, now: Date, error: Error)
    returns (messages: seq<ReceivedMessage>, delivered: seq<SaveDelivery>)
    ensures messages == [DeleteCachedFeed]
    ensures delivered == []
  {
    var store := new FeedStoreSpy();
    var sut := new LocalFeedLoader(store, () => now);
    var request := sut.Save(feed);
    sut.Release();
    store.CompleteDeletion(error);
    messages, delivered := store.receivedMessages, sut.deliveredSaves;
  }

  /** Released after the deletion succeeded but before the insertion completes: nothing is delivered. */
  method InsertionErrorAfterReleaseIsNotDelivered(feed: seq<FeedImage>, now: Date, error: Error)
    returns (messages: seq<ReceivedMessage>, delivered: seq<SaveDelivery>)
    ensures messages == [DeleteCachedFeed, Insert(ToLocals(feed), now)]
    ensures delivered == []
  {
    var store := new FeedStoreSpy();
    var sut := new LocalFeedLoader(store, () => now);
    var request := sut.Save(feed);
    store.CompleteDeletionSuccessfully();
    sut.Release();
    store.CompleteInsertion(error);
    messages, delivered := store.receivedMessages, sut.deliveredSaves;
  }
}
