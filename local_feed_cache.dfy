/**
 * The local feed cache: the orchestrator `LocalFeedLoader` and the recording
 * store `FeedStoreSpy` it is driven against.
 *
 * Completions are data. A completion the loader hands to the store names the
 * loader that issued it (the closure's weakly captured `self`) and what the
 * closure captured besides. The store keeps them in per-kind queues; firing
 * one runs the loader's continuation, which does nothing once the loader has
 * been released. Nothing runs concurrently: every completion is an explicit
 * event, in program order.
 */
module LocalFeedCache {
  import opened Wrappers
  import opened Calendar
  import opened FeedImages
  import FeedCachePolicy

  /** An error a store reports. */
  datatype Error = NSError(domain: string, code: int)

  /** The outcome of one retrieval: no record, the record, or a failure. */
  datatype RetrieveCachedFeedResult =
    | Empty
    | Found(feed: seq<LocalFeedImage>, timestamp: Date)
    | Failure(error: Error)

  /** The calls the spy records, in call order. */
  datatype ReceivedMessage =
    | DeleteCachedFeed
    | Insert(feed: seq<LocalFeedImage>, timestamp: Date)
    | Retrieve

  /** `save`'s deletion continuation, or the empty closure `validateCache` passes. */
  datatype DeletionCompletion =
    | CacheAfterDeletion(owner: LocalFeedLoader, feed: seq<FeedImage>, request: nat)
    | IgnoreDeletion

  /** `save`'s insertion continuation: hand the insertion error to the caller. */
  datatype InsertionCompletion = DeliverInsertion(owner: LocalFeedLoader, request: nat)

  /** `validateCache`'s retrieval continuation, or the closure `load` passes, which ignores the outcome. */
  datatype RetrievalCompletion =
    | ValidateRetrieved(owner: LocalFeedLoader)
    | IgnoreRetrieval

  /** The result the caller of save number `request` received: `None` for success. */
  datatype SaveDelivery = SaveDelivery(request: nat, result: Option<Error>)

  datatype MessageKind = DeletionKind | InsertionKind | RetrievalKind

  function KindOf(m: ReceivedMessage): MessageKind {
    match m
    case DeleteCachedFeed => DeletionKind
    case Insert(_, _) => InsertionKind
    case Retrieve => RetrievalKind
  }

  /** The kind of each message, in order. */
  function Kinds(messages: seq<ReceivedMessage>): (kinds: seq<MessageKind>)
    ensures |kinds| == |messages|
  {
    seq(|messages|, i requires 0 <= i < |messages| => KindOf(messages[i]))
  }

  /** Number of messages of the given kind. */
  function Count(messages: seq<ReceivedMessage>, kind: MessageKind): nat {
    multiset(Kinds(messages))[kind]
  }

  lemma CountAppend(messages: seq<ReceivedMessage>, m: ReceivedMessage, kind: MessageKind)
    ensures Count(messages + [m], kind) == Count(messages, kind) + (if KindOf(m) == kind then 1 else 0)
  {
    assert Kinds(messages + [m]) == Kinds(messages) + [KindOf(m)];
  }

  /**
   * The decision `validateCache` takes on a retrieval outcome: evict an
   * unreadable cache and a stale one, keep an empty or fresh one.
   */
  function ShouldEvict(cache: RetrieveCachedFeedResult, now: Date): (evict: bool)
    ensures cache.Failure? ==> evict
    ensures cache.Empty? ==> !evict
    ensures cache.Found? ==> (evict <==>
      !Representable(cache.timestamp + 604800) || cache.timestamp + 604800 <= now)
  {
    match cache
    case Failure(_) => true
    case Empty => false
    case Found(_, timestamp) => !FeedCachePolicy.Validate(timestamp, now)
  }

  /** The loaders whose state firing a deletion completion may change. */
  function DeletionOwner(k: DeletionCompletion): set<object> {
    if k.CacheAfterDeletion? then {k.owner} else {}
  }

  /** What `save`'s deletion continuation does when the deletion completes with `error`. */
  twostate predicate HandledDeletion(loader: LocalFeedLoader, feed: seq<FeedImage>, request: nat, error: Option<Error>)
    reads loader, loader.store
  {
    var store := loader.store;
    && loader.alive == old(loader.alive)
    && loader.saveCount == old(loader.saveCount)
    && store.deletionCompletions == old(store.deletionCompletions)
    && store.retrievalCompletions == old(store.retrievalCompletions)
    && if !old(loader.alive) then
         // released: the continuation returns at once
         && loader.deliveredSaves == old(loader.deliveredSaves)
         && store.receivedMessages == old(store.receivedMessages)
         && store.insertionCompletions == old(store.insertionCompletions)
       else if error.Some? then
         // the deletion error ends the save; no insert is requested
         && loader.deliveredSaves == old(loader.deliveredSaves) + [SaveDelivery(request, error)]
         && store.receivedMessages == old(store.receivedMessages)
         && store.insertionCompletions == old(store.insertionCompletions)
       else
         // the deletion succeeded: insert the locals, stamped with the current date
         && loader.deliveredSaves == old(loader.deliveredSaves)
         && store.receivedMessages == old(store.receivedMessages) + [Insert(ToLocals(feed), loader.currentDate())]
         && store.insertionCompletions == old(store.insertionCompletions) + [DeliverInsertion(loader, request)]
  }

  /** What `save`'s insertion continuation does when the insertion completes with `error`. */
  twostate predicate HandledInsertion(loader: LocalFeedLoader, request: nat, error: Option<Error>)
    reads loader
  {
    && loader.alive == old(loader.alive)
    && loader.saveCount == old(loader.saveCount)
    && loader.deliveredSaves ==
         if old(loader.alive) then old(loader.deliveredSaves) + [SaveDelivery(request, error)]
         else old(loader.deliveredSaves)
  }

  /** What `validateCache`'s retrieval continuation does with the outcome `cache`. */
  twostate predicate HandledRetrieval(loader: LocalFeedLoader, cache: RetrieveCachedFeedResult)
    reads loader, loader.store
  {
    var store := loader.store;
    && store.insertionCompletions == old(store.insertionCompletions)
    && store.retrievalCompletions == old(store.retrievalCompletions)
    && if old(loader.alive) && ShouldEvict(cache, loader.currentDate()) then
         && store.receivedMessages == old(store.receivedMessages) + [DeleteCachedFeed]
         && store.deletionCompletions == old(store.deletionCompletions) + [IgnoreDeletion]
       else
         && store.receivedMessages == old(store.receivedMessages)
         && store.deletionCompletions == old(store.deletionCompletions)
  }

  /**
   * The store double: it records every call in `receivedMessages` and keeps
   * each call's completion until the test fires it.
   */
  class FeedStoreSpy {
    var receivedMessages: seq<ReceivedMessage>
    var deletionCompletions: seq<DeletionCompletion>
    var insertionCompletions: seq<InsertionCompletion>
    var retrievalCompletions: seq<RetrievalCompletion>

    /**
     * Every recorded call has its completion pending in the queue of its kind,
     * and every completion belongs to a loader that uses this store.
     */
    ghost predicate Valid()
      reads this
    {
      && Count(receivedMessages, DeletionKind) == |deletionCompletions|
      && Count(receivedMessages, InsertionKind) == |insertionCompletions|
      && Count(receivedMessages, RetrievalKind) == |retrievalCompletions|
      && (forall i :: 0 <= i < |deletionCompletions| ==> DeletionOwnedBy(deletionCompletions[i]))
      && (forall i :: 0 <= i < |insertionCompletions| ==> insertionCompletions[i].owner.store == this)
      && (forall i :: 0 <= i < |retrievalCompletions| ==> RetrievalOwnedBy(retrievalCompletions[i]))
    }

    predicate DeletionOwnedBy(k: DeletionCompletion) {
      k.CacheAfterDeletion? ==> k.owner.store == this
    }

    predicate RetrievalOwnedBy(k: RetrievalCompletion) {
      k.ValidateRetrieved? ==> k.owner.store == this
    }

    constructor ()
      ensures Valid()
      ensures receivedMessages == []
      ensures deletionCompletions == [] && insertionCompletions == [] && retrievalCompletions == []
    {
      receivedMessages := [];
      deletionCompletions := [];
      insertionCompletions := [];
      retrievalCompletions := [];
    }

    method DeleteCachedFeed(completion: DeletionCompletion)
      requires Valid() && DeletionOwnedBy(completion)
      modifies this
      ensures Valid()
      ensures receivedMessages == old(receivedMessages) + [ReceivedMessage.DeleteCachedFeed]
      ensures deletionCompletions == old(deletionCompletions) + [completion]
      ensures insertionCompletions == old(insertionCompletions)
      ensures retrievalCompletions == old(retrievalCompletions)
    {
      CountAppend(receivedMessages, ReceivedMessage.DeleteCachedFeed, DeletionKind);
      CountAppend(receivedMessages, ReceivedMessage.DeleteCachedFeed, InsertionKind);
      CountAppend(receivedMessages, ReceivedMessage.DeleteCachedFeed, RetrievalKind);
      deletionCompletions := deletionCompletions + [completion];
      receivedMessages := receivedMessages + [ReceivedMessage.DeleteCachedFeed];
    }

    method Insert(feed: seq<LocalFeedImage>, timestamp: Date, completion: InsertionCompletion)
      requires Valid() && completion.owner.store == this
      modifies this
      ensures Valid()
      ensures receivedMessages == old(receivedMessages) + [ReceivedMessage.Insert(feed, timestamp)]
      ensures insertionCompletions == old(insertionCompletions) + [completion]
      ensures deletionCompletions == old(deletionCompletions)
      ensures retrievalCompletions == old(retrievalCompletions)
    {
      var m := ReceivedMessage.Insert(feed, timestamp);
      CountAppend(receivedMessages, m, DeletionKind);
      CountAppend(receivedMessages, m, InsertionKind);
      CountAppend(receivedMessages, m, RetrievalKind);
      insertionCompletions := insertionCompletions + [completion];
      receivedMessages := receivedMessages + [m];
    }

    method Retrieve(completion: RetrievalCompletion)
      requires Valid() && RetrievalOwnedBy(completion)
      modifies this
      ensures Valid()
      ensures receivedMessages == old(receivedMessages) + [ReceivedMessage.Retrieve]
      ensures retrievalCompletions == old(retrievalCompletions) + [completion]
      ensures deletionCompletions == old(deletionCompletions)
      ensures insertionCompletions == old(insertionCompletions)
    {
      CountAppend(receivedMessages, ReceivedMessage.Retrieve, DeletionKind);
      CountAppend(receivedMessages, ReceivedMessage.Retrieve, InsertionKind);
      CountAppend(receivedMessages, ReceivedMessage.Retrieve, RetrievalKind);
      retrievalCompletions := retrievalCompletions + [completion];
      receivedMessages := receivedMessages + [ReceivedMessage.Retrieve];
    }

    /** Fires the `at`-th deletion completion with `error`; the queue itself is left as it is. */
    method FireDeletion(error: Option<Error>, at: nat)
      requires Valid() && at < |deletionCompletions|
      modifies this, DeletionOwner(deletionCompletions[at])
      ensures Valid()
      ensures old(deletionCompletions[at]).IgnoreDeletion? ==> unchanged(this)
      ensures old(deletionCompletions[at]).CacheAfterDeletion? ==>
        var k := old(deletionCompletions[at]);
        HandledDeletion(k.owner, k.feed, k.request, error)
    {
      var k := deletionCompletions[at];
      match k
      case IgnoreDeletion =>
      case CacheAfterDeletion(owner, feed, request) =>
        owner.DeletionCompleted(feed, request, error);
    }

    method CompleteDeletion(error: Error, at: nat := 0)
      requires Valid() && at < |deletionCompletions|
      modifies this, DeletionOwner(deletionCompletions[at])
      ensures Valid()
      ensures old(deletionCompletions[at]).IgnoreDeletion? ==> unchanged(this)
      ensures old(deletionCompletions[at]).CacheAfterDeletion? ==>
        var k := old(deletionCompletions[at]);
        HandledDeletion(k.owner, k.feed, k.request, Some(error))
    {
      FireDeletion(Some(error), at);
    }

    method CompleteDeletionSuccessfully(at: nat := 0)
      requires Valid() && at < |deletionCompletions|
      modifies this, DeletionOwner(deletionCompletions[at])
      ensures Valid()
      ensures old(deletionCompletions[at]).IgnoreDeletion? ==> unchanged(this)
      ensures old(deletionCompletions[at]).CacheAfterDeletion? ==>
        var k := old(deletionCompletions[at]);
        HandledDeletion(k.owner, k.feed, k.request, None)
    {
      FireDeletion(None, at);
    }

    /** Fires the `at`-th insertion completion with `error`; the store is left as it is. */
    method FireInsertion(error: Option<Error>, at: nat)
      requires Valid() && at < |insertionCompletions|
      modifies insertionCompletions[at].owner
      ensures var k := old(insertionCompletions[at]); HandledInsertion(k.owner, k.request, error)
    {
      var k := insertionCompletions[at];
      k.owner.InsertionCompleted(k.request, error);
    }

    method CompleteInsertion(error: Error, at: nat := 0)
      requires Valid() && at < |insertionCompletions|
      modifies insertionCompletions[at].owner
      ensures var k := old(insertionCompletions[at]); HandledInsertion(k.owner, k.request, Some(error))
    {
      FireInsertion(Some(error), at);
    }

    method CompleteInsertionSuccessfully(at: nat := 0)
      requires Valid() && at < |insertionCompletions|
      modifies insertionCompletions[at].owner
      ensures var k := old(insertionCompletions[at]); HandledInsertion(k.owner, k.request, None)
    {
      FireInsertion(None, at);
    }

    /** Fires the `at`-th retrieval completion with `cache`; the queue itself is left as it is. */
    method FireRetrieval(cache: RetrieveCachedFeedResult, at: nat)
      requires Valid() && at < |retrievalCompletions|
      modifies this
      ensures Valid()
      ensures old(retrievalCompletions[at]).IgnoreRetrieval? ==> unchanged(this)
      ensures old(retrievalCompletions[at]).ValidateRetrieved? ==>
        HandledRetrieval(old(retrievalCompletions[at]).owner, cache)
    {
      var k := retrievalCompletions[at];
      match k
      case IgnoreRetrieval =>
      case ValidateRetrieved(owner) =>
        owner.RetrievalCompleted(cache);
    }

    method CompleteRetrieval(error: Error, at: nat := 0)
      requires Valid() && at < |retrievalCompletions|
      modifies this
      ensures Valid()
      ensures old(retrievalCompletions[at]).IgnoreRetrieval? ==> unchanged(this)
      ensures old(retrievalCompletions[at]).ValidateRetrieved? ==>
        HandledRetrieval(old(retrievalCompletions[at]).owner, RetrieveCachedFeedResult.Failure(error))
    {
      FireRetrieval(RetrieveCachedFeedResult.Failure(error), at);
    }

    method CompleteRetrievalWithEmptyCache(at: nat := 0)
      requires Valid() && at < |retrievalCompletions|
      modifies this
      ensures Valid()
      ensures old(retrievalCompletions[at]).IgnoreRetrieval? ==> unchanged(this)
      ensures old(retrievalCompletions[at]).ValidateRetrieved? ==>
        HandledRetrieval(old(retrievalCompletions[at]).owner, Empty)
    {
      FireRetrieval(Empty, at);
    }

    method CompleteRetrievalWithFound(feed: seq<LocalFeedImage>, timestamp: Date, at: nat := 0)
      requires Valid() && at < |retrievalCompletions|
      modifies this
      ensures Valid()
      ensures old(retrievalCompletions[at]).IgnoreRetrieval? ==> unchanged(this)
      ensures old(retrievalCompletions[at]).ValidateRetrieved? ==>
        HandledRetrieval(old(retrievalCompletions[at]).owner, Found(feed, timestamp))
    {
      FireRetrieval(Found(feed, timestamp), at);
    }
  }

  /**
   * The cache orchestrator. `alive` is false once the caller has released it;
   * `deliveredSaves` is what the callers' save completions have received.
   */
  class LocalFeedLoader {
    const store: FeedStoreSpy
    const currentDate: () -> Date
    var alive: bool
    var saveCount: nat
    var deliveredSaves: seq<SaveDelivery>

    /** Creating a loader sends nothing to the store (the store is not in any frame here). */
    constructor (store: FeedStoreSpy, currentDate: () -> Date)
      ensures this.store == store && this.currentDate == currentDate
      ensures alive && saveCount == 0 && deliveredSaves == []
    {
      this.store := store;
      this.currentDate := currentDate;
      alive := true;
      saveCount := 0;
      deliveredSaves := [];
    }

    /** The caller lets go of the loader; pending continuations will find it gone. */
    method Release()
      modifies this
      ensures !alive
      ensures saveCount == old(saveCount) && deliveredSaves == old(deliveredSaves)
    {
      alive := false;
    }

    /** `save(feed, completion)`: first ask the store to delete the cached feed. */
    method Save(feed: seq<FeedImage>) returns (request: nat)
      requires alive && store.Valid()
      modifies this, store
      ensures store.Valid()
      ensures alive && request == old(saveCount) && saveCount == old(saveCount) + 1
      ensures deliveredSaves == old(deliveredSaves)
      ensures store.receivedMessages == old(store.receivedMessages) + [DeleteCachedFeed]
      ensures store.deletionCompletions == old(store.deletionCompletions) + [CacheAfterDeletion(this, feed, request)]
      ensures store.insertionCompletions == old(store.insertionCompletions)
      ensures store.retrievalCompletions == old(store.retrievalCompletions)
    {
      request := saveCount;
      saveCount := saveCount + 1;
      store.DeleteCachedFeed(CacheAfterDeletion(this, feed, request));
    }

    /** `validateCache()`: ask the store for the cached feed. */
    method ValidateCache()
      requires alive && store.Valid()
      modifies store
      ensures store.Valid()
      ensures store.receivedMessages == old(store.receivedMessages) + [Retrieve]
      ensures store.retrievalCompletions == old(store.retrievalCompletions) + [ValidateRetrieved(this)]
      ensures store.deletionCompletions == old(store.deletionCompletions)
      ensures store.insertionCompletions == old(store.insertionCompletions)
    {
      store.Retrieve(ValidateRetrieved(this));
    }

    /** `load()`: ask the store for the cached feed, and nothing else. */
    method Load()
      requires alive && store.Valid()
      modifies store
      ensures store.Valid()
      ensures store.receivedMessages == old(store.receivedMessages) + [Retrieve]
      ensures store.retrievalCompletions == old(store.retrievalCompletions) + [IgnoreRetrieval]
      ensures store.deletionCompletions == old(store.deletionCompletions)
      ensures store.insertionCompletions == old(store.insertionCompletions)
    {
      store.Retrieve(IgnoreRetrieval);
    }

    /** Body of the continuation `save` hands to `deleteCachedFeed`. */
    method DeletionCompleted(feed: seq<FeedImage>, request: nat, error: Option<Error>)
      requires store.Valid()
      modifies this, store
      ensures store.Valid()
      ensures HandledDeletion(this, feed, request, error)
    {
      if !alive {
        return;
      }
      if error.Some? {
        deliveredSaves := deliveredSaves + [SaveDelivery(request, error)];
      } else {
        store.Insert(ToLocals(feed), currentDate(), DeliverInsertion(this, request));
      }
    }

    /** Body of the continuation `save` hands to `insert`. */
    method InsertionCompleted(request: nat, error: Option<Error>)
      modifies this
      ensures HandledInsertion(this, request, error)
    {
      if alive {
        deliveredSaves := deliveredSaves + [SaveDelivery(request, error)];
      }
    }

    /** Body of the continuation `validateCache` hands to `retrieve`. */
    method RetrievalCompleted(cache: RetrieveCachedFeedResult)
      requires store.Valid()
      modifies store
      ensures store.Valid()
      ensures HandledRetrieval(this, cache)
    {
      if alive && ShouldEvict(cache, currentDate()) {
        store.DeleteCachedFeed(IgnoreDeletion);
      }
    }
  }
}
