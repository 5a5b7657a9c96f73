# EssentialFeed local feed cache, in Dafny

This project models the local feed cache of EssentialFeed, and the gate on
remote responses beside it.

- **Cache policy** (`FeedCachePolicy`). A cache timestamp is fresh while the
  reference date is strictly before the timestamp plus seven calendar days. If
  the day addition yields no date, the cache counts as stale.
- **Cache orchestrator and its store** (`LocalFeedCache`). `LocalFeedLoader`
  is driven against the recording store `FeedStoreSpy`. The spy appends every
  call to `receivedMessages` and queues the call's completion. The test fires
  each completion as an explicit event.
  - `save` asks for a deletion. Only after the deletion succeeds does it ask to
    insert the local copies of the items, stamped with `currentDate()`.
  - `validateCache` retrieves. It asks for a deletion when the retrieval fails
    or finds a stale timestamp.
  - `load` only retrieves.
  - Releasing the loader sets `alive` to false. Every continuation checks that
    flag first and does nothing once it is false. This is Swift's
    `[weak self]` guard.
- **Image mapping** (`FeedImages`). `FeedImage` becomes `LocalFeedImage` by a
  field-by-field copy. The copy has an inverse, and both round trips are the
  identity.
- **Durable store stub** (`CodableFeedStore`). Its `retrieve` always delivers
  `.empty`.
- **Remote gate** (`FeedItemsMapper`, `RemoteFeedLoader`). Any status other
  than 200 is `invalidData`. So is a body that does not decode. A transport
  failure is `connectivity`.
- **Test fixtures and test cases** (`FeedCacheTestHelpers`,
  `LocalFeedLoaderTests`, `ValidateFeedCacheUsecaseTests`,
  `LoadFeedFromCacheUsecaseTests`). Each XCTest case is a method. It wires a
  fresh spy to a fresh loader, plays the same events and returns what the test
  asserts on. Its postcondition is the test's assertion, generalised over the
  inputs.

Completions are data. A `DeletionCompletion`, `InsertionCompletion` or
`RetrievalCompletion` names the loader that issued it and what its closure
captured. Firing one runs the loader's continuation method
(`DeletionCompleted`, `InsertionCompleted` or `RetrievalCompleted`). What a
continuation does is stated once, as a two-state predicate
(`HandledDeletion`, `HandledInsertion`, `HandledRetrieval`). Both the
continuation and the spy's `Complete*` events promise that predicate.
`FeedStoreSpy.Valid()` is the store's invariant. Each kind of message in
`receivedMessages` has as many pending completions as messages. Every
completion belongs to a loader wired to this store.

Time is a whole number of seconds (`Calendar.Date`). A day is 86400 seconds.
`DateByAddingDays` fails when the result is outside the model's calendar
range, which is set at the values of Foundation's distant past and distant
future.

Points where the model has to choose a reading of the code:

- At this revision `load()` takes no completion and the tests check only that
  it retrieves (LoadFeedFromCacheUsecaseTests.swift:19-25). The model's `Load`
  issues the retrieval and ignores its outcome.
- `FeedStoreSpy` at this revision completes retrievals with `Error?`
  (FeedStoreSpy.swift:56-62).
  The validation tests need a found-feed completion
  (ValidateFeedCacheUsecaseTests.swift:46). The model uses the three-case
  `Empty | Found(feed, timestamp) | Failure(error)` outcome, and the spy has a
  `CompleteRetrievalWithFound` event.
- RemoteFeedLoader.swift:34 passes the throwing `[RemoteFeedItem]` result of
  `FeedItemsMapper.map` straight to a completion that takes a `Result`. As
  written it does not type-check, so there is no as-written behaviour to
  model. The model takes the evident intent: a throw becomes
  `failure(invalidData)` and a value becomes `success` of those items, each
  converted to `FeedItem` (`image` becomes `imageURL`).
- Two `FeedItem` declarations conflict. The model uses the one in
  EssentialFeed/FeedFeature/FeedItem.swift (`imageURL: URL`).

## Model

| member | source | states |
|---|---|---|
| `FeedCachePolicy.FailsSafeWhenDayAdditionFails` | EssentialFeed/FeedCache/FeedCachePolicy.swift:18 | when adding the maximum age yields no date, the timestamp is not fresh |
| `FeedCachePolicy.Validate` | EssentialFeed/FeedCache/FeedCachePolicy.swift:13-20 | fresh iff timestamp + 7 days is a representable date and the reference date is strictly before it |
| `FeedCachePolicy.ExpiryInstantIsStale` | EssentialFeed/FeedCache/FeedCachePolicy.swift:19 | at exactly timestamp + 7 days the cache is stale; one second earlier it is fresh |
| `FeedCachePolicy.FreshnessIsMonotone` | EssentialFeed/FeedCache/FeedCachePolicy.swift:19 | fresh at a reference date implies fresh at every earlier one |
| `FeedImages.ToLocal` | EssentialFeedTests/FeedCacheTestHelpers.swift:23 | the local image carries the model's id, description, location and url, and maps back to the model |
| `FeedImages.ToLocals` | EssentialFeedTests/FeedCacheTestHelpers.swift:22-24 | one local image per model |
| `FeedImages.ToLocalsAt` | EssentialFeedTests/FeedCacheTestHelpers.swift:22-24 | the i-th local has the i-th model's id, description, location and url |
| `FeedImages.ToLocalsIsElementwise` | EssentialFeedTests/FeedCacheTestHelpers.swift:22 | the mapping is the element-wise map of the single-image copy, order kept |
| `FeedImages.LocalsRoundTrip` | EssentialFeedTests/FeedCacheTestHelpers.swift:22-24 | mapping models to locals and back gives the models |
| `FeedImages.ModelsRoundTrip` | EssentialFeedTests/FeedCacheTestHelpers.swift:22-24 | mapping locals to models and back gives the locals |
| `LocalFeedCache.ShouldEvict` | EssentialFeedTests/ValidateFeedCacheUsecaseTests.swift:21-73 | a failed retrieval is evicted, an empty cache is not, and a found cache is evicted iff its timestamp + 7 days is unrepresentable or not after now |
| `LocalFeedCache.FeedStoreSpy.constructor` | EssentialFeedTests/FeedStoreSpy.swift:19-23 | a new spy has received no message and holds no pending completion |
| `LocalFeedCache.FeedStoreSpy.DeleteCachedFeed` | EssentialFeedTests/FeedStoreSpy.swift:25-28 | appends one `deleteCachedFeed` message and one pending deletion completion, nothing else |
| `LocalFeedCache.FeedStoreSpy.Insert` | EssentialFeedTests/FeedStoreSpy.swift:30-33 | appends `insert(feed, timestamp)` with exactly the arguments given and one pending insertion completion |
| `LocalFeedCache.FeedStoreSpy.Retrieve` | EssentialFeedTests/FeedStoreSpy.swift:51-54 | appends one `retrieve` message and one pending retrieval completion |
| `LocalFeedCache.FeedStoreSpy.FireDeletion` | EssentialFeedTests/FeedStoreSpy.swift:35-41 | needs an index below the number of pending deletions; runs that completion, whose effect is `HandledDeletion`; the deletion queue is unchanged |
| `LocalFeedCache.FeedStoreSpy.CompleteDeletion` | EssentialFeedTests/FeedStoreSpy.swift:35-37 | fires the indexed deletion completion with the given error |
| `LocalFeedCache.FeedStoreSpy.CompleteDeletionSuccessfully` | EssentialFeedTests/FeedStoreSpy.swift:39-41 | fires the indexed deletion completion with nil |
| `LocalFeedCache.FeedStoreSpy.FireInsertion` | EssentialFeedTests/FeedStoreSpy.swift:43-49 | runs the indexed insertion completion (`HandledInsertion`); the spy's state is unchanged |
| `LocalFeedCache.FeedStoreSpy.CompleteInsertion` | EssentialFeedTests/FeedStoreSpy.swift:43-45 | fires the indexed insertion completion with the given error |
| `LocalFeedCache.FeedStoreSpy.CompleteInsertionSuccessfully` | EssentialFeedTests/FeedStoreSpy.swift:47-49 | fires the indexed insertion completion with nil |
| `LocalFeedCache.FeedStoreSpy.FireRetrieval` | EssentialFeedTests/FeedStoreSpy.swift:56-62 | runs the indexed retrieval completion with the outcome (`HandledRetrieval`); load's completion changes nothing |
| `LocalFeedCache.FeedStoreSpy.CompleteRetrieval` | EssentialFeedTests/FeedStoreSpy.swift:56-58 | fires the indexed retrieval completion with a failure |
| `LocalFeedCache.FeedStoreSpy.CompleteRetrievalWithEmptyCache` | EssentialFeedTests/FeedStoreSpy.swift:60-62 | fires the indexed retrieval completion with an empty cache |
| `LocalFeedCache.FeedStoreSpy.CompleteRetrievalWithFound` | EssentialFeedTests/ValidateFeedCacheUsecaseTests.swift:46 | fires the indexed retrieval completion with a found feed and timestamp |
| `LocalFeedCache.LocalFeedLoader.constructor` | EssentialFeedTests/FeedStore/LocalFeedLoaderTests.swift:13-17 | keeps the store and the clock, is alive, has delivered nothing, and does not touch the store |
| `LocalFeedCache.LocalFeedLoader.Release` | EssentialFeedTests/FeedStore/LocalFeedLoaderTests.swift:83 | the loader is gone; nothing it delivered changes |
| `LocalFeedCache.LocalFeedLoader.Save` | EssentialFeedTests/FeedStore/LocalFeedLoaderTests.swift:19-25 | sends exactly one `deleteCachedFeed` whose completion continues this save; nothing delivered yet |
| `LocalFeedCache.LocalFeedLoader.DeletionCompleted` | EssentialFeedTests/FeedStore/LocalFeedLoaderTests.swift:27-55 | released: nothing; deletion error: that error delivered, no insert; success: `insert(locals of the items, currentDate())` |
| `LocalFeedCache.LocalFeedLoader.InsertionCompleted` | EssentialFeedTests/FeedStore/LocalFeedLoaderTests.swift:57-74 | delivers the insertion's error, or nil, to the save's caller, unless released |
| `LocalFeedCache.LocalFeedLoader.ValidateCache` | EssentialFeedTests/ValidateFeedCacheUsecaseTests.swift:21-28 | sends exactly one `retrieve` whose completion validates |
| `LocalFeedCache.LocalFeedLoader.RetrievalCompleted` | EssentialFeedTests/ValidateFeedCacheUsecaseTests.swift:21-85 | while alive, deletes iff the retrieval failed or found a stale timestamp; never inserts |
| `LocalFeedCache.LocalFeedLoader.Load` | EssentialFeedTests/LoadFeedFromCacheUsecaseTests.swift:19-25 | sends exactly one `retrieve`, whose completion does nothing |
| `LocalFeedLoaderTests.InitDoesNotMessageStore` | EssentialFeedTests/FeedStore/LocalFeedLoaderTests.swift:13-17 | after construction the store has received no message |
| `LocalFeedLoaderTests.SaveRequestsCacheDeletion` | EssentialFeedTests/FeedStore/LocalFeedLoaderTests.swift:19-25 | save alone yields messages `[deleteCachedFeed]` and no result |
| `LocalFeedLoaderTests.SaveAfterDeletionCompletes` | EssentialFeedTests/FeedStore/LocalFeedLoaderTests.swift:27-55 | an insert is requested iff the deletion succeeded, as `insert(locals, now)` after the delete; a deletion error is the save's result |
| `LocalFeedLoaderTests.SaveAfterInsertionCompletes` | EssentialFeedTests/FeedStore/LocalFeedLoaderTests.swift:57-74 | after a successful deletion, save completes exactly once with the insertion's error, or with nil |
| `LocalFeedLoaderTests.DeletionErrorAfterReleaseIsNotDelivered` | EssentialFeedTests/FeedStore/LocalFeedLoaderTests.swift:76-88 | a deletion error arriving after release delivers nothing and requests no insert |
| `LocalFeedLoaderTests.InsertionErrorAfterReleaseIsNotDelivered` | EssentialFeedTests/FeedStore/LocalFeedLoaderTests.swift:90-104 | an insertion error arriving after release delivers nothing |
| `ValidateFeedCacheUsecaseTests.ValidateCacheAfterRetrieval` | EssentialFeedTests/ValidateFeedCacheUsecaseTests.swift:21-73 | messages are `[retrieve]` or `[retrieve, deleteCachedFeed]`; the delete happens iff the retrieval failed or the timestamp is stale; never an insert |
| `ValidateFeedCacheUsecaseTests.DeletesCacheOnRetrievalError` | EssentialFeedTests/ValidateFeedCacheUsecaseTests.swift:21-28 | a retrieval error gives `[retrieve, deleteCachedFeed]` |
| `ValidateFeedCacheUsecaseTests.DoesNotDeleteEmptyCache` | EssentialFeedTests/ValidateFeedCacheUsecaseTests.swift:30-37 | an empty cache gives `[retrieve]` |
| `ValidateFeedCacheUsecaseTests.DoesNotDeleteNonExpiredCache` | EssentialFeedTests/ValidateFeedCacheUsecaseTests.swift:39-49 | a timestamp one day younger than the maximum age gives `[retrieve]` |
| `ValidateFeedCacheUsecaseTests.DeletesCacheOnExpiration` | EssentialFeedTests/ValidateFeedCacheUsecaseTests.swift:51-61 | a timestamp exactly the maximum age old gives `[retrieve, deleteCachedFeed]` |
| `ValidateFeedCacheUsecaseTests.DeletesExpiredCache` | EssentialFeedTests/ValidateFeedCacheUsecaseTests.swift:63-73 | a timestamp older than the maximum age gives `[retrieve, deleteCachedFeed]` |
| `ValidateFeedCacheUsecaseTests.DoesNotDeleteAfterRelease` | EssentialFeedTests/ValidateFeedCacheUsecaseTests.swift:75-85 | a retrieval error arriving after release leaves the messages at `[retrieve]` |
| `LoadFeedFromCacheUsecaseTests.LoadRequestsCacheRetrieval` | EssentialFeedTests/LoadFeedFromCacheUsecaseTests.swift:19-25 | load sends exactly `[retrieve]`, and no delete or insert follows whatever the retrieval delivers |
| `FeedCacheTestHelpers.UniqueImage` | EssentialFeedTests/FeedCacheTestHelpers.swift:15-18 | the image has the given id and non-nil description and location |
| `FeedCacheTestHelpers.UniqueImageFeed` | EssentialFeedTests/FeedCacheTestHelpers.swift:20-26 | two models and two locals; each local carries its model's fields; the locals map back to the models |
| `FeedCacheTestHelpers.AnyNSError` | EssentialFeedTests/FeedCacheTestHelpers.swift:11-13 | the error has domain "An Error " and code 0 |
| `FeedCacheTestHelpers.AddingDays` | EssentialFeedTests/FeedCacheTestHelpers.swift:30-33 | where the calendar yields a date, the result is representable and lies exactly that many days of seconds from the date |
| `FeedCacheTestHelpers.AddingDaysIsAddingSeconds` | EssentialFeedTests/FeedCacheTestHelpers.swift:30-37 | adding days agrees with adding that many days' worth of seconds |
| `FeedCacheTestHelpers.MinusFeedCacheMaxAge` | EssentialFeedTests/ValidateFeedCacheUsecaseTests.swift:54 | the result lies exactly 7 days before the date, and adding the maximum age back gives the date |
| `FeedCacheTestHelpers.NonExpirationTimestampIsFresh` | EssentialFeedTests/ValidateFeedCacheUsecaseTests.swift:42 | now minus the maximum age plus one day is fresh at now |
| `FeedCacheTestHelpers.ExpirationTimestampIsStale` | EssentialFeedTests/ValidateFeedCacheUsecaseTests.swift:54 | now minus the maximum age is stale at now |
| `FeedCacheTestHelpers.ExpiredTimestampIsStale` | EssentialFeedTests/ValidateFeedCacheUsecaseTests.swift:66 | now minus the maximum age minus one day is stale at now |
| `CodableFeedStore.Retrieve` | EssentialFeedTests/FeedStore/CodableFeedStoreTests.swift:12-16 | a retrieve delivers exactly one result, and it is `.empty` |
| `CodableFeedStore.RetrievingTwiceDeliversEmptyTwice` | EssentialFeedTests/FeedStore/CodableFeedStoreTests.swift:36-53 | retrieving twice delivers empty both times: retrieve has no side effect |
| `CodableFeedStore.ValidatingNeverEvicts` | EssentialFeedTests/FeedStore/CodableFeedStoreTests.swift:13-15 | what this store delivers never makes `validateCache` delete |
| `RemoteFeedLoader.ToFeedItems` | EssentialFeed/ApiClient/RemoteFeedLoader.swift:34 | one feed item per decoded item, in order, with the same id, description and location, and `imageURL` taken from `image` |
| `FeedItemsMapper.Map` | EssentialFeed/ApiClient/FeedItemsMapper.swift:15-25 | success iff status is 200 and the body decodes, then exactly the decoded items in order; otherwise `invalidData` and no other error |
| `RemoteFeedLoader.Complete` | EssentialFeed/ApiClient/RemoteFeedLoader.swift:31-38 | `connectivity` iff the transport failed; `invalidData` iff a response came with a non-200 status or an undecodable body; otherwise the decoded items as feed items |
| `RemoteFeedLoader.Load` | EssentialFeed/ApiClient/RemoteFeedLoader.swift:25-38 | the loader's own URL is requested; `connectivity` iff that request failed; success iff it answered 200 with a decodable body |

## Left out

- Network transport (`URLSessionHTTPClient`, `HTTPClient`) and the end-to-end tests: the client is a function from URL to transport result.
- `JSONDecoder`: decoding is an uninterpreted function parameter `Data -> Option<Root>`.
- The durable, encoded `CodableFeedStore`: only the stub retrieve exists at this revision.
- `Calendar` rules: days are a fixed 86400 seconds, dates are whole seconds rather than `Double` intervals, and day addition fails only outside the distant-past..distant-future range. No Gregorian or DST rules are modelled.
- The clock: `currentDate` is a Dafny function, so one loader sees the same date at every call. The tests inject fixed dates.
- Object lifetime: weak references and the leak-tracking helper become the explicit `alive` flag and `Release`.
- Threads and executors: completions fire only as explicit events, in program order.
- `FeedItemsMapper.OK_200` is a mutable `static var`; the model treats it as the constant 200.
- `FeedCachePolicy` has no instance state and its maximum age is the constant 7. Dafny functions and constants are pure and fixed, so no separate statement is made.
- The early stub test files (EssentialFeedTests/LocalFeedLoaderTests.swift, EssentialFeedTests/RemoteFeedLoaderTests.swift), `FeedLoader`/`LoadFeedResult` and the older `FeedItem`: they are superseded by, or duplicate, the modelled types.
- RemoteFeedLoader.Load: does not state that `client.get` is called exactly once, or that `init` issues no request, because the client is a pure function here. The one call at the loader's URL is built into `Load`'s definition.
- LocalFeedCache.FeedStoreSpy.DeleteCachedFeed, LocalFeedCache.FeedStoreSpy.Insert, LocalFeedCache.FeedStoreSpy.Retrieve: require that a completion belongs to a loader wired to this store. The source gets this for free, because a loader only calls its own store.
- LocalFeedCache.LocalFeedLoader.ValidateCache: the deletion it may request carries an empty completion. No test observes that deletion's completion, so the model gives it one that does nothing.
