/** Fixtures the cache tests build their inputs from. */
module FeedCacheTestHelpers {
  import opened Wrappers
  import opened Calendar
  import opened FeedImages
  import FeedCachePolicy
  import LocalFeedCache

  /** `anyNSError()`: always the same error, domain "An Error " and code 0. */
  function AnyNSError(): (error: LocalFeedCache.Error)
    ensures error.domain == "An Error " && error.code == 0
  {
    LocalFeedCache.NSError("An Error ", 0)
  }

  /** `uniqueImage()`; the fresh `UUID()` it draws is the parameter `id`. */
  function UniqueImage(id: UUID): (image: FeedImage)
    ensures image.id == id
    ensures image.description.Some? && image.location.Some?
  {
    FeedImage(id, Some("anydesc"), Some("anyloc"), URL("a.url.com"))
  }

  /** Two images as the domain sees them, and the same two as the store keeps them. */
  datatype ImageFeed = ImageFeed(models: seq<FeedImage>, locals: seq<LocalFeedImage>)

  /** `uniqueImageFeed()`: two unique images and their field-by-field local copies. */
  function UniqueImageFeed(first: UUID, second: UUID): (feed: ImageFeed)
    ensures |feed.models| == 2 && |feed.locals| == 2
    ensures feed.models[0].id == first && feed.models[1].id == second
    ensures forall i :: 0 <= i < 2 ==> SameFields(feed.models[i], feed.locals[i])
    ensures ToModels(feed.locals) == feed.models
  {
    var models := [UniqueImage(first), UniqueImage(second)];
    ToLocalsAt(models, 0);
    ToLocalsAt(models, 1);
    LocalsRoundTrip(models);
    ImageFeed(models, ToLocals(models))
  }

  /** `adding(days:)`, which force-unwraps the calendar's answer. */
  function AddingDays(date: Date, days: int): (moved: Date)
    requires DateByAddingDays(days, date).Some?
    ensures Representable(moved)
    ensures moved - date == days * SecondsPerDay
  {
    DateByAddingDays(days, date).value
  }

  /** `adding(seconds:)`: plain addition. */
  function AddingSeconds(date: Date, seconds: int): Date {
    date + seconds
  }

  /** Where the calendar yields a date, adding days is adding that many days of seconds. */
  lemma AddingDaysIsAddingSeconds(date: Date, days: int)
    requires DateByAddingDays(days, date).Some?
    ensures AddingDays(date, days) == AddingSeconds(date, days * SecondsPerDay)
  {
  }

  /** `minusFeedCacheMaxAge()`: the date the maximum cache age before `date`. */
  function MinusFeedCacheMaxAge(date: Date): (expiration: Date)
    requires DateByAddingDays(-FeedCachePolicy.MaxCacheAgeInDays, date).Some?
    ensures date - expiration == FeedCachePolicy.MaxCacheAgeInDays * SecondsPerDay
    ensures Representable(date) ==>
      DateByAddingDays(FeedCachePolicy.MaxCacheAgeInDays, expiration) == Some(date)
  {
    AddingDays(date, -FeedCachePolicy.MaxCacheAgeInDays)
  }

  /** The dates a week and a day either side of `date` are representable. */
  predicate AwayFromCalendarLimits(date: Date) {
    Representable(date - 8 * SecondsPerDay) && Representable(date + 8 * SecondsPerDay)
  }

  /** A timestamp one day younger than the maximum age is fresh. */
  lemma NonExpirationTimestampIsFresh(now: Date)
    requires AwayFromCalendarLimits(now)
    ensures FeedCachePolicy.Validate(AddingDays(MinusFeedCacheMaxAge(now), 1), now)
  {
  }

  /** A timestamp exactly the maximum age old is stale. */
  lemma ExpirationTimestampIsStale(now: Date)
    requires AwayFromCalendarLimits(now)
    ensures !FeedCachePolicy.Validate(MinusFeedCacheMaxAge(now), now)
  {
  }

  /** A timestamp one day older than the maximum age is stale. */
  lemma ExpiredTimestampIsStale(now: Date)
    requires AwayFromCalendarLimits(now)
    ensures !FeedCachePolicy.Validate(AddingDays(MinusFeedCacheMaxAge(now), -1), now)
  {
  }
}
