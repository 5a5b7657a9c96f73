/** The rule deciding whether a cached feed is still fresh. */
module FeedCachePolicy {
  import opened Wrappers
  import opened Calendar

  /** The cache is valid for this many calendar days after its timestamp. */
  const MaxCacheAgeInDays: int := 7

  /**
   * `validate(_:against:)`: fresh iff `date` is strictly before `timestamp`
   * plus the maximum age. Stated as seconds: the expiry instant is the
   * timestamp plus seven days of seconds, it must be representable, and the
   * reference date must lie strictly before it.
   */
  function Validate(timestamp: Date, date: Date): (isFresh: bool)
    ensures isFresh <==> Representable(timestamp + 604800) && date < timestamp + 604800
  {
    match DateByAddingDays(MaxCacheAgeInDays, timestamp)
    case None => false
    case Some(maxAge) => date < maxAge
  }

  /** Day addition that yields no date counts as stale. */
  lemma FailsSafeWhenDayAdditionFails(timestamp: Date, date: Date)
    requires DateByAddingDays(MaxCacheAgeInDays, timestamp).None?
    ensures !Validate(timestamp, date)
  {
  }

  /** The boundary: at exactly seven days the cache is stale, one second earlier it is fresh. */
  lemma ExpiryInstantIsStale(timestamp: Date)
    requires DateByAddingDays(MaxCacheAgeInDays, timestamp).Some?
    ensures !Validate(timestamp, timestamp + MaxCacheAgeInDays * SecondsPerDay)
    ensures Validate(timestamp, timestamp + MaxCacheAgeInDays * SecondsPerDay - 1)
  {
  }

  /** A timestamp fresh at some reference date is fresh at every earlier one. */
  lemma FreshnessIsMonotone(timestamp: Date, earlier: Date, later: Date)
    requires earlier <= later
    requires Validate(timestamp, later)
    ensures Validate(timestamp, earlier)
  {
  }
}
