/**
 * The field extractor `getURLsWithRetry`: read the site and stage URL fields
 * up to `maxRetries` times, forcing lazily rendered content to load between
 * attempts, and stop at the first attempt that finds either URL.
 */
module Extractor {
  import opened Wrappers
  import opened JsText

  /** What one attempt reads from the two URL fields (`extractURL` for each); null when a field or its link is missing. */
  datatype RawURLPair = RawURLPair(site: Option<string>, stage: Option<string>)

  /** `customerSiteURL || customerStageURL`, as a truth value. */
  predicate Found(p: RawURLPair)
  {
    Truthy(p.site) || Truthy(p.stage)
  }

  /** The default attempt budget of `getURLsWithRetry()`. */
  const DefaultRetries := 3

  /**
   * The outcome the loop promises, given the page's reading at each attempt
   * (`observe(k)` is what attempt `k`, counted from 1, reads): the pair of the
   * first successful attempt, or two nulls when none of the `maxRetries`
   * attempts succeeds; and the number of lazy-load passes run before that.
   */
  ghost predicate RetryOutcome(observe: nat -> RawURLPair, maxRetries: int, urls: RawURLPair, lazyLoads: nat)
  {
    if Found(urls) then
      && lazyLoads + 1 <= maxRetries
      && urls == observe(lazyLoads + 1)
      && (forall k :: 1 <= k <= lazyLoads ==> !Found(observe(k)))
    else
      && urls == RawURLPair(None, None)
      && (forall k :: 1 <= k <= maxRetries ==> !Found(observe(k)))
      && lazyLoads == (if maxRetries > 0 then maxRetries - 1 else 0)
  }

  /** `getURLsWithRetry(maxRetries)`: `lazyLoads` counts the `forceLoadLazyContent` passes. */
  method GetURLsWithRetry(observe: nat -> RawURLPair, maxRetries: int) returns (urls: RawURLPair, lazyLoads: nat)
    ensures RetryOutcome(observe, maxRetries, urls, lazyLoads)
    ensures lazyLoads < maxRetries || lazyLoads == 0
  {
    lazyLoads := 0;
    var attempt := 1;
    while attempt <= maxRetries
      invariant 1 <= attempt
      invariant maxRetries >= 1 ==> attempt <= maxRetries + 1
      invariant maxRetries < 1 ==> attempt == 1
      invariant lazyLoads == (if attempt <= maxRetries || attempt == 1 then attempt - 1 else attempt - 2)
      invariant forall k :: 1 <= k < attempt ==> !Found(observe(k))
    {
      var reading := observe(attempt);
      if Found(reading) {
        return reading, lazyLoads;
      }
      if attempt < maxRetries {
        lazyLoads := lazyLoads + 1;
      }
      attempt := attempt + 1;
    }
    urls := RawURLPair(None, None);
  }

  /** The outcome is a complete statement: it fixes both the pair and the number of lazy-load passes. */
  lemma RetryOutcomeUnique(observe: nat -> RawURLPair, maxRetries: int, u1: RawURLPair, l1: nat, u2: RawURLPair, l2: nat)
    requires RetryOutcome(observe, maxRetries, u1, l1)
    requires RetryOutcome(observe, maxRetries, u2, l2)
    ensures u1 == u2 && l1 == l2
  {
  }

  /** A page whose fields render on the second of three attempts: that reading is returned after one lazy-load pass. */
  lemma FoundOnSecondAttempt(observe: nat -> RawURLPair, urls: RawURLPair, lazyLoads: nat)
    requires !Found(observe(1)) && Found(observe(2))
    requires RetryOutcome(observe, DefaultRetries, urls, lazyLoads)
    ensures urls == observe(2) && lazyLoads == 1
  {
  }
}
