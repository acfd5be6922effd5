/**
 * The tier classifier `parseURLs`: the site URL and the stage URL of an
 * issue are sorted into test, staging and production slots by substring
 * tests, in a fixed order of precedence.
 */
module Tiers {
  import opened Wrappers
  import opened JsText

  /** The result of `parseURLs`: one optional URL per deployment tier. */
  datatype TierAssignment = TierAssignment(testURL: Option<string>, stagingURL: Option<string>, prodURL: Option<string>)

  /** `u && (u.includes('-test') || u.includes('-dev'))`, as a truth value. */
  predicate IsTestLike(u: Option<string>)
  {
    Truthy(u) && (Includes(u.value, "-test") || Includes(u.value, "-dev"))
  }

  /** `u && u.includes('-staging')`, as a truth value. */
  predicate IsStagingLike(u: Option<string>)
  {
    Truthy(u) && Includes(u.value, "-staging")
  }

  /** `parseURLs(customerSiteURL, customerStageURL)`. */
  function ParseURLs(site: Option<string>, stage: Option<string>): (r: TierAssignment)
    // Every filled slot holds one of the two inputs.
    ensures r.testURL == None || r.testURL == site || r.testURL == stage
    ensures r.stagingURL == None || r.stagingURL == site || r.stagingURL == stage
    ensures r.prodURL == None || r.prodURL == site || r.prodURL == stage
    // A slot only ever holds a URL of its own tier; the test markers win over the staging marker.
    ensures r.testURL != None ==> IsTestLike(r.testURL)
    ensures r.stagingURL != None ==> IsStagingLike(r.stagingURL) && !IsTestLike(r.stagingURL)
    ensures Truthy(r.prodURL) ==> !IsTestLike(r.prodURL) && !IsStagingLike(r.prodURL)
    // A test-like site URL is the test URL and leaves no staging URL, even when it is also staging-like.
    ensures IsTestLike(site) ==> r.testURL == site && r.stagingURL == None
    // A staging-like site URL is the staging URL; a test-like stage URL is then dropped.
    ensures !IsTestLike(site) && IsStagingLike(site) ==> r.stagingURL == site && r.testURL == None
    // Otherwise the site URL, even null or empty, is the production URL, and the stage URL never is.
    ensures !IsTestLike(site) && !IsStagingLike(site) ==> r.prodURL == site
    // Next to a test- or staging-like site URL the stage URL can only be the production URL.
    ensures IsTestLike(site) || IsStagingLike(site) ==>
      r.prodURL == (if Truthy(stage) && !IsTestLike(stage) && !IsStagingLike(stage) then stage else None)
  {
    var isSiteURLTest := IsTestLike(site);
    var isSiteURLStaging := IsStagingLike(site);
    var isStageURLTest := IsTestLike(stage);
    var isStageURLStaging := IsStagingLike(stage);
    if isSiteURLTest then
      TierAssignment(site, None, if Truthy(stage) && !isStageURLTest && !isStageURLStaging then stage else None)
    else if isSiteURLStaging then
      TierAssignment(None, site, if Truthy(stage) && !isStageURLTest && !isStageURLStaging then stage else None)
    else if isStageURLTest then
      TierAssignment(stage, None, site)
    else if isStageURLStaging then
      TierAssignment(None, stage, site)
    else
      TierAssignment(None, None, site)
  }

  /** The tier a URL belongs to by its markers; a null or empty URL counts as production. */
  datatype Tier = Test | Staging | Production

  /** The tier of a URL by its markers: test, staging, or production when it has neither. */
  function TierOf(u: Option<string>): Tier
  {
    if IsTestLike(u) then Test else if IsStagingLike(u) then Staging else Production
  }

  /** The slot of an assignment that holds `tier`. */
  function Slot(t: TierAssignment, tier: Tier): Option<string>
  {
    match tier
    case Test => t.testURL
    case Staging => t.stagingURL
    case Production => t.prodURL
  }

  /**
   * The classification stated slot by slot: the site URL fills the slot of
   * its own tier; the stage URL fills the slot of its tier only when it is
   * present and exactly one of the two URLs is production-tier.
   */
  ghost predicate Classifies(site: Option<string>, stage: Option<string>, t: TierAssignment)
  {
    forall tier :: Slot(t, tier) ==
      if TierOf(site) == tier then site
      else if Truthy(stage) && TierOf(stage) == tier
        && (TierOf(site) == Production) != (TierOf(stage) == Production) then stage
      else None
  }

  /** `parseURLs` is the one assignment that the slot-by-slot statement allows. */
  lemma ParseURLsClassifies(site: Option<string>, stage: Option<string>, t: TierAssignment)
    ensures Classifies(site, stage, t) <==> t == ParseURLs(site, stage)
  {
    if Classifies(site, stage, t) {
      assert Slot(t, Test) == Slot(ParseURLs(site, stage), Test);
      assert Slot(t, Staging) == Slot(ParseURLs(site, stage), Staging);
      assert Slot(t, Production) == Slot(ParseURLs(site, stage), Production);
    }
  }

  /** Each input lands in at most one slot, so at most two slots are filled. */
  lemma AtMostTwoSlots(site: Option<string>, stage: Option<string>)
    ensures var r := ParseURLs(site, stage);
      !(r.testURL != None && r.stagingURL != None && r.prodURL != None)
  {
  }

  /** Both inputs null: all three slots are null. */
  lemma ParseNothing()
    ensures ParseURLs(None, None) == TierAssignment(None, None, None)
  {
  }

  /** The markers found in a URL whose only dash is at index `k` (none when `k` is its length). */
  lemma MarkersWithOneDash(u: string, k: nat)
    requires forall i :: 0 <= i < |u| ==> (u[i] == '-' <==> i == k)
    ensures IsTestLike(Some(u)) <==> u != "" && (OccursAt(u, "-test", k) || OccursAt(u, "-dev", k))
    ensures IsStagingLike(Some(u)) <==> u != "" && OccursAt(u, "-staging", k)
  {
    IncludesAtOnly(u, '-', k, "-test");
    IncludesAtOnly(u, '-', k, "-dev");
    IncludesAtOnly(u, '-', k, "-staging");
  }

  /** The URLs of the worked examples. */
  const AcmeTest := "https://acme-test.example.com"
  const AcmeStaging := "https://acme-staging.example.com"
  const AcmeProd := "https://acme.example.com"

  // The facts below are stated about a variable equal to the literal, which
  // keeps the solver from unfolding the scan over the literal characters.

  /** The test URL is test-like. */
  lemma AcmeTestTier(u: string)
    requires u == AcmeTest
    ensures IsTestLike(Some(u))
  {
    assert u[12..17] == "-test";
    assert OccursAt(u, "-test", 12);
    IncludesIff(u, "-test");
  }

  /** The staging URL's only dash is at index 12. */
  lemma AcmeStagingDash(u: string)
    requires u == AcmeStaging
    ensures forall i :: 0 <= i < |u| ==> (u[i] == '-' <==> i == 12)
  {
  }

  /** At that dash it reads `-staging`, neither `-test` nor `-dev`. */
  lemma AcmeStagingMarkers(u: string)
    requires u == AcmeStaging
    ensures OccursAt(u, "-staging", 12) && !OccursAt(u, "-test", 12) && !OccursAt(u, "-dev", 12)
  {
    assert u[12..20] == "-staging";
    assert u[12..17][1] != "-test"[1];
    assert u[12..16][1] != "-dev"[1];
  }

  /** The staging URL is staging-like and not test-like. */
  lemma AcmeStagingTier(u: string)
    requires u == AcmeStaging
    ensures !IsTestLike(Some(u)) && IsStagingLike(Some(u))
  {
    AcmeStagingDash(u);
    AcmeStagingMarkers(u);
    MarkersWithOneDash(u, 12);
  }

  /** The production URL has no dash, so neither marker. */
  lemma AcmeProdTier(u: string)
    requires u == AcmeProd
    ensures !IsTestLike(Some(u)) && !IsStagingLike(Some(u))
  {
    MarkersWithOneDash(u, |u|);
  }

  /** The first worked example: test-like site, production-like stage. */
  lemma WorkedExampleTest()
    ensures ParseURLs(Some(AcmeTest), Some(AcmeProd)) == TierAssignment(Some(AcmeTest), None, Some(AcmeProd))
  {
    AcmeTestTier(AcmeTest);
    AcmeProdTier(AcmeProd);
  }

  /** The second worked example: staging-like site, test-like stage; the stage URL is dropped, not made the test URL. */
  lemma WorkedExampleDroppedStage()
    ensures ParseURLs(Some(AcmeStaging), Some(AcmeTest)) == TierAssignment(None, Some(AcmeStaging), None)
  {
    AcmeStagingTier(AcmeStaging);
    AcmeTestTier(AcmeTest);
  }

  /** The third worked example: production-like site, staging-like stage. */
  lemma WorkedExampleStagingStage()
    ensures ParseURLs(Some(AcmeProd), Some(AcmeStaging)) == TierAssignment(None, Some(AcmeStaging), Some(AcmeProd))
  {
    AcmeProdTier(AcmeProd);
    AcmeStagingTier(AcmeStaging);
  }
}
