/**
 * The issue-tracker side of a handoff: the two floating buttons' click
 * handlers and `openLifeguard`, which writes the relay before opening the
 * admin tool.
 */
module Buttons {
  import opened Wrappers
  import opened JsText
  import opened Tickets
  import opened Tiers
  import opened Extractor
  import opened Relay

  /** `openLifeguard(hostname, ticketNumber)`: a falsy hostname is refused (an alert); otherwise the three relay keys are written and the admin tool is opened. */
  method OpenLifeguard(relay: HandoffRelay, hostname: Option<string>, ticketNumber: string, now: int) returns (launched: bool)
    modifies relay
    ensures launched <==> Truthy(hostname)
    ensures relay.store == if launched then Written(old(relay.store), hostname.value, ticketNumber, now) else old(relay.store)
  {
    if !Truthy(hostname) {
      return false;
    }
    relay.Set(HostnameKey, Str(hostname.value));
    relay.Set(TicketKey, Str(ticketNumber));
    relay.Set(TimestampKey, Num(now));
    launched := true;
  }

  /** The two buttons: "Open Staging/Test" and "Open Prod". */
  datatype Action = OpenStagingTest | OpenProd

  /** The URL a button acts on: `testURL || stagingURL` for staging/test, `prodURL` for production. */
  function TargetURL(action: Action, t: TierAssignment): (r: Option<string>)
    ensures action == OpenProd ==> r == t.prodURL
    ensures action == OpenStagingTest ==> (Truthy(r) <==> Truthy(t.testURL) || Truthy(t.stagingURL))
    ensures action == OpenStagingTest && Truthy(t.testURL) ==> r == t.testURL
    ensures action == OpenStagingTest && !Truthy(t.testURL) ==> r == t.stagingURL
  {
    match action
    case OpenStagingTest => if Truthy(t.testURL) then t.testURL else t.stagingURL
    case OpenProd => t.prodURL
  }

  /** The staging/test button never acts on a production-tier URL and the production button only on one; either acts on one of the two field URLs. */
  lemma TargetTier(action: Action, site: Option<string>, stage: Option<string>)
    ensures var r := TargetURL(action, ParseURLs(site, stage));
      Truthy(r) ==>
        && (r == site || r == stage)
        && (action == OpenStagingTest <==> TierOf(r) != Production)
  {
  }

  /**
   * An empty site URL, which `parseURLs` keeps as the production URL, acts
   * like a null one: either button finds a URL for the same stage URLs.
   */
  lemma EmptySiteActsAsNull(action: Action, stage: Option<string>)
    ensures Truthy(TargetURL(action, ParseURLs(Some(""), stage)))
      == Truthy(TargetURL(action, ParseURLs(None, stage)))
  {
  }

  /** How a click ends: the error toast, the hostname alert, or a written handoff and an opened tab. */
  datatype ClickOutcome = UrlNotFound | NoHostname | Opened(hostname: string)

  /**
   * A button's `onclick`: extract the URLs with retry, classify them, select
   * the button's URL, derive its hostname (`hostOf` stands for `new URL(u).hostname`,
   * `None` when the constructor throws) and hand off through `openLifeguard`.
   */
  method OnClick(action: Action, relay: HandoffRelay, observe: nat -> RawURLPair, hostOf: string -> Option<string>,
                 ticketNumber: string, now: int)
    returns (outcome: ClickOutcome, urls: RawURLPair, lazyLoads: nat)
    modifies relay
    ensures RetryOutcome(observe, DefaultRetries, urls, lazyLoads)
    ensures var target := TargetURL(action, ParseURLs(urls.site, urls.stage));
      match outcome
      case UrlNotFound =>
        !Truthy(target) && relay.store == old(relay.store)
      case NoHostname =>
        Truthy(target) && !Truthy(hostOf(target.value)) && relay.store == old(relay.store)
      case Opened(h) =>
        && Truthy(target) && hostOf(target.value) == Some(h) && h != ""
        && relay.store == Written(old(relay.store), h, ticketNumber, now)
  {
    urls, lazyLoads := GetURLsWithRetry(observe, DefaultRetries);
    var tiers := ParseURLs(urls.site, urls.stage);
    var target := TargetURL(action, tiers);
    if !Truthy(target) {
      return UrlNotFound, urls, lazyLoads;
    }
    var hostname := hostOf(target.value);
    var launched := OpenLifeguard(relay, hostname, ticketNumber, now);
    outcome := if launched then Opened(hostname.value) else NoHostname;
  }

  /** A handoff made from a ticket page carries a non-empty ticket, so the reader accepts it within the window. */
  lemma HandoffFromTicketPage(href: string, store: Store, hostname: string, at: int, now: int)
    requires IsTicketPage(href)
    requires hostname != "" && at != 0 && now - at <= ValidityWindowMs
    ensures ReadIfValid(Written(store, hostname, GetTicketNumber(href), at), now)
      == Some(RelayRecord(hostname, GetTicketNumber(href), at))
  {
    TicketPageHasTicket(href);
    ReadAfterWrite(store, hostname, GetTicketNumber(href), at, now);
  }
}
