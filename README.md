# Jira to Lifeguard quick access, modelled in Dafny

The userscript `jira-to-lifeguard.js` runs on two sites.

- On an issue-tracker ticket page it adds two buttons: "Open Staging/Test" and "Open Prod". A click does four things:
  - reads the customer site URL and stage URL fields of the ticket, retrying while the page renders them lazily;
  - sorts the two URLs into test, staging and production slots by the markers `-test`, `-dev` and `-staging`;
  - picks the slot the button stands for;
  - writes the target's hostname, the ticket key and a timestamp to a shared key-value store (the handoff relay), then opens the admin tool.
- On the admin tool (Lifeguard) it does three things:
  - waits for the login to finish, or polls for the form;
  - reads the relay, rejecting a handoff older than five minutes;
  - fills the host name, the reason code and the ticket, each followed by the event the page listens for, and then clears the relay.

The model has one module per part of that flow:

| file | module | what it holds |
|---|---|---|
| `wrappers.dfy` | `Wrappers` | `Option`, which stands for JavaScript's `null`/`undefined` |
| `js_text.dfy` | `JsText` | JavaScript truthiness of a string-or-null value, and `String.prototype.includes` |
| `tickets.dfy` | `Tickets` | `getTicketNumber` and `isTicketPage`; the two regular expressions are written out as greedy character runs and a leftmost-match scan |
| `tiers.dfy` | `Tiers` | `parseURLs`, and an independent slot-by-slot statement of the same classification |
| `extractor.dfy` | `Extractor` | the retry loop of `getURLsWithRetry` |
| `relay.dfy` | `Relay` | the three relay keys, the expiry-checked read, and the store as a class with a `Set` method |
| `buttons.dfy` | `Buttons` | `openLifeguard` and the two click handlers |
| `filler.dfy` | `Filler` | `fillLifeguardForm` as a trace of events, and the `initLifeguard` poll |

A few things outside the model become parameters:

- what the page shows at each retry attempt or poll tick is a function of the attempt or tick number;
- `new URL(u).hostname` is a function `hostOf`;
- `Date.now()` is a number `now`.

Some behaviours of the code that are easy to miss, all kept in the model:

- After a login the code calls `fillLifeguardForm` 1000 ms after the login inputs disappear. It does not poll for the form first.
- The relay is cleared only on a complete fill, inside the last timer. A valid handoff read on a page without the form controls is left in place, not cleared.
- A read rejects a handoff whose hostname or ticket is the empty string, or whose timestamp is 0, because the code tests truthiness, not presence.
- A URL whose hostname cannot be parsed does not lead to the "URL not found" toast. It reaches `openLifeguard`, which shows its own alert (`ClickOutcome.NoHostname`).

## Model

| member | source | states |
|---|---|---|
| `JsText.Truthy` | jira-to-lifeguard.js:111 | a string-or-null value is truthy exactly when it is a non-empty string |
| `JsText.Includes` | jira-to-lifeguard.js:111-114 | `includes` as a left-to-right scan for the substring |
| `JsText.IncludesIff` | jira-to-lifeguard.js:111-114 | the `includes` scan succeeds exactly when the substring occurs at some index |
| `Tickets.Run` | jira-to-lifeguard.js:47 | the greedy run of `[A-Z]` or `\d` characters is all of that class and stops at the end or at a character outside it |
| `Tickets.KeyAt` | jira-to-lifeguard.js:51 | a match of `[A-Z]+-\d+` at a position is a ticket key whose digits are maximal; when there is none, no ticket key of any length starts there |
| `Tickets.FirstMatch` | jira-to-lifeguard.js:51 | the scan returns the leftmost position where the pattern matches, and None only when it matches nowhere |
| `Tickets.GetTicketNumber` | jira-to-lifeguard.js:50-53 | the result is non-empty exactly when `browse/` followed by a key occurs; it is then the ticket key right after the leftmost such `browse/`, with maximal digits, otherwise `''` |
| `Tickets.IsTicketPage` | jira-to-lifeguard.js:46-48 | true exactly when `/browse/` followed by a ticket key occurs in the address |
| `Tickets.TicketPageHasTicket` | jira-to-lifeguard.js:46-53 | on every ticket page `getTicketNumber` finds a non-empty ticket number |
| `Tickets.TicketWithoutTicketPage` | jira-to-lifeguard.js:46-53 | the converse fails: `xbrowse/AB-1` yields `AB-1` but is not a ticket page |
| `Tickets.TicketOfBrowseAddress` | jira-to-lifeguard.js:50-53 | a key after `browse/`, preceded by text without `b` and followed by a non-digit or the end, is exactly what is extracted |
| `Tickets.TicketPageOfBrowseAddress` | jira-to-lifeguard.js:46-48 | an address with `/browse/` and a key is a ticket page |
| `Tickets.TrackerBrowseAddress` | jira-to-lifeguard.js:46-53 | a tracker address `https://silkroadtech.atlassian.net/browse/<key><rest>` is a ticket page and yields exactly `<key>` |
| `Tiers.IsTestLike` | jira-to-lifeguard.js:111 | a URL is test-like when it is truthy and contains `-test` or `-dev` (also used for the stage URL at line 113) |
| `Tiers.IsStagingLike` | jira-to-lifeguard.js:112 | a URL is staging-like when it is truthy and contains `-staging` (also used for the stage URL at line 114) |
| `Tiers.ParseURLs` | jira-to-lifeguard.js:110-140 | each filled slot holds one of the inputs and only a URL of its own tier; a test-like site is the test URL with no staging URL, even when also staging-like; a staging-like site is the staging URL and drops a test-like stage URL; otherwise the site, even null, is the production URL; next to a test- or staging-like site the stage URL is the production URL only when present and unmarked |
| `Tiers.ParseURLsClassifies` | jira-to-lifeguard.js:110-140 | `parseURLs` is exactly the assignment described slot by slot: the site fills its tier's slot, and the stage fills its tier's slot only when present and exactly one of the two URLs is production-tier |
| `Tiers.AtMostTwoSlots` | jira-to-lifeguard.js:116-139 | never are all three slots filled |
| `Tiers.ParseNothing` | jira-to-lifeguard.js:116-131 | two null inputs give three null slots |
| `Tiers.WorkedExampleTest` | jira-to-lifeguard.js:120-124 | an `-test` site with an unmarked stage gives test = site and prod = stage |
| `Tiers.WorkedExampleDroppedStage` | jira-to-lifeguard.js:125-129 | a `-staging` site with an `-test` stage gives staging = site; the stage URL is dropped |
| `Tiers.WorkedExampleStagingStage` | jira-to-lifeguard.js:130-136 | an unmarked site with a `-staging` stage gives prod = site and staging = stage |
| `Extractor.Found` | jira-to-lifeguard.js:94 | an attempt succeeds when either URL it reads is truthy |
| `Extractor.RetryOutcome` | jira-to-lifeguard.js:90-107 | the loop's outcome stated without the loop: the first successful attempt's reading within the budget, after one lazy-load pass per earlier attempt, or two nulls after `maxRetries - 1` passes |
| `Extractor.GetURLsWithRetry` | jira-to-lifeguard.js:89-108 | the result is the reading of the first attempt that finds either URL, within `maxRetries` attempts, after one lazy-load pass per earlier attempt; when no attempt finds one it is `(null, null)` after `maxRetries - 1` passes (0 when `maxRetries < 1`), never more passes than attempts minus one |
| `Extractor.RetryOutcomeUnique` | jira-to-lifeguard.js:90-107 | the loop's outcome fixes both the returned pair and the number of lazy-load passes |
| `Extractor.FoundOnSecondAttempt` | jira-to-lifeguard.js:89-103 | with the default of three attempts, fields that render on the second attempt are returned after one lazy-load pass |
| `Relay.Get` | jira-to-lifeguard.js:29-40 | `storage.get` yields a value exactly for a key that was set, and that value |
| `Relay.Written` | jira-to-lifeguard.js:164-166 | after the three handoff writes the relay keys hold the hostname, the ticket and the timestamp, and every other key is unchanged |
| `Relay.Cleared` | jira-to-lifeguard.js:420-422 | after the three clearing writes every relay key holds `null`, and every other key is unchanged |
| `Relay.ReadIfValid` | jira-to-lifeguard.js:389-395 | a handoff is accepted exactly when hostname and ticket are non-empty strings, the timestamp is a non-zero number and at most 300000 ms have passed; an accepted record is what the three keys hold |
| `Relay.ReadAfterWrite` | jira-to-lifeguard.js:164-166 | after the three writes the read returns exactly the record written, while its fields are truthy and the window has not passed, and nothing otherwise |
| `Relay.ExpiryBoundary` | jira-to-lifeguard.js:393 | the window is inclusive: accepted at exactly 300000 ms after the write, rejected at any later time |
| `Relay.ReadAfterClear` | jira-to-lifeguard.js:420-422 | after the three clearing writes no read is accepted, at any time |
| `Relay.RejectionPersists` | jira-to-lifeguard.js:393 | a handoff rejected at one time stays rejected at every later time |
| `Relay.HandoffRelay.Set` | jira-to-lifeguard.js:22-28 | `storage.set` replaces the value of one key and leaves the others |
| `Buttons.OpenLifeguard` | jira-to-lifeguard.js:158-170 | a falsy hostname leaves the relay unchanged and opens nothing; otherwise the relay holds the hostname, ticket and timestamp written together |
| `Buttons.TargetURL` | jira-to-lifeguard.js:290 | the staging/test button takes `testURL` when truthy and otherwise `stagingURL`, so it has a URL exactly when either is truthy; the production button takes `prodURL` (line 328) |
| `Buttons.TargetTier` | jira-to-lifeguard.js:289-290 | a button's URL is one of the two field URLs; it is production-tier exactly for the production button |
| `Buttons.OnClick` | jira-to-lifeguard.js:286-336 | a click reads the fields with three attempts; without a truthy target it writes nothing (error toast); without a hostname it writes nothing (alert); otherwise it writes the target's hostname, the ticket and `now` |
| `Buttons.HandoffFromTicketPage` | jira-to-lifeguard.js:164-166 | the handoff `openLifeguard` writes from a ticket page (lines 46-53 give it a non-empty ticket) with a hostname is read back exactly by the check at lines 389-395 within the window |
| `Buttons.EmptySiteActsAsNull` | jira-to-lifeguard.js:131 | an empty site URL, kept as the production URL, makes either button find a URL exactly when a null site URL would (lines 290, 294 and 328 test truthiness) |
| `Filler.IsLoginPage` | jira-to-lifeguard.js:380-382 | the login page is the one with both the `UserName` and the `Password` input |
| `Filler.FillTrace` | jira-to-lifeguard.js:402-425 | a fill's events in order: host step, reason step, ticket step, the three clearing writes, the success message |
| `Filler.FillLifeguardForm` | jira-to-lifeguard.js:384-429 | on the login page, without a valid handoff or with a form control missing, nothing is written and the relay is unchanged; otherwise the fill runs its steps in order and the relay keys are all set to null |
| `Filler.FillWriteOrder` | jira-to-lifeguard.js:402-422 | a fill writes the host name, then the reason `Config`, then the ticket, and only then clears each relay key once |
| `Filler.WritesAppend` | jira-to-lifeguard.js:402-422 | the writes of two traces run one after the other are the writes of the first followed by those of the second |
| `Filler.FillNotifiesEachWrite` | jira-to-lifeguard.js:402-418 | every field write is directly followed by its `input` or `change` notification, and every one after the first directly follows a wait |
| `Filler.NotifiedAppend` | jira-to-lifeguard.js:402-418 | two traces that announce their writes still do when run one after the other, provided the first does not end in a write and the second does not open with an unwaited one |
| `Filler.FillTwice` | jira-to-lifeguard.js:420-422 | a second fill after a successful one, at any time and on any page, writes nothing and leaves the relay cleared |
| `Filler.InitLifeguard` | jira-to-lifeguard.js:450-474 | on the login page it waits for the login and fills 1000 ms after; otherwise the fill is scheduled 500 ms after the first 100 ms tick that sees the host name input, before 5000 ms; the poll is cancelled only when no such tick sees it |

## Left out

- DOM construction, CSS, hover handlers, toasts and `showSuccessMessage` are not modelled. They are presentation only; the success message is a `ShowSuccess` event.
- Real time is not modelled. The `setTimeout` and `setInterval` delays of the fill become `Wait` events and constants: only their order and stated lengths are kept.
- The mutation observers are not modelled: the route watcher and button re-creation (lines 355-376), and the login observer. `InitLifeguard` ends in `AwaitLogin` with the 1000 ms delay and does not model how long the login takes.
- `Filler.InitLifeguard` treats the poll tick at exactly 5000 ms, which in the browser races the cancelling timer, as cancelled.
- `forceLoadLazyContent` is not modelled: its scrolling and its 500 ms and 1000 ms timers are only counted, as `lazyLoads`. `extractURL` and its DOM queries become the reading function `observe`.
- `getHostname` is not modelled. It relies on the WHATWG URL parser, so it is the parameter `hostOf`, with `None` for a thrown exception.
- The storage backend is not modelled: the choice between `GM_setValue`/`GM_getValue` and `localStorage`, and the JSON encoding with its parse fallback. The store is a map from key to value.
- `Relay.ReadIfValid`: a truthy value of another type, such as a number in the hostname key, would pass the source's check. Values are only strings, numbers or null, because only this script writes the store.
- JavaScript numbers are unbounded integers here; floating point and `Date.now()` precision are not modelled. `Date.now()` is the parameter `now`.
- `window.open`, `alert` and the jQuery `trigger` call are not modelled. A page tab is opened or not (`launched`); the jQuery event is a trace event.
- `Buttons.OnClick` does not model hiding the options container after a click.

