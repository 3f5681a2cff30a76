# Shopee affiliate extension background worker, modelled in Dafny

This project models the background service worker of a browser extension (`background.js`). The worker turns product URLs into Shopee affiliate links. It models four parts of the worker.

- **Stream connection guard.** The worker keeps one server-sent-event stream (`eventSource`) open. It reconnects after errors and on a keep-alive alarm.
- **Command dispatch.** The stream's `open_url` commands go to `resolveAndOpen`.
- **URL resolver.** `resolveAndOpen` follows shortlinks and strips the query string. It then extracts the item ID with three ordered regexes and opens either the product-offer page or the custom-link page.
- **Session store.** `tabContextMap` keys one session per automation tab. The content-script messages (`DETAILS_SCRAPED`, `LINK_GENERATED`, `DEBUG_LOG`) and the tab-updated listener drive each session until a result is posted and the tab is closed.

Files:

- `wrappers.dfy`: `Option`.
- `js_values.dfy`: JavaScript values with the language's truthiness. The script's `if (!tabId)`, `request.link` and `!context.subId` tests are modelled exactly.
- `text.dfy`: `includes`, `split('?')[0]` and maximal digit runs.
- `resolver.dfy`: the resolver as pure functions.
  - Each regex `lead(\d+)sep(\d+)` is a greedy scanner (`MatchAt`, `Leftmost`, `Find`).
  - A separate definition of what a backtracking engine accepts and captures (`Spans`, `RegexMatchesAt`, `Captures`) is tied to the scanner in both directions.
  - `FirstMatch` is an independent reference for the pattern order.
- `stream.dfy`: the connection guard as pure transitions over the list of every EventSource ever created. It proves that at most one connection is live.
- `workflow.dfy`: each handler as a step function. A step function maps the old `tabContextMap` to the new map and the ordered list of calls the handler makes into Chrome and the network.
- `background.dfy`: the worker as a class `Background`.
  - Its fields are the module variables: `tabContextMap` and `eventSource`, plus the history of created sources, pending reconnect timers and an `outbox` of emitted calls.
  - Each listener is a method that updates the fields in place. Its contract ties the new state to the matching step function, so every property proved about the functions holds for the methods.

Inputs that come from outside the script are parameters:

- the redirect outcome of `fetch(url)`;
- the id Chrome gives the created tab;
- the token `generateSubId()` returns;
- the `readyState` changes the browser makes.

## Model

| member | source | states |
|---|---|---|
| Text.StripQuery | background.js:54 | the result is the prefix of the URL before its first `?`, or the whole URL when it has none |
| Text.StripQueryOfQuery | background.js:54 | for a URL without `?`, stripping the query from `url + "?" + query` gives back `url` |
| Text.StripQueryIdempotent | background.js:54 | stripping the query twice is the same as stripping it once |
| Text.DigitRun | background.js:56 | `\d+` consumes the maximal run of digits: in bounds, all digits, next character not a digit |
| Resolver.MatchAt | background.js:56 | the greedy scan at a position succeeds exactly when the regex can match there; its result is the captured second group, with the first `\d+` maximal; the result is a non-empty digit string |
| Resolver.Leftmost | background.js:56 | `match` reports the leftmost position where the regex matches: it matches there and nowhere earlier, and `None` means it matches nowhere |
| Resolver.Find | background.js:56-57 | `None` exactly when the regex matches nowhere in the string; otherwise the value is group 2, as the regex captures it, of a match at a position where the regex matches and nowhere before it, and it is a non-empty digit string |
| Resolver.ExtractItemId | background.js:53-67 | the truthiness-guarded cascade as written; a present item ID is a non-empty all-digit string |
| Resolver.FirstMatchPriority | background.js:56-66 | once a pattern matches and no earlier one did, that pattern's group 2 is the result and later patterns are not consulted |
| Resolver.FirstMatchNone | background.js:56-67 | there is no item ID exactly when none of the patterns matches |
| Resolver.ExtractIsFirstMatch | background.js:56-67 | the script's three guarded tests equal "first of `/product/`, `-i.`, `/bs/` that matches wins", applied to the query-stripped URL |
| Resolver.ExtractIgnoresQuery | background.js:54-67 | for a URL without `?`, appending `?anything` leaves the extracted ID, or its absence, unchanged |
| Resolver.FetchOnlyForShortlinks | background.js:39-50 | the redirect outcome matters only for URLs containing `shp.ee` or `/universal-link/`; a failed fetch leaves `finalUrl` equal to the input; a followed fetch replaces it with the response URL |
| Resolver.PlanTarget | background.js:69-80 | an item ID opens `https://affiliate.shopee.vn/offer/product_offer/<id>` with scraping on; no ID opens `.../offer/custom_link` with scraping off; the opened URL contains `/offer/custom_link` exactly when scraping is off |
| Resolver.ProductOfferIsNotCustomLink | background.js:74 | no product-offer URL for a digit ID contains the custom-link marker |
| Resolver.CustomLinkHasMarker | background.js:78 | the custom-link URL contains the marker the tab listener tests for |
| Resolver.ProductShapeOutranksEarlierDashShape | background.js:56-62 | on `-i.1.2/product/3/4` the `-i.` regex matches at the start, yet the `/product/` regex, tried first, gives ID `4` |
| Resolver.ExampleProductUrlId | background.js:56-57 | the item ID of `https://x/product/1/999` is `999` |
| Resolver.ExampleProductUrlNotShortlink | background.js:42 | `https://x/product/1/999` contains neither `shp.ee` nor `/universal-link/`, so no redirect is followed for it |
| Stream.AtMostOneLive | background.js:105-109 | in every valid state at most one EventSource is not CLOSED |
| Stream.StartValid | background.js:215 | loading the script creates exactly one source, in CONNECTING state, held in `eventSource` |
| Stream.TransitionsPreserveValid | background.js:5-14 | every transition keeps the invariant that any live source is the one held in `eventSource`: connect, error, reconnect timer, alarm and browser state change |
| Stream.ConnectCreatesOnlyWhenNoneLive | background.js:106-109 | `connectToStream` creates one new CONNECTING source exactly when none is held or the held one is CLOSED; otherwise it changes nothing; afterwards a live source is held |
| Stream.ConnectIdempotent | background.js:105-109 | calling `connectToStream` twice back to back, with no other event between the calls, has the effect of calling it once |
| Stream.AlarmIsConnect | background.js:6-14 | the `keepAlive` alarm acts exactly as `connectToStream`; any other alarm name changes nothing |
| Stream.ErrorThenReconnect | background.js:128-134 | an error while CONNECTING is ignored; otherwise the source is closed, `eventSource` cleared and one reconnect scheduled, and that reconnect opens a fresh source |
| Stream.AlarmBeforeReconnectTimer | background.js:6-14 | when the keep-alive alarm reconnects after an error and before the reconnect timer fires, the timer does nothing while the source the alarm opened is live; if the browser has closed that source by then, the timer opens another one, and still only one source is live |
| Workflow.Dispatch | background.js:117-122 | the command is `open_url` exactly when the type is `open_url` and the url is truthy, carrying the message's url, requestId and userId; it is a handshake exactly when the type is `connected` |
| Workflow.StreamMessageEffect | background.js:115-126 | only `open_url` with a truthy url runs `resolveAndOpen`; every other message, including one that fails to parse, changes nothing |
| Workflow.OpenCreatesContext | background.js:72-94 | the created tab's context: ID found gives the product-offer target with subId null and isDirectCustomLink false; no ID gives the custom-link target with subId set and isDirectCustomLink true; productData is null and productUrl is `finalUrl`; no other tab changes; one create-tab call is made |
| Workflow.OpenWithoutTabLeavesMap | background.js:84 | without a truthy tab id, or with a URL that is not a string, the map is unchanged |
| Workflow.UnattributedMessagesIgnored | background.js:139-145 | a `DEBUG_LOG` message, or one without a truthy sender tab id, changes nothing and calls nothing |
| Workflow.DetailsScrapedEffect | background.js:148-158 | stores the data and overwrites subId with the fresh token; creates a context if none existed and keeps the tab's other fields; other tabs are untouched; exactly one navigate-to-custom-link call is made |
| Workflow.DetailsScrapedOverwritesSubId | background.js:153 | a second `DETAILS_SCRAPED` replaces the subId of the first |
| Workflow.LinkGeneratedReports | background.js:161-190 | with a truthy link and a context, one result payload is built from the context, only that tab's entry is removed, and the tab is closed |
| Workflow.LinkGeneratedDropped | background.js:161-168 | with no context for the tab, or a falsy link, nothing changes and nothing is posted |
| Workflow.ResultOnlyForKnownTab | background.js:161-190 | a result is posted only for `LINK_GENERATED` with a truthy link from a tab that had a context, and that context is gone afterwards |
| Workflow.TabUpdatedEffect | background.js:194-211 | the listener acts exactly when the status is `complete`, the tab URL contains `/offer/custom_link` and a context exists; it assigns subId only when falsy and sends `EXECUTE_CUSTOM_LINK_FLOW` with the context's productUrl and subId |
| Workflow.ReloadKeepsSubId | background.js:200-209 | once subId is truthy, repeated loads of the custom-link page keep the map and resend the same command |
| Workflow.FirstLoadOfOpenedPage | background.js:72-97 | a direct-link session is picked up by the first load of its own page with its preset subId; the load of a product-offer page does nothing |
| Workflow.ProductSession | background.js:115-190 | end to end for `https://x/product/1/999`, whatever the redirect outcome: open the product-offer page for `999`; on `DETAILS_SCRAPED`, navigate to the custom-link page; on its load, send the product URL and subId; on `LINK_GENERATED`, post the result with `r1`, `u1`, the link and the data; the map ends empty |
| Extension.Background.constructor | background.js:215 | loading the script leaves an empty map and the stream state `Start()` |
| Extension.Background.ConnectToStream | background.js:105-109 | updates `eventSource` and the source list as `Stream.Connect`, keeps the invariant, and changes nothing else |
| Extension.Background.OnStreamError | background.js:128-134 | updates the connection state as `Stream.OnError` and keeps the invariant |
| Extension.Background.OnReconnectTimer | background.js:133 | updates the connection state as `Stream.OnReconnectTimer` and keeps the invariant |
| Extension.Background.OnAlarm | background.js:6-14 | updates the connection state as `Stream.OnAlarm` and keeps the invariant |
| Extension.Background.TransportChanged | background.js:111-113 | a browser-side readyState change of the held source keeps the invariant |
| Extension.Background.ResolveAndOpen | background.js:35-102 | the imperative resolver leaves the map and the outbox exactly as `Workflow.ResolveAndOpen` describes |
| Extension.Background.OpenTab | background.js:83-97 | appends one create-tab call; on a truthy tab id, maps it to the new context |
| Extension.Background.OnStreamMessage | background.js:115-126 | the map and outbox follow `Workflow.OnStreamMessage` |
| Extension.Background.OnRuntimeMessage | background.js:138-191 | the map and outbox follow `Workflow.OnMessage`; the connection state is unchanged |
| Extension.Background.OnTabUpdated | background.js:194-212 | the map and outbox follow `Workflow.OnTabUpdated` |

## Left out

- content-script.js is not part of this model. It is page automation against a live DOM.
- Network calls:
  - The redirect-following `fetch` is an input: the response URL, or a thrown error.
  - The result POST is an outbox entry. Its response handling and error swallowing are not modelled.
  - `remoteLog` and the console are not modelled.
- `generateSubId` uses `Math.random`, so it is a supplied token. The token may be empty: no length or non-emptiness of `subId` is claimed.
- Timer durations (the 5-second reconnect and the half-minute alarm) are not modelled. Only the number of pending reconnect timers is kept.
- `chrome.alarms.create` and `chrome.runtime.getPlatformInfo` are not modelled; the alarm is an event passed to `OnAlarm`.
- The EventSource is abstract state. The browser's own state changes come in through `TransportChanged`.
- `JSON.parse` is not modelled. A message that fails to parse, or parses to `null`, is `Unparsable`.
- `JSON.stringify` is not modelled. The payload is the `ResultPayload` value.
- Workflow.ResolveAndOpen: a non-string `url` is treated as making `url.includes` throw, so nothing happens.
  - This ignores an array `url`, which has an `includes` method of its own.
- JavaScript numbers (tab ids, message fields) are unbounded integers, with no NaN or fractions.
- Workflow.ResolveAndOpen and Extension.Background.ResolveAndOpen collapse the awaits of `resolveAndOpen` into one step, ending with the `chrome.tabs.create` callback. Nothing before that callback touches shared state, but handlers that run between the awaits are not interleaved.
- Contexts are values, not shared objects. The script mutates a context object and stores it back in the map, which has the same effect.
- There is no session expiry or reaping, because the code has none. An abandoned session stays in the map.
- Session invariants the code does not enforce are not proved; the model states what the code does:
  - The code does not keep `subId` once assigned. It overwrites it on every `DETAILS_SCRAPED` (line 153), and `Workflow.DetailsScrapedOverwritesSubId` states this.
  - A `DETAILS_SCRAPED` for a tab with no context creates a context from `{}` (line 151); it is not ignored.
  - A custom-link session is also overwritten by `DETAILS_SCRAPED`. Nothing guards on `isDirectCustomLink`.
  - The keep-alive alarm does not check for a pending reconnect timer. When the timer later fires while the source the alarm opened is still live, the guard in `connectToStream` makes it do nothing. If the browser has closed that source in the meantime, the timer opens another one (`Stream.AlarmBeforeReconnectTimer`).
