/**
 * The session workflow of background.js as step functions: each handler, given `tabContextMap`
 * and the event, yields the new map and the browser and network calls it makes, in order.
 * Calls into Chrome and `fetch` are `Effect`s; `generateSubId()` is the supplied `token`.
 */
module Workflow {
  import opened Wrappers
  import opened JsValues
  import opened Text
  import opened Resolver

  type TabId = int

  /**
   * A `tabContextMap` entry. Each field holds the JavaScript value stored in it; a context created
   * as `{}` (line 151) has every field `undefined`.
   */
  datatype Context = Context(
    requestId: Value,
    userId: Value,
    productUrl: Value,
    productData: Value,
    subId: Value,
    isDirectCustomLink: Value)

  const EmptyContext := Context(Undefined, Undefined, Undefined, Undefined, Undefined, Undefined)

  /** A message from the content script: `{action, data, link, message}`. */
  datatype Request = Request(action: Value, data: Value, link: Value, message: Value)

  /** The body of the result POST (lines 174-181). */
  datatype ResultPayload = ResultPayload(
    link: Value,
    data: Value,
    requestId: Value,
    subId: Value,
    originalUrl: Value,
    userId: Value)

  datatype Effect =
    | CreateTab(url: string)                                      // chrome.tabs.create
    | NavigateTab(tab: TabId, url: string)                        // chrome.tabs.update
    | ExecuteCustomLinkFlow(tab: TabId, productUrl: Value, subId: Value) // chrome.tabs.sendMessage
    | PostResult(payload: ResultPayload)                          // fetch(.../api/extension/result)
    | RemoveTab(tab: TabId)                                       // chrome.tabs.remove

  /** The map after a handler ran, and what the handler asked of the browser and the network. */
  datatype Step = Step(tabs: map<TabId, Context>, effects: seq<Effect>)

  /** A tab id (`sender.tab?.id`, `tab.id`) that JavaScript treats as truthy. */
  predicate TruthyTab(id: Option<TabId>) {
    id.Some? && id.value != 0
  }

  /** Lines 85-92: the context of a freshly opened tab. */
  function NewContext(finalUrl: string, scrape: bool, requestId: Value, userId: Value, token: string): Context {
    Context(requestId, userId, Str(finalUrl), Null, if scrape then Null else Str(token), Bool(!scrape))
  }

  /**
   * `resolveAndOpen(url, requestId, userId)` (lines 35-102), up to and including the
   * `chrome.tabs.create` callback, which reports the new tab's id as `createdTab`. A `url` that is
   * not a string makes `url.includes` throw; the error is logged and nothing else happens.
   */
  function ResolveAndOpen(
    tabs: map<TabId, Context>, url: Value, requestId: Value, userId: Value,
    fetch: Fetch, createdTab: Option<TabId>, token: string): Step
  {
    if !url.Str? then Step(tabs, [])
    else
      var plan := PlanOpen(url.text, fetch);
      var tabs' := if TruthyTab(createdTab)
        then tabs[createdTab.value := NewContext(plan.finalUrl, plan.scrape, requestId, userId, token)]
        else tabs;
      Step(tabs', [CreateTab(plan.target)])
  }

  /** An event from the command stream after `JSON.parse`; `Unparsable` also covers a `null` payload. */
  datatype StreamEvent = Unparsable | Message(kind: Value, url: Value, requestId: Value, userId: Value)

  datatype Command = OpenUrl(url: Value, requestId: Value, userId: Value) | Handshake | Dropped

  /** `eventSource.onmessage` (lines 115-126). */
  function Dispatch(ev: StreamEvent): (c: Command)
    ensures c.OpenUrl? <==> ev.Message? && ev.kind == Str("open_url") && Truthy(ev.url)
    ensures c.OpenUrl? ==> c == OpenUrl(ev.url, ev.requestId, ev.userId)
    ensures c.Handshake? <==> ev.Message? && ev.kind == Str("connected")
  {
    if ev.Message? && ev.kind == Str("open_url") && Truthy(ev.url) then OpenUrl(ev.url, ev.requestId, ev.userId)
    else if ev.Message? && ev.kind == Str("connected") then Handshake
    else Dropped
  }

  function OnStreamMessage(
    tabs: map<TabId, Context>, ev: StreamEvent, fetch: Fetch, createdTab: Option<TabId>, token: string): Step
  {
    match Dispatch(ev)
    case OpenUrl(url, requestId, userId) => ResolveAndOpen(tabs, url, requestId, userId, fetch, createdTab, token)
    case _ => Step(tabs, [])
  }

  /** Lines 148-158. */
  function DetailsScraped(tabs: map<TabId, Context>, t: TabId, data: Value, token: string): Step {
    var context := if t in tabs then tabs[t] else EmptyContext;
    Step(tabs[t := context.(productData := data, subId := Str(token))], [NavigateTab(t, CustomLinkUrl)])
  }

  /** Lines 161-190, once `request.link` is known to be truthy. */
  function LinkGenerated(tabs: map<TabId, Context>, t: TabId, link: Value): Step {
    if t !in tabs then Step(tabs, [])
    else
      var c := tabs[t];
      Step(tabs - {t}, [
        PostResult(ResultPayload(link, c.productData, c.requestId, c.subId, c.productUrl, c.userId)),
        RemoveTab(t)])
  }

  /** `chrome.runtime.onMessage` (lines 138-191). The two action tests exclude each other. */
  function OnMessage(tabs: map<TabId, Context>, request: Request, sender: Option<TabId>, token: string): Step {
    if request.action == Str("DEBUG_LOG") || !TruthyTab(sender) then Step(tabs, [])
    else if request.action == Str("DETAILS_SCRAPED") then DetailsScraped(tabs, sender.value, request.data, token)
    else if request.action == Str("LINK_GENERATED") && Truthy(request.link) then LinkGenerated(tabs, sender.value, request.link)
    else Step(tabs, [])
  }

  /** The three conditions of lines 195-197. */
  predicate CustomLinkLoaded(tabs: map<TabId, Context>, t: TabId, status: Option<string>, url: Option<string>) {
    && status == Some("complete")
    && url.Some? && url.value != ""
    && Contains(url.value, CustomLinkMarker)
    && t in tabs
  }

  /** `chrome.tabs.onUpdated` (lines 194-212); `status` is `changeInfo.status`, `url` is `tab.url`. */
  function OnTabUpdated(
    tabs: map<TabId, Context>, t: TabId, status: Option<string>, url: Option<string>, token: string): Step
  {
    if !CustomLinkLoaded(tabs, t, status, url) then Step(tabs, [])
    else
      var c := tabs[t];
      var c' := if !Truthy(c.subId) then c.(subId := Str(token)) else c;
      Step(tabs[t := c'], [ExecuteCustomLinkFlow(t, c'.productUrl, c'.subId)])
  }

  /** Every tab other than `t` keeps its entry, or its absence. */
  ghost predicate OthersUnchanged(before: map<TabId, Context>, after: map<TabId, Context>, t: TabId) {
    forall u :: u != t ==> (u in after <==> u in before) && (u in before ==> after[u] == before[u])
  }

  // ---------------------------------------------------------------------------------------------
  // Opening a session

  /**
   * The context of a created tab (lines 72-94): a found item ID opens the product-offer page and
   * leaves `subId` null; no ID opens the custom-link page with a `subId` already set. Either way
   * `productData` is null and `productUrl` is the resolved URL.
   */
  lemma OpenCreatesContext(
    tabs: map<TabId, Context>, url: string, requestId: Value, userId: Value,
    fetch: Fetch, t: TabId, token: string)
    requires t != 0
    ensures var s := ResolveAndOpen(tabs, Str(url), requestId, userId, fetch, Some(t), token);
      var p := PlanOpen(url, fetch);
      && s.effects == [CreateTab(p.target)]
      && t in s.tabs && OthersUnchanged(tabs, s.tabs, t)
      && s.tabs[t].requestId == requestId && s.tabs[t].userId == userId
      && s.tabs[t].productData == Null && s.tabs[t].productUrl == Str(p.finalUrl)
      && (p.itemId.Some? ==>
            && p.target == ProductOfferPrefix + p.itemId.value
            && s.tabs[t].subId == Null && s.tabs[t].isDirectCustomLink == Bool(false))
      && (p.itemId.None? ==>
            && p.target == CustomLinkUrl
            && s.tabs[t].subId == Str(token) && s.tabs[t].isDirectCustomLink == Bool(true))
  {
    PlanTarget(url, fetch);
  }

  /** Without a truthy tab id, or with a URL that is not a string, no context is created. */
  lemma OpenWithoutTabLeavesMap(
    tabs: map<TabId, Context>, url: Value, requestId: Value, userId: Value,
    fetch: Fetch, createdTab: Option<TabId>, token: string)
    requires !TruthyTab(createdTab) || !url.Str?
    ensures ResolveAndOpen(tabs, url, requestId, userId, fetch, createdTab, token).tabs == tabs
  {
  }

  /** Only `open_url` with a truthy `url` touches the map; `connected` and anything else change nothing. */
  lemma StreamMessageEffect(
    tabs: map<TabId, Context>, ev: StreamEvent, fetch: Fetch, createdTab: Option<TabId>, token: string)
    ensures !(ev.Message? && ev.kind == Str("open_url") && Truthy(ev.url)) ==>
      OnStreamMessage(tabs, ev, fetch, createdTab, token) == Step(tabs, [])
    ensures ev.Message? && ev.kind == Str("open_url") && Truthy(ev.url) ==>
      OnStreamMessage(tabs, ev, fetch, createdTab, token)
        == ResolveAndOpen(tabs, ev.url, ev.requestId, ev.userId, fetch, createdTab, token)
  {
  }

  // ---------------------------------------------------------------------------------------------
  // Content-script messages

  /** `DEBUG_LOG`, or a message without a truthy sender tab id, never changes the map or calls anything. */
  lemma UnattributedMessagesIgnored(tabs: map<TabId, Context>, request: Request, sender: Option<TabId>, token: string)
    requires request.action == Str("DEBUG_LOG") || !TruthyTab(sender)
    ensures OnMessage(tabs, request, sender, token) == Step(tabs, [])
  {
  }

  /**
   * `DETAILS_SCRAPED` from tab `t` stores the data, overwrites `subId` with the fresh token (creating
   * a context if none existed), keeps t's other fields, leaves every other tab alone and navigates
   * `t` to the custom-link page.
   */
  lemma DetailsScrapedEffect(tabs: map<TabId, Context>, request: Request, t: TabId, token: string)
    requires t != 0 && request.action == Str("DETAILS_SCRAPED")
    ensures var s := OnMessage(tabs, request, Some(t), token);
      var before := if t in tabs then tabs[t] else EmptyContext;
      && t in s.tabs
      && s.tabs[t].productData == request.data
      && s.tabs[t].subId == Str(token)
      && s.tabs[t].requestId == before.requestId && s.tabs[t].userId == before.userId
      && s.tabs[t].productUrl == before.productUrl
      && s.tabs[t].isDirectCustomLink == before.isDirectCustomLink
      && OthersUnchanged(tabs, s.tabs, t)
      && s.effects == [NavigateTab(t, CustomLinkUrl)]
  {
  }

  /** The code does not keep `subId` once assigned: a repeated `DETAILS_SCRAPED` replaces it. */
  lemma DetailsScrapedOverwritesSubId(
    tabs: map<TabId, Context>, request: Request, t: TabId, token1: string, token2: string)
    requires t != 0 && request.action == Str("DETAILS_SCRAPED")
    ensures var s1 := OnMessage(tabs, request, Some(t), token1);
      var s2 := OnMessage(s1.tabs, request, Some(t), token2);
      s1.tabs[t].subId == Str(token1) && s2.tabs[t].subId == Str(token2)
  {
    DetailsScrapedEffect(tabs, request, t, token1);
    DetailsScrapedEffect(OnMessage(tabs, request, Some(t), token1).tabs, request, t, token2);
  }

  /**
   * `LINK_GENERATED` with a truthy link from a tab with a context posts exactly one result built
   * from that context, removes only that tab's entry and closes the tab.
   */
  lemma LinkGeneratedReports(tabs: map<TabId, Context>, request: Request, t: TabId, token: string)
    requires t != 0 && t in tabs
    requires request.action == Str("LINK_GENERATED") && Truthy(request.link)
    ensures var s := OnMessage(tabs, request, Some(t), token);
      var c := tabs[t];
      && s.tabs.Keys == tabs.Keys - {t}
      && OthersUnchanged(tabs, s.tabs, t)
      && s.effects == [
        PostResult(ResultPayload(request.link, c.productData, c.requestId, c.subId, c.productUrl, c.userId)),
        RemoveTab(t)]
  {
  }

  /** An orphan `LINK_GENERATED` (no context), or one with a falsy link, changes nothing and posts nothing. */
  lemma LinkGeneratedDropped(tabs: map<TabId, Context>, request: Request, t: TabId, token: string)
    requires request.action == Str("LINK_GENERATED")
    requires t !in tabs || !Truthy(request.link)
    ensures OnMessage(tabs, request, Some(t), token) == Step(tabs, [])
  {
  }

  /** A result is posted only in answer to `LINK_GENERATED` with a truthy link from a tab that has a context. */
  lemma ResultOnlyForKnownTab(tabs: map<TabId, Context>, request: Request, sender: Option<TabId>, token: string)
    ensures var s := OnMessage(tabs, request, sender, token);
      (exists e :: e in s.effects && e.PostResult?) ==>
        && request.action == Str("LINK_GENERATED") && Truthy(request.link)
        && TruthyTab(sender) && sender.value in tabs && sender.value !in s.tabs
  {
  }

  // ---------------------------------------------------------------------------------------------
  // Tab updates

  /**
   * The tab-updated handler acts exactly when the load is complete, the URL contains the custom-link
   * marker and the tab has a context; it then assigns `subId` only if it is falsy and sends
   * `EXECUTE_CUSTOM_LINK_FLOW` with the context's `productUrl` and `subId`.
   */
  lemma TabUpdatedEffect(
    tabs: map<TabId, Context>, t: TabId, status: Option<string>, url: Option<string>, token: string)
    ensures var s := OnTabUpdated(tabs, t, status, url, token);
      && (!CustomLinkLoaded(tabs, t, status, url) ==> s == Step(tabs, []))
      && (CustomLinkLoaded(tabs, t, status, url) ==>
            var c := tabs[t];
            var sub := if Truthy(c.subId) then c.subId else Str(token);
            && s.tabs == tabs[t := c.(subId := sub)]
            && s.effects == [ExecuteCustomLinkFlow(t, c.productUrl, sub)])
  {
  }

  /** Once `subId` is truthy, repeated loads of the custom-link page keep it and resend the same command. */
  lemma ReloadKeepsSubId(
    tabs: map<TabId, Context>, t: TabId, status: Option<string>, url: Option<string>,
    token1: string, token2: string)
    requires CustomLinkLoaded(tabs, t, status, url)
    requires Truthy(tabs[t].subId) || token1 != ""
    ensures var s1 := OnTabUpdated(tabs, t, status, url, token1);
      var s2 := OnTabUpdated(s1.tabs, t, status, url, token2);
      && s2.tabs == s1.tabs
      && s2.effects == s1.effects
      && Truthy(s1.tabs[t].subId)
      && (Truthy(tabs[t].subId) ==> s1.tabs == tabs)
  {
    var s1 := OnTabUpdated(tabs, t, status, url, token1);
    assert CustomLinkLoaded(s1.tabs, t, status, url);
  }

  /**
   * A direct-link session (no item ID) is picked up by the first completed load of the page it
   * was opened on, with no `DETAILS_SCRAPED` needed; a product session is not, since a
   * product-offer URL never contains the custom-link marker.
   */
  lemma FirstLoadOfOpenedPage(
    tabs: map<TabId, Context>, url: string, requestId: Value, userId: Value,
    fetch: Fetch, t: TabId, token: string, token2: string)
    requires t != 0
    ensures var s := ResolveAndOpen(tabs, Str(url), requestId, userId, fetch, Some(t), token);
      var p := PlanOpen(url, fetch);
      var u := OnTabUpdated(s.tabs, t, Some("complete"), Some(p.target), token2);
      && (p.scrape ==> u == Step(s.tabs, []))
      && (!p.scrape && token != "" ==>
            u.tabs == s.tabs && u.effects == [ExecuteCustomLinkFlow(t, Str(p.finalUrl), Str(token))])
  {
    OpenCreatesContext(tabs, url, requestId, userId, fetch, t, token);
    PlanTarget(url, fetch);
  }

  // ---------------------------------------------------------------------------------------------
  // A whole session

  /**
   * `open_url` for `https://x/product/1/999` (not a shortlink, so whatever the redirect outcome)
   * opens the product-offer page for `999`, whose own load
   * does nothing; `DETAILS_SCRAPED` navigates to the custom-link page; its load sends
   * `EXECUTE_CUSTOM_LINK_FLOW` with the product URL and the subId; `LINK_GENERATED` posts the
   * result with the request's ids, the link and the data, and the session is gone.
   */
  lemma ProductSession(
    t: TabId, data: Value, fetch: Fetch, token0: string, token1: string, token2: string, token3: string)
    requires t != 0
    ensures
      var url := ExampleProductUrl;
      var s0 := OnStreamMessage(map[], Message(Str("open_url"), Str(url), Str("r1"), Str("u1")), fetch, Some(t), token0);
      var s1 := OnTabUpdated(s0.tabs, t, Some("complete"), Some(ProductOfferPrefix + "999"), token1);
      var s2 := OnMessage(s1.tabs, Request(Str("DETAILS_SCRAPED"), data, Undefined, Undefined), Some(t), token1);
      var s3 := OnTabUpdated(s2.tabs, t, Some("complete"), Some(CustomLinkUrl), token2);
      var s4 := OnMessage(s3.tabs, Request(Str("LINK_GENERATED"), Undefined, Str("L"), Undefined), Some(t), token3);
      var sub := if token1 != "" then Str(token1) else Str(token2);
      && s0.effects == [CreateTab(ProductOfferPrefix + "999")]
      && s1 == Step(s0.tabs, [])
      && s2.effects == [NavigateTab(t, CustomLinkUrl)]
      && s3.effects == [ExecuteCustomLinkFlow(t, Str(url), sub)]
      && s4.effects == [PostResult(ResultPayload(Str("L"), data, Str("r1"), sub, Str(url), Str("u1"))), RemoveTab(t)]
      && s4.tabs == map[]
  {
    var url := ExampleProductUrl;
    var c0 := Context(Str("r1"), Str("u1"), Str(url), Null, Null, Bool(false));
    var c1 := c0.(productData := data, subId := Str(token1));
    var sub := if token1 != "" then Str(token1) else Str(token2);
    SessionOpened(t, fetch, token0);
    SessionProductPageLoad(t, c0, token1);
    SessionScraped(t, c0, data, token1);
    SessionCustomLinkLoad(t, c1, token2);
    SessionLinkGenerated(t, c1.(subId := sub), token3);
  }

  lemma SessionOpened(t: TabId, fetch: Fetch, token0: string)
    requires t != 0
    ensures OnStreamMessage(map[], Message(Str("open_url"), Str(ExampleProductUrl), Str("r1"), Str("u1")), fetch, Some(t), token0)
      == Step(map[t := Context(Str("r1"), Str("u1"), Str(ExampleProductUrl), Null, Null, Bool(false))],
              [CreateTab(ProductOfferPrefix + "999")])
  {
    var url := ExampleProductUrl;
    assert Dispatch(Message(Str("open_url"), Str(url), Str("r1"), Str("u1"))) == OpenUrl(Str(url), Str("r1"), Str("u1"));
    assert PlanOpen(url, fetch) == Plan(url, Some("999"), ProductOfferPrefix + "999", true) by {
      ExampleProductUrlNotShortlink();
      assert FinalUrl(url, fetch) == url;
      ExampleProductUrlId();
    }
  }

  lemma SessionProductPageLoad(t: TabId, c: Context, token: string)
    ensures OnTabUpdated(map[t := c], t, Some("complete"), Some(ProductOfferPrefix + "999"), token)
      == Step(map[t := c], [])
  {
    ProductOfferIsNotCustomLink("999");
  }

  lemma SessionScraped(t: TabId, c: Context, data: Value, token: string)
    requires t != 0
    ensures OnMessage(map[t := c], Request(Str("DETAILS_SCRAPED"), data, Undefined, Undefined), Some(t), token)
      == Step(map[t := c.(productData := data, subId := Str(token))], [NavigateTab(t, CustomLinkUrl)])
  {
  }

  lemma SessionCustomLinkLoad(t: TabId, c: Context, token: string)
    ensures var sub := if Truthy(c.subId) then c.subId else Str(token);
      OnTabUpdated(map[t := c], t, Some("complete"), Some(CustomLinkUrl), token)
        == Step(map[t := c.(subId := sub)], [ExecuteCustomLinkFlow(t, c.productUrl, sub)])
  {
    CustomLinkHasMarker();
  }

  lemma SessionLinkGenerated(t: TabId, c: Context, token: string)
    requires t != 0
    ensures OnMessage(map[t := c], Request(Str("LINK_GENERATED"), Undefined, Str("L"), Undefined), Some(t), token)
      == Step(map[], [PostResult(ResultPayload(Str("L"), c.productData, c.requestId, c.subId, c.productUrl, c.userId)), RemoveTab(t)])
  {
    assert map[t := c] - {t} == map[];
  }
}
