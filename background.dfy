/**
 * The background service worker as an object: its two module variables (`tabContextMap` and
 * `eventSource`) are fields, each listener is a method that updates them in place, and every call
 * into Chrome or `fetch` is appended to `outbox`. Each method is proved to do what the step
 * function of the same handler in `Workflow` or `Stream` describes.
 */
module Extension {
  import opened Wrappers
  import opened JsValues
  import opened Text
  import opened Resolver
  import opened Workflow
  import Stream

  class Background {
    var tabContextMap: map<TabId, Context>
    /** Calls made to Chrome and the network, oldest first. */
    var outbox: seq<Effect>
    /** Every EventSource created so far, with its `readyState`. */
    var sources: seq<Stream.ReadyState>
    /** The module variable `eventSource`: an index into `sources`, or `None` for `null`. */
    var eventSource: Option<nat>
    /** `setTimeout(connectToStream, 5000)` calls not yet fired. */
    var pendingReconnects: nat

    function Connection(): Stream.Conn
      reads this
    {
      Stream.Conn(sources, eventSource, pendingReconnects)
    }

    ghost predicate Valid()
      reads this
    {
      Stream.Valid(Connection())
    }

    /** Loading the script: an empty map, then `connectToStream()` (lines 16-17, 215). */
    constructor ()
      ensures Valid()
      ensures tabContextMap == map[] && outbox == []
      ensures Connection() == Stream.Start()
    {
      tabContextMap := map[];
      outbox := [];
      sources := [];
      eventSource := None;
      pendingReconnects := 0;
      new;
      ConnectToStream();
    }

    /** Lines 105-109. */
    method ConnectToStream()
      requires Valid()
      modifies this
      ensures Valid()
      ensures Connection() == Stream.Connect(old(Connection()))
      ensures tabContextMap == old(tabContextMap) && outbox == old(outbox)
    {
      Stream.TransitionsPreserveValid(Connection(), Stream.Closed, "");
      if eventSource.Some? && sources[eventSource.value] != Stream.Closed {
        return;
      }
      sources := sources + [Stream.Connecting];
      eventSource := Some(|sources| - 1);
    }

    /** `eventSource.onerror` (lines 128-134). */
    method OnStreamError()
      requires Valid()
      modifies this
      ensures Valid()
      ensures Connection() == Stream.OnError(old(Connection()))
      ensures tabContextMap == old(tabContextMap) && outbox == old(outbox)
    {
      Stream.TransitionsPreserveValid(Connection(), Stream.Closed, "");
      if eventSource.None? {
        return;
      }
      var current := eventSource.value;
      if sources[current] == Stream.Connecting {
        return;
      }
      sources := sources[current := Stream.Closed];
      eventSource := None;
      pendingReconnects := pendingReconnects + 1;
    }

    /** A reconnect timer scheduled by `onerror` fires. */
    method OnReconnectTimer()
      requires Valid() && pendingReconnects > 0
      modifies this
      ensures Valid()
      ensures Connection() == Stream.OnReconnectTimer(old(Connection()))
      ensures tabContextMap == old(tabContextMap) && outbox == old(outbox)
    {
      Stream.TransitionsPreserveValid(Connection(), Stream.Closed, "");
      pendingReconnects := pendingReconnects - 1;
      ConnectToStream();
    }

    /** `chrome.alarms.onAlarm` (lines 6-14). */
    method OnAlarm(name: string)
      requires Valid()
      modifies this
      ensures Valid()
      ensures Connection() == Stream.OnAlarm(old(Connection()), name)
      ensures tabContextMap == old(tabContextMap) && outbox == old(outbox)
    {
      if name == "keepAlive" {
        if eventSource.None? || sources[eventSource.value] == Stream.Closed {
          ConnectToStream();
        }
      }
    }

    /** The browser moves the held EventSource to another `readyState`. */
    method TransportChanged(st: Stream.ReadyState)
      requires Valid() && eventSource.Some? && Stream.Live(sources[eventSource.value])
      modifies this
      ensures Valid()
      ensures Connection() == Stream.Transport(old(Connection()), st)
      ensures tabContextMap == old(tabContextMap) && outbox == old(outbox)
    {
      Stream.TransitionsPreserveValid(Connection(), st, "");
      sources := sources[eventSource.value := st];
    }

    /** `resolveAndOpen` (lines 35-102); the tab's id comes back through the `chrome.tabs.create` callback. */
    method ResolveAndOpen(
      url: Value, requestId: Value, userId: Value, fetch: Fetch, createdTab: Option<TabId>, token: string)
      modifies this
      ensures var s := Workflow.ResolveAndOpen(old(tabContextMap), url, requestId, userId, fetch, createdTab, token);
        tabContextMap == s.tabs && outbox == old(outbox) + s.effects
      ensures Connection() == old(Connection())
    {
      if !url.Str? {
        return;
      }
      var finalUrl := url.text;
      if IsShortlink(url.text) && fetch.Followed? {
        finalUrl := fetch.responseUrl;
      }
      assert finalUrl == FinalUrl(url.text, fetch);

      var itemId: Option<string> := None;
      var cleanUrl := StripQuery(finalUrl);
      var match1 := Find(cleanUrl, ProductPath);
      if match1.Some? {
        itemId := match1;
      }
      if !Found(itemId) {
        var match2 := Find(cleanUrl, DashItem);
        if match2.Some? {
          itemId := match2;
        }
      }
      if !Found(itemId) {
        var match3 := Find(cleanUrl, ShortPath);
        if match3.Some? {
          itemId := match3;
        }
      }
      ExtractCascade(finalUrl);
      assert itemId == ExtractItemId(finalUrl);

      var targetUrl: string;
      var isDetailsScrapingPossible := false;
      if Found(itemId) {
        targetUrl := ProductOfferPrefix + itemId.value;
        isDetailsScrapingPossible := true;
      } else {
        targetUrl := CustomLinkUrl;
        isDetailsScrapingPossible := false;
      }

      assert PlanOpen(url.text, fetch) == Plan(finalUrl, itemId, targetUrl, isDetailsScrapingPossible);
      OpenTab(targetUrl, finalUrl, isDetailsScrapingPossible, requestId, userId, createdTab, token);
    }

    /** `chrome.tabs.create` and its callback (lines 83-97). */
    method OpenTab(
      targetUrl: string, finalUrl: string, isDetailsScrapingPossible: bool,
      requestId: Value, userId: Value, createdTab: Option<TabId>, token: string)
      modifies this
      ensures outbox == old(outbox) + [CreateTab(targetUrl)]
      ensures var context := NewContext(finalUrl, isDetailsScrapingPossible, requestId, userId, token);
        tabContextMap == if TruthyTab(createdTab) then old(tabContextMap)[createdTab.value := context] else old(tabContextMap)
      ensures Connection() == old(Connection())
    {
      outbox := outbox + [CreateTab(targetUrl)];
      if TruthyTab(createdTab) {
        var context := Context(
          requestId, userId, Str(finalUrl), Null,
          if isDetailsScrapingPossible then Null else Str(token),
          Bool(!isDetailsScrapingPossible));
        tabContextMap := tabContextMap[createdTab.value := context];
      }
    }

    /** `eventSource.onmessage` (lines 115-126). */
    method OnStreamMessage(ev: StreamEvent, fetch: Fetch, createdTab: Option<TabId>, token: string)
      modifies this
      ensures var s := Workflow.OnStreamMessage(old(tabContextMap), ev, fetch, createdTab, token);
        tabContextMap == s.tabs && outbox == old(outbox) + s.effects
      ensures Connection() == old(Connection())
    {
      if ev.Message? && ev.kind == Str("open_url") && Truthy(ev.url) {
        ResolveAndOpen(ev.url, ev.requestId, ev.userId, fetch, createdTab, token);
      } else if ev.Message? && ev.kind == Str("connected") {
        // handshake: logged only
      }
    }

    /** `chrome.runtime.onMessage` (lines 138-191). */
    method OnRuntimeMessage(request: Request, sender: Option<TabId>, token: string)
      modifies this
      ensures var s := Workflow.OnMessage(old(tabContextMap), request, sender, token);
        tabContextMap == s.tabs && outbox == old(outbox) + s.effects
      ensures Connection() == old(Connection())
    {
      if request.action == Str("DEBUG_LOG") {
        return;
      }
      if !TruthyTab(sender) {
        return;
      }
      var tabId := sender.value;

      if request.action == Str("DETAILS_SCRAPED") {
        var context := if tabId in tabContextMap then tabContextMap[tabId] else EmptyContext;
        context := context.(productData := request.data);
        context := context.(subId := Str(token));
        tabContextMap := tabContextMap[tabId := context];
        outbox := outbox + [NavigateTab(tabId, CustomLinkUrl)];
      }

      if request.action == Str("LINK_GENERATED") && Truthy(request.link) {
        if tabId !in tabContextMap {
          return;
        }
        var context := tabContextMap[tabId];
        outbox := outbox + [PostResult(ResultPayload(
          request.link, context.productData, context.requestId, context.subId, context.productUrl, context.userId))];
        tabContextMap := tabContextMap - {tabId};
        outbox := outbox + [RemoveTab(tabId)];
      }
    }

    /** `chrome.tabs.onUpdated` (lines 194-212). */
    method OnTabUpdated(tabId: TabId, status: Option<string>, url: Option<string>, token: string)
      modifies this
      ensures var s := Workflow.OnTabUpdated(old(tabContextMap), tabId, status, url, token);
        tabContextMap == s.tabs && outbox == old(outbox) + s.effects
      ensures Connection() == old(Connection())
    {
      if status == Some("complete") && url.Some? && url.value != "" && Contains(url.value, CustomLinkMarker) {
        if tabId in tabContextMap {
          var context := tabContextMap[tabId];
          if !Truthy(context.subId) {
            context := context.(subId := Str(token));
            tabContextMap := tabContextMap[tabId := context];
          }
          outbox := outbox + [ExecuteCustomLinkFlow(tabId, context.productUrl, context.subId)];
        }
      }
    }
  }
}
