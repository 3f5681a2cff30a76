/**
 * The URL resolver of `resolveAndOpen` (background.js): the shortlink test, the redirect outcome,
 * the query strip, the three ordered item-ID regexes and the choice of the page to open.
 *
 * Each regex has the form `lead(\d+)sep(\d+)` with a non-digit separator. `MatchAt` scans one
 * position greedily; `Spans`/`RegexMatchesAt`/`Captures` state independently what a backtracking
 * regex engine accepts and captures there, and `MatchAt`'s contract ties the two together.
 */
module Resolver {
  import opened Wrappers
  import opened Text

  /** A regex `lead(\d+)sep(\d+)`. */
  datatype Shape = Shape(lead: string, sep: char)

  /** `/\/product\/(\d+)\/(\d+)/` */
  const ProductPath: Pattern := Shape("/product/", '/')
  /** `/-i\.(\d+)\.(\d+)/` */
  const DashItem: Pattern := Shape("-i.", '.')
  /** `/\/bs\/(\d+)\/(\d+)/` */
  const ShortPath: Pattern := Shape("/bs/", '/')
  /** The order in which the script tries the three regexes. */
  const Patterns: seq<Pattern> := [ProductPath, DashItem, ShortPath]

  /** The marker the tab-updated listener looks for in a tab's URL. */
  const CustomLinkMarker := "/offer/custom_link"
  const AffiliateHost := "https://affiliate.shopee.vn"
  /** `https://affiliate.shopee.vn/offer/product_offer/` */
  const ProductOfferPrefix := AffiliateHost + "/offer/product_offer/"
  /** `https://affiliate.shopee.vn/offer/custom_link` */
  const CustomLinkUrl := AffiliateHost + CustomLinkMarker

  predicate Separated(sh: Shape) {
    !IsDigit(sh.sep)
  }

  /** A shape whose separator is not a digit, as in all three regexes. */
  type Pattern = sh: Shape | Separated(sh) witness Shape("/", '/')

  /**
   * The regex of `sh` matches `s` at `i` with a first digit group of length `a` and a second one
   * of length `b` (any choice a backtracking engine could make).
   */
  predicate Spans(s: string, sh: Shape, i: nat, a: nat, b: nat) {
    var j := i + |sh.lead|;
    && OccursAt(s, sh.lead, i)
    && 0 < a && 0 < b && j + a + 1 + b <= |s|
    && (forall k :: j <= k < j + a ==> IsDigit(s[k]))
    && s[j + a] == sh.sep
    && (forall k :: j + a + 1 <= k < j + a + 1 + b ==> IsDigit(s[k]))
  }

  ghost predicate RegexMatchesAt(s: string, sh: Shape, i: nat) {
    exists a: nat, b: nat :: Spans(s, sh, i, a, b)
  }

  /** `id` is group 2 of a match at `i` in which the greedy `\d+` took as many digits as it could. */
  ghost predicate Captures(s: string, sh: Shape, i: nat, id: string) {
    exists a: nat ::
      && Spans(s, sh, i, a, |id|)
      && !Spans(s, sh, i, a, |id| + 1)
      && id == s[i + |sh.lead| + a + 1 .. i + |sh.lead| + a + 1 + |id|]
  }

  /** Greedy scan of the regex of `sh` at position `i`; the captured second digit group. */
  function MatchAt(s: string, sh: Shape, i: nat): (r: Option<string>)
    requires i <= |s|
    requires Separated(sh)
    ensures r.Some? <==> RegexMatchesAt(s, sh, i)
    ensures r.Some? ==> Captures(s, sh, i, r.value)
    ensures r.Some? ==> |r.value| > 0 && AllDigits(r.value)
  {
    if !OccursAt(s, sh.lead, i) then None
    else
      var j := i + |sh.lead|;
      var a := DigitRun(s, j);
      if a == 0 || j + a == |s| || s[j + a] != sh.sep then
        NoSpanWithoutGreedy(s, sh, i);
        None
      else
        var b := DigitRun(s, j + a + 1);
        if b == 0 then
          NoSpanWithoutGreedy(s, sh, i);
          None
        else
          assert Spans(s, sh, i, a, b);
          Some(s[j + a + 1 .. j + a + 1 + b])
  }

  /** The first digit group is forced: only the maximal digit run can be followed by the separator. */
  lemma NoSpanWithoutGreedy(s: string, sh: Shape, i: nat)
    requires i <= |s| && Separated(sh) && OccursAt(s, sh.lead, i)
    ensures forall a: nat, b: nat :: Spans(s, sh, i, a, b) ==>
      var j := i + |sh.lead|;
      a == DigitRun(s, j) && b <= DigitRun(s, j + a + 1)
  {
  }

  /** The leftmost position at or after `i` where the regex of `sh` matches (what `String.prototype.match` reports). */
  function Leftmost(s: string, sh: Shape, i: nat): (r: Option<nat>)
    requires i <= |s|
    requires Separated(sh)
    ensures r.Some? ==> i <= r.value <= |s| && RegexMatchesAt(s, sh, r.value)
    ensures r.Some? ==> forall k: nat :: i <= k < r.value ==> !RegexMatchesAt(s, sh, k)
    ensures r.None? ==> forall k: nat :: i <= k <= |s| ==> !RegexMatchesAt(s, sh, k)
    decreases |s| - i
  {
    if MatchAt(s, sh, i).Some? then Some(i)
    else if i == |s| then None
    else Leftmost(s, sh, i + 1)
  }

  /** The regex matches at `k` and nowhere before it, and `id` is group 2 of that match. */
  ghost predicate LeftmostCapture(s: string, sh: Shape, k: nat, id: string) {
    && k <= |s|
    && RegexMatchesAt(s, sh, k)
    && (forall k': nat :: k' < k ==> !RegexMatchesAt(s, sh, k'))
    && Captures(s, sh, k, id)
  }

  ghost predicate MatchesNowhere(s: string, sh: Shape) {
    forall k: nat :: k <= |s| ==> !RegexMatchesAt(s, sh, k)
  }

  /** `s.match(regex)[2]`, or `None` when the regex does not match anywhere in `s`. */
  function Find(s: string, sh: Shape): (r: Option<string>)
    requires Separated(sh)
    ensures r.None? <==> MatchesNowhere(s, sh)
    ensures r.Some? ==> exists k: nat :: LeftmostCapture(s, sh, k, r.value)
    ensures r.Some? ==> |r.value| > 0 && AllDigits(r.value)
  {
    match Leftmost(s, sh, 0)
    case Some(k) =>
      var m := MatchAt(s, sh, k);
      assert LeftmostCapture(s, sh, k, m.value);
      m
    case None => None
  }

  /** JavaScript truthiness of the `itemId` variable (`null` or `""` are falsy). */
  predicate Found(itemId: Option<string>) {
    itemId.Some? && itemId.value != ""
  }

  /**
   * Lines 53-67: `itemId` starts as `null`; each regex is tried only while `itemId` is falsy, and a
   * successful match overwrites it with the match's second group.
   */
  function ExtractItemId(url: string): (itemId: Option<string>)
    ensures itemId.Some? ==> |itemId.value| > 0 && AllDigits(itemId.value)
  {
    var clean := StripQuery(url);
    var id1 := Find(clean, ProductPath);
    var id2 := if Found(id1) then id1 else
      match Find(clean, DashItem) case Some(m) => Some(m) case None => id1;
    if Found(id2) then id2 else
      match Find(clean, ShortPath) case Some(m) => Some(m) case None => id2
  }

  /** Reference ordering: the first shape in `shapes` that matches anywhere decides the item ID. */
  function FirstMatch(s: string, shapes: seq<Pattern>): Option<string>
  {
    if shapes == [] then None
    else
      var m := Find(s, shapes[0]);
      if m.Some? then m else FirstMatch(s, shapes[1..])
  }

  /** Once a shape matches, no later shape is consulted: its second group is the result. */
  lemma {:induction false} FirstMatchPriority(s: string, shapes: seq<Pattern>, k: nat)
    requires k < |shapes| && Find(s, shapes[k]).Some?
    requires forall m :: 0 <= m < k ==> Find(s, shapes[m]).None?
    ensures FirstMatch(s, shapes) == Find(s, shapes[k])
  {
    if k > 0 {
      FirstMatchPriority(s, shapes[1..], k - 1);
    }
  }

  /** No item ID exactly when no shape matches anywhere. */
  lemma {:induction false} FirstMatchNone(s: string, shapes: seq<Pattern>)
    ensures FirstMatch(s, shapes).None? <==> forall m :: 0 <= m < |shapes| ==> Find(s, shapes[m]).None?
  {
    if shapes != [] {
      FirstMatchNone(s, shapes[1..]);
      assert forall m :: 1 <= m < |shapes| ==> shapes[m] == shapes[1..][m - 1];
    }
  }

  /**
   * The three truthiness-guarded tests of lines 56-67 are exactly "first shape in `Patterns` wins",
   * because a match's second group is never empty.
   */
  lemma ExtractIsFirstMatch(url: string)
    ensures ExtractItemId(url) == FirstMatch(StripQuery(url), Patterns)
  {
    var clean := StripQuery(url);
    ExtractCascade(url);
    PatternsCascade(clean);
  }

  lemma ExtractCascade(url: string)
    ensures var clean := StripQuery(url);
      var f1, f2, f3 := Find(clean, ProductPath), Find(clean, DashItem), Find(clean, ShortPath);
      ExtractItemId(url) == if f1.Some? then f1 else if f2.Some? then f2 else f3
  {
  }

  lemma PatternsCascade(s: string)
    ensures var f1, f2, f3 := Find(s, ProductPath), Find(s, DashItem), Find(s, ShortPath);
      FirstMatch(s, Patterns) == if f1.Some? then f1 else if f2.Some? then f2 else f3
  {
    var f1, f2, f3 := Find(s, ProductPath), Find(s, DashItem), Find(s, ShortPath);
    assert Patterns[1..] == [DashItem, ShortPath];
    assert Patterns[1..][1..] == [ShortPath];
    assert FirstMatch(s, []) == None;
    assert FirstMatch(s, [ShortPath]) == if f3.Some? then f3 else None;
    assert FirstMatch(s, [DashItem, ShortPath]) == if f2.Some? then f2 else FirstMatch(s, [ShortPath]);
  }

  /** Only the part before the first `?` is examined: appending a query string changes nothing. */
  lemma ExtractIgnoresQuery(url: string, query: string)
    requires '?' !in url
    ensures ExtractItemId(url + "?" + query) == ExtractItemId(url)
  {
    StripQueryOfQuery(url, query);
  }

  /** What the script sees of the redirect-following `fetch(url)`: the response URL, or a thrown error. */
  datatype Fetch = Followed(responseUrl: string) | Failed

  /** Line 42: `url.includes('shp.ee') || url.includes('/universal-link/')`. */
  predicate IsShortlink(url: string) {
    Contains(url, "shp.ee") || Contains(url, "/universal-link/")
  }

  /** Lines 39-50: the URL the rest of `resolveAndOpen` works on. */
  function FinalUrl(url: string, fetch: Fetch): string {
    if IsShortlink(url) && fetch.Followed? then fetch.responseUrl else url
  }

  /** Lines 69-80: the page to open for an item ID. */
  function TargetUrl(itemId: Option<string>): string {
    if Found(itemId) then ProductOfferPrefix + itemId.value else CustomLinkUrl
  }

  /** What `resolveAndOpen` decides before it opens the tab. */
  datatype Plan = Plan(finalUrl: string, itemId: Option<string>, target: string, scrape: bool)

  function PlanOpen(url: string, fetch: Fetch): Plan {
    var finalUrl := FinalUrl(url, fetch);
    var itemId := ExtractItemId(finalUrl);
    Plan(finalUrl, itemId, TargetUrl(itemId), Found(itemId))
  }

  /** The redirect outcome is consulted only for shortlinks; a failed fetch falls back to the input URL. */
  lemma FetchOnlyForShortlinks(url: string, fetch: Fetch)
    ensures !IsShortlink(url) ==> PlanOpen(url, fetch) == PlanOpen(url, Failed)
    ensures PlanOpen(url, Failed).finalUrl == url
    ensures IsShortlink(url) && fetch.Followed? ==> PlanOpen(url, fetch).finalUrl == fetch.responseUrl
  {
  }

  /**
   * The opened page: the product-offer page of a found ID, otherwise the custom-link page; and it
   * is the custom-link page (the one the tab-updated listener reacts to) exactly when no ID was found.
   */
  lemma {:induction false} PlanTarget(url: string, fetch: Fetch)
    ensures var p := PlanOpen(url, fetch);
      && (p.scrape <==> p.itemId.Some?)
      && (p.scrape ==> p.target == ProductOfferPrefix + p.itemId.value)
      && (!p.scrape ==> p.target == CustomLinkUrl)
      && (Contains(p.target, CustomLinkMarker) <==> !p.scrape)
  {
    var p := PlanOpen(url, fetch);
    if p.scrape {
      ProductOfferIsNotCustomLink(p.itemId.value);
    } else {
      CustomLinkHasMarker();
    }
  }

  lemma CustomLinkHasMarker()
    ensures Contains(CustomLinkUrl, CustomLinkMarker)
  {
    assert CustomLinkUrl[|AffiliateHost|..] == CustomLinkMarker;
    assert OccursAt(CustomLinkUrl, CustomLinkMarker, |AffiliateHost|);
  }

  /** No product-offer URL contains the custom-link marker: the marker ends in `k`, which occurs in neither part. */
  lemma ProductOfferIsNotCustomLink(id: string)
    requires AllDigits(id)
    ensures !Contains(ProductOfferPrefix + id, CustomLinkMarker)
  {
    PrefixLacksK();
    assert 'k' !in id by {
      forall i | 0 <= i < |id| ensures id[i] != 'k' {
        assert IsDigit(id[i]);
      }
    }
    assert 'k' !in ProductOfferPrefix + id;
    MissingCharacterRulesOut(ProductOfferPrefix + id, CustomLinkMarker, 17);
  }

  lemma PrefixLacksK()
    ensures 'k' !in ProductOfferPrefix
  {
    assert 'k' !in "https://affiliate." && 'k' !in "shopee.vn";
    assert AffiliateHost == "https://affiliate." + "shopee.vn";
    assert 'k' !in "/offer/product_offer/";
  }

  /** The leftmost match is at `p` when the lead occurs nowhere before `p`. */
  lemma FindAt(s: string, sh: Shape, p: nat)
    requires p <= |s| && Separated(sh) && MatchAt(s, sh, p).Some?
    requires forall k :: 0 <= k < p ==> !OccursAt(s, sh.lead, k)
    ensures Find(s, sh) == MatchAt(s, sh, p)
  {
    var r := Leftmost(s, sh, 0);
    assert r.Some? && r.value <= p;
    assert OccursAt(s, sh.lead, r.value);
  }

  const AmbiguousUrl := "-i.1.2/product/3/4"

  lemma AmbiguousDashMatch()
    ensures Find(AmbiguousUrl, DashItem) == Some("2")
  {
    AmbiguousMatchAtZero();
    FindAt(AmbiguousUrl, DashItem, 0);
  }

  lemma AmbiguousMatchAtZero()
    ensures MatchAt(AmbiguousUrl, DashItem, 0) == Some("2")
  {
    var s := AmbiguousUrl;
    assert OccursAt(s, "-i.", 0);
    assert DigitRun(s, 3) == 1 by { assert !IsDigit(s[4]); }
    assert DigitRun(s, 5) == 1 by { assert !IsDigit(s[6]); }
    assert s[5..6] == "2";
  }

  lemma AmbiguousProductMatch()
    ensures Find(AmbiguousUrl, ProductPath) == Some("4")
  {
    AmbiguousMatchAtSix();
    AmbiguousNoEarlierLead();
    FindAt(AmbiguousUrl, ProductPath, 6);
  }

  lemma AmbiguousMatchAtSix()
    ensures MatchAt(AmbiguousUrl, ProductPath, 6) == Some("4")
  {
    var s := AmbiguousUrl;
    assert s == "-i.1.2/p" + "roduct/3/4";
    assert OccursAt(s, "/product/", 6);
    assert DigitRun(s, 15) == 1 by { assert !IsDigit(s[16]); }
    assert DigitRun(s, 17) == 1;
    assert s[17..18] == "4";
  }

  lemma AmbiguousNoEarlierLead()
    ensures forall k :: 0 <= k < 6 ==> !OccursAt(AmbiguousUrl, "/product/", k)
  {
    var s := AmbiguousUrl;
    assert s[..8] == "-i.1.2/p";
    assert 'r' !in "-i.1.2/p";
    forall k | 0 <= k < 6
      ensures !OccursAt(s, "/product/", k)
    {
      assert s[k..k + 9][2] == s[k + 2] == s[..8][k + 2];
      assert s[..8][k + 2] != 'r' == "/product/"[2];
    }
  }

  /**
   * Pattern priority on an ambiguous URL: the `-i.` shape matches at the very start, yet the
   * `/product/` shape, tried first, decides the item ID.
   */
  lemma ProductShapeOutranksEarlierDashShape()
    ensures Find(AmbiguousUrl, DashItem) == Some("2")
    ensures ExtractItemId(AmbiguousUrl) == Some("4")
  {
    assert '?' !in AmbiguousUrl;
    StripQueryOfQuery(AmbiguousUrl, "");
    AmbiguousDashMatch();
    AmbiguousProductMatch();
    ExtractCascade(AmbiguousUrl);
  }

  const ExampleProductUrl := "https://x/product/1/999"

  lemma ExampleProductMatch()
    ensures Find(ExampleProductUrl, ProductPath) == Some("999")
  {
    ExampleMatchAtNine();
    ExampleNoEarlierLead();
    FindAt(ExampleProductUrl, ProductPath, 9);
  }

  lemma ExampleMatchAtNine()
    ensures MatchAt(ExampleProductUrl, ProductPath, 9) == Some("999")
  {
    var s := ExampleProductUrl;
    assert OccursAt(s, "/product/", 9);
    assert DigitRun(s, 18) == 1 by { assert !IsDigit(s[19]); }
    assert DigitRun(s, 20) == 3;
    assert s[20..23] == "999";
  }

  lemma ExampleNoEarlierLead()
    ensures forall k :: 0 <= k < 9 ==> !OccursAt(ExampleProductUrl, "/product/", k)
  {
    var s := ExampleProductUrl;
    assert s[..11] == "https://x/p";
    assert 'r' !in "https://x/p";
    forall k | 0 <= k < 9
      ensures !OccursAt(s, "/product/", k)
    {
      assert s[k..k + 9][2] == s[k + 2] == s[..11][k + 2];
      assert s[..11][k + 2] != 'r' == "/product/"[2];
    }
  }

  /** `https://x/product/1/999` is not a shortlink: both markers contain an `e`, which the URL lacks. */
  lemma ExampleProductUrlNotShortlink()
    ensures !IsShortlink(ExampleProductUrl)
  {
    var head, tail := "https://x/", "product/1/999";
    assert 'e' !in head && 'e' !in tail;
    assert ExampleProductUrl == head + tail;
    MissingCharacterRulesOut(ExampleProductUrl, "shp.ee", 4);
    MissingCharacterRulesOut(ExampleProductUrl, "/universal-link/", 5);
  }

  /** The item ID of `https://x/product/1/999` is `999`, the second digit group. */
  lemma ExampleProductUrlId()
    ensures ExtractItemId(ExampleProductUrl) == Some("999")
  {
    assert '?' !in ExampleProductUrl;
    StripQueryOfQuery(ExampleProductUrl, "");
    ExampleProductMatch();
    ExtractCascade(ExampleProductUrl);
  }
}
