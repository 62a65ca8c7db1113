/**
 * The single-shot HTTP endpoint `POST /parse`: it builds a scraper
 * configuration from the request, fetches one page per URL, runs the
 * cleaning, seller and filter pipeline, and answers with the `(id, price)`
 * pairs of the surviving listings.
 */
module Api {
  import opened Wrappers
  import opened Json
  import opened Models
  import opened PyStr
  import opened Extract
  import opened Filters
  import opened PageUrl
  import opened CrawlSpec
  import opened Crawler
  import Seqs

  // ---------------------------------------------------------------------
  // verify_token
  // ---------------------------------------------------------------------

  /** The outcome of the bearer-token dependency. */
  datatype Auth =
    | Authorized(token: string)
    | Rejected(status: int)   // HTTPException with a `WWW-Authenticate: Bearer` header

  /**
   * `verify_token`: the presented credential must equal `API_TOKEN`; an
   * unset `API_TOKEN` (None) therefore rejects every request.
   */
  function VerifyToken(presented: string, apiToken: Option<string>): (r: Auth)
    ensures r.Authorized? <==> apiToken == Some(presented)
    ensures r.Authorized? ==> r.token == presented
    ensures r.Rejected? ==> r.status == 401
  {
    if apiToken != Some(presented) then Rejected(401) else Authorized(presented)
  }

  // ---------------------------------------------------------------------
  // The request configuration
  // ---------------------------------------------------------------------

  /** The request body: the URLs and the two optional price bounds. */
  datatype ParseRequest = ParseRequest(urls: seq<Url>, minPrice: Option<int>, maxPrice: Option<int>)

  /** The environment variables the endpoint reads; an unset variable is "". */
  datatype Env = Env(proxyString: string, proxyChangeUrl: string, proxyChangeUrls: string)

  /** The upper price bound used when the request gives none (or 0). */
  const MaxPriceCap: int := 999999999

  /** Python's `x or default` on an optional integer: None and 0 both give the default. */
  function OrDefault(x: Option<int>, default: int): (r: int)
    ensures x.Some? && x.value != 0 ==> r == x.value
    ensures x.None? || x.value == 0 ==> r == default
  {
    if x.Some? && x.value != 0 then x.value else default
  }

  /**
   * The filter part of the request configuration: the request's price
   * bounds, and every optional stage switched off.
   */
  function ApiFilter(req: ParseRequest): (r: FilterConfig)
    ensures OnlyPriceEnabled(r)
    ensures r.minPrice == (if req.minPrice.Some? then req.minPrice.value else 0)
    ensures r.maxPrice == (if req.maxPrice.Some? && req.maxPrice.value != 0 then req.maxPrice.value else MaxPriceCap)
  {
    FilterConfig(OrDefault(req.minPrice, 0), OrDefault(req.maxPrice, MaxPriceCap), [], [], "", [], 0, false, false)
  }

  /** A link as `PROXY_CHANGE_URLS` keeps it: non-blank and already stripped. */
  predicate CleanLink(link: string) {
    link != [] && !IsSpace(link[0]) && !IsSpace(link[|link| - 1])
  }

  /** The non-blank, stripped pieces of a list of links. */
  function CleanLinks(parts: seq<string>): (r: seq<string>)
    ensures forall k :: 0 <= k < |r| ==> CleanLink(r[k])
  {
    if parts == [] then []
    else
      var link := Strip(parts[0]);
      var rest := CleanLinks(parts[1..]);
      if link == [] then rest
      else
        ConsClean(link, rest);
        [link] + rest
  }

  lemma ConsClean(link: string, rest: seq<string>)
    requires link != [] && link == Strip(link)
    requires forall k :: 0 <= k < |rest| ==> CleanLink(rest[k])
    ensures forall k :: 0 <= k < |[link] + rest| ==> CleanLink(([link] + rest)[k])
  {
    var r := [link] + rest;
    forall k | 0 <= k < |r| ensures CleanLink(r[k]) {
      if k > 0 {
        assert r[k] == rest[k - 1];
      }
    }
  }

  /** A character absent from every piece is absent from every cleaned link. */
  lemma {:induction false} CleanLinksAvoid(parts: seq<string>, c: char)
    requires forall k :: 0 <= k < |parts| ==> c !in parts[k]
    ensures forall k :: 0 <= k < |CleanLinks(parts)| ==> c !in CleanLinks(parts)[k]
    decreases |parts|
  {
    if parts != [] {
      assert c !in parts[0];
      var link := Strip(parts[0]);
      var rest := CleanLinks(parts[1..]);
      CleanLinksAvoid(parts[1..], c);
      if link != [] {
        assert CleanLinks(parts) == [link] + rest;
        StripInside(parts[0], c);
        ConsAvoid(link, rest, c);
      }
    }
  }

  lemma ConsAvoid(link: string, rest: seq<string>, c: char)
    requires c !in link
    requires forall k :: 0 <= k < |rest| ==> c !in rest[k]
    ensures forall k :: 0 <= k < |[link] + rest| ==> c !in ([link] + rest)[k]
  {
    var r := [link] + rest;
    forall k | 0 <= k < |r| ensures c !in r[k] {
      if k > 0 {
        assert r[k] == rest[k - 1];
      }
    }
  }

  /** `PROXY_CHANGE_URLS` in the form "url1|url2|url3": the stripped, non-blank pieces. */
  function ChangeLinks(raw: string): (r: seq<string>)
    ensures forall k :: 0 <= k < |r| ==> CleanLink(r[k]) && '|' !in r[k]
    ensures raw == [] ==> r == []
  {
    if raw == [] then []
    else
      CleanLinksAvoid(Split(raw, '|'), '|');
      CleanLinks(Split(raw, '|'))
  }

  /** Stripping keeps a character out if it was out. */
  lemma StripInside(s: string, c: char)
    requires c !in s
    ensures c !in Strip(s)
  {
    var i := LeadingSpace(s);
    assert forall x :: x in s[i..i + |Strip(s)|] ==> x in s;
  }

  /** Links that are already clean survive the `'|'` join and the parsing unchanged. */
  lemma {:induction false} CleanLinksIdentity(links: seq<string>)
    requires forall k :: 0 <= k < |links| ==> CleanLink(links[k])
    ensures CleanLinks(links) == links
    decreases |links|
  {
    if links != [] {
      CleanLinksIdentity(links[1..]);
      StripUnchanged(links[0]);
      assert CleanLinks(links) == [links[0]] + links[1..];
      Seqs.HeadTail(links);
    }
  }

  /** The `PROXY_CHANGE_URLS` format round-trips: joining clean links with '|' and parsing gives them back. */
  lemma ChangeLinksRoundTrip(links: seq<string>)
    requires |links| >= 1
    requires forall k :: 0 <= k < |links| ==> CleanLink(links[k]) && '|' !in links[k]
    ensures ChangeLinks(Join(links, '|')) == links
  {
    SplitJoin(links, '|');
    CleanLinksIdentity(links);
    assert |Join(links, '|')| >= |links[0]| by {
      if |links| > 1 {
        assert Join(links, '|') == links[0] + ['|'] + Join(links[1..], '|');
      }
    }
  }

  /** The scraper configuration `parse_avito` builds: one page per URL, three attempts, no views, only the price stage. */
  function ApiConfig(req: ParseRequest, env: Env, nowMicros: int): (r: CrawlConfig)
    ensures r.urls == req.urls && r.count == 1 && r.maxRetries == 3
    ensures !r.parseViews && !r.hasStopEvent && OnlyPriceEnabled(r.filter)
    ensures r.filter == ApiFilter(req)
    ensures r.proxyChangeUrls == ChangeLinks(env.proxyChangeUrls)
  {
    CrawlConfig(req.urls, 1, 3, env.proxyString, env.proxyChangeUrl, ChangeLinks(env.proxyChangeUrls),
                false, false, ApiFilter(req), nowMicros)
  }

  // ---------------------------------------------------------------------
  // The AdResult projection
  // ---------------------------------------------------------------------

  /** One entry of the answer. */
  datatype AdResult = AdResult(id: int, price: int)

  /** The id as an integer: an int id as is, a dict id's "value" entry, else 0. */
  function IdValue(id: ItemId): (r: int)
    ensures id.IntId? ==> r == id.n
    ensures id.DictId? && "value" in id.fields ==> r == id.fields["value"]
    ensures id.DictId? && "value" !in id.fields ==> r == 0
  {
    match id
    case IntId(n) => n
    case DictId(fields) => if "value" in fields then fields["value"] else 0
  }

  /** The listing as an answer entry, when its id and its price value are both truthy. */
  function Project(ad: Item): (r: Option<AdResult>)
    ensures r.Some? <==> IdTruthy(ad.id) && ad.priceDetailed.Some? && ad.priceDetailed.value.value != 0
    ensures r.Some? ==> r.value == AdResult(IdValue(ad.id.value), ad.priceDetailed.value.value)
  {
    if IdTruthy(ad.id) && ad.priceDetailed.Some? && ad.priceDetailed.value.value != 0 then
      Some(AdResult(IdValue(ad.id.value), ad.priceDetailed.value.value))
    else None
  }

  /** The projections of the listings that have one, in order. */
  function ProjectAll(ads: seq<Item>): (r: seq<AdResult>)
    ensures |r| <= |ads|
    ensures forall k :: 0 <= k < |r| ==> r[k].price != 0
  {
    if ads == [] then []
    else
      var last := ads[|ads| - 1];
      ProjectAll(ads[..|ads| - 1]) + (match Project(last) case Some(x) => [x] case None => [])
  }

  /** A result appears exactly when some listing projects to it. */
  lemma {:induction false} ProjectAllMembers(ads: seq<Item>, x: AdResult)
    ensures x in ProjectAll(ads) <==> exists k :: 0 <= k < |ads| && Project(ads[k]) == Some(x)
    decreases |ads|
  {
    if ads != [] {
      var init := ads[..|ads| - 1];
      ProjectAllMembers(init, x);
      if x in ProjectAll(ads) {
        if x in ProjectAll(init) {
          var k :| 0 <= k < |init| && Project(init[k]) == Some(x);
          assert ads[k] == init[k];
        } else {
          assert Project(ads[|ads| - 1]) == Some(x);
        }
      }
      if exists k :: 0 <= k < |ads| && Project(ads[k]) == Some(x) {
        var k :| 0 <= k < |ads| && Project(ads[k]) == Some(x);
        if k < |init| {
          assert init[k] == ads[k];
        }
      }
    }
  }

  /** Two lists whose listings project alike project to the same answer. */
  lemma {:induction false} ProjectAllPointwise(a: seq<Item>, b: seq<Item>)
    requires |a| == |b|
    requires forall k :: 0 <= k < |a| ==> Project(a[k]) == Project(b[k])
    ensures ProjectAll(a) == ProjectAll(b)
    decreases |a|
  {
    if a != [] {
      ProjectAllPointwise(a[..|a| - 1], b[..|b| - 1]);
    }
  }

  /**
   * What the pipeline of one page emits under the request configuration:
   * when every listing has a price, exactly the projections of the
   * listings inside the price range, in order; the promotion annotation
   * does not change them.
   */
  lemma PageResults(req: ParseRequest, nowMicros: int, ads: seq<Item>, filtered: seq<Item>)
    requires forall k :: 0 <= k < |ads| ==> ads[k].priceDetailed.Some?
    requires Pipeline(ApiFilter(req), nowMicros, ads) == Some(filtered)
    ensures ProjectAll(filtered) == ProjectAll(ApplyFilter(PriceRange, ApiFilter(req), nowMicros, ads))
    ensures forall x :: x in ProjectAll(filtered) ==>
      ApiFilter(req).minPrice <= x.price <= ApiFilter(req).maxPrice && x.price != 0
  {
    var cfg := ApiFilter(req);
    var priced := ApplyFilter(PriceRange, cfg, nowMicros, ads);
    OnlyPricePipeline(cfg, nowMicros, ads);
    assert !AnyRaises(PriceRange, cfg, ads) by {
      forall ad | ad in ads ensures !Raises(PriceRange, cfg, ad) {
        var k :| 0 <= k < |ads| && ads[k] == ad;
      }
    }
    if priced != [] {
      var annotated := AnnotatePromotion(priced).value;
      assert filtered == annotated;
      ProjectAllPointwise(filtered, priced);
    }
    forall x | x in ProjectAll(filtered)
      ensures cfg.minPrice <= x.price <= cfg.maxPrice && x.price != 0
    {
      ProjectAllMembers(priced, x);
      var k :| 0 <= k < |priced| && Project(priced[k]) == Some(x);
      assert priced[k] in ads && Keeps(PriceRange, cfg, nowMicros, priced[k]);
    }
  }

  // ---------------------------------------------------------------------
  // parse_avito
  // ---------------------------------------------------------------------

  /** The answer of `POST /parse`. */
  datatype ParseResponse =
    | ParseResponse(success: bool, message: string, ads: seq<AdResult>, totalFound: int)
    | ServerError(status: int)   // the outer `except`: HTTP 500

  /** The success message, with the number of listings found. */
  function FoundMessage(n: nat): string {
    "Успешно найдено " + IntToString(n) + " объявлений"
  }

  /**
   * The entries one fetched page adds: nothing for an empty body, a page
   * without data or a catalog that does not validate; None when the
   * filters raise, which ends the request with 500.
   */
  function PageEntries(cfg: CrawlConfig, net: Network, body: Option<string>): (r: Option<seq<AdResult>>)
    ensures body.None? || body.value == [] ==> r == Some([])
    ensures body.Some? && body.value != [] && ApiCatalog(FindJsonOnPage(net.html(body.value).scripts), net.decodeItem).None?
            ==> r == Some([])
    ensures r.None? <==>
      && body.Some? && body.value != []
      && ApiCatalog(FindJsonOnPage(net.html(body.value).scripts), net.decodeItem).Some?
      && Pipeline(cfg.filter, cfg.nowMicros,
                  Enrich(net, ApiCatalog(FindJsonOnPage(net.html(body.value).scripts), net.decodeItem).value)).None?
    ensures r.Some? ==> forall k :: 0 <= k < |r.value| ==> r.value[k].price != 0
  {
    if body.None? || body.value == [] then Some([])
    else
      match ApiCatalog(FindJsonOnPage(net.html(body.value).scripts), net.decodeItem)
      case None => Some([])
      case Some(items) =>
        match Pipeline(cfg.filter, cfg.nowMicros, Enrich(net, items))
        case None => None
        case Some(filtered) => Some(ProjectAll(filtered))
  }

  /** One URL of the loop: the page's entries and the scraper's state after the fetch. */
  function UrlStep(cfg: CrawlConfig, net: Network, b: Bounds, s: CrawlState, url: Url): (r: (Option<seq<AdResult>>, CrawlState)) {
    var f := FetchSpec(cfg, net, b, s, Page(url), cfg.maxRetries, 1);
    (PageEntries(cfg, net, f.body), f.s)
  }

  /** The loop from URL `i` on, with the entries found so far. */
  function ApiFrom(cfg: CrawlConfig, net: Network, b: Bounds, s: CrawlState, i: nat, found: seq<AdResult>): (Option<seq<AdResult>>, CrawlState)
    requires i <= |cfg.urls|
    decreases |cfg.urls| - i, 1
  {
    if i == |cfg.urls| then (Some(found), s)
    else ApiNext(cfg, net, b, UrlStep(cfg, net, b, s, cfg.urls[i]), i, found)
  }

  /** The loop once URL `i` has given `step`: a failed page ends it, otherwise its entries are appended. */
  function ApiNext(cfg: CrawlConfig, net: Network, b: Bounds, step: (Option<seq<AdResult>>, CrawlState), i: nat, found: seq<AdResult>)
    : (Option<seq<AdResult>>, CrawlState)
    requires i < |cfg.urls|
    decreases |cfg.urls| - i, 0
  {
    match step.0
    case None => (None, step.1)
    case Some(more) => ApiFrom(cfg, net, b, step.1, i + 1, found + more)
  }

  /** Entries are appended in URL order and never removed, and every entry has a non-zero price. */
  lemma {:induction false} ApiFromAppends(cfg: CrawlConfig, net: Network, b: Bounds, s: CrawlState, i: nat, found: seq<AdResult>)
    requires i <= |cfg.urls|
    ensures var r := ApiFrom(cfg, net, b, s, i, found);
      r.0.Some? ==> |found| <= |r.0.value| && r.0.value[..|found|] == found
    ensures var r := ApiFrom(cfg, net, b, s, i, found);
      r.0.Some? && (forall k :: 0 <= k < |found| ==> found[k].price != 0) ==>
      forall k :: 0 <= k < |r.0.value| ==> r.0.value[k].price != 0
    decreases |cfg.urls| - i
  {
    if i < |cfg.urls| {
      var step := UrlStep(cfg, net, b, s, cfg.urls[i]);
      match step.0
      case None =>
      case Some(more) =>
        ApiFromAppends(cfg, net, b, step.1, i + 1, found + more);
        var r := ApiFrom(cfg, net, b, step.1, i + 1, found + more);
        assert ApiFrom(cfg, net, b, s, i, found) == r;
        assert r.0.Some? ==> r.0.value[..|found|] == (found + more)[..|found|];
    }
  }

  /** The scraper state before the request: a fresh `AvitoParse`. */
  function InitialState(savedCookies: Option<Cookies>, defaultAgent: string): CrawlState {
    CrawlState(0, 0, None, defaultAgent, map[], savedCookies, None, 0, 0, 0, 0, 0, 0)
  }

  /** `parse_avito(request)` after a successful `verify_token`. */
  function ParseAvitoSpec(req: ParseRequest, env: Env, net: Network, b: Bounds, savedCookies: Option<Cookies>,
                          defaultAgent: string, nowMicros: int): (r: ParseResponse)
    ensures r.ParseResponse? ==> r.success && r.totalFound == |r.ads| && r.message == FoundMessage(|r.ads|)
    ensures r.ParseResponse? ==> forall k :: 0 <= k < |r.ads| ==> r.ads[k].price != 0
    ensures r.ServerError? ==> r.status == 500
    ensures req.urls == [] ==> r == ParseResponse(true, FoundMessage(0), [], 0)
  {
    var cfg := ApiConfig(req, env, nowMicros);
    var s := LoadCookies(InitialState(savedCookies, defaultAgent));
    ApiFromAppends(cfg, net, b, s, 0, []);
    match ApiFrom(cfg, net, b, s, 0, []).0
    case None => ServerError(500)
    case Some(found) => ParseResponse(true, FoundMessage(|found|), found, |found|)
  }

  /** The filtered listings projected one by one, each kept entry appended to `found`. */
  method AppendProjected(found: seq<AdResult>, kept: seq<Item>) returns (r: seq<AdResult>)
    ensures r == found + ProjectAll(kept)
  {
    r := found;
    for j := 0 to |kept|
      invariant r == found + ProjectAll(kept[..j])
    {
      assert kept[..j + 1][..j] == kept[..j];
      match Project(kept[j])
      case Some(entry) =>
        r := r + [entry];
      case None =>
    }
    assert kept[..|kept|] == kept;
  }

  /** What `parse_avito` does with one fetched page: extract, validate, clean, filter and project. */
  method ProcessPage(cfg: CrawlConfig, net: Network, body: Option<string>) returns (more: Option<seq<AdResult>>)
    ensures more == PageEntries(cfg, net, body)
  {
    if body.None? || body.value == [] {
      return Some([]);
    }
    var data := FindJsonOnPage(net.html(body.value).scripts);
    var items := ApiCatalog(data, net.decodeItem);
    if items.None? {
      return Some([]);
    }
    var ads := CleanNullAds(items.value);
    ads := AddSellerToAds(ads, net.render);
    assert ads == Enrich(net, items.value);
    var filtered := FilterAds(cfg.filter, cfg.nowMicros, ads);
    if filtered.None? {
      assert PageEntries(cfg, net, body) == None;
      return None;
    }
    var entries := AppendProjected([], filtered.value);
    assert entries == ProjectAll(filtered.value);
    assert PageEntries(cfg, net, body) == Some(ProjectAll(filtered.value));
    return Some(entries);
  }

  /** The body of the loop of `parse_avito` for one URL. */
  method CollectUrl(parser: AvitoParse, url: Url) returns (more: Option<seq<AdResult>>)
    modifies parser
    ensures (more, parser.State()) == UrlStep(parser.cfg, parser.net, parser.bounds, old(parser.State()), url)
  {
    var body, _ := parser.FetchData(Page(url), parser.cfg.maxRetries, 1);
    more := ProcessPage(parser.cfg, parser.net, body);
  }

  /** The loop of `parse_avito`: one fetch per URL, the surviving listings appended to `found` in order. */
  method CollectAll(parser: AvitoParse) returns (found: Option<seq<AdResult>>)
    modifies parser
    ensures found == ApiFrom(parser.cfg, parser.net, parser.bounds, old(parser.State()), 0, []).0
  {
    ghost var start := parser.State();
    var urls := parser.cfg.urls;
    var acc: seq<AdResult> := [];
    for i := 0 to |urls|
      invariant urls == parser.cfg.urls
      invariant ApiFrom(parser.cfg, parser.net, parser.bounds, parser.State(), i, acc)
             == ApiFrom(parser.cfg, parser.net, parser.bounds, start, 0, [])
    {
      ghost var before := parser.State();
      ghost var goal := ApiFrom(parser.cfg, parser.net, parser.bounds, before, i, acc);
      assert goal == ApiNext(parser.cfg, parser.net, parser.bounds, UrlStep(parser.cfg, parser.net, parser.bounds, before, urls[i]), i, acc);
      var more := CollectUrl(parser, urls[i]);
      assert goal == ApiNext(parser.cfg, parser.net, parser.bounds, (more, parser.State()), i, acc);
      if more.None? {
        assert goal == (None, parser.State());
        return None;
      }
      assert goal == ApiFrom(parser.cfg, parser.net, parser.bounds, parser.State(), i + 1, acc + more.value);
      acc := acc + more.value;
    }
    return Some(acc);
  }

  /**
   * `parse_avito`: a fresh scraper with its saved cookies loaded, then
   * the loop over the URLs.
   */
  method ParseAvito(req: ParseRequest, env: Env, net: Network, b: Bounds, savedCookies: Option<Cookies>,
                    defaultAgent: string, nowMicros: int) returns (response: ParseResponse)
    ensures response == ParseAvitoSpec(req, env, net, b, savedCookies, defaultAgent, nowMicros)
  {
    var cfg := ApiConfig(req, env, nowMicros);
    var parser := new AvitoParse(cfg, net, b, savedCookies, defaultAgent);
    parser.LoadCookies();
    assert parser.State() == LoadCookies(InitialState(savedCookies, defaultAgent));
    var found := CollectAll(parser);
    if found.None? {
      return ServerError(500);
    }
    return ParseResponse(true, FoundMessage(|found.value|), found.value, |found.value|);
  }
}
