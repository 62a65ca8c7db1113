# Avito listing scraper and tracking bot: a Dafny model

This project models the core of an Avito listing scraper and of the Telegram bot built on it.

- **The scraper (`AvitoParse`).** It fetches catalog search pages through a proxy with retries. The retries use cookie refresh, IP rotation over a list of IP-change links, and a linear backoff. It reads the embedded page state out of the `<script type="mime/invalid">` element and validates the catalog into `Item` records. It drops records without an id, attaches the seller slug, and runs the listings through a fixed pipeline of eight filter stages. It then follows the `p` query parameter to the next page.
- **The HTTP endpoint (`POST /parse`).** It runs the same pipeline once per URL with only the price stage enabled. It answers with the `(id, price)` pairs of the surviving listings.
- **Two bot handler files.**
  - The tracking dialogue parses a `link | min | max` message and keeps a per-user `tracking_states` map until a name arrives. It also answers numbered selection of a tracking.
  - The admin dialogue validates `create_plan` / `create_promo` input and keeps the `admin_state` / `promo_state` maps. It also redeems promocodes, bounded by each code's usage limit.

## Modules

| module | file | what it is |
|---|---|---|
| `Wrappers` | wrappers.dfy | `Option` |
| `PyStr` | pystr.dfy | Python's `strip`, `lstrip`, `split`, `join`, `isdigit`, `int()`, `str()`, `lower`, `upper` and `in` on strings |
| `Seqs` | seqs.dfy | list comprehensions (filter and map) and the order-preserving subsequence relation |
| `Json` | json.dfy | decoded JSON values and `dict.get` |
| `Models` | models.dfy | the pydantic records `Item`, `PriceDetailed`, `Geo`, `IvaStep`, `IvaComponent`, `ItemsResponse` |
| `Extract` | extract.dfy | `find_json_on_page`, catalog validation, `_clean_null_ads`, `_extract_seller_slug`, `_add_seller_to_ads`, `_extract_views` |
| `Filters` | filters.dfy | the eight `_filter_by_*` stages, `_is_phrase_in_ads`, `_is_recent`, `_add_promotion_to_ads`, `filter_ads` |
| `PageUrl` | pageurl.dfy | `parse_qs` / `urlencode` on the decoded query and `get_next_page_url` |
| `CrawlSpec` | crawlspec.dfy | the state machine of `AvitoParse` as functions on a snapshot of its fields |
| `Crawler` | crawler.dfy | the class `AvitoParse`, whose methods update its fields in place and are proved against `CrawlSpec` |
| `Api` | api.dfy | `verify_token`, the request configuration, the `AdResult` projection and the loop of `parse_avito` |
| `Tracking` | tracking.dfy | the link-message parser, the class holding `tracking_states`, and the numbered selection |
| `Admin` | admin.dfy | `strptime("%Y-%m-%d")`, the plan and promocode validators, and the class holding `admin_state`, `promo_state` and the promocode table |

### How the outside world enters

- **The network.** Every request, IP echo, IP-change request, cookie-solver run and stop-event check is an oracle function in `CrawlSpec.Network`. Each is indexed by the number of earlier calls of the same kind, and the scraper state counts the calls. A whole crawl is therefore a function of the configuration, the oracle and the starting state.
- **Validation and rendering.** pydantic's per-record validation is a parameter `decodeItem`. The `str(item)` that the seller regex searches is a parameter `render`. HTML parsing of a page is `net.html`, which gives the script elements and the two view-counter texts.
- **Time.** The clock is an integer `nowMicros` for the recency stage. It is a `Date` (today, UTC) for promocode expiry.
- **Database answers.** The promocode table is a map in the admin class. Whether the user row exists, and whether a database call raises, are parameters: of a redemption (`userExists`, `fault`) and of creating a plan or promocode (`storeFails`). Admin rights and subscription status are booleans passed in.

### Where the code departs from the evident intent (the model follows the code)

- **Catalog validation is all or nothing.** One would expect invalid listing records to be dropped one by one. In the code, `ItemsResponse(**catalog)` validates the whole `items` list at once. One invalid record fails the page, so the crawl loop skips the page and the API skips the URL (`Extract.ValidateItems`, `Extract.WalkerCatalog`).
- **Stage order matters.** The filter stages are meant to be independent conditions whose results intersect. In the code, a stage on which any listing raises passes its whole input through, so the order of the stages decides the result. The model keeps the fixed order of `filter_ads`, and `Filters.StageSubseq` holds for every stage regardless. When no enabled stage raises and the promotion data can be read, the intersection does hold (`Filters.PipelineIntersection`).
- **The promotion annotation can raise out of `filter_ads`.** `_add_promotion_to_ads` runs outside the promotion stage's `try`, so malformed promotion data raises out of `filter_ads`. `Filters.Pipeline` returns `None` for that case.

## Model

| member | source | states |
|---|---|---|
| Models.DefaultItem | parser_avito/src/models.py:123-181 | a record with no fields set has a falsy id, is not promoted, and has no seller and no view counters |
| Json.DictGet | parser_avito/src/parser_cls.py:193 | `.get` answers only on a dict (anything else raises); a present key gives its value, a missing one the default |
| Extract.ResolveState | parser_avito/src/parser_cls.py:233-245 | `state` if present, else `data`, else the whole object; a value on which `in` raises gives `{}` |
| Extract.FirstMimeScript | parser_avito/src/parser_cls.py:226-229 | finds the first script whose type is `mime/invalid`, or proves there is none |
| Extract.FindJsonOnPage | parser_avito/src/parser_cls.py:222-245 | with no `mime/invalid` script the result is `{}` |
| Extract.FirstMimeScriptDecides | parser_avito/src/parser_cls.py:222-245 | only the first `mime/invalid` script counts: no script, or one that does not decode, gives `{}`; otherwise the result is that script's resolved state |
| Extract.ValidateItems | parser_avito/src/models.py:184-186 | the catalog validates iff every raw record validates, and then holds exactly the decoded records in order |
| Extract.ValidateCatalog | parser_avito/src/models.py:184-186 | a catalog without an `items` list fails validation |
| Extract.WalkerCatalog | parser_avito/src/parser_cls.py:192-196 | a page that is not a dict or has no `data` raises out of the loop; a catalog is accepted only when `data.catalog` is a dict that validates, and then it holds its items |
| Extract.ApiCatalog | parser_avito/api.py:152-162 | an empty page is skipped; an accepted catalog is a dict at `data.catalog` that validates, with its items |
| Extract.CleanNullAds | parser_avito/src/parser_cls.py:218-220 | keeps exactly the listings with a truthy id, in their original order, so none without an id remains; each listing with a truthy id occurs as often as in the input and every other one not at all |
| Extract.SlugRun | parser_avito/src/parser_cls.py:469-474 | the longest run of slug characters at the start of the text |
| Extract.SearchFrom | parser_avito/src/parser_cls.py:469-474 | finds the leftmost `/brands/<slug>` match at or after a position, or proves there is none |
| Extract.ExtractSellerSlug | parser_avito/src/parser_cls.py:469-474 | None iff no `/brands/` followed by a slug character occurs; otherwise the non-empty slug of the leftmost match |
| Extract.WithSeller | parser_avito/src/parser_cls.py:302-306 | only `sellerId` may change, and it is set to the slug exactly when one is found |
| Extract.AddSellerToAds | parser_avito/src/parser_cls.py:302-306 | every listing gets its seller slug, in place and in order |
| Extract.DigitsOf | parser_avito/src/parser_cls.py:378-383 | keeps only ASCII digits of the text |
| Extract.ExtractDigits | parser_avito/src/parser_cls.py:378-383 | a missing element gives None; an element without digits raises; otherwise the number its digits spell |
| Extract.ExtractViews | parser_avito/src/parser_cls.py:374-384 | succeeds iff neither counter raises, and then holds both counters |
| Filters.AnyPhraseInMembers | parser_avito/src/parser_cls.py:476-479 | the phrase test holds iff some lower-cased phrase occurs in the text |
| Filters.PhraseCaseInsensitive | parser_avito/src/parser_cls.py:476-479 | the case in which a keyword is written does not change the test |
| Filters.ApplyFilter | parser_avito/src/parser_cls.py:267-354 | a disabled stage is the identity; a stage on which some listing raises passes its input through; otherwise it keeps exactly the listings its condition accepts (price bounds inclusive, no black phrase, some white phrase, address substring, seller not listed, recent, not reserved, not promoted), each as often as in the input; the age check raises on a missing timestamp, on one outside years 1 to 9999 and on an age limit beyond the timedelta range; the result is always an order-preserving subsequence |
| Filters.RecentOutOfRangePassesThrough | parser_avito/src/parser_cls.py:327-335 | one listing whose timestamp lies outside the datetime range makes the enabled age stage return its whole input |
| Filters.VasPromoted | parser_avito/src/parser_cls.py:308-316 | true only if some `vas` entry is titled "Продвинуто"; false only if every entry is a dict and none is |
| Filters.IterPromoted | parser_avito/src/parser_cls.py:314 | iterating a non-list `vas` raises unless it is falsy |
| Filters.StepsPromoted | parser_avito/src/parser_cls.py:308-316 | true only if some step's payload has a promoted `vas` entry, false only if none has |
| Filters.VasPromotedSound | parser_avito/src/parser_cls.py:308-316 | a false answer rules out every promoted entry |
| Filters.PromotionFlag | parser_avito/src/parser_cls.py:308-316 | the flag, when computed, is true iff some `DateInfoStep` step is promoted |
| Filters.WellFormedStepsDecide | parser_avito/src/parser_cls.py:308-316 | steps that all have a payload with a list of dicts as `vas` never raise |
| Filters.WellFormedVasDecides | parser_avito/src/parser_cls.py:311-315 | a `vas` list of dicts never raises |
| Filters.AnnotatePromotion | parser_avito/src/parser_cls.py:308-316 | every listing gets its promotion flag and nothing else changes; the call fails iff some listing's data raises |
| Filters.AddPromotionToAds | parser_avito/src/parser_cls.py:308-316 | the in-place loop computes exactly the annotation |
| Filters.AnnotateMatches | parser_avito/src/parser_cls.py:308-316 | any list holding each listing with its own flag is the annotation |
| Filters.FilterAds | parser_avito/src/parser_cls.py:247-265 | the loop over the eight stages in their fixed order returns what the pipeline specifies, stopping as soon as the list is empty |
| Filters.StageSubseq | parser_avito/src/parser_cls.py:267-354 | every stage's output is an order-preserving subsequence of its input, ignoring the promotion flag it sets |
| Filters.RunStagesSubseq | parser_avito/src/parser_cls.py:247-265 | any run of stages yields an order-preserving subsequence |
| Filters.PipelineSubseq | parser_avito/src/parser_cls.py:247-265 | `filter_ads` returns an order-preserving subsequence of its input, never longer |
| Filters.PipelineIntersection | parser_avito/src/parser_cls.py:247-265 | when no enabled stage raises on any listing and the promotion data can be read, `filter_ads` keeps exactly the annotated listings that every enabled stage accepts |
| Filters.RunFiltersMembers | parser_avito/src/parser_cls.py:260-265 | stages other than the promotion stage, none raising, keep exactly the listings every enabled one accepts |
| Filters.PromotionStageMembers | parser_avito/src/parser_cls.py:346-354 | the promotion stage on what the earlier stages kept gives the annotated listings they accept, less the promoted ones when enabled |
| Filters.RunStagesEmpty | parser_avito/src/parser_cls.py:260-264 | an empty list stays empty and no stage raises on it |
| Filters.RunStagesAppend | parser_avito/src/parser_cls.py:260-265 | once a stage empties the list, the later stages do not run |
| Filters.OnlyPricePipeline | parser_avito/api.py:109-130 | with every optional filter disabled, `filter_ads` is the price range followed by the promotion annotation |
| Filters.DisabledStagesIdentity | parser_avito/src/parser_cls.py:267-344 | disabled stages leave a non-empty list unchanged |
| Filters.BlackWhiteComplement | parser_avito/src/parser_cls.py:274-290 | with one keyword list as both black and white list, each listing is kept by exactly one of the two stages |
| PageUrl.IndexOf | parser_avito/src/parser_cls.py:496 | the first entry with the given name, or none |
| PageUrl.IndexOfWellFormed | parser_avito/src/parser_cls.py:495-496 | in a parsed query, each name has exactly one entry |
| PageUrl.AddValueWellFormed | parser_avito/src/parser_cls.py:495 | reading a pair keeps the dict `parse_qs` builds well-formed: distinct names, non-empty values |
| PageUrl.ParseQsFromWellFormed | parser_avito/src/parser_cls.py:495 | reading pairs into a well-formed dict keeps it well-formed |
| PageUrl.ParseQs | parser_avito/src/parser_cls.py:495 | `parse_qs` yields distinct names, each with at least one non-empty value |
| PageUrl.SetValue | parser_avito/src/parser_cls.py:497 | the name then holds exactly the new value, every other name is untouched, and at most one entry is added |
| PageUrl.Pairs | parser_avito/src/parser_cls.py:501 | `doseq` writes one `name=value` pair per value, in order |
| PageUrl.ParseSameKey | parser_avito/src/parser_cls.py:495 | more values for a known name are appended to its list |
| PageUrl.ParseNewKey | parser_avito/src/parser_cls.py:495 | values for a new name add one entry at the end |
| PageUrl.ParseEncode | parser_avito/src/parser_cls.py:495-501 | `parse_qs(urlencode(d, doseq=True)) == d` for every well-formed query |
| PageUrl.NextPageUrl | parser_avito/src/parser_cls.py:491-506 | None iff the current page number is not an integer; otherwise scheme, host, path, params and fragment are kept |
| PageUrl.SetValueWellFormed | parser_avito/src/parser_cls.py:497 | setting the page keeps the query well-formed |
| PageUrl.NextPageAdvances | parser_avito/src/parser_cls.py:495-503 | the next URL's page number is the current one plus 1 |
| PageUrl.NextPageKeepsParameters | parser_avito/src/parser_cls.py:495-503 | every other query parameter keeps all its values |
| PageUrl.FirstPageIsOne | parser_avito/src/parser_cls.py:496-497 | without `p` the page is 1, and the next URL has `p=2` |
| PageUrl.NoKeyNoEntry | parser_avito/src/parser_cls.py:495 | a name absent from the pairs is absent from the parsed query |
| CrawlSpec.GetProxyObj | parser_avito/src/parser_cls.py:48-62 | a proxy object exists iff a proxy string and a change link are configured; the link is the list's first, else the single one |
| CrawlSpec.GetCookiesSpec | parser_avito/src/parser_cls.py:64-91 | the solver is consulted once; an empty answer counts as failure; on success the user agent is the solver's |
| CrawlSpec.RefreshCookies | parser_avito/src/parser_cls.py:148 | the cookies become what the solver returned; the counters and the rotation index are untouched |
| CrawlSpec.SaveCookies | parser_avito/src/parser_cls.py:93-96 | the store becomes the session's cookies; nothing else changes |
| CrawlSpec.LoadCookies | parser_avito/src/parser_cls.py:98-108 | a missing file changes nothing; otherwise its cookies are added to the session |
| CrawlSpec.SaveLoadRoundTrip | parser_avito/src/parser_cls.py:93-108 | what was saved is what a later load brings back into an empty session |
| CrawlSpec.ChangeUrls | parser_avito/src/parser_cls.py:416-423 | the list of change links, else the single link, else none |
| CrawlSpec.RotateOnce | parser_avito/src/parser_cls.py:425-465 | one request: only the IP, the index and the two counters change; a verified new IP resets the index to 0; otherwise the IP is kept and the index stays within the list |
| CrawlSpec.ChangeIpWithoutLinks | parser_avito/src/parser_cls.py:416-423 | with no change link, `change_ip` returns false and changes nothing |
| CrawlSpec.ChangeIpEffect | parser_avito/src/parser_cls.py:413-467 | only the IP, the index and the counters change; true means index 0 and a new, non-empty IP that was the last one read; false keeps the IP; the index stays within the list; with a link and fuel at least one request is made |
| CrawlSpec.RotateOutcome | parser_avito/src/parser_cls.py:434-467 | one pass adopts the IP exactly when the link answers 200 and the IP read after it is non-empty and new; it retries exactly when the link does not answer 200 (an exception included) or the IP is unchanged |
| CrawlSpec.RotateIndex | parser_avito/src/parser_cls.py:447-465 | a retry moves the index to the next link, `(i + 1) % len`, past the last back to the first; giving up keeps the index |
| CrawlSpec.ChangeIpRetries | parser_avito/src/parser_cls.py:447-467 | the number of retried passes is at most the requests allowed |
| CrawlSpec.ChangeIpAdvance | parser_avito/src/parser_cls.py:447-467 | a failed `change_ip` leaves the index advanced by one link per retry, modulo the number of links |
| CrawlSpec.CheckStop | parser_avito/src/parser_cls.py:122-123 | without a stop event nothing is consulted |
| CrawlSpec.TooManyState | parser_avito/src/parser_cls.py:143-149 | a 429 counts one bad request and always empties the session's cookie jar; the IP and index are those after the IP change; the cookies are kept before the third attempt and are the freshly fetched ones from the third attempt on |
| CrawlSpec.Throttled | parser_avito/src/parser_cls.py:144-146 | the state is exactly `change_ip` run on the state with one more bad request and an empty cookie jar; beyond that only the IP, the rotation index and the two IP counters differ; with a link an IP-change request is made |
| CrawlSpec.HandleReply | parser_avito/src/parser_cls.py:141-156 | status >= 500 fails the attempt unchanged; 429 fails it with the state of `TooManyState` (bad request, empty jar, IP change, cookies from the third attempt); 403/302 fails it with the blocked message and only the cookies renewed; every other status saves the cookies, counts exactly one good request and returns the body |
| CrawlSpec.Exchange | parser_avito/src/parser_cls.py:125-156 | a transport error fails the attempt with its message and consumes one request |
| CrawlSpec.AttemptStep | parser_avito/src/parser_cls.py:121-156 | an attempt halts iff the stop event is set |
| CrawlSpec.AfterError | parser_avito/src/parser_cls.py:157-166 | only a proxy or network error with a proxy configured rotates the IP; the counters are untouched |
| CrawlSpec.FetchFromWaits | parser_avito/src/parser_cls.py:110-174 | the k-th pause is `backoff_factor * k`; fewer pauses than attempts allowed |
| CrawlSpec.FetchFromCounts | parser_avito/src/parser_cls.py:110-174 | the good count rises by exactly 1 iff a body is returned; the bad count never falls |
| CrawlSpec.StepCounts | parser_avito/src/parser_cls.py:121-166 | one attempt counts a good request only when it returns a body and never lowers the bad count |
| CrawlSpec.StopEndsFetch | parser_avito/src/parser_cls.py:121-123 | a set stop event ends `fetch_data` with None before any request |
| CrawlSpec.ViewsFrom | parser_avito/src/parser_cls.py:356-372 | view parsing keeps the number of listings and leaves the ones already passed alone |
| CrawlSpec.ViewsSpec | parser_avito/src/parser_cls.py:356-372 | with view parsing off nothing happens; the number of listings is kept |
| CrawlSpec.ViewsOnlyCounters | parser_avito/src/parser_cls.py:356-372 | view parsing changes only the two view counters of each listing |
| CrawlSpec.Enrich | parser_avito/src/parser_cls.py:198-200 | the cleaned and seller-enriched listings all have a truthy id |
| CrawlSpec.PageListingsHaveIds | parser_avito/src/parser_cls.py:198-207 | every listing a page yields has a truthy id |
| CrawlSpec.FilteredKeepIds | parser_avito/src/parser_cls.py:206 | filtering keeps the truthy ids of its input |
| CrawlSpec.CrawlListingsHaveIds | parser_avito/src/parser_cls.py:176-216 | every page the crawl records holds only listings with a truthy id |
| CrawlSpec.CrawlStep | parser_avito/src/parser_cls.py:179-214 | after one iteration: the stop event ends the crawl; a fetch that gives nothing restarts from the first URL with the saved cookies reloaded while restarts are left; an invalid catalog continues with the same URL; a page without listings moves to the next configured URL at page 0; a page with listings records them and continues with the next page's URL |
| CrawlSpec.PageOutcomes | parser_avito/src/parser_cls.py:181-204 | an iteration stops exactly when the stop event is set, touching nothing else; it fails exactly when the fetch gives no body or an empty one; it is empty exactly when the catalog validates and no listing has a truthy id |
| CrawlSpec.EnrichEmpty | parser_avito/src/parser_cls.py:198-204 | cleaning and enrichment leave nothing exactly when no listing has a truthy id |
| CrawlSpec.AfterPageHaveIds | parser_avito/src/parser_cls.py:179-216 | one more page keeps that invariant |
| CrawlSpec.CrawlWithoutUrls | parser_avito/src/parser_cls.py:176-216 | a crawl with no URLs only loads the saved cookies |
| Crawler.AvitoParse.constructor | parser_avito/src/parser_cls.py:30-44 | both counters and the rotation index start at 0, with no cookies and a fresh session |
| Crawler.AvitoParse.GetCookies | parser_avito/src/parser_cls.py:64-91 | the result and the new fields are those of `GetCookiesSpec` |
| Crawler.AvitoParse.SaveCookies | parser_avito/src/parser_cls.py:93-96 | the new fields are those of `CrawlSpec.SaveCookies` |
| Crawler.AvitoParse.LoadCookies | parser_avito/src/parser_cls.py:98-108 | the new fields are those of `CrawlSpec.LoadCookies` |
| Crawler.AvitoParse.Rotate | parser_avito/src/parser_cls.py:425-465 | the outcome and the new fields are those of `RotateOnce` |
| Crawler.AvitoParse.CheckNewIp | parser_avito/src/parser_cls.py:439-459 | after a 200 answer, the outcome and the new fields are those of `RotateSuccess` |
| Crawler.AvitoParse.ChangeIp | parser_avito/src/parser_cls.py:413-467 | the loop in place of the recursion gives the result and fields of `ChangeIpSpec`, whose properties are `ChangeIpEffect` |
| Crawler.AvitoParse.TooMany | parser_avito/src/parser_cls.py:143-149 | the new fields are those of `TooManyState`: one more bad request, an empty jar, the IP change, and fresh cookies from the third attempt on |
| Crawler.AvitoParse.Throttle | parser_avito/src/parser_cls.py:144-146 | the new fields are those of `Throttled`: `change_ip` run after counting the bad request and emptying the jar |
| Crawler.AvitoParse.Answer | parser_avito/src/parser_cls.py:141-156 | the classification and new fields are those of `HandleReply`, including the full 429 state of `TooManyState` |
| Crawler.AvitoParse.Receive | parser_avito/src/parser_cls.py:138-156 | the answer's cookies join the session's, then the classification and new fields are those of `HandleReply`, including the full 429 state of `TooManyState` |
| Crawler.AvitoParse.ExchangeOnce | parser_avito/src/parser_cls.py:125-156 | as `Exchange` |
| Crawler.AvitoParse.Attempt | parser_avito/src/parser_cls.py:121-156 | as `AttemptStep` |
| Crawler.AvitoParse.TryOnce | parser_avito/src/parser_cls.py:122-166 | one attempt followed by the `except` block: the step is `AttemptStep` of the old fields, and a failed attempt rotates the IP exactly as `AfterError` says |
| Crawler.AvitoParse.FetchData | parser_avito/src/parser_cls.py:110-174 | the retry loop returns the body, the new fields and the pauses of `FetchSpec`, whose bookkeeping is `FetchFromWaits` and `FetchFromCounts` |
| Crawler.AvitoParse.ParseViews | parser_avito/src/parser_cls.py:356-372 | the in-place loop gives the listings and fields of `ViewsSpec` |
| Crawler.AvitoParse.CrawlPage | parser_avito/src/parser_cls.py:181-211 | one page of the crawl gives the outcome and fields of `PageStep` |
| Crawler.AvitoParse.Parse | parser_avito/src/parser_cls.py:176-216 | the crawl loop gives the end, fields and pages of `Crawl`, whose steps are those of `CrawlStep` and `PageOutcomes` and whose pages are proved id-clean by `CrawlListingsHaveIds` |
| Api.VerifyToken | parser_avito/api.py:60-68 | authorized iff the configured token is set and equals the presented one; otherwise rejected with 401 |
| Api.OrDefault | parser_avito/api.py:111-112 | Python's `x or default`: None and 0 give the default |
| Api.ApiFilter | parser_avito/api.py:109-126 | every optional filter is disabled; a missing minimum is 0; a missing or zero maximum is 999999999 |
| Api.CleanLinks | parser_avito/api.py:103-106 | every kept link is non-blank and stripped |
| Api.CleanLinksAvoid | parser_avito/api.py:103-106 | cleaning introduces no character the pieces lack |
| Api.ChangeLinks | parser_avito/api.py:103-106 | `PROXY_CHANGE_URLS` gives clean links without '\|'; unset gives none |
| Api.CleanLinksIdentity | parser_avito/api.py:103-106 | links already clean are kept as they are |
| Api.ChangeLinksRoundTrip | parser_avito/api.py:103-106 | joining clean links with '\|' and parsing gives them back |
| Api.ApiConfig | parser_avito/api.py:109-130 | one page per URL, three attempts, no view parsing, no stop event, only the price stage |
| Api.IdValue | parser_avito/api.py:175 | an int id as is, a dict id's `value` (default 0), anything else 0 |
| Api.Project | parser_avito/api.py:172-177 | a listing is emitted iff its id and its price value are truthy, as `(id, price)` |
| Api.ProjectAll | parser_avito/api.py:172-177 | no emitted entry has a zero price, and there are no more entries than listings |
| Api.ProjectAllMembers | parser_avito/api.py:172-177 | an entry is emitted iff some listing projects to it |
| Api.ProjectAllPointwise | parser_avito/api.py:172-177 | lists whose listings project alike give the same answer |
| Api.PageResults | parser_avito/api.py:165-177 | on priced listings, the emitted entries are those of the price range alone, each within the bounds and non-zero |
| Api.PageEntries | parser_avito/api.py:145-177 | a URL whose fetch gives nothing, or whose page gives no valid catalog (an empty page included), contributes nothing; the request fails exactly when the filters raise on a valid catalog; every emitted price is non-zero |
| Api.ApiFromAppends | parser_avito/api.py:141-177 | entries are appended in URL order, never removed, and keep non-zero prices |
| Api.ParseAvitoSpec | parser_avito/api.py:78-193 | a success reports `total_found` equal to the number of entries, all with non-zero price; an error is a 500; no URLs gives an empty success |
| Api.AppendProjected | parser_avito/api.py:172-177 | the append loop adds exactly the projections, in order |
| Api.ProcessPage | parser_avito/api.py:152-177 | the page's steps give the entries of `PageEntries` |
| Api.CollectUrl | parser_avito/api.py:141-177 | one URL gives the entries and scraper fields of `UrlStep` |
| Api.CollectAll | parser_avito/api.py:141-177 | the loop over the URLs gives the entries of `ApiFrom`, which `ApiFromAppends` shows are appended in URL order with non-zero prices |
| Api.ParseAvito | parser_avito/api.py:78-193 | the endpoint's loop gives the response of `ParseAvitoSpec` |
| Tracking.PricePart | telegram_bot/app/bot/handlers/tracking.py:85-91 | a price is set iff its piece exists and is all digits, and then it is that number |
| Tracking.SplitInput | telegram_bot/app/bot/handlers/tracking.py:78-96 | without '\|' the stripped text is the link and both prices are None; with '\|' the stripped pieces give the link (None if empty), the minimum and the maximum |
| Tracking.ValidateLink | telegram_bot/app/bot/handlers/tracking.py:99-123 | a name is asked for iff the link, stripped of leading '@', contains "avito.ru" in any case and starts with http:// or https://, and the pending entry holds that link and the prices |
| Tracking.LinkMessage | telegram_bot/app/bot/handlers/tracking.py:62-143 | no subscription gives the subscription reply; an accepted link is always valid |
| Tracking.SplitFormatted | telegram_bot/app/bot/handlers/tracking.py:83 | a formatted message splits back into its three pieces |
| Tracking.FormatRoundTrip | telegram_bot/app/bot/handlers/tracking.py:78-123 | a valid link with two bounds, typed as `link\|min\|max`, is accepted with exactly that link and those bounds |
| Tracking.TrackingStates.constructor | telegram_bot/app/bot/handlers/tracking.py:14 | the map starts empty |
| Tracking.TrackingStates.AddLink | telegram_bot/app/bot/handlers/tracking.py:62-143 | an accepted link replaces the user's entry; anything else leaves the map alone; every entry holds a valid link |
| Tracking.TrackingStates.Complete | telegram_bot/app/bot/handlers/tracking.py:191-208 | without an entry nothing happens; otherwise the entry is removed before its record is built from it |
| Tracking.TrackingStates.NameInput | telegram_bot/app/bot/handlers/tracking.py:175-188 | a name longer than 100 characters after stripping is refused with the map unchanged; a command or an empty text is skipped; otherwise the addition completes under the stripped name |
| Tracking.TrackingStates.NoName | telegram_bot/app/bot/handlers/tracking.py:146-154 | completes the addition without a name iff the user has an entry |
| Tracking.TrackingStates.Cancel | telegram_bot/app/bot/handlers/tracking.py:157-163 | removes the user's entry |
| Tracking.Archived | telegram_bot/app/bot/handlers/tracking.py:260 | only inactive trackings |
| Tracking.SelectTracking | telegram_bot/app/bot/handlers/tracking.py:241-270 | a number below 1 is ignored; "not found" iff it exceeds the active plus archived count; otherwise it selects that position |
| Tracking.SelectEveryPosition | telegram_bot/app/bot/handlers/tracking.py:251-270 | sending position k+1 selects item k of the active list followed by the archived list |
| Admin.DaysInMonth | telegram_bot/app/bot/handlers/admin.py:310 | 28 to 31 days; 29 exactly in February of a leap year |
| Admin.ParseDate | telegram_bot/app/bot/handlers/admin.py:310 | `strptime("%Y-%m-%d")`: an accepted date is a real date of years 1 to 9999 whose year is the first four digits |
| Admin.FormatDate | telegram_bot/app/bot/handlers/admin.py:310 | `YYYY-MM-DD` with dashes at positions 4 and 7 and digits elsewhere |
| Admin.DateRoundTrip | telegram_bot/app/bot/handlers/admin.py:310 | every date written as `YYYY-MM-DD` parses back to itself |
| Admin.StripAll | telegram_bot/app/bot/handlers/admin.py:270 | strips every piece, keeping their number |
| Admin.StripAllAt | telegram_bot/app/bot/handlers/admin.py:270 | the k-th stripped field is the k-th piece of the split stripped |
| Admin.FieldsOfJoin | telegram_bot/app/bot/handlers/admin.py:270 | as on this line and line 290, pieces without '\|' and surrounding space, joined with '\|', split back to themselves |
| Admin.IntErrorReply | telegram_bot/app/bot/handlers/admin.py:316-321 | an `int()` error is a date-format reply only when its text mentions "time data", else the numeric reply |
| Admin.CheckPromo | telegram_bot/app/bot/handlers/admin.py:289-324 | an accepted promo has 4 fields, its code upper-cased, discount 0..100, limit > 0, a valid date strictly after today, and nothing used |
| Admin.CheckPromoFields | telegram_bot/app/bot/handlers/admin.py:295-324 | an accepted promo's numbers are the `int()` of its fields and its date the parse of the fourth |
| Admin.PromoFieldsAccepted | telegram_bot/app/bot/handlers/admin.py:298-314 | fields that meet every condition are accepted |
| Admin.PromoRoundTrip | telegram_bot/app/bot/handlers/admin.py:289-330 | `CODE \| discount \| limit \| date` with valid values is accepted as exactly that promo, code upper-cased |
| Admin.IndexOf | telegram_bot/app/bot/handlers/admin.py:276 | the first position of a character, or the length |
| Admin.CheckPlan | telegram_bot/app/bot/handlers/admin.py:269-287 | a plan is accepted iff there are 4 fields, the price is a decimal and the days an integer; its fields are the stripped pieces |
| Admin.PlanRoundTrip | telegram_bot/app/bot/handlers/admin.py:269-287 | a plan typed as `name \| alias \| price \| days` is accepted as exactly that plan |
| Admin.AdminAnswer | telegram_bot/app/bot/handlers/admin.py:258-354 | no state: not handled; not admin: denied; a plan or promo reply carries exactly the validator's verdict on the text; a valid promo whose code exists is a duplicate; a created promo is new and well-formed; a failed insert of a checked plan or new promo (exactly when `storeFails`) is `StoreFailed`, and no success is reported when the insert fails |
| Admin.Used | telegram_bot/app/bot/handlers/admin.py:444 | one more use, nothing else changed |
| Admin.RedeemAnswer | telegram_bot/app/bot/handlers/admin.py:398-466 | the handler takes the message iff the user is entering a code and the text is not a button or an Avito link; a code is counted only when it exists, has not expired, is under its limit and the user exists, and conversely such a code is counted whenever no database error occurs; it is counted exactly once |
| Admin.Lookup | telegram_bot/app/bot/handlers/admin.py:409-449 | each reply exactly in its case: unknown code, expired, limit reached, unknown user, and activated iff the code is redeemable, the user exists and the update does not fail; the activated promo is the stored one with one more use |
| Admin.UsedWellFormed | telegram_bot/app/bot/handlers/admin.py:429-444 | a use under the limit keeps the used count within the limit |
| Admin.FreshPromoRedeems | telegram_bot/app/bot/handlers/admin.py:327-449 | a newly created promo can be redeemed once it is stored |
| Admin.AdminDialogs.constructor | telegram_bot/app/bot/handlers/admin.py:15-17 | both state maps and the table start empty |
| Admin.AdminDialogs.StartCreation | telegram_bot/app/bot/handlers/admin.py:114-118 | an admin's state becomes the operation (a plan here, a promocode in the same shape at lines 162-166); a non-admin changes nothing |
| Admin.AdminDialogs.CancelCreation | telegram_bot/app/bot/handlers/admin.py:240-255 | an admin's state is cleared |
| Admin.AdminDialogs.AdminInput | telegram_bot/app/bot/handlers/admin.py:258-354 | the reply is `AdminAnswer`; the state is cleared only on denial or success; a valid plan is appended, a valid new promo stored; a failed insert stores nothing and keeps the dialogue open; every stored promo stays within its limit |
| Admin.AdminDialogs.AddPromocode | telegram_bot/app/bot/handlers/admin.py:327-336 | stores a well-formed new promo under its code |
| Admin.AdminDialogs.EnterPromo | telegram_bot/app/bot/handlers/admin.py:358-376 | the user starts entering a code |
| Admin.AdminDialogs.CancelPromo | telegram_bot/app/bot/handlers/admin.py:378-396 | the user stops entering a code |
| Admin.AdminDialogs.Redeem | telegram_bot/app/bot/handlers/admin.py:398-466 | the reply is `RedeemAnswer`; a counted code's used count rises by exactly 1 and stays within its limit; the entry ends on success and on a database error |
| PyStr.Strip | telegram_bot/app/bot/handlers/tracking.py:78 | `str.strip()`: the slice between the leading and the trailing whitespace |
| PyStr.StripIdempotent | telegram_bot/app/bot/handlers/tracking.py:78 | stripping twice is stripping once |
| PyStr.Split | telegram_bot/app/bot/handlers/tracking.py:83 | at least one piece, none containing the separator |
| PyStr.JoinSplit | telegram_bot/app/bot/handlers/tracking.py:83 | joining the pieces back gives the input |
| PyStr.SplitJoin | telegram_bot/app/bot/handlers/tracking.py:83 | splitting joined pieces gives the pieces back |
| PyStr.ParseInt | telegram_bot/app/bot/handlers/admin.py:299-300 | `int()` of a digit string is the number it spells |
| PyStr.IntRoundTrip | telegram_bot/app/bot/handlers/admin.py:299-300 | `int(str(n)) == n` |
| PyStr.LowerOfUpper | parser_avito/src/parser_cls.py:476-479 | lower-casing after upper-casing is lower-casing |
| Seqs.FilterMembers | parser_avito/src/parser_cls.py:218-220 | a comprehension keeps exactly the elements satisfying its condition |
| Seqs.FilterIsSubseq | parser_avito/src/parser_cls.py:218-220 | a comprehension keeps the input order |
| Seqs.FilterCount | parser_avito/src/parser_cls.py:218-220 | a comprehension keeps every accepted element as often as it occurs and drops every other one |
| Seqs.FilterFilter | parser_avito/src/parser_cls.py:267-354 | two comprehensions in a row are one over the conjunction |

## Left out

- The network, the headless-browser cookie solver, the IP echo service, the stop event and the clock are oracles or parameters. Sleeps other than the backoff pauses, and the random jitter, are not modelled. Logging is not modelled.
- `change_ip` calls itself again without bound. `Crawler.AvitoParse.ChangeIp` allows `bounds.ipAttempts` IP-change requests and then returns false.
- `parse` restarts itself from the first URL after a failed fetch, without bound. `Crawler.AvitoParse.Parse` allows `bounds.restarts` restarts and then ends with `RestartsExhausted`. Its two nested loops are one loop over the URL index and the page number.
- When `get_next_page_url` returns None, the next iteration's `fetch_data(None)` fails inside the HTTP client. The model ends the crawl there (`PageCrashed`) instead of following the library's error path.
- HTML parsing, `html.unescape`, `json.loads` and the `urlparse`/`urlencode` internals are not modelled. Percent-encoding is also left out: a query is its decoded pairs. BeautifulSoup's behaviour on a missing body is not modelled.
- pydantic validation of a single `Item` is the parameter `decodeItem`, so the per-field rules of `models.py` are not modelled. Only the fields the core reads are in `Models.Item`. JSON numbers are integers; floats are not modelled.
- The listings are values, not shared objects. `_add_seller_to_ads`, `_add_promotion_to_ads` and `parse_views` build a new list instead of mutating the records in place, so aliasing between lists is not captured. The shared `HEADERS` dict is not modelled.
- `Filters.IsRecent`: `_is_recent` uses `utcfromtimestamp` and float seconds, while the model compares integer microseconds, so float rounding of an in-range timestamp is not captured. The out-of-range timestamps and age limits that raise are modelled in `Filters.Raises`. One clock reading serves a whole run.
- A dict id whose `value` is not an integer is not modelled (`Api.IdValue`). Neither are exceptions in `parse_avito` other than the modelled failures, or pydantic's validation of `AdResult`.
- Case mapping covers ASCII and the basic Cyrillic block only, and upper-casing never expands a character (Python turns ß into SS). `isdigit` and `int()` accept ASCII digits only, and `int()` does not accept underscores. The decimal syntax of `Decimal()` has the same limits, and `Numeric(10,2)` rounding is not modelled.
- `Admin.IntErrorReply` reproduces the `"time data" in str(e)` test on the raw field rather than on its `repr` escaping.
- Database persistence is not modelled: `add_tracking`, `set_user_active_promocode`, plan storage and the user lookup. The unique-constraint error is the duplicate-code reply. Any other database error in a redemption is the `fault` parameter, and in creating a plan or promocode the `storeFails` parameter (the dialogue stays open and nothing is stored; for a plan the exception leaves the handler without a reply). Subscription and admin checks are booleans passed in. `message.text` being None is not modelled.
- A stored `expired_at` is a date at midnight, and "now" enters only as today's date. An expiry at a later time of day is not modelled.
- The router order between the `admin_state` and `promo_state` handlers is not modelled.
- `tracking.py` registers its no-name, cancel, name-input and completion handlers twice. The model follows the first registration, which is the one the router calls.
- The rest of the repository is not part of this model: UI keyboards and reply texts, the scheduler, the payment handlers and the legacy `app/` tree.
