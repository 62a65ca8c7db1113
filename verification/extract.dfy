/**
 * Reading a fetched search page: the embedded state in the
 * `<script type="mime/invalid">` tag (`find_json_on_page`), the catalog
 * validation (`ItemsResponse(**catalog)`), the removal of id-less records
 * (`_clean_null_ads`), the seller slug search (`_extract_seller_slug`) and
 * the view counters of a detail page (`_extract_views`).
 *
 * HTML parsing, `html.unescape` and `json.loads` are not modelled: a page
 * arrives as the list of its script elements, each with its `type`
 * attribute and its decoded text (or `None` when the text is not JSON).
 */
module Extract {
  import opened Wrappers
  import opened Json
  import opened Models
  import opened PyStr
  import Seqs

  /** One `<script>` element: its `type` attribute and its text as decoded JSON. */
  datatype Script = Script(scriptType: Option<string>, decoded: Option<Json>)

  /**
   * A fetched page as an HTML parser sees it: the script elements and the
   * text of the two view-counter elements, if present.
   */
  datatype Document = Document(
    scripts: seq<Script>,
    totalViews: Option<string>,
    todayViews: Option<string>)

  const MimeInvalid: string := "mime/invalid"

  // ---------------------------------------------------------------------
  // find_json_on_page
  // ---------------------------------------------------------------------

  /**
   * What `find_json_on_page` returns once the first `mime/invalid` script
   * has decoded to `parsed`: `parsed['state']` if `'state' in parsed`, else
   * `parsed['data']` if `'data' in parsed`, else `parsed` itself. Python's
   * `in` and `[...]` follow the value's type: on a list `in` tests the
   * elements and indexing by a string raises; on a string `in` is a
   * substring test and indexing raises; on a number, a bool or None `in`
   * raises. Every exception is caught and yields `{}`.
   */
  function ResolveState(parsed: Json): (r: Json)
    ensures parsed.JObj? && "state" in parsed.fields ==> r == parsed.fields["state"]
    ensures parsed.JObj? && "state" !in parsed.fields && "data" in parsed.fields ==> r == parsed.fields["data"]
    ensures parsed.JObj? && "state" !in parsed.fields && "data" !in parsed.fields ==> r == parsed
    ensures parsed.JNull? || parsed.JBool? || parsed.JNum? ==> r == EmptyObj
  {
    match parsed
    case JObj(f) =>
      if "state" in f then f["state"] else if "data" in f then f["data"] else parsed
    case JArr(items) =>
      if JStr("state") in items || JStr("data") in items then EmptyObj else parsed
    case JStr(s) =>
      if Contains(s, "state") || Contains(s, "data") then EmptyObj else parsed
    case _ => EmptyObj
  }

  /** `find_json_on_page(html)`: the first `mime/invalid` script decides; anything else yields `{}`. */
  function FindJsonOnPage(scripts: seq<Script>): (r: Json)
    ensures (forall k :: 0 <= k < |scripts| ==> scripts[k].scriptType != Some(MimeInvalid)) ==> r == EmptyObj
  {
    if scripts == [] then EmptyObj
    else if scripts[0].scriptType == Some(MimeInvalid) then
      match scripts[0].decoded
      case None => EmptyObj
      case Some(parsed) => ResolveState(parsed)
    else FindJsonOnPage(scripts[1..])
  }

  /** Index of the first `mime/invalid` script, if any. */
  function FirstMimeScript(scripts: seq<Script>): (i: Option<nat>)
    ensures i.Some? ==> i.value < |scripts| && scripts[i.value].scriptType == Some(MimeInvalid)
    ensures i.Some? ==> forall k :: 0 <= k < i.value ==> scripts[k].scriptType != Some(MimeInvalid)
    ensures i.None? ==> forall k :: 0 <= k < |scripts| ==> scripts[k].scriptType != Some(MimeInvalid)
  {
    if scripts == [] then None
    else if scripts[0].scriptType == Some(MimeInvalid) then Some(0)
    else match FirstMimeScript(scripts[1..])
      case None => None
      case Some(j) => Some(j + 1)
  }

  /**
   * Only the first `mime/invalid` script counts: a decode failure there
   * yields `{}`; otherwise its `state` over its `data` over the whole
   * object. Scripts before it of another type, and everything after it,
   * are ignored.
   */
  lemma {:induction false} FirstMimeScriptDecides(scripts: seq<Script>)
    ensures match FirstMimeScript(scripts)
            case None => FindJsonOnPage(scripts) == EmptyObj
            case Some(i) =>
              && (scripts[i].decoded.None? ==> FindJsonOnPage(scripts) == EmptyObj)
              && (scripts[i].decoded.Some? ==> FindJsonOnPage(scripts) == ResolveState(scripts[i].decoded.value))
    decreases |scripts|
  {
    if scripts != [] && scripts[0].scriptType != Some(MimeInvalid) {
      FirstMimeScriptDecides(scripts[1..]);
    }
  }

  // ---------------------------------------------------------------------
  // Catalog validation: ItemsResponse(**catalog)
  // ---------------------------------------------------------------------

  /**
   * Validating the `items` list: every raw record must validate as an
   * `Item` (pydantic's per-record validation is the parameter
   * `decodeItem`), otherwise the whole catalog fails.
   */
  function ValidateItems(raw: seq<Json>, decodeItem: Json -> Option<Item>): (r: Option<seq<Item>>)
    ensures r.Some? ==> |r.value| == |raw| && forall k :: 0 <= k < |raw| ==> decodeItem(raw[k]) == Some(r.value[k])
    ensures r.None? ==> exists k :: 0 <= k < |raw| && decodeItem(raw[k]).None?
  {
    if raw == [] then Some([])
    else match decodeItem(raw[0])
      case None => None
      case Some(ad) =>
        match ValidateItems(raw[1..], decodeItem)
        case None => None
        case Some(rest) => Some([ad] + rest)
  }

  /** `ItemsResponse(**kwargs)`: `items` is required and must be a list of valid items. */
  function ValidateCatalog(kwargs: map<string, Json>, decodeItem: Json -> Option<Item>): (r: Option<ItemsResponse>)
    ensures "items" !in kwargs ==> r.None?
    ensures "items" in kwargs && !kwargs["items"].JArr? ==> r.None?
  {
    if "items" in kwargs && kwargs["items"].JArr? then
      match ValidateItems(kwargs["items"].items, decodeItem)
      case None => None
      case Some(ads) => Some(ItemsResponse(ads))
    else None
  }

  /** How the crawl loop's `ItemsResponse(**page.get("data", {}).get("catalog"))` ends. */
  datatype CatalogOutcome =
    | CatalogRaised    // AttributeError or TypeError: not caught by the crawl loop
    | CatalogInvalid   // ValidationError: the loop moves on
    | Catalog(items: seq<Item>)

  /**
   * The crawl loop's catalog step: `.get` on something that is not a dict
   * raises AttributeError, and `**` on a missing (None) or non-dict catalog
   * raises TypeError; only a ValidationError is caught by the loop.
   */
  function WalkerCatalog(page: Json, decodeItem: Json -> Option<Item>): (r: CatalogOutcome)
    ensures !page.JObj? ==> r == CatalogRaised
    ensures page.JObj? && "data" !in page.fields ==> r == CatalogRaised
    ensures r.Catalog? ==>
      && page.JObj? && "data" in page.fields && page.fields["data"].JObj?
      && "catalog" in page.fields["data"].fields && page.fields["data"].fields["catalog"].JObj?
      && ValidateCatalog(page.fields["data"].fields["catalog"].fields, decodeItem) == Some(ItemsResponse(r.items))
  {
    match DictGet(page, "data", EmptyObj)
    case None => CatalogRaised
    case Some(data) =>
      match DictGet(data, "catalog", JNull)
      case None => CatalogRaised
      case Some(catalog) =>
        if !catalog.JObj? then CatalogRaised
        else match ValidateCatalog(catalog.fields, decodeItem)
          case None => CatalogInvalid
          case Some(resp) => Catalog(resp.items)
  }

  /**
   * The API's version: an empty page, a failing `.get`, a non-dict
   * catalog or a validation error all skip the URL (`None`); the missing
   * catalog defaults to `{}`, which fails validation.
   */
  function ApiCatalog(page: Json, decodeItem: Json -> Option<Item>): (r: Option<seq<Item>>)
    ensures !Truthy(page) ==> r.None?
    ensures r.Some? ==>
      && page.JObj? && "data" in page.fields && page.fields["data"].JObj?
      && "catalog" in page.fields["data"].fields && page.fields["data"].fields["catalog"].JObj?
      && ValidateCatalog(page.fields["data"].fields["catalog"].fields, decodeItem) == Some(ItemsResponse(r.value))
  {
    if !Truthy(page) then None
    else match DictGet(page, "data", EmptyObj)
      case None => None
      case Some(data) =>
        match DictGet(data, "catalog", EmptyObj)
        case None => None
        case Some(catalog) =>
          if !catalog.JObj? then None
          else match ValidateCatalog(catalog.fields, decodeItem)
            case None => None
            case Some(resp) => Some(resp.items)
  }

  // ---------------------------------------------------------------------
  // _clean_null_ads
  // ---------------------------------------------------------------------

  /** `[ad for ad in ads if ad.id]` */
  function CleanNullAds(ads: seq<Item>): (r: seq<Item>)
    ensures forall k :: 0 <= k < |r| ==> IdTruthy(r[k].id)
    ensures Seqs.IsSubseq(r, ads)
    ensures forall ad :: ad in r <==> ad in ads && IdTruthy(ad.id)
    ensures forall ad :: multiset(r)[ad] == if IdTruthy(ad.id) then multiset(ads)[ad] else 0
  {
    var keep := (ad: Item) => IdTruthy(ad.id);
    Seqs.FilterIsSubseq(keep, ads);
    forall ad ensures ad in Seqs.Filter(keep, ads) <==> ad in ads && IdTruthy(ad.id) {
      Seqs.FilterMembers(keep, ads, ad);
    }
    forall ad ensures multiset(Seqs.Filter(keep, ads))[ad] == if IdTruthy(ad.id) then multiset(ads)[ad] else 0 {
      Seqs.FilterCount(keep, ads, ad);
    }
    Seqs.Filter(keep, ads)
  }

  // ---------------------------------------------------------------------
  // _extract_seller_slug: re.search(r"/brands/([^/?#]+)", text)
  // ---------------------------------------------------------------------

  const Brands: string := "/brands/"

  predicate IsSlugChar(c: char) {
    c != '/' && c != '?' && c != '#'
  }

  /** Length of the longest run of slug characters at the start of `s` (the greedy `+`). */
  function SlugRun(s: string): (n: nat)
    ensures n <= |s|
    ensures forall k :: 0 <= k < n ==> IsSlugChar(s[k])
    ensures n < |s| ==> !IsSlugChar(s[n])
  {
    if s != [] && IsSlugChar(s[0]) then 1 + SlugRun(s[1..]) else 0
  }

  /** The pattern matches at position `i`: `/brands/` followed by at least one slug character. */
  predicate MatchesAt(s: string, i: nat)
    requires i <= |s|
  {
    StartsWith(s[i..], Brands) && SlugRun(s[i + |Brands|..]) > 0
  }

  /** The captured group of a match at `i`. */
  function SlugAt(s: string, i: nat): string
    requires i <= |s| && MatchesAt(s, i)
  {
    s[i + |Brands|..][..SlugRun(s[i + |Brands|..])]
  }

  /**
   * `j` is where the leftmost match starts and `slug` is its group: no
   * earlier position matches, and the group stops at the end of the text
   * or at a `/`, `?` or `#`.
   */
  predicate LeftmostMatch(text: string, j: int, slug: string) {
    && 0 <= j <= |text| && MatchesAt(text, j) && slug == SlugAt(text, j)
    && (forall j' :: 0 <= j' < j ==> !MatchesAt(text, j'))
    && j + |Brands| + |slug| <= |text|
    && (j + |Brands| + |slug| == |text| || !IsSlugChar(text[j + |Brands| + |slug|]))
  }

  /** Where `re.search` finds its match, scanning from position `i`. */
  function SearchFrom(s: string, i: nat): (r: Option<nat>)
    requires i <= |s|
    ensures r.None? ==> forall j :: i <= j <= |s| ==> !MatchesAt(s, j)
    ensures r.Some? ==> i <= r.value <= |s| && MatchesAt(s, r.value) && forall j :: i <= j < r.value ==> !MatchesAt(s, j)
    decreases |s| - i
  {
    if MatchesAt(s, i) then Some(i)
    else if i == |s| then None
    else SearchFrom(s, i + 1)
  }

  /**
   * `_extract_seller_slug`: the group of the leftmost match — a non-empty
   * run of characters other than `/`, `?` and `#` right after `/brands/`,
   * as long as possible — or `None` when the pattern occurs nowhere.
   */
  function ExtractSellerSlug(text: string): (r: Option<string>)
    ensures r.None? ==> forall j :: 0 <= j <= |text| ==> !MatchesAt(text, j)
    ensures r.Some? ==> r.value != [] && forall k :: 0 <= k < |r.value| ==> IsSlugChar(r.value[k])
    ensures r.Some? ==> exists j :: LeftmostMatch(text, j, r.value)
  {
    match SearchFrom(text, 0)
    case None => None
    case Some(j) =>
      var rest := text[j + |Brands|..];
      assert SlugAt(text, j) == rest[..SlugRun(rest)];
      assert LeftmostMatch(text, j, SlugAt(text, j));
      Some(SlugAt(text, j))
  }

  /** An ad whose rendering mentions `/brands/<slug>` gets that slug as its seller id. */
  function WithSeller(ad: Item, render: Item -> string): (r: Item)
    ensures r == ad.(sellerId := r.sellerId)
    ensures ExtractSellerSlug(render(ad)).Some? ==> r.sellerId == ExtractSellerSlug(render(ad))
    ensures ExtractSellerSlug(render(ad)).None? ==> r == ad
  {
    match ExtractSellerSlug(render(ad))
    case Some(slug) => ad.(sellerId := Some(slug))
    case None => ad
  }

  /**
   * `_add_seller_to_ads`: sets `sellerId` on every ad whose rendering
   * `str(ad)` (the parameter `render`) contains a seller slug; the list
   * keeps its length and order.
   */
  method AddSellerToAds(ads: seq<Item>, render: Item -> string) returns (r: seq<Item>)
    ensures |r| == |ads|
    ensures forall k :: 0 <= k < |ads| ==> r[k] == WithSeller(ads[k], render)
  {
    r := [];
    for i := 0 to |ads|
      invariant |r| == i
      invariant forall k :: 0 <= k < i ==> r[k] == WithSeller(ads[k], render)
    {
      var ad := ads[i];
      var slug := ExtractSellerSlug(render(ad));
      if slug.Some? {
        ad := ad.(sellerId := slug);
      }
      r := r + [ad];
    }
  }

  // ---------------------------------------------------------------------
  // _extract_views
  // ---------------------------------------------------------------------

  /** `''.join(filter(str.isdigit, text))` */
  function DigitsOf(text: string): (r: string)
    ensures forall k :: 0 <= k < |r| ==> IsAsciiDigit(r[k])
    ensures |r| <= |text|
  {
    if text == [] then []
    else (if IsAsciiDigit(text[0]) then [text[0]] else []) + DigitsOf(text[1..])
  }

  /**
   * `extract_digits(element)`: `None` for a missing element, otherwise
   * `int` of its digits; a text without any digit makes `int('')` raise,
   * which is the outer `None`.
   */
  function ExtractDigits(element: Option<string>): (r: Option<Option<int>>)
    ensures element.None? ==> r == Some(None)
    ensures element.Some? && DigitsOf(element.value) == [] ==> r.None?
    ensures element.Some? && DigitsOf(element.value) != [] ==> r == Some(Some(DigitsValue(DigitsOf(element.value))))
  {
    match element
    case None => Some(None)
    case Some(t) =>
      var d := DigitsOf(t);
      if d == [] then None else Some(Some(DigitsValue(d)))
  }

  /** `_extract_views(html)`: (total views, views today), or `None` when either extraction raises. */
  function ExtractViews(doc: Document): (r: Option<(Option<int>, Option<int>)>)
    ensures r.Some? <==> ExtractDigits(doc.totalViews).Some? && ExtractDigits(doc.todayViews).Some?
    ensures r.Some? ==> r.value.0 == ExtractDigits(doc.totalViews).value && r.value.1 == ExtractDigits(doc.todayViews).value
  {
    match ExtractDigits(doc.totalViews)
    case None => None
    case Some(total) =>
      match ExtractDigits(doc.todayViews)
      case None => None
      case Some(today) => Some((total, today))
  }
}
