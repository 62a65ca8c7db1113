/**
 * `AvitoParse.filter_ads` and its eight stages. Every stage is an
 * order-preserving comprehension over the listing list with two escape
 * hatches of its own: a disabled stage is the identity, and an exception
 * raised by any listing inside the comprehension makes the stage return its
 * whole input. The promotion stage first annotates every listing with
 * `isPromotion`, outside its `try`, so an exception there leaves
 * `filter_ads` altogether; that outcome is `None` here.
 */
module Filters {
  import opened Wrappers
  import opened Json
  import opened Models
  import opened PyStr
  import Seqs

  /** The fields of the scraper configuration the stages read. */
  datatype FilterConfig = FilterConfig(
    minPrice: int,
    maxPrice: int,
    blackKeywords: seq<string>,
    whiteKeywords: seq<string>,
    geo: string,                 // `None` and "" both disable the address stage
    sellerBlackList: seq<string>,
    maxAge: int,                 // seconds; 0 disables the recency stage
    ignoreReserve: bool,
    ignorePromotion: bool)

  datatype Stage = PriceRange | BlackKeywords | WhiteKeyword | Address | Seller | RecentTime | Reserve | Promotion

  /** The fixed order in which `filter_ads` applies the stages. */
  const Stages: seq<Stage> := [PriceRange, BlackKeywords, WhiteKeyword, Address, Seller, RecentTime, Reserve, Promotion]

  const Promoted: string := "Продвинуто"

  // ---------------------------------------------------------------------
  // _is_phrase_in_ads and _is_recent
  // ---------------------------------------------------------------------

  /** `any(phrase.lower() in text for phrase in phrases)` */
  predicate AnyPhraseIn(phrases: seq<string>, text: string)
    decreases |phrases|
  {
    phrases != [] && (Contains(text, Lower(phrases[0])) || AnyPhraseIn(phrases[1..], text))
  }

  /**
   * `_is_phrase_in_ads(ad, phrases)`: some phrase, lower-cased, occurs in
   * the lower-cased concatenation of title and description. Both must be
   * present: `None + ...` raises, see `Raises`.
   */
  predicate PhraseInAd(ad: Item, phrases: seq<string>)
    requires ad.title.Some? && ad.description.Some?
  {
    AnyPhraseIn(phrases, Lower(ad.title.value + ad.description.value))
  }

  /** `AnyPhraseIn` holds exactly when some phrase of the list occurs in the text. */
  lemma {:induction false} AnyPhraseInMembers(phrases: seq<string>, text: string)
    ensures AnyPhraseIn(phrases, text) <==> exists k :: 0 <= k < |phrases| && Contains(text, Lower(phrases[k]))
    decreases |phrases|
  {
    if phrases != [] {
      AnyPhraseInMembers(phrases[1..], text);
      if Contains(text, Lower(phrases[0])) {
        assert 0 < |phrases| && Contains(text, Lower(phrases[0]));
      }
      forall k | 1 <= k < |phrases| && Contains(text, Lower(phrases[k]))
        ensures exists k' :: 0 <= k' < |phrases[1..]| && Contains(text, Lower(phrases[1..][k']))
      {
        assert phrases[1..][k - 1] == phrases[k];
      }
    }
  }

  /** Keyword matching ignores the case in which the phrases are written. */
  lemma {:induction false} PhraseCaseInsensitive(phrases: seq<string>, text: string)
    ensures AnyPhraseIn(Seqs.Map(Upper, phrases), text) == AnyPhraseIn(phrases, text)
    decreases |phrases|
  {
    if phrases != [] {
      var up := Seqs.Map(Upper, phrases);
      assert up[1..] == Seqs.Map(Upper, phrases[1..]);
      LowerOfUpper(phrases[0]);
      PhraseCaseInsensitive(phrases[1..], text);
    }
  }

  /**
   * `_is_recent(ts, max_age)`, on integer microseconds: the listing was
   * published (`ts` milliseconds after the epoch) at most `maxAge` seconds
   * before `nowMicros`.
   */
  predicate IsRecent(nowMicros: int, timestampMs: int, maxAge: int) {
    nowMicros - timestampMs * 1000 <= maxAge * 1000000
  }

  /** 0001-01-01T00:00:00 and 9999-12-31T23:59:59.999, in milliseconds after the epoch. */
  const MinTimestampMs := -62135596800000
  const MaxTimestampMs := 253402300799999

  /** `datetime.utcfromtimestamp(ts / 1000)` gives a datetime only for a year from 1 to 9999. */
  predicate InDatetimeRange(timestampMs: int) {
    MinTimestampMs <= timestampMs <= MaxTimestampMs
  }

  /** `timedelta(seconds=s)` holds at most 999999999 days either way. */
  const MinDeltaSeconds := -86399999913600
  const MaxDeltaSeconds := 86399999999999

  predicate InTimedeltaRange(seconds: int) {
    MinDeltaSeconds <= seconds <= MaxDeltaSeconds
  }

  // ---------------------------------------------------------------------
  // The stages
  // ---------------------------------------------------------------------

  /** A disabled stage returns its input before entering its `try`. */
  predicate Enabled(stage: Stage, cfg: FilterConfig) {
    match stage
    case PriceRange => true
    case BlackKeywords => cfg.blackKeywords != []
    case WhiteKeyword => cfg.whiteKeywords != []
    case Address => cfg.geo != []
    case Seller => cfg.sellerBlackList != []
    case RecentTime => cfg.maxAge != 0
    case Reserve => cfg.ignoreReserve
    case Promotion => cfg.ignorePromotion
  }

  /**
   * The stage's condition raises on this listing: a missing field it
   * dereferences, or, for the age check, a timestamp outside the datetime
   * range or an age limit outside the timedelta range.
   */
  predicate Raises(stage: Stage, cfg: FilterConfig, ad: Item) {
    match stage
    case PriceRange => ad.priceDetailed.None?
    case BlackKeywords => ad.title.None? || ad.description.None?
    case WhiteKeyword => ad.title.None? || ad.description.None?
    case Address => ad.geo.None?
    case RecentTime =>
      ad.sortTimeStamp.None? || !InDatetimeRange(ad.sortTimeStamp.value) || !InTimedeltaRange(cfg.maxAge)
    case _ => false
  }

  /** The stage's condition, for a listing on which it does not raise. */
  predicate Keeps(stage: Stage, cfg: FilterConfig, nowMicros: int, ad: Item) {
    match stage
    case PriceRange =>
      ad.priceDetailed.Some? && cfg.minPrice <= ad.priceDetailed.value.value <= cfg.maxPrice
    case BlackKeywords =>
      ad.title.Some? && ad.description.Some? && !PhraseInAd(ad, cfg.blackKeywords)
    case WhiteKeyword =>
      ad.title.Some? && ad.description.Some? && PhraseInAd(ad, cfg.whiteKeywords)
    case Address =>
      ad.geo.Some? && Contains(ad.geo.value.formattedAddress, cfg.geo)
    case Seller =>
      ad.sellerId.None? || ad.sellerId.value == [] || ad.sellerId.value !in cfg.sellerBlackList
    case RecentTime =>
      ad.sortTimeStamp.Some? && IsRecent(nowMicros, ad.sortTimeStamp.value, cfg.maxAge)
    case Reserve => ad.isReserved != Some(true)
    case Promotion => !ad.isPromotion
  }

  predicate AnyRaises(stage: Stage, cfg: FilterConfig, ads: seq<Item>) {
    exists k :: 0 <= k < |ads| && Raises(stage, cfg, ads[k])
  }

  /**
   * One `_filter_by_*` comprehension with its guards: the identity when
   * disabled, the whole input when some listing raises, otherwise the
   * listings the condition keeps, in order.
   */
  function ApplyFilter(stage: Stage, cfg: FilterConfig, nowMicros: int, ads: seq<Item>): (r: seq<Item>)
    ensures !Enabled(stage, cfg) ==> r == ads
    ensures Enabled(stage, cfg) && AnyRaises(stage, cfg, ads) ==> r == ads
    ensures Enabled(stage, cfg) && !AnyRaises(stage, cfg, ads) ==>
      forall ad :: ad in r <==> ad in ads && Keeps(stage, cfg, nowMicros, ad)
    ensures Enabled(stage, cfg) && !AnyRaises(stage, cfg, ads) ==>
      forall ad :: multiset(r)[ad] == if Keeps(stage, cfg, nowMicros, ad) then multiset(ads)[ad] else 0
    ensures Seqs.IsSubseq(r, ads)
  {
    if !Enabled(stage, cfg) || AnyRaises(stage, cfg, ads) then
      Seqs.SubseqRefl(ads);
      ads
    else
      var keep := (ad: Item) => Keeps(stage, cfg, nowMicros, ad);
      Seqs.FilterIsSubseq(keep, ads);
      forall ad ensures ad in Seqs.Filter(keep, ads) <==> ad in ads && keep(ad) {
        Seqs.FilterMembers(keep, ads, ad);
      }
      forall ad ensures multiset(Seqs.Filter(keep, ads))[ad] == if keep(ad) then multiset(ads)[ad] else 0 {
        Seqs.FilterCount(keep, ads, ad);
      }
      Seqs.Filter(keep, ads)
  }

  /**
   * A listing whose timestamp lies beyond year 9999 or before year 1 makes
   * the age check raise, so the stage passes its whole input through.
   */
  lemma RecentOutOfRangePassesThrough(cfg: FilterConfig, nowMicros: int, ads: seq<Item>, k: nat)
    requires cfg.maxAge != 0 && k < |ads|
    requires ads[k].sortTimeStamp.Some? && !InDatetimeRange(ads[k].sortTimeStamp.value)
    ensures ApplyFilter(RecentTime, cfg, nowMicros, ads) == ads
  {
    assert Raises(RecentTime, cfg, ads[k]);
  }

  // ---------------------------------------------------------------------
  // _add_promotion_to_ads
  // ---------------------------------------------------------------------

  /**
   * Scanning one `vas` list for an entry whose `title` is "Продвинуто":
   * `v.get("title")` raises on an entry that is not a dict, unless an
   * earlier entry already decided `any(...)`.
   */
  function VasPromoted(vas: seq<Json>): (r: Option<bool>)
    ensures r == Some(true) ==> exists k :: 0 <= k < |vas| && IsPromotedEntry(vas[k])
    ensures r == Some(false) ==> forall k :: 0 <= k < |vas| ==> vas[k].JObj? && !IsPromotedEntry(vas[k])
  {
    if vas == [] then Some(false)
    else if !vas[0].JObj? then None
    else if IsPromotedEntry(vas[0]) then Some(true)
    else
      var rest := VasPromoted(vas[1..]);
      assert rest == Some(true) ==> exists k :: 1 <= k < |vas| && IsPromotedEntry(vas[k]) by {
        if rest == Some(true) {
          var k :| 0 <= k < |vas[1..]| && IsPromotedEntry(vas[1..][k]);
          assert vas[k + 1] == vas[1..][k];
        }
      }
      assert rest == Some(false) ==> forall k :: 1 <= k < |vas| ==> vas[k].JObj? && !IsPromotedEntry(vas[k]) by {
        if rest == Some(false) {
          forall k | 1 <= k < |vas| ensures vas[k].JObj? && !IsPromotedEntry(vas[k]) {
            assert vas[k] == vas[1..][k - 1];
          }
        }
      }
      rest
  }

  predicate IsPromotedEntry(v: Json) {
    v.JObj? && "title" in v.fields && v.fields["title"] == JStr(Promoted)
  }

  /**
   * `for v in payload.get("vas", [])`: a list is scanned; iterating an
   * empty string or dict yields nothing; a non-empty string yields
   * characters and a non-empty dict yields keys, which have no `.get`;
   * anything else is not iterable. The last three raise.
   */
  function IterPromoted(vas: Json): (r: Option<bool>)
    ensures vas.JArr? ==> r == VasPromoted(vas.items)
    ensures !vas.JArr? && r.Some? ==> r == Some(false) && !Truthy(vas)
  {
    match vas
    case JArr(items) => VasPromoted(items)
    case JObj(f) => if f == map[] then Some(false) else None
    case JStr(s) => if s == [] then Some(false) else None
    case _ => None
  }

  /** The `vas` value of a step payload, `[]` when absent. */
  function Vas(payload: map<string, Json>): Json {
    if "vas" in payload then payload["vas"] else JArr([])
  }

  /**
   * The `any(...)` generator over the `DateInfoStep` steps: a step without
   * a payload raises (`None.get`), unless an earlier step already produced
   * a promoted entry.
   */
  function StepsPromoted(steps: seq<IvaStep>): (r: Option<bool>)
    ensures r == Some(true) ==> exists i :: 0 <= i < |steps| && StepPromoted(steps[i])
    ensures r == Some(false) ==> forall i :: 0 <= i < |steps| ==> !StepPromoted(steps[i])
  {
    if steps == [] then Some(false)
    else match steps[0].payload
      case None => None
      case Some(p) =>
        match IterPromoted(Vas(p))
        case None => None
        case Some(true) => Some(true)
        case Some(false) =>
          var rest := StepsPromoted(steps[1..]);
          assert rest == Some(true) ==> exists i :: 1 <= i < |steps| && StepPromoted(steps[i]) by {
            if rest == Some(true) {
              var i :| 0 <= i < |steps[1..]| && StepPromoted(steps[1..][i]);
              assert steps[i + 1] == steps[1..][i];
            }
          }
          assert rest == Some(false) ==> forall i :: 1 <= i < |steps| ==> !StepPromoted(steps[i]) by {
            if rest == Some(false) {
              forall i | 1 <= i < |steps| ensures !StepPromoted(steps[i]) {
                assert steps[i] == steps[1..][i - 1];
              }
            }
          }
          assert !StepPromoted(steps[0]) by {
            if Vas(p).JArr? {
              VasPromotedSound(Vas(p).items);
            }
          }
          rest
  }

  /** A step whose payload's `vas` list holds an entry titled "Продвинуто". */
  predicate StepPromoted(step: IvaStep) {
    step.payload.Some? && Vas(step.payload.value).JArr?
    && exists k :: 0 <= k < |Vas(step.payload.value).items| && IsPromotedEntry(Vas(step.payload.value).items[k])
  }

  lemma VasPromotedSound(vas: seq<Json>)
    requires VasPromoted(vas) == Some(false)
    ensures forall k :: 0 <= k < |vas| ==> !IsPromotedEntry(vas[k])
  {
  }

  /** The steps listed under `DateInfoStep` of `ad.iva or {}`, `[]` when absent. */
  function DateInfoSteps(ad: Item): seq<IvaStep> {
    if ad.iva.Some? && "DateInfoStep" in ad.iva.value then ad.iva.value["DateInfoStep"] else []
  }

  /**
   * The value `_add_promotion_to_ads` assigns to `ad.isPromotion`, or
   * `None` when computing it raises. When it is computed, it is true
   * exactly when some `DateInfoStep` step carries a promoted `vas` entry.
   */
  function PromotionFlag(ad: Item): (r: Option<bool>)
    ensures r.Some? ==> (r.value <==> exists i :: 0 <= i < |DateInfoSteps(ad)| && StepPromoted(DateInfoSteps(ad)[i]))
  {
    StepsPromoted(DateInfoSteps(ad))
  }

  /** Well-formed promotion data (payloads present, `vas` lists of dicts) never raises. */
  lemma {:induction false} WellFormedStepsDecide(steps: seq<IvaStep>)
    requires forall i :: 0 <= i < |steps| ==> steps[i].payload.Some? && WellFormedVas(Vas(steps[i].payload.value))
    ensures StepsPromoted(steps).Some?
    decreases |steps|
  {
    if steps != [] {
      var vas := Vas(steps[0].payload.value);
      WellFormedVasDecides(vas.items);
      WellFormedStepsDecide(steps[1..]);
    }
  }

  predicate WellFormedVas(vas: Json) {
    vas.JArr? && forall k :: 0 <= k < |vas.items| ==> vas.items[k].JObj?
  }

  lemma {:induction false} WellFormedVasDecides(items: seq<Json>)
    requires forall k :: 0 <= k < |items| ==> items[k].JObj?
    ensures VasPromoted(items).Some?
    decreases |items|
  {
    if items != [] {
      WellFormedVasDecides(items[1..]);
    }
  }

  /** `_add_promotion_to_ads` as a value: every listing gets its flag, or the call raises. */
  function AnnotatePromotion(ads: seq<Item>): (r: Option<seq<Item>>)
    ensures r.Some? ==> |r.value| == |ads|
    ensures r.Some? ==> forall k :: 0 <= k < |ads| ==>
      PromotionFlag(ads[k]).Some? && r.value[k] == ads[k].(isPromotion := PromotionFlag(ads[k]).value)
    ensures r.None? ==> exists k :: 0 <= k < |ads| && PromotionFlag(ads[k]).None?
  {
    if ads == [] then Some([])
    else match PromotionFlag(ads[0])
      case None => None
      case Some(flag) =>
        match AnnotatePromotion(ads[1..])
        case None => None
        case Some(rest) => Some([ads[0].(isPromotion := flag)] + rest)
  }

  /**
   * The loop of `_add_promotion_to_ads`: sets `isPromotion` on every
   * listing in turn; `None` when computing a flag raises.
   */
  method AddPromotionToAds(ads: seq<Item>) returns (r: Option<seq<Item>>)
    ensures r == AnnotatePromotion(ads)
  {
    var out: seq<Item> := [];
    for i := 0 to |ads|
      invariant |out| == i
      invariant forall k :: 0 <= k < i ==>
        PromotionFlag(ads[k]).Some? && out[k] == ads[k].(isPromotion := PromotionFlag(ads[k]).value)
    {
      var flag := PromotionFlag(ads[i]);
      if flag.None? {
        return None;
      }
      out := out + [ads[i].(isPromotion := flag.value)];
    }
    AnnotateMatches(ads, out);
    return Some(out);
  }

  lemma {:induction false} AnnotateMatches(ads: seq<Item>, out: seq<Item>)
    requires |out| == |ads|
    requires forall k :: 0 <= k < |ads| ==>
      PromotionFlag(ads[k]).Some? && out[k] == ads[k].(isPromotion := PromotionFlag(ads[k]).value)
    ensures AnnotatePromotion(ads) == Some(out)
    decreases |ads|
  {
    if ads != [] {
      AnnotateMatches(ads[1..], out[1..]);
      assert out == [out[0]] + out[1..];
    }
  }

  // ---------------------------------------------------------------------
  // filter_ads
  // ---------------------------------------------------------------------

  /** One `_filter_by_*` call; only the promotion stage can raise out of it. */
  function ApplyStage(stage: Stage, cfg: FilterConfig, nowMicros: int, ads: seq<Item>): Option<seq<Item>> {
    if stage == Promotion then
      match AnnotatePromotion(ads)
      case None => None
      case Some(annotated) => Some(ApplyFilter(Promotion, cfg, nowMicros, annotated))
    else Some(ApplyFilter(stage, cfg, nowMicros, ads))
  }

  /** The stages run in order; an empty intermediate list ends the run at once. */
  function RunStages(stages: seq<Stage>, cfg: FilterConfig, nowMicros: int, ads: seq<Item>): Option<seq<Item>>
    decreases |stages|
  {
    if stages == [] then Some(ads)
    else match ApplyStage(stages[0], cfg, nowMicros, ads)
      case None => None
      case Some(next) => if next == [] then Some([]) else RunStages(stages[1..], cfg, nowMicros, next)
  }

  /** `filter_ads(ads)`; `None` when the promotion annotation raises. */
  function Pipeline(cfg: FilterConfig, nowMicros: int, ads: seq<Item>): Option<seq<Item>> {
    RunStages(Stages, cfg, nowMicros, ads)
  }

  /**
   * `filter_ads`: the loop over the stages, reassigning the list and
   * returning as soon as it is empty.
   */
  method FilterAds(cfg: FilterConfig, nowMicros: int, ads: seq<Item>) returns (r: Option<seq<Item>>)
    ensures r == Pipeline(cfg, nowMicros, ads)
  {
    var cur := ads;
    var i := 0;
    while i < |Stages|
      invariant 0 <= i <= |Stages|
      invariant RunStages(Stages[i..], cfg, nowMicros, cur) == Pipeline(cfg, nowMicros, ads)
    {
      var stage := Stages[i];
      assert Stages[i..][0] == stage && Stages[i..][1..] == Stages[i + 1..];
      var next: seq<Item>;
      if stage == Promotion {
        var annotated := AddPromotionToAds(cur);
        if annotated.None? {
          return None;
        }
        next := ApplyFilter(stage, cfg, nowMicros, annotated.value);
      } else {
        next := ApplyFilter(stage, cfg, nowMicros, cur);
      }
      cur := next;
      if cur == [] {
        return Some([]);
      }
      i := i + 1;
    }
    return Some(cur);
  }

  // ---------------------------------------------------------------------
  // Properties of the pipeline
  // ---------------------------------------------------------------------

  /** A listing with the promotion annotation cleared. */
  function Unflag(ad: Item): Item {
    ad.(isPromotion := false)
  }

  /** Every stage keeps an order-preserving subsequence of its input, up to the promotion flag. */
  lemma StageSubseq(stage: Stage, cfg: FilterConfig, nowMicros: int, ads: seq<Item>, next: seq<Item>)
    requires ApplyStage(stage, cfg, nowMicros, ads) == Some(next)
    ensures Seqs.IsSubseq(Seqs.Map(Unflag, next), Seqs.Map(Unflag, ads))
  {
    if stage == Promotion {
      var annotated := AnnotatePromotion(ads).value;
      assert Seqs.Map(Unflag, annotated) == Seqs.Map(Unflag, ads);
      Seqs.SubseqMap(Unflag, next, annotated);
    } else {
      Seqs.SubseqMap(Unflag, next, ads);
    }
  }

  /**
   * The result of `filter_ads` is an order-preserving subsequence of its
   * input: listings are only dropped, never reordered or altered, apart
   * from the promotion flag the last stage sets.
   */
  lemma {:induction false} RunStagesSubseq(stages: seq<Stage>, cfg: FilterConfig, nowMicros: int, ads: seq<Item>, r: seq<Item>)
    requires RunStages(stages, cfg, nowMicros, ads) == Some(r)
    ensures Seqs.IsSubseq(Seqs.Map(Unflag, r), Seqs.Map(Unflag, ads))
    decreases |stages|
  {
    if stages == [] {
      Seqs.SubseqRefl(Seqs.Map(Unflag, ads));
    } else {
      var next := ApplyStage(stages[0], cfg, nowMicros, ads).value;
      StageSubseq(stages[0], cfg, nowMicros, ads, next);
      if next == [] {
        assert r == [];
      } else {
        RunStagesSubseq(stages[1..], cfg, nowMicros, next, r);
        Seqs.SubseqTrans(Seqs.Map(Unflag, r), Seqs.Map(Unflag, next), Seqs.Map(Unflag, ads));
      }
    }
  }

  lemma PipelineSubseq(cfg: FilterConfig, nowMicros: int, ads: seq<Item>, r: seq<Item>)
    requires Pipeline(cfg, nowMicros, ads) == Some(r)
    ensures Seqs.IsSubseq(Seqs.Map(Unflag, r), Seqs.Map(Unflag, ads))
    ensures |r| <= |ads|
  {
    RunStagesSubseq(Stages, cfg, nowMicros, ads, r);
    SubseqLength(Seqs.Map(Unflag, r), Seqs.Map(Unflag, ads));
  }

  lemma {:induction false} SubseqLength<T>(a: seq<T>, b: seq<T>)
    requires Seqs.IsSubseq(a, b)
    ensures |a| <= |b|
    decreases |b|
  {
    if a != [] {
      if a[0] == b[0] && Seqs.IsSubseq(a[1..], b[1..]) {
        SubseqLength(a[1..], b[1..]);
      } else {
        SubseqLength(a, b[1..]);
      }
    }
  }

  /** Running the stages on an empty list gives an empty list. */
  lemma {:induction false} RunStagesEmpty(stages: seq<Stage>, cfg: FilterConfig, nowMicros: int)
    ensures RunStages(stages, cfg, nowMicros, []) == Some([])
    decreases |stages|
  {
    if stages != [] {
      assert ApplyStage(stages[0], cfg, nowMicros, []) == Some([]);
    }
  }

  /**
   * Running `first` then `rest` is running `first` and handing its result
   * to `rest`, except that an empty result is final: once a stage empties
   * the list, the later stages are not run and cannot raise.
   */
  lemma {:induction false} RunStagesAppend(first: seq<Stage>, rest: seq<Stage>, cfg: FilterConfig, nowMicros: int, ads: seq<Item>)
    ensures RunStages(first + rest, cfg, nowMicros, ads) ==
      match RunStages(first, cfg, nowMicros, ads)
      case None => None
      case Some(mid) => if mid == [] then Some([]) else RunStages(rest, cfg, nowMicros, mid)
    decreases |first|
  {
    if first == [] {
      assert first + rest == rest;
      if ads == [] {
        RunStagesEmpty(rest, cfg, nowMicros);
      }
    } else {
      assert (first + rest)[0] == first[0] && (first + rest)[1..] == first[1..] + rest;
      match ApplyStage(first[0], cfg, nowMicros, ads)
      case None =>
      case Some(next) =>
        if next != [] {
          RunStagesAppend(first[1..], rest, cfg, nowMicros, next);
        }
    }
  }

  /**
   * The configuration the API builds: no keywords, no address, no seller
   * list, no age limit and both ignore flags off. Only the price stage
   * filters; the promotion annotation still runs.
   */
  predicate OnlyPriceEnabled(cfg: FilterConfig) {
    cfg.blackKeywords == [] && cfg.whiteKeywords == [] && cfg.geo == [] && cfg.sellerBlackList == []
    && cfg.maxAge == 0 && !cfg.ignoreReserve && !cfg.ignorePromotion
  }

  /** With only the price stage enabled, `filter_ads` is the price filter followed by the annotation. */
  lemma OnlyPricePipeline(cfg: FilterConfig, nowMicros: int, ads: seq<Item>)
    requires OnlyPriceEnabled(cfg)
    ensures Pipeline(cfg, nowMicros, ads) ==
      var priced := ApplyFilter(PriceRange, cfg, nowMicros, ads);
      if priced == [] then Some([]) else AnnotatePromotion(priced)
  {
    var priced := ApplyFilter(PriceRange, cfg, nowMicros, ads);
    StagesAfterPrice();
    assert Pipeline(cfg, nowMicros, ads) == if priced == [] then Some([]) else RunStages(Stages[1..], cfg, nowMicros, priced);
    if priced != [] {
      LaterStagesAnnotateOnly(cfg, nowMicros, priced);
    }
  }

  /** The stages after the price stage: six filters, then the promotion stage. */
  lemma StagesAfterPrice()
    ensures Stages[0] == PriceRange
    ensures Stages[1..] == [BlackKeywords, WhiteKeyword, Address, Seller, RecentTime, Reserve] + [Promotion]
  {
  }

  /** With only the price stage enabled, the later stages only annotate a non-empty list. */
  lemma LaterStagesAnnotateOnly(cfg: FilterConfig, nowMicros: int, ads: seq<Item>)
    requires OnlyPriceEnabled(cfg) && ads != []
    ensures RunStages(Stages[1..], cfg, nowMicros, ads) == AnnotatePromotion(ads)
  {
    var middle := [BlackKeywords, WhiteKeyword, Address, Seller, RecentTime, Reserve];
    StagesAfterPrice();
    RunStagesAppend(middle, [Promotion], cfg, nowMicros, ads);
    DisabledStagesIdentity(middle, cfg, nowMicros, ads);
    match AnnotatePromotion(ads)
    case None =>
    case Some(annotated) =>
      assert ApplyFilter(Promotion, cfg, nowMicros, annotated) == annotated;
  }

  /** Stages that are all disabled (and do not annotate) leave a non-empty list as it is. */
  lemma {:induction false} DisabledStagesIdentity(stages: seq<Stage>, cfg: FilterConfig, nowMicros: int, ads: seq<Item>)
    requires ads != []
    requires forall k :: 0 <= k < |stages| ==> !Enabled(stages[k], cfg) && stages[k] != Promotion
    ensures RunStages(stages, cfg, nowMicros, ads) == Some(ads)
    decreases |stages|
  {
    if stages != [] {
      DisabledStagesIdentity(stages[1..], cfg, nowMicros, ads);
    }
  }

  /**
   * With the same keyword list as black list and white list, and no
   * listing missing its text, the two stages split the listings between
   * them: each listing is kept by exactly one of them.
   */
  lemma BlackWhiteComplement(cfg: FilterConfig, nowMicros: int, ads: seq<Item>)
    requires cfg.blackKeywords == cfg.whiteKeywords != []
    requires forall k :: 0 <= k < |ads| ==> ads[k].title.Some? && ads[k].description.Some?
    ensures forall ad :: ad in ads ==>
      (ad in ApplyFilter(BlackKeywords, cfg, nowMicros, ads) <==> ad !in ApplyFilter(WhiteKeyword, cfg, nowMicros, ads))
  {
  }

  // ---------------------------------------------------------------------
  // The pipeline as an intersection
  // ---------------------------------------------------------------------

  /** Every enabled stage among `stages` keeps `ad`. */
  predicate KeptByAll(stages: seq<Stage>, cfg: FilterConfig, nowMicros: int, ad: Item) {
    forall k :: 0 <= k < |stages| && Enabled(stages[k], cfg) ==> Keeps(stages[k], cfg, nowMicros, ad)
  }

  /** No enabled stage among `stages` raises on any listing of `ads`. */
  predicate NoneRaises(stages: seq<Stage>, cfg: FilterConfig, ads: seq<Item>) {
    forall k, j :: 0 <= k < |stages| && 0 <= j < |ads| && Enabled(stages[k], cfg) ==> !Raises(stages[k], cfg, ads[j])
  }

  predicate NoPromotion(stages: seq<Stage>) {
    forall k :: 0 <= k < |stages| ==> stages[k] != Promotion
  }

  /** The stages of `filter_ads` before the promotion stage. */
  const FilterStages: seq<Stage> := [PriceRange, BlackKeywords, WhiteKeyword, Address, Seller, RecentTime, Reserve]

  lemma StagesSplit()
    ensures Stages == FilterStages + [Promotion]
    ensures NoPromotion(FilterStages)
  {
  }

  /**
   * When no listing makes an enabled stage raise and the promotion data
   * can be read, `filter_ads` keeps exactly the annotated listings that
   * every enabled stage accepts: the pipeline is the intersection of the
   * stages' conditions.
   */
  lemma PipelineIntersection(cfg: FilterConfig, nowMicros: int, ads: seq<Item>)
    requires AnnotatePromotion(ads).Some?
    requires NoneRaises(Stages, cfg, ads)
    ensures Pipeline(cfg, nowMicros, ads).Some?
    ensures forall x :: x in Pipeline(cfg, nowMicros, ads).value <==>
      x in AnnotatePromotion(ads).value && KeptByAll(Stages, cfg, nowMicros, x)
  {
    StagesSplit();
    RunStagesAppend(FilterStages, [Promotion], cfg, nowMicros, ads);
    assert NoneRaises(FilterStages, cfg, ads) by {
      forall k, j | 0 <= k < |FilterStages| && 0 <= j < |ads| && Enabled(FilterStages[k], cfg)
        ensures !Raises(FilterStages[k], cfg, ads[j])
      {
        assert FilterStages[k] == Stages[k];
      }
    }
    RunFiltersMembers(FilterStages, cfg, nowMicros, ads);
    var mid := RunStages(FilterStages, cfg, nowMicros, ads).value;
    forall x ensures KeptByAll(Stages, cfg, nowMicros, x) <==>
      KeptByAll(FilterStages, cfg, nowMicros, x) && (Enabled(Promotion, cfg) ==> Keeps(Promotion, cfg, nowMicros, x))
    {
      KeptByAllSnoc(FilterStages, Promotion, cfg, nowMicros, x);
    }
    if mid == [] {
      NoneKeptByFilters(ads, mid, cfg, nowMicros);
    } else {
      PromotionStageMembers(ads, mid, cfg, nowMicros);
    }
  }

  /** When the filter stages leave nothing, no annotated listing passes them all. */
  lemma NoneKeptByFilters(ads: seq<Item>, mid: seq<Item>, cfg: FilterConfig, nowMicros: int)
    requires AnnotatePromotion(ads).Some? && mid == []
    requires forall x :: x in mid <==> x in ads && KeptByAll(FilterStages, cfg, nowMicros, x)
    ensures forall x :: x in AnnotatePromotion(ads).value ==> !KeptByAll(FilterStages, cfg, nowMicros, x)
  {
    StagesSplit();
    var ann := AnnotatePromotion(ads).value;
    forall x | x in ann ensures !KeptByAll(FilterStages, cfg, nowMicros, x) {
      var j := AnnotatedFrom(ads, ann, x);
      KeptByAllUnflagged(FilterStages, cfg, nowMicros, ads[j], x.isPromotion);
      assert ads[j] !in mid;
    }
  }

  /**
   * The promotion stage on what the filter stages kept: exactly the
   * annotated listings the filter stages accept, less the promoted ones
   * when the stage is enabled.
   */
  lemma PromotionStageMembers(ads: seq<Item>, mid: seq<Item>, cfg: FilterConfig, nowMicros: int)
    requires AnnotatePromotion(ads).Some? && mid != []
    requires forall x :: x in mid <==> x in ads && KeptByAll(FilterStages, cfg, nowMicros, x)
    ensures RunStages([Promotion], cfg, nowMicros, mid).Some?
    ensures forall x :: x in RunStages([Promotion], cfg, nowMicros, mid).value <==>
      x in AnnotatePromotion(ads).value && KeptByAll(FilterStages, cfg, nowMicros, x)
      && (Enabled(Promotion, cfg) ==> Keeps(Promotion, cfg, nowMicros, x))
  {
    AnnotateSubset(ads, mid);
    var annMid := AnnotatePromotion(mid).value;
    var r := ApplyFilter(Promotion, cfg, nowMicros, annMid);
    assert !AnyRaises(Promotion, cfg, annMid);
    assert ApplyStage(Promotion, cfg, nowMicros, mid) == Some(r);
    assert RunStages([Promotion], cfg, nowMicros, mid) == Some(r);
    forall x ensures x in annMid <==> x in AnnotatePromotion(ads).value && KeptByAll(FilterStages, cfg, nowMicros, x) {
      AnnotatedKept(ads, mid, cfg, nowMicros, x);
    }
  }

  /** Annotating what the filter stages kept is keeping the annotated listings they accept. */
  lemma AnnotatedKept(ads: seq<Item>, mid: seq<Item>, cfg: FilterConfig, nowMicros: int, x: Item)
    requires AnnotatePromotion(ads).Some? && AnnotatePromotion(mid).Some?
    requires forall x :: x in mid <==> x in ads && KeptByAll(FilterStages, cfg, nowMicros, x)
    ensures x in AnnotatePromotion(mid).value <==>
      x in AnnotatePromotion(ads).value && KeptByAll(FilterStages, cfg, nowMicros, x)
  {
    StagesSplit();
    var ann := AnnotatePromotion(ads).value;
    var annMid := AnnotatePromotion(mid).value;
    if x in annMid {
      var i := AnnotatedFrom(mid, annMid, x);
      KeptByAllUnflagged(FilterStages, cfg, nowMicros, mid[i], x.isPromotion);
      assert mid[i] in ads;
      var j :| 0 <= j < |ads| && ads[j] == mid[i];
      assert ann[j] == x;
    }
    if x in ann && KeptByAll(FilterStages, cfg, nowMicros, x) {
      var j := AnnotatedFrom(ads, ann, x);
      KeptByAllUnflagged(FilterStages, cfg, nowMicros, ads[j], x.isPromotion);
      assert ads[j] in mid;
      var i :| 0 <= i < |mid| && mid[i] == ads[j];
      assert annMid[i] == x;
    }
  }

  /**
   * Filter stages other than the promotion stage, none of which raises:
   * the run keeps exactly the listings every enabled one accepts.
   */
  lemma {:induction false} RunFiltersMembers(stages: seq<Stage>, cfg: FilterConfig, nowMicros: int, cur: seq<Item>)
    requires NoPromotion(stages) && NoneRaises(stages, cfg, cur)
    ensures RunStages(stages, cfg, nowMicros, cur).Some?
    ensures forall x :: x in RunStages(stages, cfg, nowMicros, cur).value <==>
      x in cur && KeptByAll(stages, cfg, nowMicros, x)
    decreases |stages|
  {
    if stages != [] {
      var st := stages[0];
      var next := ApplyFilter(st, cfg, nowMicros, cur);
      assert ApplyStage(st, cfg, nowMicros, cur) == Some(next);
      assert Enabled(st, cfg) ==> !AnyRaises(st, cfg, cur);
      forall x ensures KeptByAll(stages, cfg, nowMicros, x) <==>
        (Enabled(st, cfg) ==> Keeps(st, cfg, nowMicros, x)) && KeptByAll(stages[1..], cfg, nowMicros, x)
      {
        KeptByAllCons(stages, cfg, nowMicros, x);
      }
      if next != [] {
        forall k, j | 0 <= k < |stages[1..]| && 0 <= j < |next| && Enabled(stages[1..][k], cfg)
          ensures !Raises(stages[1..][k], cfg, next[j])
        {
          assert next[j] in cur;
          var i :| 0 <= i < |cur| && cur[i] == next[j];
          assert stages[1..][k] == stages[k + 1];
        }
        assert NoPromotion(stages[1..]) by {
          forall k | 0 <= k < |stages[1..]| ensures stages[1..][k] != Promotion {
            assert stages[1..][k] == stages[k + 1];
          }
        }
        RunFiltersMembers(stages[1..], cfg, nowMicros, next);
      }
    }
  }

  lemma KeptByAllCons(stages: seq<Stage>, cfg: FilterConfig, nowMicros: int, x: Item)
    requires stages != []
    ensures KeptByAll(stages, cfg, nowMicros, x) <==>
      (Enabled(stages[0], cfg) ==> Keeps(stages[0], cfg, nowMicros, x)) && KeptByAll(stages[1..], cfg, nowMicros, x)
  {
    if (Enabled(stages[0], cfg) ==> Keeps(stages[0], cfg, nowMicros, x)) && KeptByAll(stages[1..], cfg, nowMicros, x) {
      forall k | 1 <= k < |stages| && Enabled(stages[k], cfg) ensures Keeps(stages[k], cfg, nowMicros, x) {
        assert stages[k] == stages[1..][k - 1];
      }
    }
  }

  lemma KeptByAllSnoc(stages: seq<Stage>, last: Stage, cfg: FilterConfig, nowMicros: int, x: Item)
    ensures KeptByAll(stages + [last], cfg, nowMicros, x) <==>
      KeptByAll(stages, cfg, nowMicros, x) && (Enabled(last, cfg) ==> Keeps(last, cfg, nowMicros, x))
  {
    var all := stages + [last];
    if KeptByAll(all, cfg, nowMicros, x) {
      forall k | 0 <= k < |stages| && Enabled(stages[k], cfg) ensures Keeps(stages[k], cfg, nowMicros, x) {
        assert all[k] == stages[k];
      }
      assert all[|stages|] == last;
    }
  }

  /** The filter stages other than the promotion stage ignore the promotion flag. */
  lemma KeptByAllUnflagged(stages: seq<Stage>, cfg: FilterConfig, nowMicros: int, ad: Item, flag: bool)
    requires NoPromotion(stages)
    ensures KeptByAll(stages, cfg, nowMicros, ad.(isPromotion := flag)) <==> KeptByAll(stages, cfg, nowMicros, ad)
  {
    forall k | 0 <= k < |stages|
      ensures Keeps(stages[k], cfg, nowMicros, ad.(isPromotion := flag)) <==> Keeps(stages[k], cfg, nowMicros, ad)
    {
      assert stages[k] != Promotion;
    }
  }

  /** An element of the annotation is some listing with its flag set. */
  lemma AnnotatedFrom(ads: seq<Item>, ann: seq<Item>, x: Item) returns (j: nat)
    requires AnnotatePromotion(ads) == Some(ann) && x in ann
    ensures j < |ads| && ann[j] == x && x == ads[j].(isPromotion := x.isPromotion)
  {
    j :| 0 <= j < |ann| && ann[j] == x;
  }

  /** Listings drawn from annotatable ones are annotatable. */
  lemma AnnotateSubset(ads: seq<Item>, sub: seq<Item>)
    requires AnnotatePromotion(ads).Some?
    requires forall x :: x in sub ==> x in ads
    ensures AnnotatePromotion(sub).Some?
  {
    forall k | 0 <= k < |sub| ensures PromotionFlag(sub[k]).Some? {
      assert sub[k] in ads;
      var j :| 0 <= j < |ads| && ads[j] == sub[k];
    }
  }
}
