/**
 * The listing records of parser_avito/src/models.py: a validated catalog
 * (`ItemsResponse`) holds `Item`s, and every `Item` field is optional.
 * Only the fields that the scraper's own code reads or writes are kept.
 */
module Models {
  import opened Wrappers
  import opened Json

  /** `PriceDetailed`: every field is required; `value` is the one the price stage compares. */
  datatype PriceDetailed = PriceDetailed(
    enabled: bool,
    fullString: string,
    hasValue: bool,
    postfix: string,
    text: string,                         // the model's `string` field
    stringWithoutDiscount: Option<string>,
    title: map<string, string>,
    titleDative: string,
    value: int,
    wasLowered: bool,
    exponent: string)

  /** `Geo` */
  datatype Geo = Geo(geoReferences: seq<Json>, formattedAddress: string)

  /** `IvaComponent` */
  datatype IvaComponent = IvaComponent(component: string, payload: Option<map<string, Json>>)

  /** `IvaStep`: a step's `payload` is optional. */
  datatype IvaStep = IvaStep(componentData: IvaComponent, payload: Option<map<string, Json>>, isDefault: bool)

  /**
   * `Item.id: int | dict | None`. A dict id is kept with integer values
   * only; that is all the API projection reads from it.
   */
  datatype ItemId = IntId(n: int) | DictId(fields: map<string, int>)

  /** `if ad.id:` */
  predicate IdTruthy(id: Option<ItemId>) {
    match id
    case None => false
    case Some(IntId(n)) => n != 0
    case Some(DictId(f)) => f != map[]
  }

  /** `Item` */
  datatype Item = Item(
    id: Option<ItemId>,
    urlPath: Option<string>,
    title: Option<string>,
    description: Option<string>,
    sortTimeStamp: Option<int>,            // milliseconds since the epoch
    priceDetailed: Option<PriceDetailed>,
    geo: Option<Geo>,
    iva: Option<map<string, seq<IvaStep>>>,
    isReserved: Option<bool>,
    sellerId: Option<string>,
    isPromotion: bool,
    totalViews: Option<int>,
    todayViews: Option<int>)

  /**
   * `Item()` with no arguments: every optional field is None and
   * `isPromotion` is False. Validation accepts it, so a record without an
   * id gets through and is left for the cleaning step to drop.
   */
  function DefaultItem(): (ad: Item)
    ensures !IdTruthy(ad.id) && !ad.isPromotion
    ensures ad.sellerId.None? && ad.totalViews.None? && ad.todayViews.None?
  {
    Item(None, None, None, None, None, None, None, None, None, None, false, None, None)
  }

  /** `ItemsResponse`: the `items` list is required. */
  datatype ItemsResponse = ItemsResponse(items: seq<Item>)
}
