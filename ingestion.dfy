/** The checks `new_order` applies to a request of `POST /api/new-order`
    before it touches the store (bot.py:359-372), and the contact block it
    stores with the order (bot.py:86-92, 364). */
module Ingestion {
  import opened Wrappers
  import opened Domain

  /** A decoded JSON body that Python treats as true (a non-empty object).
      A field is `None` when its key is absent; a body that is absent,
      `null` or the empty object is `None` as a whole (bot.py:360). */
  datatype OrderRequest = OrderRequest(
    userId: Option<int>,
    name: Option<string>,
    items: Option<seq<Item>>,
    total: Option<int>,
    address: Option<string>,
    paymentMethod: Option<string>,
    deliveryType: Option<string>)

  /** A request that passed the checks, with the buyer's name defaulted. */
  datatype ValidRequest = ValidRequest(
    userId: int,
    buyerName: string,
    items: seq<Item>,
    total: int,
    address: string,
    paymentMethod: Option<string>,
    deliveryType: Option<string>)

  /** The refusals of `new_order`, each with its HTTP status. */
  datatype HttpError = NoData | MissingFields | SellerNotFound | ServerError {
    function Status(): int {
      match this
      case NoData => 400
      case MissingFields => 400
      case SellerNotFound => 404
      case ServerError => 500
    }
  }

  /** The name an order gets when the request names no buyer (bot.py:364). */
  const DefaultBuyerName: string := "Покупатель"

  /** The placeholder phone number of every contact block (bot.py:88). */
  const PlaceholderPhone: string := "0000000000"

  /** Python truthiness of the four required fields (bot.py:371): present,
      and not 0, not the empty list, not the empty string. */
  predicate HasRequiredFields(b: OrderRequest) {
    && b.userId.Some? && b.userId.value != 0
    && b.items.Some? && b.items.value != []
    && b.total.Some? && b.total.value != 0
    && b.address.Some? && b.address.value != ""
  }

  /** bot.py:359-372: a falsy body is refused with "No data"; a body
      lacking one of userId, items, total and address, or holding a falsy
      value there, with "Missing required fields"; otherwise the request is
      taken as it is, with the buyer's name defaulted. */
  function CheckRequest(body: Option<OrderRequest>): (r: Result<ValidRequest, HttpError>)
    ensures r == Failure(NoData) <==> body.None?
    ensures r == Failure(MissingFields) <==> body.Some? && !HasRequiredFields(body.value)
    ensures r.Success? <==> body.Some? && HasRequiredFields(body.value)
    ensures r.Success? ==>
      var b, v := body.value, r.value;
      && b.userId == Some(v.userId) && b.items == Some(v.items)
      && b.total == Some(v.total) && b.address == Some(v.address)
      && v.paymentMethod == b.paymentMethod && v.deliveryType == b.deliveryType
      && v.buyerName == (if b.name.Some? then b.name.value else DefaultBuyerName)
  {
    if body.None? then Failure(NoData)
    else
      var b := body.value;
      if !HasRequiredFields(b) then Failure(MissingFields)
      else
        Success(ValidRequest(
          b.userId.value,
          if b.name.Some? then b.name.value else DefaultBuyerName,
          b.items.value,
          b.total.value,
          b.address.value,
          b.paymentMethod,
          b.deliveryType))
  }

  /** The contact block `save_order` stores (bot.py:86-92). */
  function ContactOf(v: ValidRequest): Contact {
    Contact(v.buyerName, PlaceholderPhone, v.address, v.paymentMethod, v.deliveryType)
  }
}
