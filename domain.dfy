/** The records of the relay: the rows of the `orders`, `sellers`,
    `pickup_locations` and `messages` tables, the notifications the bot sends,
    and the replies it gives to whoever wrote to it. */
module Domain {
  import opened Wrappers

  /** `datetime.utcnow().isoformat()`, supplied by the caller. */
  type Timestamp = string

  datatype Status = Active | Completed

  /** One line of an order as the storefront sends it. */
  datatype Item = Item(name: string, quantity: int, price: int)

  /** The `contact` block `save_order` builds (bot.py:86-92). */
  datatype Contact = Contact(
    name: string,
    phone: string,
    address: string,
    paymentMethod: Option<string>,
    deliveryType: Option<string>)

  /** A row of `orders`. */
  datatype Order = Order(
    id: int,
    orderNumber: string,
    userId: int,
    sellerId: int,
    addressId: Option<int>,
    items: seq<Item>,
    total: int,
    contact: Contact,
    status: Status,
    completedAt: Option<Timestamp>)

  /** A row of `sellers`. */
  datatype Seller = Seller(id: int, name: string, telegramId: int)

  /** A row of `pickup_locations`; its seller may be missing. */
  datatype PickupLocation = PickupLocation(id: int, sellerId: Option<int>)

  datatype Role = BuyerRole | SellerRole

  /** A row of `messages`, the append-only conversation log. */
  datatype Message = Message(orderId: int, senderId: int, role: Role, text: string)

  /** What a `bot.send_message` carries, without its wording and markup. */
  datatype Notice =
    | BuyerMessageNotice(orderNumber: string, text: string)
    | BuyerCopyNotice(buyerName: string, orderNumber: string, text: string)
    | SellerMessageNotice(orderNumber: string, text: string)
    | SellerCopyNotice(sellerName: string, orderNumber: string, text: string)
    | OrderDoneNotice(orderNumber: string)
    | OrderDoneCopyNotice(sellerName: string, orderNumber: string)
    | ButtonsRemoved(messageId: int)
    | NewOrderNotice(orderNumber: string, buyerName: string, address: string, items: seq<Item>,
                     total: int, paymentMethod: Option<string>, deliveryType: Option<string>,
                     button: string)
    | NewOrderCopyNotice(orderNumber: string, sellerName: string, buyerName: string,
                         address: string, total: int)

  /** One attempt to send `notice` to chat `to`, and whether it got through. */
  datatype Delivery = Delivery(to: int, notice: Notice, delivered: bool)

  /** An entry of the seller's list of active orders (bot.py:225). */
  datatype Entry = Entry(orderNumber: string, buyerName: string)

  /** What the bot answers the author of a chat message with (`reply_to`). */
  datatype Reply =
    | Welcome                              // /start
    | BuyerAck                             // message passed on to the seller
    | ActiveOrderList(entries: seq<Entry>) // the seller's active orders
    | NoActiveOrders
    | EmptyReply                           // `#num` with no text
    | OrderNotFound(orderNumber: string)
    | NotYourOrder
    | SellerAck(orderNumber: string)       // reply passed on to the buyer
    | Guidance                             // neither buyer nor seller
    | NoReply                              // the handler returned without answering
    | Aborted                              // an uncaught send failure ended the handler

  /** What the bot answers a button press with (`answer_callback_query`). */
  datatype Answer =
    | Unhandled            // no handler takes this callback
    | UnknownOrder
    | NotASeller
    | NotYours
    | OrderCompleted

  /** The order is an active order placed by `buyer`. */
  predicate ActiveFor(o: Order, buyer: int) {
    o.userId == buyer && o.status == Active
  }

  /** The order is an active order of the seller with id `sellerId`. */
  predicate ActiveAt(o: Order, sellerId: int) {
    o.sellerId == sellerId && o.status == Active
  }

  /** The entry the seller's list shows for an order. */
  function EntryOf(o: Order): Entry {
    Entry(o.orderNumber, o.contact.name)
  }

  /** The order as `complete_order` leaves it (bot.py:149-150). */
  function MarkCompleted(o: Order, now: Timestamp): Order {
    o.(status := Completed, completedAt := Some(now))
  }
}
