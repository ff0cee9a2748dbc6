/** The relay itself: the store (bot.py:47-171) and the handlers that
    receive chat messages, button presses and new orders (bot.py:173-443).
    The database tables are fields of a `Bot`; every `bot.send_message` is an
    entry of its outbox, which records whether the send got through. */
module Relay {
  import opened Wrappers
  import opened Text
  import opened OrderNumbers
  import opened Domain
  import opened Commands
  import opened Ingestion

  /** One send attempt; it fails when the recipient is unreachable. */
  function Attempt(to: int, notice: Notice, unreachable: set<int>): (d: Delivery)
    ensures d.to == to && d.notice == notice
    ensures d.delivered <==> to !in unreachable
  {
    Delivery(to, notice, to !in unreachable)
  }

  class Bot {
    /** The `sellers` table, keyed by seller id. */
    const sellers: map<int, Seller>
    /** The `pickup_locations` table, keyed by address. */
    const locations: map<string, PickupLocation>
    /** `ADMIN_ID`, the observer who gets a copy of the traffic; 0 when unset. */
    const adminId: int

    /** `order_counters` */
    var counters: Counters
    /** `orders`, keyed by id */
    var orders: map<int, Order>
    /** the next value of the `orders.id` sequence */
    var nextId: int
    /** `messages` */
    var messages: seq<Message>
    /** every `bot.send_message`, in order */
    var outbox: seq<Delivery>

    /** What the tables keep true between events: ids are keys handed out by
        the sequence, `completed_at` is set exactly on completed orders,
        every order number was issued by the counters and no two orders share
        one, and every message belongs to an order. */
    ghost predicate Valid()
      reads this
    {
      && (forall k :: k in sellers ==> sellers[k].id == k)
      && 1 <= nextId
      && (forall id :: id in orders ==> orders[id].id == id && 1 <= id < nextId)
      && (forall id :: id in orders ==> (orders[id].completedAt.Some? <==> orders[id].status == Completed))
      && (forall id :: id in orders ==> Issued(counters, orders[id].orderNumber))
      && (forall a, b :: a in orders && b in orders && a != b ==> orders[a].orderNumber != orders[b].orderNumber)
      && (forall i :: 0 <= i < |messages| ==> messages[i].orderId in orders)
    }

    constructor (sellers: map<int, Seller>, locations: map<string, PickupLocation>, adminId: int)
      requires forall k :: k in sellers ==> sellers[k].id == k
      ensures Valid()
      ensures this.sellers == sellers && this.locations == locations && this.adminId == adminId
      ensures counters == map[] && orders == map[] && nextId == 1 && messages == [] && outbox == []
    {
      this.sellers := sellers;
      this.locations := locations;
      this.adminId := adminId;
      counters := map[];
      orders := map[];
      nextId := 1;
      messages := [];
      outbox := [];
    }

    /** Nothing in the store or the outbox changed. */
    twostate predicate Unchanged()
      reads this
    {
      && counters == old(counters) && orders == old(orders) && nextId == old(nextId)
      && messages == old(messages) && outbox == old(outbox)
    }

    /** `o` is the row stored under its own id. */
    predicate Stored(o: Order)
      reads this
    {
      o.id in orders && orders[o.id] == o
    }

    /** The buyer has an active order (the filter of bot.py:180). */
    predicate HasActiveOrder(buyer: int)
      reads this
    {
      exists id :: id in orders && ActiveFor(orders[id], buyer)
    }

    /** Some seller row has this Telegram id (the filter of bot.py:213). */
    predicate IsSeller(telegramId: int) {
      exists k :: k in sellers && sellers[k].telegramId == telegramId
    }

    /** Some order carries this number. */
    predicate NumberExists(orderNumber: string)
      reads this
    {
      exists id :: id in orders && orders[id].orderNumber == orderNumber
    }

    /** The sender is the seller of the order. */
    predicate OwnedBy(o: Order, telegramId: int) {
      o.sellerId in sellers && sellers[o.sellerId].telegramId == telegramId
    }

    /** Every seller row with this Telegram id is the row `sellerId`, so a
        lookup by Telegram id cannot find another seller. */
    predicate SoleSeller(telegramId: int, sellerId: int) {
      forall k :: k in sellers && sellers[k].telegramId == telegramId ==> k == sellerId
    }

    /** The seller has an active order. */
    predicate HasActiveOrders(sellerId: int)
      reads this
    {
      exists id :: id in orders && ActiveAt(orders[id], sellerId)
    }

    // ---------------------------------------------------------------- lookups

    /** `get_seller_by_address` (bot.py:52-62): the seller of the pickup
        location at `address`, when the location names one and that seller
        exists. */
    function SellerByAddress(address: string): (s: Option<Seller>)
      ensures s.Some? <==>
        && address in locations && locations[address].sellerId.Some?
        && locations[address].sellerId.value != 0 && locations[address].sellerId.value in sellers
      ensures s.Some? ==> s.value == sellers[locations[address].sellerId.value]
    {
      if address !in locations then None
      else
        var sellerId := locations[address].sellerId;
        if sellerId.None? || sellerId.value == 0 || sellerId.value !in sellers then None
        else Some(sellers[sellerId.value])
    }

    /** The id of the pickup location at `address` (bot.py:383-385). */
    function LocationId(address: string): (id: Option<int>)
      ensures id.Some? <==> address in locations
      ensures id.Some? ==> id.value == locations[address].id
    {
      if address in locations then Some(locations[address].id) else None
    }

    /** The Telegram id of seller `sellerId` (bot.py:190-193). */
    function SellerChat(sellerId: int): (chat: Option<int>)
      ensures chat.Some? <==> sellerId in sellers
      ensures chat.Some? ==> chat.value == sellers[sellerId].telegramId
    {
      if sellerId in sellers then Some(sellers[sellerId].telegramId) else None
    }

    /** `get_active_order_by_buyer` (bot.py:112-121): some active order of
        the buyer, `None` when there is none. Nothing makes it unique. */
    method GetActiveOrderByBuyer(buyer: int) returns (o: Option<Order>)
      requires Valid()
      ensures o.Some? ==> Stored(o.value) && ActiveFor(o.value, buyer)
      ensures o.None? <==> !HasActiveOrder(buyer)
    {
      if exists id :: id in orders && ActiveFor(orders[id], buyer) {
        var id :| id in orders && ActiveFor(orders[id], buyer);
        o := Some(orders[id]);
      } else {
        o := None;
      }
    }

    /** `get_seller_by_telegram_id` (bot.py:163-168): some seller row with
        this Telegram id, `None` when there is none. */
    method GetSellerByTelegramId(telegramId: int) returns (s: Option<Seller>)
      requires Valid()
      ensures s.Some? ==> s.value.id in sellers && sellers[s.value.id] == s.value
      ensures s.Some? ==> s.value.telegramId == telegramId
      ensures s.None? <==> !IsSeller(telegramId)
    {
      if exists k :: k in sellers && sellers[k].telegramId == telegramId {
        var k :| k in sellers && sellers[k].telegramId == telegramId;
        s := Some(sellers[k]);
      } else {
        s := None;
      }
    }

    /** `get_order_by_number` (bot.py:134-143): the order with this number
        (there is at most one), `None` when there is none. */
    method GetOrderByNumber(orderNumber: string) returns (o: Option<Order>)
      requires Valid()
      ensures o.Some? ==> Stored(o.value) && o.value.orderNumber == orderNumber
      ensures o.None? <==> !NumberExists(orderNumber)
    {
      if exists id :: id in orders && orders[id].orderNumber == orderNumber {
        var id :| id in orders && orders[id].orderNumber == orderNumber;
        o := Some(orders[id]);
      } else {
        o := None;
      }
    }

    /** `get_active_orders_by_seller` (bot.py:123-132): every active order of
        the seller, each once, in no particular order. */
    method GetActiveOrdersBySeller(sellerId: int) returns (rows: seq<Order>)
      requires Valid()
      ensures forall i :: 0 <= i < |rows| ==> Stored(rows[i]) && ActiveAt(rows[i], sellerId)
      ensures forall id :: id in orders && ActiveAt(orders[id], sellerId) ==> orders[id] in rows
      ensures forall i, j :: 0 <= i < j < |rows| ==> rows[i].id != rows[j].id
    {
      var pending := set id | id in orders && ActiveAt(orders[id], sellerId);
      rows := [];
      while exists id :: id in pending
        invariant pending <= orders.Keys
        invariant forall id :: id in pending ==> ActiveAt(orders[id], sellerId)
        invariant forall i :: 0 <= i < |rows| ==>
          Stored(rows[i]) && ActiveAt(rows[i], sellerId) && rows[i].id !in pending
        invariant forall id :: id in orders && ActiveAt(orders[id], sellerId) ==>
          id in pending || orders[id] in rows
        invariant forall i, j :: 0 <= i < j < |rows| ==> rows[i].id != rows[j].id
        decreases pending
      {
        var id :| id in pending;
        rows := rows + [orders[id]];
        pending := pending - {id};
      }
    }

    // -------------------------------------------------------- store updates

    /** `generate_order_number` (bot.py:64-78): the counter of the upper-cased
        first character of the seller's name is created with 1 or
        incremented, and the number carries the new value. The number is new:
        no stored order has it. */
    method GenerateOrderNumber(sellerName: string) returns (orderNumber: string)
      requires Valid()
      requires |sellerName| > 0
      modifies this
      ensures Valid()
      ensures (counters, orderNumber) == Issue(old(counters), Upper(sellerName[0]))
      ensures forall id :: id in orders ==> orders[id].orderNumber != orderNumber
      ensures orders == old(orders) && nextId == old(nextId)
      ensures messages == old(messages) && outbox == old(outbox)
    {
      var key := Upper(sellerName[0]);
      var next: nat;
      if key in counters {
        next := counters[key] + 1;
      } else {
        next := 1;
      }
      ghost var before := counters;
      counters := counters[key := next];
      orderNumber := [key] + Decimal(next);
      forall id | id in orders
        ensures Issued(counters, orders[id].orderNumber)
        ensures orders[id].orderNumber != orderNumber
      {
        IssueFresh(before, key, orders[id].orderNumber);
      }
    }

    /** `save_order` (bot.py:80-110): a new active order under the next id. */
    method SaveOrder(orderNumber: string, userId: int, sellerId: int, addressId: Option<int>,
                     items: seq<Item>, total: int, contact: Contact) returns (id: int)
      requires Valid()
      requires Issued(counters, orderNumber)
      requires forall k :: k in orders ==> orders[k].orderNumber != orderNumber
      modifies this
      ensures Valid()
      ensures id == old(nextId) && id !in old(orders) && nextId == id + 1
      ensures orders == old(orders)[id := Order(id, orderNumber, userId, sellerId, addressId,
                                                 items, total, contact, Active, None)]
      ensures counters == old(counters) && messages == old(messages) && outbox == old(outbox)
    {
      id := nextId;
      orders := orders[id := Order(id, orderNumber, userId, sellerId, addressId,
                                   items, total, contact, Active, None)];
      nextId := nextId + 1;
    }

    /** `complete_order` (bot.py:145-151): the order with this id, if any,
        becomes completed and is stamped with `now`, whatever its status was. */
    method CompleteOrder(id: int, now: Timestamp)
      requires Valid()
      modifies this
      ensures Valid()
      ensures orders == if id in old(orders) then old(orders)[id := MarkCompleted(old(orders)[id], now)]
                        else old(orders)
      ensures counters == old(counters) && nextId == old(nextId)
      ensures messages == old(messages) && outbox == old(outbox)
    {
      if id in orders {
        orders := orders[id := MarkCompleted(orders[id], now)];
      }
    }

    /** `save_message` (bot.py:153-161): one entry appended to the log. */
    method SaveMessage(orderId: int, senderId: int, role: Role, text: string)
      requires Valid()
      requires orderId in orders
      modifies this
      ensures Valid()
      ensures messages == old(messages) + [Message(orderId, senderId, role, text)]
      ensures counters == old(counters) && orders == old(orders) && nextId == old(nextId)
      ensures outbox == old(outbox)
    {
      messages := messages + [Message(orderId, senderId, role, text)];
    }

    /** `bot.send_message`: the attempt is recorded; it fails for an
        unreachable recipient. */
    method Send(to: int, notice: Notice, unreachable: set<int>) returns (delivered: bool)
      requires Valid()
      modifies this
      ensures Valid()
      ensures delivered <==> to !in unreachable
      ensures outbox == old(outbox) + [Attempt(to, notice, unreachable)]
      ensures counters == old(counters) && orders == old(orders) && nextId == old(nextId)
      ensures messages == old(messages)
    {
      delivered := to !in unreachable;
      outbox := outbox + [Delivery(to, notice, delivered)];
    }

    // ------------------------------------------------------------- handlers

    /** What the buyer relay sends for order `o`: the message to the order's
        seller when the seller row exists, and a copy to the observer when
        one is configured (bot.py:194-208). */
    function BuyerRelayDeliveries(o: Order, text: string, unreachable: set<int>): seq<Delivery> {
      (if o.sellerId in sellers
       then [Attempt(sellers[o.sellerId].telegramId, BuyerMessageNotice(o.orderNumber, text), unreachable)]
       else [])
      + (if adminId != 0
         then [Attempt(adminId, BuyerCopyNotice(o.contact.name, o.orderNumber, text), unreachable)]
         else [])
    }

    /** The outcome of relaying a buyer's message: exactly one `buyer` entry
        for an active order of the sender, carrying the text as written; the
        sends for that order; and an acknowledgment unless the copy to the
        observer failed, which that handler does not catch. Whether the
        seller could be reached does not matter to the acknowledgment. */
    twostate predicate BuyerRelayed(from: int, text: string, unreachable: set<int>, reply: Reply)
      reads this
    {
      && counters == old(counters) && orders == old(orders) && nextId == old(nextId)
      && (exists id :: id in orders && ActiveFor(orders[id], from)
            && messages == old(messages) + [Message(id, from, BuyerRole, text)]
            && outbox == old(outbox) + BuyerRelayDeliveries(orders[id], text, unreachable))
      && reply == (if adminId != 0 && adminId in unreachable then Aborted else BuyerAck)
    }

    /** `handle_buyer_message` (bot.py:181-210). */
    method HandleBuyerMessage(from: int, text: string, unreachable: set<int>) returns (reply: Reply)
      requires Valid()
      modifies this
      ensures Valid()
      ensures !old(HasActiveOrder(from)) ==> reply == NoReply && Unchanged()
      ensures old(HasActiveOrder(from)) ==> BuyerRelayed(from, text, unreachable, reply)
    {
      var found := GetActiveOrderByBuyer(from);
      if found.None? {
        reply := NoReply;
        return;
      }
      var o := found.value;
      SaveMessage(o.id, from, BuyerRole, text);
      var chat := SellerChat(o.sellerId);
      if chat.Some? {
        var _ := Send(chat.value, BuyerMessageNotice(o.orderNumber, text), unreachable);
      }
      if adminId != 0 {
        var copied := Send(adminId, BuyerCopyNotice(o.contact.name, o.orderNumber, text), unreachable);
        if !copied {
          reply := Aborted;
          return;
        }
      }
      reply := BuyerAck;
    }

    /** The list a seller's query gets: every active order of seller
        `sellerId`, each exactly once. */
    ghost predicate ListsActiveOrders(entries: seq<Entry>, sellerId: int)
      reads this
    {
      && (forall i :: 0 <= i < |entries| ==>
            exists id :: id in orders && ActiveAt(orders[id], sellerId) && entries[i] == EntryOf(orders[id]))
      && (forall id :: id in orders && ActiveAt(orders[id], sellerId) ==> EntryOf(orders[id]) in entries)
      && (forall i, j :: 0 <= i < j < |entries| ==> entries[i] != entries[j])
    }

    /** The answer to a seller's message without `#` (bot.py:219-234): the
        active orders of a seller row with the sender's Telegram id, or "no
        active orders" when it has none. */
    ghost predicate ListingReply(from: int, reply: Reply)
      reads this
    {
      if !IsSeller(from) then reply == NoReply
      else
        exists k :: k in sellers && sellers[k].telegramId == from &&
          if HasActiveOrders(k) then reply.ActiveOrderList? && ListsActiveOrders(reply.entries, k)
          else reply == NoActiveOrders
    }

    /** What a seller's reply to order `o` sends: the text to the buyer and a
        copy to the observer when one is configured (bot.py:259-276). */
    function SellerRelayDeliveries(o: Order, replyText: string, sellerName: string,
                                   unreachable: set<int>): seq<Delivery> {
      [Attempt(o.userId, SellerMessageNotice(o.orderNumber, replyText), unreachable)]
      + (if adminId != 0
         then [Attempt(adminId, SellerCopyNotice(sellerName, o.orderNumber, replyText), unreachable)]
         else [])
    }

    /** The outcome of a seller's `#<number> <text>` (bot.py:240-278): the
        checks run in the order empty reply, unknown order, not the sender's
        order, and every refusal leaves the log and the outbox as they were.
        A sender who is not the order's seller is always refused. On success
        exactly one `seller` entry is logged for the order, whatever happens
        to the sends after it. */
    twostate predicate SellerReplied(from: int, orderNumber: string, replyText: string,
                                     unreachable: set<int>, reply: Reply)
      reads this
    {
      && (reply != SellerAck(orderNumber) ==> messages == old(messages) && outbox == old(outbox))
      && (replyText == "" ==> reply == EmptyReply)
      && (replyText != "" && !NumberExists(orderNumber) ==> reply == OrderNotFound(orderNumber))
      && (forall id :: id in orders && orders[id].orderNumber == orderNumber && replyText != "" ==>
            && (reply == NotYourOrder || reply == SellerAck(orderNumber))
            && (!OwnedBy(orders[id], from) ==> reply == NotYourOrder)
            && (OwnedBy(orders[id], from) && SoleSeller(from, orders[id].sellerId) ==>
                  reply == SellerAck(orderNumber))
            && (reply == SellerAck(orderNumber) ==>
                  && OwnedBy(orders[id], from)
                  && messages == old(messages) + [Message(id, from, SellerRole, replyText)]
                  && outbox == old(outbox) + SellerRelayDeliveries(orders[id], replyText,
                                                                   sellers[orders[id].sellerId].name,
                                                                   unreachable)))
    }

    /** The success path of a seller's reply (bot.py:258-278): the reply is
        logged for the order and passed on to its buyer, with a copy to the
        observer. */
    method RelayToBuyer(o: Order, s: Seller, from: int, replyText: string, unreachable: set<int>)
      requires Valid()
      requires Stored(o) && s.id in sellers && sellers[s.id] == s && o.sellerId == s.id
      modifies this
      ensures Valid()
      ensures counters == old(counters) && orders == old(orders) && nextId == old(nextId)
      ensures messages == old(messages) + [Message(o.id, from, SellerRole, replyText)]
      ensures outbox == old(outbox) + SellerRelayDeliveries(o, replyText, s.name, unreachable)
    {
      SaveMessage(o.id, from, SellerRole, replyText);
      var _ := Send(o.userId, SellerMessageNotice(o.orderNumber, replyText), unreachable);
      if adminId != 0 {
        var _ := Send(adminId, SellerCopyNotice(s.name, o.orderNumber, replyText), unreachable);
      }
    }

    /** The `#<number> <text>` branch of `handle_seller_message`
        (bot.py:236-278). */
    method AnswerSellerReply(from: int, orderNumber: string, replyText: string, unreachable: set<int>)
      returns (reply: Reply)
      requires Valid()
      modifies this
      ensures Valid()
      ensures counters == old(counters) && orders == old(orders) && nextId == old(nextId)
      ensures SellerReplied(from, orderNumber, replyText, unreachable, reply)
    {
      if replyText == "" {
        reply := EmptyReply;
        return;
      }
      var found := GetOrderByNumber(orderNumber);
      if found.None? {
        reply := OrderNotFound(orderNumber);
        return;
      }
      var o := found.value;
      assert forall id :: id in orders && orders[id].orderNumber == orderNumber ==> id == o.id;
      var seller := GetSellerByTelegramId(from);
      if seller.None? || o.sellerId != seller.value.id {
        reply := NotYourOrder;
        return;
      }
      RelayToBuyer(o, seller.value, from, replyText, unreachable);
      reply := SellerAck(orderNumber);
    }

    /** `handle_seller_message` (bot.py:213-282). */
    method HandleSellerMessage(from: int, text: string, unreachable: set<int>) returns (reply: Reply)
      requires Valid()
      modifies this
      ensures Valid()
      ensures counters == old(counters) && orders == old(orders) && nextId == old(nextId)
      ensures ParseSellerText(text).Query? ==>
        messages == old(messages) && outbox == old(outbox) && ListingReply(from, reply)
      ensures ParseSellerText(text).Addressed? ==>
        SellerReplied(from, ParseSellerText(text).orderNumber, ParseSellerText(text).replyText,
                      unreachable, reply)
    {
      var parsed := ParseSellerText(text);
      if parsed.Query? {
        reply := ListActiveOrders(from);
      } else {
        reply := AnswerSellerReply(from, parsed.orderNumber, parsed.replyText, unreachable);
      }
    }

    /** The seller's query branch (bot.py:219-234): the entries of the
        seller's active orders (bot.py:225), or "no active orders". */
    method ListActiveOrders(from: int) returns (reply: Reply)
      requires Valid()
      ensures ListingReply(from, reply)
    {
      var seller := GetSellerByTelegramId(from);
      if seller.None? {
        reply := NoReply;
        return;
      }
      var s := seller.value;
      var rows := GetActiveOrdersBySeller(s.id);
      if rows == [] {
        reply := NoActiveOrders;
      } else {
        var entries := seq(|rows|, i requires 0 <= i < |rows| => EntryOf(rows[i]));
        reply := ActiveOrderList(entries);
        forall i | 0 <= i < |entries|
          ensures exists id :: id in orders && ActiveAt(orders[id], s.id) && entries[i] == EntryOf(orders[id])
        {
          assert rows[i].id in orders && orders[rows[i].id] == rows[i];
        }
        forall id | id in orders && ActiveAt(orders[id], s.id)
          ensures EntryOf(orders[id]) in entries
        {
          var j :| 0 <= j < |rows| && rows[j] == orders[id];
          assert entries[j] == EntryOf(orders[id]);
        }
        forall i, j | 0 <= i < j < |entries|
          ensures entries[i] != entries[j]
        {
          assert orders[rows[i].id].orderNumber != orders[rows[j].id].orderNumber;
        }
        assert HasActiveOrders(s.id) by {
          assert rows[0].id in orders && ActiveAt(orders[rows[0].id], s.id);
        }
      }
      assert s.id in sellers && sellers[s.id].telegramId == from;
    }

    /** `fallback_handler` (bot.py:346-348) and the `/start` handler
        (bot.py:175-177) answer with a fixed text and change nothing. The
        handlers are tried in registration order (bot.py:175, 180, 213, 346):
        a sender with an active order is served as a buyer even when they are
        also a seller. */
    method HandleMessage(from: int, text: string, unreachable: set<int>) returns (route: Route, reply: Reply)
      requires Valid()
      modifies this
      ensures Valid()
      ensures route == RouteFor(text, old(HasActiveOrder(from)), IsSeller(from))
      ensures route == StartRoute ==> reply == Welcome && Unchanged()
      ensures route == BuyerRoute ==> BuyerRelayed(from, text, unreachable, reply)
      ensures route == SellerRoute ==>
        counters == old(counters) && orders == old(orders) && nextId == old(nextId)
      ensures route == SellerRoute && ParseSellerText(text).Query? ==>
        messages == old(messages) && outbox == old(outbox) && ListingReply(from, reply)
      ensures route == SellerRoute && ParseSellerText(text).Addressed? ==>
        SellerReplied(from, ParseSellerText(text).orderNumber, ParseSellerText(text).replyText,
                      unreachable, reply)
      ensures route == FallbackRoute ==> reply == Guidance && Unchanged()
    {
      route := RouteFor(text, HasActiveOrder(from), IsSeller(from));
      match route
      case StartRoute =>
        reply := Welcome;
      case BuyerRoute =>
        reply := HandleBuyerMessage(from, text, unreachable);
      case SellerRoute =>
        reply := HandleSellerMessage(from, text, unreachable);
      case FallbackRoute =>
        reply := Guidance;
    }

    /** What completing order `o` sends: the notice to the buyer, a copy to
        the observer when one is configured, and the removal of the button
        from the seller's message (bot.py:312-341). */
    function CompletionDeliveries(o: Order, orderNumber: string, sellerName: string, from: int,
                                  messageId: int, unreachable: set<int>): seq<Delivery> {
      [Attempt(o.userId, OrderDoneNotice(orderNumber), unreachable)]
      + (if adminId != 0
         then [Attempt(adminId, OrderDoneCopyNotice(sellerName, orderNumber), unreachable)]
         else [])
      + [Attempt(from, ButtonsRemoved(messageId), unreachable)]
    }

    /** The outcome of pressing "complete" for `orderNumber`: the checks run
        in the order unknown order, sender not a seller, not the sender's
        order; a refusal changes nothing. A sender who is not the order's
        seller is always refused. On success that order, and no other,
        becomes completed with `now` as its time, whatever its status was. */
    twostate predicate CompletionOutcome(from: int, orderNumber: string, messageId: int,
                                         now: Timestamp, unreachable: set<int>, answer: Answer)
      reads this
    {
      var before := old(orders);
      && (answer != OrderCompleted ==> orders == before && outbox == old(outbox))
      && (!(exists id :: id in before && before[id].orderNumber == orderNumber) ==>
            answer == UnknownOrder)
      && (forall id :: id in before && before[id].orderNumber == orderNumber ==>
            && answer != UnknownOrder
            && (!IsSeller(from) ==> answer == NotASeller)
            && (IsSeller(from) && !OwnedBy(before[id], from) ==> answer == NotYours)
            && (OwnedBy(before[id], from) && SoleSeller(from, before[id].sellerId) ==>
                  answer == OrderCompleted)
            && (answer == OrderCompleted ==>
                  && OwnedBy(before[id], from)
                  && orders == before[id := MarkCompleted(before[id], now)]
                  && outbox == old(outbox) + CompletionDeliveries(before[id], orderNumber,
                                                                  sellers[before[id].sellerId].name,
                                                                  from, messageId, unreachable)))
    }

    /** The success path of a button press (bot.py:310-342): the order is
        completed, its buyer told, the observer given a copy, and the button
        taken off the seller's message. */
    method FinishOrder(o: Order, s: Seller, from: int, messageId: int, now: Timestamp,
                       unreachable: set<int>)
      requires Valid()
      requires Stored(o) && s.id in sellers && sellers[s.id] == s && o.sellerId == s.id
      modifies this
      ensures Valid()
      ensures counters == old(counters) && nextId == old(nextId) && messages == old(messages)
      ensures orders == old(orders)[o.id := MarkCompleted(o, now)]
      ensures outbox == old(outbox) + CompletionDeliveries(o, o.orderNumber, s.name, from, messageId,
                                                           unreachable)
    {
      CompleteOrder(o.id, now);
      var _ := Send(o.userId, OrderDoneNotice(o.orderNumber), unreachable);
      if adminId != 0 {
        var _ := Send(adminId, OrderDoneCopyNotice(s.name, o.orderNumber), unreachable);
      }
      var _ := Send(from, ButtonsRemoved(messageId), unreachable);
    }

    /** The checks and effects of a "complete" press for `orderNumber`
        (bot.py:291-343). */
    method CompleteByNumber(from: int, orderNumber: string, messageId: int, now: Timestamp,
                            unreachable: set<int>) returns (answer: Answer)
      requires Valid()
      modifies this
      ensures Valid()
      ensures counters == old(counters) && nextId == old(nextId) && messages == old(messages)
      ensures CompletionOutcome(from, orderNumber, messageId, now, unreachable, answer)
    {
      var found := GetOrderByNumber(orderNumber);
      if found.None? {
        answer := UnknownOrder;
        return;
      }
      var o := found.value;
      assert forall id :: id in orders && orders[id].orderNumber == orderNumber ==> id == o.id;
      var seller := GetSellerByTelegramId(from);
      if seller.None? {
        answer := NotASeller;
        return;
      }
      if o.sellerId != seller.value.id {
        answer := NotYours;
        return;
      }
      FinishOrder(o, seller.value, from, messageId, now, unreachable);
      answer := OrderCompleted;
    }

    /** `handle_seller_complete` (bot.py:285-343) as written: the order
        number is `split('_')[1]` of the button data (bot.py:288). */
    method HandleSellerComplete(from: int, data: string, messageId: int, now: Timestamp,
                                unreachable: set<int>) returns (answer: Answer)
      requires Valid()
      modifies this
      ensures Valid()
      ensures counters == old(counters) && nextId == old(nextId) && messages == old(messages)
      ensures !IsCompleteCallback(data) ==> answer == Unhandled && Unchanged()
      ensures IsCompleteCallback(data) ==>
        CompletionOutcome(from, CallbackOrderNumberAsWritten(data), messageId, now, unreachable, answer)
    {
      if !IsCompleteCallback(data) {
        answer := Unhandled;
        return;
      }
      answer := CompleteByNumber(from, CallbackOrderNumberAsWritten(data), messageId, now, unreachable);
    }

    /** `handle_seller_complete` with the order number read as everything
        after the `complete_` prefix, the reading that gives back the number
        the button was made for (bot.py:412). */
    method HandleSellerCompleteCorrected(from: int, data: string, messageId: int, now: Timestamp,
                                         unreachable: set<int>) returns (answer: Answer)
      requires Valid()
      modifies this
      ensures Valid()
      ensures counters == old(counters) && nextId == old(nextId) && messages == old(messages)
      ensures !IsCompleteCallback(data) ==> answer == Unhandled && Unchanged()
      ensures IsCompleteCallback(data) ==>
        CompletionOutcome(from, CallbackOrderNumber(data), messageId, now, unreachable, answer)
    {
      if !IsCompleteCallback(data) {
        answer := Unhandled;
        return;
      }
      answer := CompleteByNumber(from, CallbackOrderNumber(data), messageId, now, unreachable);
    }

    /** As written (bot.py:288), the button of an order numbered `_<n>` is
        read as the empty order number, which no stored order carries: the
        press is answered "order not found" (bot.py:291-295) and changes
        nothing, so such an order can never be completed from its button. */
    twostate lemma AsWrittenButtonNamesNoOrder(n: nat, from: int, messageId: int, now: Timestamp,
                                               unreachable: set<int>, answer: Answer)
      requires old(Valid())
      requires IsCompleteCallback(CompleteData(OrderNumber('_', n)))
      requires CompletionOutcome(from, CallbackOrderNumberAsWritten(CompleteData(OrderNumber('_', n))),
                                 messageId, now, unreachable, answer)
      ensures answer == UnknownOrder
      ensures orders == old(orders) && outbox == old(outbox)
    {
      UnderscoreOrderNumberLost(n);
      forall id | id in old(orders)
        ensures old(orders)[id].orderNumber != ""
      {
        assert Issued(old(counters), old(orders)[id].orderNumber);
      }
    }

    /** Read the corrected way, the button of a stored order, pressed by that
        order's seller, completes exactly that order. */
    twostate lemma ButtonNamesItsOrder(o: Order, from: int, messageId: int, now: Timestamp,
                                       unreachable: set<int>, answer: Answer)
      requires old(Valid()) && old(Stored(o))
      requires OwnedBy(o, from) && SoleSeller(from, o.sellerId)
      requires IsCompleteCallback(CompleteData(o.orderNumber))
      requires CompletionOutcome(from, CallbackOrderNumber(CompleteData(o.orderNumber)),
                                 messageId, now, unreachable, answer)
      ensures answer == OrderCompleted
      ensures orders == old(orders)[o.id := MarkCompleted(o, now)]
    {
      CallbackRoundTrip(o.orderNumber);
      assert o.id in old(orders) && old(orders)[o.id].orderNumber == o.orderNumber;
    }

    /** An address that resolves to a seller also has a pickup location, so
        every created order gets that location's id (the `else None` of
        bot.py:385 never applies on the creation path), and the resolved
        seller is the row stored under its own id. */
    lemma ResolvedAddressHasLocation(address: string)
      requires Valid()
      requires SellerByAddress(address).Some?
      ensures LocationId(address) == Some(locations[address].id)
      ensures var s := SellerByAddress(address).value; s.id in sellers && sellers[s.id] == s
    {
      var k := locations[address].sellerId.value;
      assert sellers[k].id == k;
    }

    /** What a new order sends: the order to its seller, with the
        "complete" button, and a summary to the observer when one is
        configured (bot.py:410-441). */
    function NewOrderDeliveries(orderNumber: string, v: ValidRequest, s: Seller,
                                unreachable: set<int>): seq<Delivery> {
      [Attempt(s.telegramId,
               NewOrderNotice(orderNumber, v.buyerName, v.address, v.items, v.total,
                              v.paymentMethod, v.deliveryType, CompleteData(orderNumber)),
               unreachable)]
      + (if adminId != 0
         then [Attempt(adminId, NewOrderCopyNotice(orderNumber, s.name, v.buyerName, v.address, v.total),
                       unreachable)]
         else [])
    }

    /** A created order: the counter of the seller's letter advanced, exactly
        one new active order under the next id with the issued number, the
        resolved seller, the request's items and total and its contact block,
        a number no earlier order has, and the number returned. */
    twostate predicate Ingested(v: ValidRequest, s: Seller, unreachable: set<int>,
                                new response: Result<string, HttpError>)
      reads this
    {
      && |s.name| > 0
      && var (issued, orderNumber) := Issue(old(counters), Upper(s.name[0]));
         var id := old(nextId);
         && counters == issued
         && id !in old(orders) && nextId == id + 1
         && orders == old(orders)[id := Order(id, orderNumber, v.userId, s.id, LocationId(v.address),
                                              v.items, v.total, ContactOf(v), Active, None)]
         && (forall k :: k in old(orders) ==> old(orders)[k].orderNumber != orderNumber)
         && messages == old(messages)
         && outbox == old(outbox) + NewOrderDeliveries(orderNumber, v, s, unreachable)
         && response == Success(orderNumber)
    }

    /** `new_order` (bot.py:357-447): a request is refused, changing nothing,
        when its body is empty or lacks a required field (400), when no
        seller serves its address (404, before any counter moves), or when
        the seller's name is empty (500, where `seller_name[0]` fails);
        otherwise the order is created and its number returned. */
    method NewOrder(body: Option<OrderRequest>, unreachable: set<int>)
      returns (response: Result<string, HttpError>)
      requires Valid()
      modifies this
      ensures Valid()
      ensures CheckRequest(body).Failure? ==>
        response == Failure(CheckRequest(body).error) && Unchanged()
      ensures CheckRequest(body).Success? && SellerByAddress(CheckRequest(body).value.address).None? ==>
        response == Failure(SellerNotFound) && Unchanged()
      ensures CheckRequest(body).Success? && SellerByAddress(CheckRequest(body).value.address).Some? ==>
        var s := SellerByAddress(CheckRequest(body).value.address).value;
        && (|s.name| == 0 ==> response == Failure(ServerError) && Unchanged())
        && (|s.name| > 0 ==> Ingested(CheckRequest(body).value, s, unreachable, response))
    {
      var checked := CheckRequest(body);
      if checked.Failure? {
        response := Failure(checked.error);
        return;
      }
      var v := checked.value;
      var seller := SellerByAddress(v.address);
      if seller.None? {
        response := Failure(SellerNotFound);
        return;
      }
      var s := seller.value;
      if |s.name| == 0 {
        response := Failure(ServerError);
        return;
      }
      var orderNumber := GenerateOrderNumber(s.name);
      var addressId := LocationId(v.address);
      IssueIssues(old(counters), Upper(s.name[0]));
      var _ := SaveOrder(orderNumber, v.userId, s.id, addressId, v.items, v.total, ContactOf(v));
      var _ := Send(s.telegramId,
                    NewOrderNotice(orderNumber, v.buyerName, v.address, v.items, v.total,
                                   v.paymentMethod, v.deliveryType, CompleteData(orderNumber)),
                    unreachable);
      if adminId != 0 {
        var _ := Send(adminId, NewOrderCopyNotice(orderNumber, s.name, v.buyerName, v.address, v.total),
                      unreachable);
      }
      response := Success(orderNumber);
    }
  }
}
