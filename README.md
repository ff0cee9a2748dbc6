# Buyer–seller relay bot: a Dafny model

This project models the order and relay engine of a Telegram bot (`bot.py`)
that carries the conversation between buyers and sellers through one bot
account. It also sends a silent copy of the traffic to an observer
(`ADMIN_ID`). The model covers five parts:

- **Orders.** A storefront posts orders to `/api/new-order`. The bot gives
  each order a number made of the seller's upper-cased initial and a
  per-letter counter (`E1`, `E2`, ...). It stores the order as `active`
  and notifies the seller with a "complete" button.
- **Buyer messages.** A buyer with an active order writes to the bot. The
  message is logged and forwarded to the order's seller.
- **Seller replies.** A seller answers with `#<order number> <text>`. The
  reply is logged and forwarded to the buyer. A seller message without `#`
  gets the list of that seller's active orders.
- **Completion.** The seller's "complete" button marks the order
  `completed` and stamps `completed_at`.
- **Everyone else** gets a fixed guidance text.

The database tables become fields of the class `Relay.Bot`:

- `order_counters`: a map from letter to counter;
- `orders`: a map from id to row, with the next id of the sequence;
- `messages`: a sequence;
- `sellers` and `pickup_locations`: read-only maps.

Every `bot.send_message` and `edit_message_reply_markup` becomes an entry
of `outbox`. The entry records the recipient, what was sent and whether the
send got through. Each handler receives the set of unreachable chats as a
parameter.

The bot's own answers to the sender (`reply_to`, `answer_callback_query`)
are the return values of the handlers. A handler's contract gives the
whole new state for each outcome. The class invariant `Valid()` holds
between events:

- every number was issued by the counters;
- no two orders share a number;
- `completed_at` is set exactly on completed orders;
- every logged message belongs to an order.

Files:

- `text.dfy`: Python's `str.isspace`, `strip`, `split(' ', 1)` and
  `split(sep)`, integer formatting, and `upper()` on one character.
- `order_numbers.dfy`: the order-number format and the counters as values.
- `domain.dfy`: the rows, the notices and the answers.
- `commands.dfy`: the `/start` filter, the seller's `#` syntax, the button
  data and the order in which handlers are tried.
- `ingestion.dfy`: validation of the new-order request.
- `relay.dfy`: the class `Bot`, with its store operations and handlers.

The model follows `bot.py` as it is, including where it lacks features one
might expect of such a relay:

- completion is not limited to active orders;
- a buyer may have several active orders;
- creation is not idempotent (there is no idempotency key);
- an empty seller name makes creation fail rather than fall back to a
  default counter key;
- one failed notification, the observer copy of a buyer message, aborts
  its handler.

The "complete" button is read the way bot.py:288 reads it. The reading that
gives back the number the button was made for is modelled beside it; see
"## Findings".

## Model

| member | source | states |
|---|---|---|
| Text.Strip | bot.py:216 | the result is the middle of the message: everything before and after it is whitespace, it neither starts nor ends with whitespace, and it is empty exactly when the message is all whitespace |
| Text.StripUnpadded | bot.py:216 | a text that neither starts nor ends with whitespace is left unchanged by stripping |
| Text.StripIdempotent | bot.py:216 | stripping twice is stripping once |
| Text.SplitOnFirstSpace | bot.py:237 | the result is one part when the text has no space, and otherwise the text before the first space and everything after it; the first part never contains a space |
| Text.SplitOnFirstSpaceAt | bot.py:237 | splitting `p + " " + r`, where `p` has no space, gives exactly `p` and `r` |
| Text.SplitOn | bot.py:288 | no piece of the split contains the separator; the split has one piece exactly when the separator is absent |
| Text.SplitOnFirst | bot.py:288 | splitting at the first separator gives the text before it followed by the split of the rest |
| Text.SplitOnHead | bot.py:288 | the first piece is the whole text exactly when the separator is absent, and is shorter otherwise |
| Text.Decimal | bot.py:78 | the decimal form of the counter is non-empty, all digits, and has no leading zero unless the value is 0 |
| Text.DecimalRoundTrip | bot.py:78 | reading back the decimal form of `n` gives `n` |
| Text.DecimalInjective | bot.py:78 | different counter values have different decimal forms |
| Text.Upper | bot.py:66 | a letter of ASCII a–z or Cyrillic U+0430–U+045F becomes the one capital (A–Z, U+0400–U+042F) whose small letter it is, checked against the reference `Lower`; any other character is kept |
| Text.LowerInjective | bot.py:66 | different capitals have different small letters, so the capital `Upper` gives is the only one possible |
| Text.UpperExamples | bot.py:66 | `e`, `ё`, `а` and `ѓ` become `E`, `Ё`, `А` and `Ѓ`; `E` and `_` are kept |
| OrderNumbers.OrderNumberRoundTrip | bot.py:78 | an order number `<letter><n>` parses back to that letter and `n` |
| OrderNumbers.OrderNumberInjective | bot.py:78 | two order numbers are equal only when their letter and counter are equal |
| OrderNumbers.Issue | bot.py:66-78 | a letter with no counter row gets row 1; otherwise the row becomes the previous value plus 1; no other letter's row changes; the number is the letter followed by the new value |
| OrderNumbers.IssueFresh | bot.py:69-78 | after a call every number issued before is still issued, and the new number differs from each of them |
| OrderNumbers.IssueIssues | bot.py:69-78 | the number just returned counts as issued by the new counters |
| OrderNumbers.IssueRunContiguous | bot.py:69-78 | successive calls for one letter return that letter with the values following the last one issued, one apart and in order (from 1 when there was no row), and leave every other letter alone |
| OrderNumbers.IssueRunDistinct | bot.py:69-78 | successive numbers for one letter are pairwise distinct and carry strictly increasing values |
| Commands.ParseSellerText | bot.py:216-239 | after stripping, a text that is empty or does not start with `#` is a query; otherwise it is read as an order number without spaces and a reply, where the reply is empty exactly when the stripped text is `#` and the number, and otherwise the stripped text is `#<number> <reply>` |
| Commands.SplitAddressed | bot.py:237-239 | in a stripped `#` text, a space after the number is always followed by a non-empty reply |
| Commands.ReplyRoundTrip | bot.py:237-239 | `#n r`, where `n` has no space and `r` is non-empty without trailing whitespace, is read back as exactly `n` and `r` |
| Commands.CallbackOrderNumber | bot.py:288 | corrected reading of the button data: the number it gives rebuilds exactly the data it was read from |
| Commands.CallbackRoundTrip | bot.py:412 | the data of the button made for any order number passes the button filter and is read back as that number |
| Commands.AsWrittenAgreesWithoutUnderscore | bot.py:288 | `split('_')[1]` gives back the order number exactly when the number contains no underscore |
| Commands.UnderscoreOrderNumberLost | bot.py:288 | for every order number `_<n>`, the button data read by `split('_')[1]` gives the empty string |
| Commands.RouteFor | bot.py:175-213 | `/start` goes to the start handler; otherwise a sender with an active order goes to the buyer handler, even when also a seller; then a registered seller goes to the seller handler; anyone else goes to the fallback |
| Ingestion.CheckRequest | bot.py:359-372 | a falsy body (absent, `null`, the empty object) is refused with "no data" (400). Any other body where one of userId, items, total or address is missing or falsy is refused with "missing fields" (400), including a body holding none of the seven keys. Any other body is accepted with its fields as sent and the name defaulting to `Покупатель` |
| Relay.Bot.GetActiveOrderByBuyer | bot.py:112-121 | some stored active order of the buyer, with none returned exactly when the buyer has no active order; uniqueness is not assumed |
| Relay.Bot.GetSellerByTelegramId | bot.py:163-168 | some seller row with this Telegram id, with none returned exactly when there is no such row |
| Relay.Bot.GetOrderByNumber | bot.py:134-143 | the stored order carrying this number, with none returned exactly when no order carries it |
| Relay.Bot.GetActiveOrdersBySeller | bot.py:123-132 | every row returned is a stored active order of the seller, every such order is returned, and each is returned once |
| Relay.Bot.GenerateOrderNumber | bot.py:64-78 | the counters and the number are exactly one step of the generator for the upper-cased initial of the seller's name, and no stored order already has that number; the invariant is kept |
| Relay.Bot.SaveOrder | bot.py:80-110 | one new order with status active and no completion time is stored under the next id, with every field as given; nothing else changes |
| Relay.Bot.CompleteOrder | bot.py:145-151 | the order with that id becomes completed and is stamped with the given time, whatever its status was; no other order changes |
| Relay.Bot.SaveMessage | bot.py:153-161 | exactly one entry with the given order, sender, role and text is appended to the log |
| Relay.Bot.Send | bot.py:196-199 | one send attempt is appended to the outbox, and it succeeds exactly when the recipient is reachable |
| Relay.Bot.HandleBuyerMessage | bot.py:180-210 | a sender without an active order changes nothing. Otherwise exactly one `buyer` entry with the text is logged for an active order of the sender. The message goes to that order's seller when the seller row exists, and a copy goes to the observer when one is configured. The sender is acknowledged unless the observer copy failed, and a failed send to the seller does not affect this |
| Relay.Bot.ListActiveOrders | bot.py:219-234 | a sender with no seller row gets no answer; otherwise the sender gets either the entries (number, buyer name) of that seller's active orders, exactly those and each once, or "no active orders" when there are none |
| Relay.Bot.RelayToBuyer | bot.py:254-278 | exactly one `seller` entry is logged for the order; then the reply goes to the buyer, and a copy naming the seller goes to the observer when one is configured |
| Relay.Bot.AnswerSellerReply | bot.py:236-278 | the checks run in this order: empty reply, unknown order, order of another seller. Every refusal leaves the log and the outbox unchanged, and a sender who is not the order's seller is always refused. On acknowledgment exactly one `seller` entry is logged and the reply is forwarded. The counters and orders never change |
| Relay.Bot.HandleSellerMessage | bot.py:213-282 | a text without `#` gets the listing and changes nothing; a `#` text gets the outcome of a seller reply to the number and text it parses to |
| Relay.Bot.HandleMessage | bot.py:346-348 | the handler chosen follows the registration order (bot.py:175, 180, 213, 346). `/start` gets the welcome text and the fallback gets the guidance text, and neither changes anything; the buyer and seller routes have the outcomes of their handlers |
| Relay.Bot.FinishOrder | bot.py:308-343 | the order becomes completed with the given time; the buyer is told, the observer gets a copy naming the seller, and the button is taken off the seller's message |
| Relay.Bot.CompleteByNumber | bot.py:291-343 | the checks run in this order: unknown order number, sender not a seller, order of another seller, and each refusal changes nothing. A sender who is not the order's seller is always refused. On success exactly that order, and no other, becomes completed with the given time, even when it was already completed; the buyer notice, the observer copy and the button removal are sent |
| Relay.Bot.HandleSellerComplete | bot.py:285-343 | data without the `complete_` prefix is not handled and changes nothing; otherwise the outcome is that of a press for the number `split('_')[1]` of the data, as bot.py:288 reads it |
| Relay.Bot.HandleSellerCompleteCorrected | bot.py:285-343 | the same handler with the number read as everything after the `complete_` prefix |
| Relay.Bot.AsWrittenButtonNamesNoOrder | bot.py:288-295 | as written, pressing the button of any order numbered `_<n>` is answered "order not found" and changes neither the orders nor the outbox, so that order can never be completed from its button |
| Relay.Bot.ButtonNamesItsOrder | bot.py:412 | read the corrected way, the button of a stored order, pressed by that order's seller, completes exactly that order |
| Relay.Bot.ResolvedAddressHasLocation | bot.py:383-385 | when the address resolves to a seller (bot.py:52-62), the location lookup finds the location, so every created order has an address id, and the resolved seller is the row stored under its own id |
| Relay.Bot.NewOrder | bot.py:356-447 | the order of outcomes is: request refusals (400) with nothing changed; no seller for the address (404), refused before any counter moves; an empty seller name (500) with nothing changed. Otherwise the seller's letter counter advances, exactly one active order is added under the next id, and its number is one no earlier order has. The order carries the seller found through the address's pickup location (bot.py:52-62), the location id, the items, the total and the contact block (name, placeholder phone, address, payment method, delivery type). The seller is notified with a button carrying the number, the observer gets a summary when one is configured, and the number is returned |

## Left out

- Telegram transport: the wording, emoji and Markdown of messages, the keyboard markup, and whether `reply_to` or `answer_callback_query` fail. Every answer to the sender is assumed to be delivered.
- Messages that are not text (photos, stickers, ...). The handlers take only text messages, as the library's default filter does, so they ignore everything else; the model's handlers take only text.
- Relay.Attempt: whether a send gets through depends only on its recipient, fixed for the whole event. A send that fails because of its content cannot be expressed while another send to the same chat succeeds. An example is a Markdown parse error at bot.py:422 on a buyer name with an unmatched `_`, or an over-long text, when the observer is also the order's seller.
- Flask, the JSON request parsing, the index route and process start-up (bot.py:13-26, 352-354, 449-451). `ADMIN_ID` is a constructor parameter, with 0 meaning "none".
- PostgreSQL connections and cursors. The tables are maps and sequences.
- The read-then-write race on a counter row (bot.py:69-76). It is a concurrency issue, and the model is sequential.
- `parse_contact` and `parse_items` (bot.py:29-45), and the loop that applies them (bot.py:129-131). The model stores decoded items and contact blocks, so there is nothing to decode.
- `is_admin` (bot.py:170-171): no handler calls it.
- The item lines and the payment label of the seller notice (bot.py:404-408). They are display formatting. The notice carries the items, the total, the payment method and the delivery type as sent.
- Totals and prices are integers. The storefront may send floats.
- A request whose items are not well-formed records: bot.py:404-407 would then fail after the order is stored. Items are typed records in the model.
- A JSON `null` name. Python would store `None` instead of the default name; the model treats it as absent.
- A non-string address or seller name. The model types them as strings.
- `datetime.utcnow()`. The completion time is the parameter `now`.
- The generic exception handlers (bot.py:280-282, 445-447). Only the failures the model can name reach them: an empty seller name gives a 500 response.
- Duplicate addresses in `pickup_locations`. Both lookups by address take the first row; the model keys locations by address.
- Text.Upper: upper-cases only ASCII a–z and Cyrillic U+0430–U+045F. Other lower-case letters such as `é` (U+00E9) or `ѣ` (U+0463) are kept as they are. It never expands one character into several (Python turns `ß` into `SS`).
- Relay.Bot.GenerateOrderNumber: requires a non-empty seller name. The source raises an exception there, which `Relay.Bot.NewOrder` models as the 500 response.
- Relay.Bot.SaveOrder: requires a number that the counters issued and that no stored order carries. The source inserts any number it is given. Its only caller passes a freshly generated number, and the requirement keeps order numbers unique.
- Relay.Bot.AnswerSellerReply: guarantees acknowledgment for the order's seller only when no other seller row shares that Telegram id. Otherwise the outcome depends on which row the lookup returns, and the contract allows either.
- Relay.Bot.HandleSellerComplete: guarantees completion for the order's seller only when no other seller row shares that Telegram id, for the same reason.
- Features of the system's design that `bot.py` does not have: the idempotency key, cancellation, the `cancelled` status, and the status guard on completion.

## Findings

| source | as written | input that shows it | evidently intended | confidence | as-written member | corrected member |
|---|---|---|---|---|---|---|
| bot.py:288 | the order number is `call.data.split('_')[1]`, the text between the first and the second underscore | a seller whose name starts with `_` gets order number `_1`; its button data `complete__1` is read as the empty number, so the order is reported not found and can never be completed from its button | the number is everything after the `complete_` prefix, which gives back the number the button was made for (bot.py:412) | not executed | Relay.Bot.AsWrittenButtonNamesNoOrder | Relay.Bot.HandleSellerCompleteCorrected |
