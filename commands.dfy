/** How the relay reads what participants send it: the `/start` command,
    a seller's `#<order number> <text>` reply, the data of the "complete"
    button, and the order in which the chat handlers are tried. */
module Commands {
  import opened Text
  import opened OrderNumbers

  /** The library's `commands=['start']` filter (bot.py:175): the text is
      `/start`, alone or followed by whitespace or by `@<bot name>`. */
  predicate IsStartCommand(text: string) {
    |text| >= 6 && text[..6] == "/start" && (|text| == 6 || text[6] == '@' || IsSpace(text[6]))
  }

  /** A seller's message: a question about their orders, or a reply
      addressed to one order. */
  datatype SellerText = Query | Addressed(orderNumber: string, replyText: string)

  /** The text a seller writes to answer a buyer: `#<number> <reply>`. */
  function ReplyCommand(orderNumber: string, replyText: string): string {
    "#" + orderNumber + " " + replyText
  }

  /** bot.py:216-239: the message is stripped; without a leading `#` it is a
      query; otherwise what follows the `#` is split at its first space into
      the order number and the reply, the reply being empty when there is no
      space. */
  function ParseSellerText(text: string): (p: SellerText)
    ensures p.Query? <==> Strip(text) == [] || Strip(text)[0] != '#'
    ensures p.Addressed? ==> ' ' !in p.orderNumber
    ensures p.Addressed? && p.replyText == "" ==> Strip(text) == "#" + p.orderNumber
    ensures p.Addressed? && p.replyText != "" ==> Strip(text) == ReplyCommand(p.orderNumber, p.replyText)
  {
    var t := Strip(text);
    if |t| == 0 || t[0] != '#' then Query
    else
      SplitAddressed(t);
      var parts := SplitOnFirstSpace(t[1..]);
      Addressed(parts[0], if |parts| > 1 then parts[1] else "")
  }

  /** Splitting a stripped `#...` text: with no space the whole rest is the
      order number; with a space the reply after it is non-empty, because a
      stripped text does not end in whitespace. */
  lemma SplitAddressed(t: string)
    requires |t| >= 1 && t[0] == '#' && !IsSpace(t[|t| - 1])
    ensures var parts := SplitOnFirstSpace(t[1..]);
      && (|parts| == 1 ==> t == "#" + parts[0])
      && (|parts| == 2 ==> parts[1] != "" && t == ReplyCommand(parts[0], parts[1]))
  {
    var parts := SplitOnFirstSpace(t[1..]);
    assert t == "#" + t[1..];
  }

  /** A reply written as `#<number> <text>`, whose number has no space and
      whose text is non-empty and does not end in whitespace, is read back as
      exactly that number and that text. */
  lemma ReplyRoundTrip(orderNumber: string, replyText: string)
    requires ' ' !in orderNumber
    requires replyText != [] && !IsSpace(replyText[|replyText| - 1])
    ensures ParseSellerText(ReplyCommand(orderNumber, replyText)) == Addressed(orderNumber, replyText)
  {
    var text := ReplyCommand(orderNumber, replyText);
    StripUnpadded(text);
    assert text[1..] == orderNumber + [' '] + replyText;
    SplitOnFirstSpaceAt(orderNumber, replyText);
  }

  /** The callback data of the "complete" button (bot.py:412). */
  function CompleteData(orderNumber: string): string {
    "complete_" + orderNumber
  }

  /** The button filter of bot.py:285: the data starts with `complete_`. */
  predicate IsCompleteCallback(data: string) {
    |data| >= 9 && data[..9] == "complete_"
  }

  /** The order number as bot.py:288 takes it: `call.data.split('_')[1]`. */
  function CallbackOrderNumberAsWritten(data: string): string
    requires IsCompleteCallback(data)
  {
    assert data == "complete" + ['_'] + data[9..];
    SplitOnFirst("complete", '_', data[9..]);
    SplitOn(data, '_')[1]
  }

  /** The order number a "complete" button was made for: everything after
      the `complete_` prefix. */
  function CallbackOrderNumber(data: string): (orderNumber: string)
    requires IsCompleteCallback(data)
    ensures CompleteData(orderNumber) == data
  {
    data[9..]
  }

  /** The corrected reading gives back every order number a button was made for. */
  lemma CallbackRoundTrip(orderNumber: string)
    ensures IsCompleteCallback(CompleteData(orderNumber))
    ensures CallbackOrderNumber(CompleteData(orderNumber)) == orderNumber
  {
    assert CompleteData(orderNumber)[..9] == "complete_";
  }

  /** The reading as written agrees with the corrected one exactly on the
      order numbers that contain no underscore. */
  lemma {:induction false} AsWrittenAgreesWithoutUnderscore(orderNumber: string)
    ensures IsCompleteCallback(CompleteData(orderNumber))
    ensures CallbackOrderNumberAsWritten(CompleteData(orderNumber)) == orderNumber <==> '_' !in orderNumber
  {
    var data := CompleteData(orderNumber);
    assert data[..9] == "complete_";
    assert data[9..] == orderNumber;
    assert data == "complete" + ['_'] + orderNumber;
    SplitOnFirst("complete", '_', orderNumber);
    SplitOnHead(orderNumber, '_');
  }

  /** A seller whose name starts with `_` gets order numbers `_1`, `_2`, ...;
      the button made for any of them is read, as written, as the empty
      order number. */
  lemma UnderscoreOrderNumberLost(n: nat)
    ensures IsCompleteCallback(CompleteData(OrderNumber('_', n)))
    ensures CallbackOrderNumberAsWritten(CompleteData(OrderNumber('_', n))) == ""
  {
    var number := OrderNumber('_', n);
    var data := CompleteData(number);
    assert data == "complete" + ['_'] + number;
    assert data[..9] == "complete_";
    SplitOnFirst("complete", '_', number);
    assert number == "" + ['_'] + Decimal(n);
    SplitOnFirst("", '_', Decimal(n));
  }

  /** The chat handlers in registration order (bot.py:175, 180, 213, 346). */
  datatype Route = StartRoute | BuyerRoute | SellerRoute | FallbackRoute

  /** The handler that takes a chat message: `/start` first, then a sender
      with an active order, then a registered seller, then everyone else. */
  function RouteFor(text: string, isBuyer: bool, isSeller: bool): (r: Route)
    ensures r == StartRoute <==> IsStartCommand(text)
    ensures r == BuyerRoute <==> !IsStartCommand(text) && isBuyer
    ensures r == SellerRoute <==> !IsStartCommand(text) && !isBuyer && isSeller
    ensures r == FallbackRoute <==> !IsStartCommand(text) && !isBuyer && !isSeller
  {
    if IsStartCommand(text) then StartRoute
    else if isBuyer then BuyerRoute
    else if isSeller then SellerRoute
    else FallbackRoute
  }
}
