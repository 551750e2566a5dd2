/**
 * The structural rules of the backend's order extraction
 * (`extract_order_data` in backend/main.py). Each family of regular
 * expressions is an abstract matcher: a `Scan` reports, for the joined
 * conversation text, what the first matching pattern of each family
 * captured. What the model states is how those captures become an order.
 */
module OrderExtraction {
  import opened Wrappers
  import opened Text
  import opened MemoryStore

  /** What the first matching quantity pattern found. */
  datatype QtyMatch =
    | NoQty
    | DigitQty(n: nat)        // one of the three patterns with a `\d{1,3}` group
    | WordQty(word: string)   // the number-word pattern, which has no group

  /** The results of the pattern families on the full text. */
  datatype Scan = Scan(
    name: Option<string>, customerId: Option<string>, title: Option<string>,
    author: Option<string>, genre: Option<string>, quantity: QtyMatch, payment: Option<string>,
    pickup: bool, home: bool, express: bool,
    address: Option<string>, special: Option<string>)

  /** The clock and the random source: `%Y%m%d` of now, the upper-cased first 8 characters of a uuid4, and now. */
  datatype Stamp = Stamp(date: string, uuid8: string, now: string)

  /** An order as the backend keeps it; the price fields are not part of this model. */
  datatype OrderData = OrderData(
    orderId: Option<string>, customerId: Option<string>, customerName: Option<string>,
    bookTitle: Option<string>, author: Option<string>, genre: Option<string>, quantity: Option<int>,
    paymentMethod: Option<string>, deliveryOption: Option<string>, deliveryAddress: Option<string>,
    orderStatus: string, orderDate: Option<string>, specialRequests: Option<string>)

  /** `OrderData()`: every field missing, status "pending". */
  const EmptyOrder := OrderData(None, None, None, None, None, None, None, None, None, None, "pending", None, None)

  const StorePickup := "store_pickup"
  const HomeDelivery := "home_delivery"
  const ExpressDelivery := "express_delivery"

  /** The messages of the transcript, in order, whatever their role. */
  function Messages(ts: seq<Transcript>): (ms: seq<string>)
    ensures |ms| == |ts|
    ensures forall i :: 0 <= i < |ts| ==> ms[i] == ts[i].message
  {
    seq(|ts|, i requires 0 <= i < |ts| => ts[i].message)
  }

  /** `"\n".join(t.message for t in transcripts)`: the only text the patterns see. */
  function FullText(ts: seq<Transcript>): string
  {
    Join(Messages(ts), "\n")
  }

  /** `f"ORD-{date}-{uuid8}"`, shared with order submission. */
  function OrderIdFor(date: string, uuid8: string): (id: string)
    ensures |id| == 5 + |date| + |uuid8| && id[..4] == "ORD-"
    ensures id[4..4 + |date|] == date && id[4 + |date|] == '-' && id[5 + |date|..] == uuid8
  {
    "ORD-" + date + "-" + uuid8
  }

  /** The first delivery class with a matching pattern, in the order pickup, home, express; home by default. */
  function DeliveryOption(s: Scan): string
  {
    if s.pickup then StorePickup
    else if s.home then HomeDelivery
    else if s.express then ExpressDelivery
    else HomeDelivery
  }

  /** The address is looked for only when the option is home delivery. */
  function DeliveryAddress(s: Scan, option: string): Option<string>
  {
    if option == HomeDelivery && s.address.Some? then Some(Strip(s.address.value)) else None
  }

  /**
   * The quantity as the code computes it: `int(qty_match.group(1))`. For the
   * number-word pattern `group(1)` raises (the pattern has no group), the
   * handler swallows it, and the quantity is None.
   */
  function QuantityAsWritten(q: QtyMatch): Option<int>
  {
    match q
    case NoQty => None
    case DigitQty(n) => Some(n)
    case WordQty(_) => None
  }

  /** `word_to_num.get(word, '1')`, as a number. */
  function WordValue(w: string): (n: int)
    ensures 1 <= n <= 10
  {
    if w == "one" then 1 else if w == "two" then 2 else if w == "three" then 3
    else if w == "four" then 4 else if w == "five" then 5 else if w == "six" then 6
    else if w == "seven" then 7 else if w == "eight" then 8 else if w == "nine" then 9
    else if w == "ten" then 10 else 1
  }

  /** The quantity as the number-word table evidently intends it: "two copies" is 2. */
  function QuantityCorrected(q: QtyMatch): Option<int>
  {
    match q
    case NoQty => None
    case DigitQty(n) => Some(n)
    case WordQty(w) => Some(WordValue(Lower(w)))
  }

  /** `extract_order_data` as written: a number-word quantity is lost. */
  function ExtractOrder(ts: seq<Transcript>, scan: string -> Scan, stamp: Stamp): (o: OrderData)
    ensures var s := scan(FullText(ts));
      o.orderId.Some? <==> s.title.Some? && Strip(s.title.value) != "" && s.customerId.Some?
    ensures o.orderId.Some? ==> o.orderId.value == OrderIdFor(stamp.date, stamp.uuid8)
    ensures o.bookTitle.Some? <==> scan(FullText(ts)).title.Some?
    ensures o.deliveryOption.Some?
    ensures o.deliveryAddress.Some? ==> o.deliveryOption == Some(HomeDelivery)
    ensures o.quantity == QuantityAsWritten(scan(FullText(ts)).quantity)
    ensures o.orderStatus == "pending" && o.orderDate == Some(stamp.now)
  {
    var s := scan(FullText(ts));
    var title := if s.title.Some? then Some(Strip(s.title.value)) else None;
    var option := DeliveryOption(s);
    OrderData(
      orderId := if title.Some? && title.value != "" && s.customerId.Some? then Some(OrderIdFor(stamp.date, stamp.uuid8)) else None,
      customerId := StripOpt(s.customerId),
      customerName := StripOpt(s.name),
      bookTitle := title,
      author := StripOpt(s.author),
      genre := LowerOpt(s.genre),
      quantity := QuantityAsWritten(s.quantity),
      paymentMethod := LowerOpt(s.payment),
      deliveryOption := Some(option),
      deliveryAddress := DeliveryAddress(s, option),
      orderStatus := "pending",
      orderDate := Some(stamp.now),
      specialRequests := StripOpt(s.special))
  }

  /** `extract_order_data` as evidently intended: the same order, with the number-word quantity read. */
  function ExtractOrderCorrected(ts: seq<Transcript>, scan: string -> Scan, stamp: Stamp): (o: OrderData)
    ensures o.quantity == QuantityCorrected(scan(FullText(ts)).quantity)
    ensures scan(FullText(ts)).quantity.WordQty? ==> o.quantity.Some?
    ensures o.(quantity := None) == ExtractOrder(ts, scan, stamp).(quantity := None)
  {
    ExtractOrder(ts, scan, stamp).(quantity := QuantityCorrected(scan(FullText(ts)).quantity))
  }

  function StripOpt(v: Option<string>): Option<string>
  {
    if v.Some? then Some(Strip(v.value)) else None
  }

  function LowerOpt(v: Option<string>): Option<string>
  {
    if v.Some? then Some(Lower(v.value)) else None
  }

  /**
   * The delivery option is one of the three known ones, pickup wins over the
   * others, and it is home delivery when no delivery pattern matches.
   */
  lemma DeliveryOptionRules(s: Scan)
    ensures DeliveryOption(s) in {StorePickup, HomeDelivery, ExpressDelivery}
    ensures s.pickup ==> DeliveryOption(s) == StorePickup
    ensures !s.pickup && !s.home && !s.express ==> DeliveryOption(s) == HomeDelivery
    ensures DeliveryOption(s) == ExpressDelivery <==> !s.pickup && !s.home && s.express
  {
  }

  /** Outside home delivery no address is kept, whatever the address patterns found. */
  lemma NoAddressUnlessHome(ts: seq<Transcript>, scan: string -> Scan, stamp: Stamp)
    requires DeliveryOption(scan(FullText(ts))) != HomeDelivery
    ensures ExtractOrder(ts, scan, stamp).deliveryAddress == None
  {
  }

  /**
   * Only the text of the messages matters: the roles (and ids and timestamps)
   * are not looked at, even though the code separates user and agent text.
   */
  lemma OnlyMessagesMatter(ts1: seq<Transcript>, ts2: seq<Transcript>, scan: string -> Scan, stamp: Stamp)
    requires Messages(ts1) == Messages(ts2)
    ensures ExtractOrder(ts1, scan, stamp) == ExtractOrder(ts2, scan, stamp)
  {
  }

  /**
   * As written, a number-word match ("two copies") loses the quantity, while
   * the corrected quantity reads it; on every other match the two agree.
   */
  lemma WordQuantityIsLost(q: QtyMatch)
    ensures q.WordQty? ==> QuantityAsWritten(q) == None && QuantityCorrected(q).Some?
    ensures !q.WordQty? ==> QuantityAsWritten(q) == QuantityCorrected(q)
    ensures QuantityCorrected(q).Some? <==> !q.NoQty?
  {
  }

  /** The two extractions differ exactly when the quantity was written as a number word. */
  lemma CorrectionOnlyChangesWordQuantities(ts: seq<Transcript>, scan: string -> Scan, stamp: Stamp)
    ensures ExtractOrderCorrected(ts, scan, stamp) != ExtractOrder(ts, scan, stamp)
        <==> scan(FullText(ts)).quantity.WordQty?
  {
    WordQuantityIsLost(scan(FullText(ts)).quantity);
  }

  /** The concrete input: "Two copies" is quantity 2 when corrected and no quantity as written. */
  lemma TwoCopiesExample()
    ensures QuantityAsWritten(WordQty("Two")) == None
    ensures QuantityCorrected(WordQty("Two")) == Some(2)
  {
    assert Lower("Two") == "two" by {
      assert LowerChar('T') == 't';
    }
  }

  /** A transcript whose quantity reads "Two copies" is stored without a quantity, though 2 was meant. */
  lemma TwoCopiesOrder(ts: seq<Transcript>, scan: string -> Scan, stamp: Stamp)
    requires scan(FullText(ts)).quantity == WordQty("Two")
    ensures ExtractOrder(ts, scan, stamp).quantity == None
    ensures ExtractOrderCorrected(ts, scan, stamp).quantity == Some(2)
  {
    TwoCopiesExample();
  }
}
