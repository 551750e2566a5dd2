/**
 * The backend's order and room endpoints over the in-memory store
 * (backend/main.py): `/process-transcription`, `/rooms/{room_id}` and
 * `/orders/submit`.
 */
module OrdersApi {
  import opened Wrappers
  import opened Text
  import opened StableSort
  import opened MemoryStore
  import opened OrderExtraction

  /** Python truthiness of a stored value (`datetime` objects are always truthy). */
  predicate Truthy(v: Value)
  {
    match v
    case Null => false
    case Str(s) => s != ""
    case Num(n) => n != 0
    case Bool(b) => b
    case Instant(_) => true
  }

  /** `d.get(key)` tested for truthiness: a missing key is None, which is falsy. */
  predicate TruthyAt(d: Doc, key: Key)
  {
    key in d && Truthy(d[key])
  }

  function OptStr(v: Option<string>): Value
  {
    if v.Some? then Str(v.value) else Null
  }

  /** `order_data.dict()`: every field under its snake_case key, None as null. */
  function ToDoc(o: OrderData): (d: Doc)
    ensures OrderIdKey in d && OrderStatusKey in d && d[OrderStatusKey] == Str(o.orderStatus)
  {
    map[
      OrderIdKey := OptStr(o.orderId),
      CustomerIdKey := OptStr(o.customerId),
      CustomerNameKey := OptStr(o.customerName),
      BookTitleKey := OptStr(o.bookTitle),
      AuthorKey := OptStr(o.author),
      GenreKey := OptStr(o.genre),
      QuantityKey := (if o.quantity.Some? then Num(o.quantity.value) else Null),
      PaymentMethodKey := OptStr(o.paymentMethod),
      DeliveryOptionKey := OptStr(o.deliveryOption),
      DeliveryAddressKey := OptStr(o.deliveryAddress),
      OrderStatusKey := Str(o.orderStatus),
      OrderDateKey := (if o.orderDate.Some? then Instant(o.orderDate.value) else Null),
      SpecialRequestsKey := OptStr(o.specialRequests)]
  }

  /** A string field that `OrderData(...)` accepts: missing, null or a string. */
  predicate StrOk(d: Doc, key: Key)
  {
    key !in d || d[key].Null? || d[key].Str?
  }

  function GetStr(d: Doc, key: Key): Option<string>
  {
    if key in d && d[key].Str? then Some(d[key].s) else None
  }

  /**
   * The documents `OrderData(...)` validates without error. A quantity may be
   * an integer or a string of decimal digits, which validation turns into an
   * integer (the order form posts its quantity as a string).
   */
  predicate WellTyped(d: Doc)
  {
    && StrOk(d, OrderIdKey) && StrOk(d, CustomerIdKey) && StrOk(d, CustomerNameKey)
    && StrOk(d, BookTitleKey) && StrOk(d, AuthorKey) && StrOk(d, GenreKey)
    && StrOk(d, PaymentMethodKey) && StrOk(d, DeliveryOptionKey) && StrOk(d, DeliveryAddressKey)
    && StrOk(d, SpecialRequestsKey)
    && (QuantityKey !in d || d[QuantityKey].Null? || d[QuantityKey].Num? || (d[QuantityKey].Str? && IsDigits(d[QuantityKey].s)))
    && (OrderStatusKey !in d || d[OrderStatusKey].Str?)
    && (OrderDateKey !in d || d[OrderDateKey].Null? || d[OrderDateKey].Instant?)
  }

  /** `OrderData(order_id=doc.get(OrderIdKey), ..., order_status=doc.get(OrderStatusKey, "pending"), ...)`. */
  function FromDoc(d: Doc): OrderData
    requires WellTyped(d)
  {
    OrderData(
      orderId := GetStr(d, OrderIdKey),
      customerId := GetStr(d, CustomerIdKey),
      customerName := GetStr(d, CustomerNameKey),
      bookTitle := GetStr(d, BookTitleKey),
      author := GetStr(d, AuthorKey),
      genre := GetStr(d, GenreKey),
      quantity :=
        if QuantityKey in d && d[QuantityKey].Num? then Some(d[QuantityKey].n)
        else if QuantityKey in d && d[QuantityKey].Str? then Some(DigitsValue(d[QuantityKey].s))
        else None,
      paymentMethod := GetStr(d, PaymentMethodKey),
      deliveryOption := GetStr(d, DeliveryOptionKey),
      deliveryAddress := GetStr(d, DeliveryAddressKey),
      orderStatus := if OrderStatusKey in d then d[OrderStatusKey].s else "pending",
      orderDate := if OrderDateKey in d && d[OrderDateKey].Instant? then Some(d[OrderDateKey].iso) else None,
      specialRequests := GetStr(d, SpecialRequestsKey))
  }

  /**
   * What `/process-transcription` stores for a room, `/rooms/{room_id}` reads
   * back unchanged: the stored document (tagged with its room) validates and
   * gives the same order.
   */
  lemma StoredOrderReadsBack(o: OrderData, roomId: string)
    ensures WellTyped(ToDoc(o)[RoomIdKey := Str(roomId)])
    ensures FromDoc(ToDoc(o)[RoomIdKey := Str(roomId)]) == o
  {
    var d := ToDoc(o)[RoomIdKey := Str(roomId)];
    TaggedDocHolds(o, roomId);
    ReadBackFields(o, d);
  }

  /** `d` holds the value `ToDoc` gives `k` for `o`. */
  predicate HoldsAt(d: Doc, o: OrderData, k: Key)
  {
    k in d && k in ToDoc(o) && d[k] == ToDoc(o)[k]
  }

  /** `d` holds every field of `o`. */
  predicate Holds(d: Doc, o: OrderData)
  {
    && HoldsAt(d, o, OrderIdKey) && HoldsAt(d, o, CustomerIdKey) && HoldsAt(d, o, CustomerNameKey)
    && HoldsAt(d, o, BookTitleKey) && HoldsAt(d, o, AuthorKey) && HoldsAt(d, o, GenreKey)
    && HoldsAt(d, o, QuantityKey) && HoldsAt(d, o, PaymentMethodKey) && HoldsAt(d, o, DeliveryOptionKey)
    && HoldsAt(d, o, DeliveryAddressKey) && HoldsAt(d, o, OrderStatusKey) && HoldsAt(d, o, OrderDateKey)
    && HoldsAt(d, o, SpecialRequestsKey)
  }

  /** Tagging with the room keeps every field of the order document. */
  lemma TaggedDocHolds(o: OrderData, roomId: string)
    ensures Holds(ToDoc(o)[RoomIdKey := Str(roomId)], o)
  {
  }

  /** Reading a document that holds the fields of `o` gives `o`. */
  lemma ReadBackFields(o: OrderData, d: Doc)
    requires Holds(d, o)
    ensures WellTyped(d) && FromDoc(d) == o
  {
    ReadBackString(d, OrderIdKey, o.orderId);
    ReadBackString(d, CustomerIdKey, o.customerId);
    ReadBackString(d, CustomerNameKey, o.customerName);
    ReadBackString(d, BookTitleKey, o.bookTitle);
    ReadBackString(d, AuthorKey, o.author);
    ReadBackString(d, GenreKey, o.genre);
    ReadBackString(d, PaymentMethodKey, o.paymentMethod);
    ReadBackString(d, DeliveryOptionKey, o.deliveryOption);
    ReadBackString(d, DeliveryAddressKey, o.deliveryAddress);
    ReadBackString(d, SpecialRequestsKey, o.specialRequests);
  }

  lemma ReadBackString(d: Doc, k: Key, v: Option<string>)
    requires k in d && d[k] == OptStr(v)
    ensures StrOk(d, k) && GetStr(d, k) == v
  {
  }

  /** A quantity posted as the decimal string of a number reads back as that number. */
  lemma FormQuantityReadsBack(d: Doc, n: nat)
    requires WellTyped(d)
    ensures WellTyped(d[QuantityKey := Str(NatToString(n))])
    ensures FromDoc(d[QuantityKey := Str(NatToString(n))]).quantity == Some(n)
  {
    DigitsValueOfNatToString(n);
  }

  /** The body `/rooms/{room_id}` and `/process-transcription` return (the update time is not modelled). */
  datatype RoomData = RoomData(roomId: string, transcripts: seq<Transcript>, order: OrderData)

  datatype RoomResponse = NotFound | ServerError | Found(room: RoomData)

  /** The transcript item the endpoint receives; `timestamp` in seconds. */
  datatype TranscriptItem = TranscriptItem(id: string, role: string, message: string, timestamp: real)

  /**
   * `/process-transcription`: stores the item, re-extracts the order from the
   * whole sorted transcript of the room, stores that order, and returns both.
   */
  method ProcessTranscription(store: Store, roomId: string, item: TranscriptItem, createdAt: real,
                              scan: string -> Scan, stamp: Stamp) returns (r: RoomData)
    modifies store
    ensures store.transcripts == old(store.transcripts)[roomId :=
      old(store.RoomTranscripts(roomId)) + [Transcript(item.id, item.role, item.message, Some(item.timestamp), createdAt, roomId)]]
    ensures r == RoomData(roomId, store.GetTranscripts(roomId), ExtractOrder(store.GetTranscripts(roomId), scan, stamp))
    ensures store.orders == old(store.orders)[roomId := ToDoc(r.order)[RoomIdKey := Str(roomId)]]
    ensures store.feedback == old(store.feedback) && store.admins == old(store.admins)
  {
    var t := Transcript(item.id, item.role, item.message, Some(item.timestamp), createdAt, roomId);
    var _ := store.StoreTranscript(roomId, t);
    var transcripts := store.GetTranscripts(roomId);
    var order := ExtractOrder(transcripts, scan, stamp);
    var _ := store.StoreOrder(roomId, ToDoc(order));
    r := RoomData(roomId, transcripts, order);
  }

  /**
   * `/rooms/{room_id}`: 404 for a room without transcripts; otherwise the
   * sorted transcripts and the stored order, or the empty order when none is
   * stored (or the stored one is an empty dictionary).
   */
  method GetRoom(store: Store, roomId: string) returns (r: RoomResponse)
    ensures r.NotFound? <==> store.RoomTranscripts(roomId) == []
    ensures r.Found? ==> r.room.roomId == roomId && r.room.transcripts == store.GetTranscripts(roomId)
    ensures r.Found? && (roomId !in store.orders || store.orders[roomId] == map[]) ==> r.room.order == EmptyOrder
    ensures r.Found? && roomId in store.orders && store.orders[roomId] != map[] ==>
      WellTyped(store.orders[roomId]) && r.room.order == FromDoc(store.orders[roomId])
    ensures r.ServerError? ==> roomId in store.orders && !WellTyped(store.orders[roomId])
  {
    var transcripts := store.GetTranscripts(roomId);
    if transcripts == [] {
      assert |multiset(store.RoomTranscripts(roomId))| == 0;
      return NotFound;
    }
    assert multiset(store.RoomTranscripts(roomId)) != multiset{};
    var doc := store.GetOrder(roomId);
    var order := EmptyOrder;
    if doc.Some? && doc.value != map[] {
      if !WellTyped(doc.value) {
        return ServerError;
      }
      order := FromDoc(doc.value);
    }
    r := Found(RoomData(roomId, transcripts, order));
  }

  /** The submitted order after normalisation (the price fields are not modelled). */
  function Normalise(d: Doc, stamp: Stamp): (r: Doc)
    ensures OrderIdKey in r && OrderStatusKey in r && OrderDateKey in r
    ensures TruthyAt(d, OrderIdKey) ==> r[OrderIdKey] == d[OrderIdKey]
    ensures !TruthyAt(d, OrderIdKey) ==> r[OrderIdKey] == Str(OrderIdFor(stamp.date, stamp.uuid8))
    ensures r[OrderStatusKey] == Str("confirmed") && r[OrderDateKey] == Instant(stamp.now)
    ensures forall k :: k !in {OrderIdKey, OrderStatusKey, OrderDateKey} ==> (k in r <==> k in d)
    ensures forall k :: k in d && k !in {OrderIdKey, OrderStatusKey, OrderDateKey} ==> r[k] == d[k]
  {
    var withId := if TruthyAt(d, OrderIdKey) then d else d[OrderIdKey := Str(OrderIdFor(stamp.date, stamp.uuid8))];
    withId[OrderStatusKey := Str("confirmed")][OrderDateKey := Instant(stamp.now)]
  }

  /** Submitting an already submitted order again keeps its order id. */
  lemma ResubmitKeepsOrderId(d: Doc, first: Stamp, second: Stamp)
    ensures Normalise(Normalise(d, first), second)[OrderIdKey] == Normalise(d, first)[OrderIdKey]
  {
    var n := Normalise(d, first);
    assert TruthyAt(n, OrderIdKey);
  }

  /** The endpoint's answer: the stored order, or its catch-all error status. */
  datatype SubmitResult = Submitted(orderId: Value, order: Doc) | SubmitFailed(status: int)

  const TotalAmountKey := OtherKey("total_amount")
  const UnitPriceKey := OtherKey("unit_price")

  /**
   * The floating-point behaviour the model does not compute: which strings
   * `float()` parses, the default unit price 15.99, and the product
   * `float(quantity) * unit_price`.
   */
  datatype FloatOps = FloatOps(parses: string -> bool, defaultUnitPrice: Value, total: (Value, Value) -> Value)

  /** Python's `float(v)` returns. */
  predicate FloatConvertible(v: Value, ops: FloatOps)
  {
    match v
    case Str(s) => ops.parses(s)
    case Num(_) => true
    case Bool(_) => true
    case Null => false
    case Instant(_) => false
  }

  /** The total step runs: there is no truthy total and there is a truthy quantity. */
  predicate NeedsTotal(d: Doc)
  {
    !TruthyAt(d, TotalAmountKey) && TruthyAt(d, QuantityKey)
  }

  /** The unit price the total step uses: the stored one (even `None`), else the default. */
  function UnitPrice(d: Doc, ops: FloatOps): Value
  {
    if UnitPriceKey in d then d[UnitPriceKey] else ops.defaultUnitPrice
  }

  /**
   * The total step raises nothing: `float(quantity)` parses and the unit
   * price is the default or a number a float can be multiplied by.
   */
  predicate TotalStepOk(d: Doc, ops: FloatOps)
  {
    !NeedsTotal(d) ||
    (FloatConvertible(d[QuantityKey], ops) &&
     (UnitPriceKey !in d || d[UnitPriceKey].Num? || d[UnitPriceKey].Bool?))
  }

  /** The order after the total step: the total and the unit price written when it runs. */
  function Priced(d: Doc, ops: FloatOps): (p: Doc)
    ensures NeedsTotal(d) ==> TotalAmountKey in p && p[TotalAmountKey] == ops.total(d[QuantityKey], UnitPrice(d, ops))
    ensures NeedsTotal(d) ==> UnitPriceKey in p && p[UnitPriceKey] == UnitPrice(d, ops)
    ensures !NeedsTotal(d) ==> p == d
    ensures forall k :: k != TotalAmountKey && k != UnitPriceKey ==> (k in p <==> k in d)
    ensures forall k :: k in d && k != TotalAmountKey && k != UnitPriceKey ==> p[k] == d[k]
  {
    if NeedsTotal(d) then
      var up := UnitPrice(d, ops);
      d[TotalAmountKey := ops.total(d[QuantityKey], up)][UnitPriceKey := up]
    else d
  }

  /**
   * `/orders/submit`: normalises a copy of the order and runs the total
   * step; a failing `float()` there gives 500 with nothing stored; otherwise
   * the room's order is replaced by the copy (which `store_order` tags with
   * the room in place), and a copy that then fails validation still gives
   * 500, with the order stored.
   */
  method SubmitOrder(store: Store, roomId: string, order: Doc, stamp: Stamp, ops: FloatOps)
    returns (r: SubmitResult)
    modifies store
    ensures var n := Normalise(order, stamp);
      !TotalStepOk(n, ops) ==> r == SubmitFailed(500) && store.orders == old(store.orders)
    ensures var n := Normalise(order, stamp);
      TotalStepOk(n, ops) ==> store.orders == old(store.orders)[roomId := Priced(n, ops)[RoomIdKey := Str(roomId)]]
    ensures var n := Normalise(order, stamp);
      r.Submitted? <==> TotalStepOk(n, ops) && WellTyped(Priced(n, ops)[RoomIdKey := Str(roomId)])
    ensures var n := Normalise(order, stamp);
      r.Submitted? ==> r.order == Priced(n, ops)[RoomIdKey := Str(roomId)] && r.orderId == n[OrderIdKey]
    ensures r.SubmitFailed? ==> r.status == 500
    ensures store.transcripts == old(store.transcripts) && store.feedback == old(store.feedback)
    ensures store.admins == old(store.admins)
  {
    var d := order;
    if !TruthyAt(d, OrderIdKey) {
      d := d[OrderIdKey := Str(OrderIdFor(stamp.date, stamp.uuid8))];
    }
    d := d[OrderStatusKey := Str("confirmed")];
    d := d[OrderDateKey := Instant(stamp.now)];
    assert d == Normalise(order, stamp);
    if !TruthyAt(d, TotalAmountKey) && TruthyAt(d, QuantityKey) {
      if !FloatConvertible(d[QuantityKey], ops) {
        return SubmitFailed(500);
      }
      if UnitPriceKey in d && !d[UnitPriceKey].Num? && !d[UnitPriceKey].Bool? {
        return SubmitFailed(500);
      }
      var unitPrice := if UnitPriceKey in d then d[UnitPriceKey] else ops.defaultUnitPrice;
      d := d[TotalAmountKey := ops.total(d[QuantityKey], unitPrice)];
      d := d[UnitPriceKey := unitPrice];
    }
    var _ := store.StoreOrder(roomId, d);
    var stored := d[RoomIdKey := Str(roomId)];
    if !WellTyped(stored) {
      return SubmitFailed(500);
    }
    r := Submitted(stored[OrderIdKey], stored);
  }

  /**
   * A fractional quantity such as "2.5", which the form's number input
   * allows, passes `float()` but fails validation: the order is stored and
   * the response is still an error.
   */
  lemma FractionalQuantityStoredThenFails(d: Doc, stamp: Stamp, roomId: string, ops: FloatOps)
    requires QuantityKey in d && d[QuantityKey] == Str("2.5") && !TruthyAt(d, TotalAmountKey)
    requires UnitPriceKey !in d && ops.parses("2.5")
    ensures var n := Normalise(d, stamp);
      TotalStepOk(n, ops) && !WellTyped(Priced(n, ops)[RoomIdKey := Str(roomId)])
  {
    var n := Normalise(d, stamp);
    assert n[QuantityKey] == Str("2.5");
    assert Priced(n, ops)[RoomIdKey := Str(roomId)][QuantityKey] == Str("2.5");
    assert !IsDigits("2.5") by {
      assert "2.5"[1] == '.';
    }
  }
}
