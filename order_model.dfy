/**
 * The order document of server/models/Order.js: its value (what the store
 * keeps), the loaded document with the instance methods that change it in
 * place (`addStatusHistory`, `calculateTotal`, the pre-save order number),
 * and the eligibility predicates for cancel, return and exchange.
 */
module OrderModel {
  import opened Common
  import Decimal

  /**
   * Order and item status. `Refunded` is not in the schema's enum; it is the
   * value the refund handler writes (see `InStatusEnum`).
   */
  datatype OrderStatus =
    | Pending | Confirmed | Processing | Shipped | Delivered
    | Cancelled | Returned | Exchanged | Refunded

  /** The eight values the schema lists for `status` and `items.status`. */
  predicate InStatusEnum(s: OrderStatus)
  {
    !s.Refunded?
  }

  /** Payment method; `Unselected` is the string 'pending' the reorder handler stores. */
  datatype PaymentMethod = Razorpay | Cod | Wallet | Upi | Unselected

  predicate InMethodEnum(m: PaymentMethod)
  {
    !m.Unselected?
  }

  /** 'pending', 'completed', 'failed', 'refunded', 'partially_refunded'. */
  datatype PaymentStatus = Unpaid | Paid | PaymentFailed | FullyRefunded | PartiallyRefunded

  datatype Item = Item(product: ProductId, quantity: int, price: real, status: OrderStatus)

  datatype Pricing = Pricing(subtotal: real, shipping: real, tax: real, discount: real, total: real)

  datatype Payment = Payment(
    paymentMethod: PaymentMethod,
    status: PaymentStatus,
    razorpayOrderId: Option<string>,
    razorpayPaymentId: Option<string>,
    razorpaySignature: Option<string>,
    paidAt: Option<int>,
    refundId: Option<string>,
    refundAmount: Option<real>,
    refundReason: Option<string>)

  datatype HistoryEntry = HistoryEntry(status: OrderStatus, timestamp: int, note: string, updatedBy: Option<UserId>)

  datatype Address = Address(name: string, phone: string, address: string, city: string, state: string, pincode: string)

  datatype Coupon = Coupon(code: string, discount: Option<real>)

  datatype RefundStatus = RefundPending | RefundProcessed | RefundFailed
  datatype Cancellation = Cancellation(reason: string, cancelledBy: UserId, cancelledAt: int, refundStatus: RefundStatus)

  datatype RequestStatus = Requested | Approved | Rejected | PickedUp | Received | RequestRefunded | RequestShipped | RequestDelivered
  datatype ReturnRequest = ReturnRequest(reason: string, requestedAt: int, status: RequestStatus)
  datatype ExchangeRequest = ExchangeRequest(reason: string, requestedAt: int, status: RequestStatus, newProduct: ProductId, priceDifference: real)

  datatype Invoice = Invoice(invoiceNumber: string, invoiceUrl: string, generatedAt: int)

  /** One carrier scan in `tracking.trackingHistory`. */
  datatype TrackingEvent = TrackingEvent(status: string, location: string, timestamp: int, description: string)

  /** The `tracking` sub-document; unset string fields are `None`. */
  datatype TrackingInfo = TrackingInfo(trackingNumber: Option<string>, carrier: Option<string>, trackingUrl: Option<string>,
                                       estimatedDelivery: Option<int>, actualDelivery: Option<int>,
                                       trackingHistory: seq<TrackingEvent>)

  /** A new document's `tracking`: nothing set and an empty history. */
  const NoTracking := TrackingInfo(None, None, None, None, None, [])

  /** A stored order document. `orderNumber == ""` means no number has been assigned. */
  datatype Order = Order(
    orderNumber: string,
    user: UserId,
    items: seq<Item>,
    shippingAddress: Address,
    billingAddress: Address,
    pricing: Pricing,
    payment: Payment,
    status: OrderStatus,
    statusHistory: seq<HistoryEntry>,
    coupon: Option<Coupon>,
    cancellation: Option<Cancellation>,
    returnRequest: Option<ReturnRequest>,
    exchange: Option<ExchangeRequest>,
    invoice: Option<Invoice>,
    tracking: TrackingInfo,
    createdAt: int,
    estimatedDelivery: int,
    actualDelivery: Option<int>)

  // ---------------------------------------------------------------------------
  // Status history

  /** The current status is the status of the most recent history entry. */
  ghost predicate StatusMatchesHistory(o: Order)
  {
    |o.statusHistory| > 0 && o.status == o.statusHistory[|o.statusHistory| - 1].status
  }

  /** The value `addStatusHistory(status, note, updatedBy)` leaves behind. */
  function WithStatus(o: Order, status: OrderStatus, note: string, updatedBy: Option<UserId>, now: int): (r: Order)
    ensures |r.statusHistory| == |o.statusHistory| + 1
    ensures r.statusHistory[..|o.statusHistory|] == o.statusHistory
    ensures r.statusHistory[|o.statusHistory|] == HistoryEntry(status, now, note, updatedBy)
    ensures r.status == status && StatusMatchesHistory(r)
    ensures r.(status := o.status, statusHistory := o.statusHistory) == o
  {
    o.(statusHistory := o.statusHistory + [HistoryEntry(status, now, note, updatedBy)], status := status)
  }

  /** A sequence of `addStatusHistory` calls only ever extends the history. */
  lemma {:induction false} HistoryOnlyGrows(o: Order, steps: seq<HistoryEntry>)
    ensures |ApplyAll(o, steps).statusHistory| == |o.statusHistory| + |steps|
    ensures ApplyAll(o, steps).statusHistory == o.statusHistory + steps
    ensures steps != [] ==> ApplyAll(o, steps).status == steps[|steps| - 1].status
  {
    if steps != [] {
      var init := steps[..|steps| - 1];
      HistoryOnlyGrows(o, init);
      assert init + [steps[|steps| - 1]] == steps;
    }
  }

  /** Replays history entries through `WithStatus`, oldest first. */
  function ApplyAll(o: Order, steps: seq<HistoryEntry>): Order
  {
    if steps == [] then o
    else
      var e := steps[|steps| - 1];
      WithStatus(ApplyAll(o, steps[..|steps| - 1]), e.status, e.note, e.updatedBy, e.timestamp)
  }

  // ---------------------------------------------------------------------------
  // Pricing

  /** `items.reduce((sum, item) => sum + item.price * item.quantity, 0)`. */
  function LineTotal(items: seq<Item>): real
  {
    if items == [] then 0.0
    else LineTotal(items[..|items| - 1]) + items[|items| - 1].price * (items[|items| - 1].quantity as real)
  }

  /** Adding one item adds its line amount. */
  lemma LineTotalSnoc(items: seq<Item>, item: Item)
    ensures LineTotal(items + [item]) == LineTotal(items) + item.price * (item.quantity as real)
  {
    assert (items + [item])[..|items|] == items;
  }

  lemma {:induction false} LineTotalAppend(items: seq<Item>, more: seq<Item>)
    ensures LineTotal(items + more) == LineTotal(items) + LineTotal(more)
  {
    if more == [] {
      assert items + more == items;
    } else {
      var init := more[..|more| - 1];
      LineTotalAppend(items, init);
      assert (items + more)[..|items + more| - 1] == items + init;
      assert (items + more)[|items + more| - 1] == more[|more| - 1];
    }
  }

  /** The pricing invariant: total = subtotal + shipping + tax - discount. */
  predicate PricingConsistent(p: Pricing)
  {
    p.total == p.subtotal + p.shipping + p.tax - p.discount
  }

  // ---------------------------------------------------------------------------
  // Eligibility

  /** Only orders that have not shipped can be cancelled. */
  predicate CanBeCancelled(o: Order)
  {
    o.status in {Pending, Confirmed, Processing}
  }

  /** `this.actualDelivery || this.createdAt`. */
  function DeliveryDate(o: Order): int
  {
    if o.actualDelivery.Some? then o.actualDelivery.value else o.createdAt
  }

  /** `(Date.now() - deliveryDate) / (1000 * 60 * 60 * 24)`, in exact arithmetic. */
  function DaysSinceDelivery(o: Order, now: int): real
  {
    (now - DeliveryDate(o)) as real / (MsPerDay as real)
  }

  predicate CanBeReturned(o: Order, now: int)
  {
    o.status == Delivered && DaysSinceDelivery(o, now) <= 30.0
  }

  predicate CanBeExchanged(o: Order, now: int)
  {
    o.status == Delivered && DaysSinceDelivery(o, now) <= 15.0
  }

  /** `days <= n` on the real quotient is `elapsed <= n` whole days of milliseconds. */
  lemma DaysWithin(o: Order, now: int, n: int)
    ensures DaysSinceDelivery(o, now) <= n as real <==> now - DeliveryDate(o) <= n * MsPerDay
  {
    var d := (now - DeliveryDate(o)) as real;
    var m := MsPerDay as real;
    assert d / m * m == d;
  }

  /** The return window: inclusive at exactly 30 days, closed one millisecond later. */
  lemma ReturnWindow(o: Order, now: int)
    ensures CanBeReturned(o, now) <==> o.status == Delivered && now - DeliveryDate(o) <= 30 * MsPerDay
  {
    DaysWithin(o, now, 30);
  }

  /** The exchange window: inclusive at exactly 15 days. */
  lemma ExchangeWindow(o: Order, now: int)
    ensures CanBeExchanged(o, now) <==> o.status == Delivered && now - DeliveryDate(o) <= 15 * MsPerDay
  {
    DaysWithin(o, now, 15);
  }

  /** At any instant an exchangeable order is also returnable, never the reverse in general. */
  lemma ExchangeableImpliesReturnable(o: Order, now: int)
    ensures CanBeExchanged(o, now) ==> CanBeReturned(o, now)
  {
  }

  /** Cancelling (before shipment) and returning (after delivery) never overlap. */
  lemma CancelAndReturnExclusive(o: Order, now: int)
    ensures !(CanBeCancelled(o) && CanBeReturned(o, now))
  {
  }

  // ---------------------------------------------------------------------------
  // Order number

  /** `ORD-${Date.now()}-${(count + 1).toString().padStart(4, '0')}`. */
  function OrderNumber(timestamp: nat, count: nat): string
  {
    "ORD-" + Decimal.NatToString(timestamp) + "-" + Decimal.PadStart(Decimal.NatToString(count + 1), 4, '0')
  }

  lemma PaddedDigits(n: nat)
    ensures Decimal.AllDigits(Decimal.PadStart(Decimal.NatToString(n), 4, '0'))
    ensures Decimal.ParseDigits(Decimal.PadStart(Decimal.NatToString(n), 4, '0')) == n
  {
    var s := Decimal.NatToString(n);
    Decimal.ParseNatToString(n);
    if |s| < 4 {
      Decimal.ParseLeadingZeros(4 - |s|, s);
    }
  }

  /**
   * An order number is "ORD-", the timestamp, "-", then `count + 1` padded
   * with zeros to at least four characters.
   */
  lemma OrderNumberSuffix(timestamp: nat, count: nat)
    ensures var t := Decimal.NatToString(timestamp);
            var n := OrderNumber(timestamp, count);
            && n[..4] == "ORD-" && n[4..4 + |t|] == t && n[4 + |t|] == '-'
            && n[5 + |t|..] == Decimal.PadStart(Decimal.NatToString(count + 1), 4, '0')
            && |n[5 + |t|..]| >= 4
  {
    NumberParts("ORD-", Decimal.NatToString(timestamp), Decimal.PadStart(Decimal.NatToString(count + 1), 4, '0'));
  }

  /** Where the pieces of `prefix + t + "-" + p` sit, for a four-character prefix. */
  lemma NumberParts(prefix: string, t: string, p: string)
    requires |prefix| == 4
    ensures var n := prefix + t + "-" + p;
      n[..4] == prefix && n[4..4 + |t|] == t && n[4 + |t|] == '-' && n[5 + |t|..] == p
  {
    var n := prefix + t + "-" + p;
    assert n[..4] == prefix;
    assert n[4..4 + |t|] == t;
    assert n[5 + |t|..] == p;
  }

  /** Two order numbers are equal only when both the timestamp and the count agree. */
  lemma OrderNumberInjective(t1: nat, c1: nat, t2: nat, c2: nat)
    requires OrderNumber(t1, c1) == OrderNumber(t2, c2)
    ensures t1 == t2 && c1 == c2
  {
    var s1, s2 := Decimal.NatToString(t1), Decimal.NatToString(t2);
    var n := OrderNumber(t1, c1);
    OrderNumberSuffix(t1, c1);
    OrderNumberSuffix(t2, c2);
    DashAfterDigits(n, s1, 4);
    DashAfterDigits(n, s2, 4);
    assert s1 == n[4..4 + |s1|] == s2;
    Decimal.NatToStringInjective(t1, t2);
    var p1, p2 := Decimal.PadStart(Decimal.NatToString(c1 + 1), 4, '0'), Decimal.PadStart(Decimal.NatToString(c2 + 1), 4, '0');
    assert p1 == OrderNumber(t1, c1)[5 + |s1|..] == p2;
    PaddedInjective(c1 + 1, c2 + 1);
  }

  /** The position of the first '-' in `n` from position `i` on (`|n|` if there is none). */
  function DashFrom(n: string, i: nat): (r: nat)
    ensures i <= r || |n| < i
    decreases |n| - i
  {
    if i >= |n| then |n| else if n[i] == '-' then i else DashFrom(n, i + 1)
  }

  /** After "ORD-", the first '-' is the one that ends the timestamp's digits. */
  lemma {:induction false} DashAfterDigits(n: string, t: string, i: nat)
    requires 4 + |t| < |n| && n[4..4 + |t|] == t && n[4 + |t|] == '-'
    requires Decimal.AllDigits(t) && 4 <= i <= 4 + |t|
    ensures DashFrom(n, i) == 4 + |t|
    decreases 4 + |t| - i
  {
    if i < 4 + |t| {
      assert n[i] == t[i - 4];
      DashAfterDigits(n, t, i + 1);
    }
  }

  /** Distinct numbers pad to distinct sequence parts. */
  lemma PaddedInjective(m: nat, n: nat)
    requires Decimal.PadStart(Decimal.NatToString(m), 4, '0') == Decimal.PadStart(Decimal.NatToString(n), 4, '0')
    ensures m == n
  {
    PaddedDigits(m);
    PaddedDigits(n);
  }

  // ---------------------------------------------------------------------------
  // The loaded document

  /** An order document loaded for one request, changed in place, then saved. */
  class OrderDocument {
    var orderNumber: string
    var user: UserId
    var items: seq<Item>
    var shippingAddress: Address
    var billingAddress: Address
    var pricing: Pricing
    var payment: Payment
    var status: OrderStatus
    var statusHistory: seq<HistoryEntry>
    var coupon: Option<Coupon>
    var cancellation: Option<Cancellation>
    var returnRequest: Option<ReturnRequest>
    var exchange: Option<ExchangeRequest>
    var invoice: Option<Invoice>
    var tracking: TrackingInfo
    var createdAt: int
    var estimatedDelivery: int
    var actualDelivery: Option<int>

    /** The document as it would be saved. */
    function Value(): Order
      reads this
    {
      Order(orderNumber, user, items, shippingAddress, billingAddress, pricing, payment,
            status, statusHistory, coupon, cancellation, returnRequest, exchange, invoice,
            tracking, createdAt, estimatedDelivery, actualDelivery)
    }

    constructor Load(o: Order)
      ensures Value() == o
    {
      orderNumber, user, items := o.orderNumber, o.user, o.items;
      shippingAddress, billingAddress := o.shippingAddress, o.billingAddress;
      pricing, payment, status, statusHistory := o.pricing, o.payment, o.status, o.statusHistory;
      coupon, cancellation, returnRequest, exchange, invoice := o.coupon, o.cancellation, o.returnRequest, o.exchange, o.invoice;
      tracking := o.tracking;
      createdAt, estimatedDelivery, actualDelivery := o.createdAt, o.estimatedDelivery, o.actualDelivery;
    }

    /** `addStatusHistory`: append one entry and make its status current. */
    method AddStatusHistory(s: OrderStatus, note: string, updatedBy: Option<UserId>, now: int)
      modifies this
      ensures Value() == WithStatus(old(Value()), s, note, updatedBy, now)
    {
      statusHistory := statusHistory + [HistoryEntry(s, now, note, updatedBy)];
      status := s;
    }

    /** `calculateTotal`: recompute subtotal and total; shipping, tax and discount stay. */
    method CalculateTotal() returns (total: real)
      modifies this
      ensures Value() == old(Value()).(pricing := old(pricing).(subtotal := LineTotal(items), total := total))
      ensures PricingConsistent(pricing) && pricing.subtotal == LineTotal(items)
      ensures total == LineTotal(items) + pricing.shipping + pricing.tax - pricing.discount
    {
      var subtotal := 0.0;
      var i := 0;
      while i < |items|
        invariant 0 <= i <= |items|
        invariant subtotal == LineTotal(items[..i])
      {
        assert items[..i + 1][..i] == items[..i];
        subtotal := subtotal + items[i].price * (items[i].quantity as real);
        i := i + 1;
      }
      assert items[..i] == items;
      total := subtotal + pricing.shipping + pricing.tax - pricing.discount;
      pricing := pricing.(subtotal := subtotal, total := total);
    }

    /** The pre-save hook: a new document without a number gets one. */
    method AssignOrderNumber(isNew: bool, count: nat, now: nat)
      modifies this
      ensures Value() == old(Value()).(orderNumber :=
        if isNew && old(orderNumber) == "" then OrderNumber(now, count) else old(orderNumber))
    {
      if isNew && orderNumber == "" {
        orderNumber := OrderNumber(now, count);
      }
    }
  }
}
