/**
 * The browser-side order list of src/contexts/OrderContext.tsx: placing an
 * order puts it in front, a status change rewrites the matching orders, and
 * the tracking timeline is derived from an order's status and creation time.
 */
module OrderContext {
  import opened Common
  import Decimal
  import opened Storefront

  const DeliveryEstimate: int := 7 * MsPerDay

  /** What the caller supplies: an order without its id and timestamps. */
  datatype OrderData = OrderData(
    userId: string,
    items: seq<CartItem>,
    total: real,
    status: OrderStatus,
    shippingAddress: ShippingAddress,
    paymentStatus: PaymentStatus,
    paymentMethod: string)

  /**
   * The order `addOrder` builds at `now`: id `ORD-<now>`, created and updated
   * at `now`, tracking number `TRK` followed by the random code, delivery
   * expected seven days later.
   */
  function NewOrder(data: OrderData, now: nat, code: string): (o: Order)
    ensures o.createdAt == o.updatedAt == now
    ensures o.estimatedDelivery == Some(now + DeliveryEstimate)
    ensures o.id == "ORD-" + Decimal.NatToString(now)
    ensures o.userId == data.userId && o.items == data.items && o.total == data.total && o.status == data.status
    ensures o.shippingAddress == data.shippingAddress && o.paymentStatus == data.paymentStatus
    ensures o.paymentMethod == data.paymentMethod
    ensures o.trackingNumber == Some("TRK" + code)
  {
    Order("ORD-" + Decimal.NatToString(now), data.userId, data.items, data.total, data.status,
          data.shippingAddress, data.paymentStatus, data.paymentMethod,
          Some("TRK" + code), Some(now + DeliveryEstimate), now, now)
  }

  /** `orders.find(order => order.id === orderId)`: the first order with that id. */
  function FindOrder(orders: seq<Order>, id: string): (r: Option<Order>)
    ensures r.None? <==> forall k :: 0 <= k < |orders| ==> orders[k].id != id
    ensures r.Some? ==> exists k :: 0 <= k < |orders| && orders[k] == r.value && r.value.id == id
                                    && forall j :: 0 <= j < k ==> orders[j].id != id
  {
    if orders == [] then None
    else if orders[0].id == id then Some(orders[0])
    else
      var r := FindOrder(orders[1..], id);
      if r.Some? then
        var k :| 0 <= k < |orders[1..]| && orders[1..][k] == r.value && r.value.id == id
                 && forall j :: 0 <= j < k ==> orders[1..][j].id != id;
        assert orders[k + 1] == r.value;
        r
      else
        assert forall k :: 1 <= k < |orders| ==> orders[k] == orders[1..][k - 1];
        r
  }

  /** A just-added order is the one found by its id, even if an older order had the same id. */
  lemma AddedOrderFound(orders: seq<Order>, o: Order)
    ensures FindOrder([o] + orders, o.id) == Some(o)
  {
  }

  /** The order an id finds after a status change is the one found before, with the new status. */
  lemma {:induction false} StatusChangeFound(orders: seq<Order>, id: string, status: OrderStatus, now: int, other: string)
    ensures var r := FindOrder(StatusChanged(orders, id, status, now), other);
      && (FindOrder(orders, other).None? ==> r.None?)
      && (FindOrder(orders, other).Some? && other == id ==>
            r == Some(FindOrder(orders, other).value.(status := status, updatedAt := now)))
      && (other != id ==> r == FindOrder(orders, other))
  {
    if orders != [] {
      var changed := StatusChanged(orders, id, status, now);
      StatusChangedTail(orders, id, status, now);
      if orders[0].id != other {
        assert changed[0].id != other;
        StatusChangeFound(orders[1..], id, status, now, other);
      }
    }
  }

  lemma StatusChangedTail(orders: seq<Order>, id: string, status: OrderStatus, now: int)
    requires orders != []
    ensures StatusChanged(orders, id, status, now)[1..] == StatusChanged(orders[1..], id, status, now)
  {
  }

  /** The order list after `updateOrderStatus(id, status)` at `now`. */
  function StatusChanged(orders: seq<Order>, id: string, status: OrderStatus, now: int): (r: seq<Order>)
    ensures |r| == |orders|
  {
    seq(|orders|, k requires 0 <= k < |orders| =>
      if orders[k].id == id then orders[k].(status := status, updatedAt := now) else orders[k])
  }

  // ---------------------------------------------------------------------------
  // Tracking

  datatype TrackingStage = OrderPlaced | StageConfirmed | StageProcessing | StageShipped | StageDelivered

  datatype TrackingEntry = TrackingEntry(
    orderId: string,
    status: TrackingStage,
    timestamp: int,
    description: string,
    location: string)

  /** The stages a timeline can show, in order. */
  const Timeline: seq<TrackingStage> := [OrderPlaced, StageConfirmed, StageProcessing, StageShipped, StageDelivered]

  /** How long after the order each stage is stamped: 0, 30 minutes, 2 hours, 1 day, 3 days. */
  const Offsets: seq<int> := [0, 30 * MsPerMinute, 2 * MsPerHour, MsPerDay, 3 * MsPerDay]

  /** The timeline of order `o`, asked for under `orderId`: one entry per stage its status has reached. */
  function Tracking(o: Order, orderId: string): seq<TrackingEntry>
  {
    var placed := [TrackingEntry(orderId, OrderPlaced, o.createdAt, "Order placed successfully", "Online")];
    var confirmed :=
      if o.status in {Confirmed, Processing, Shipped, Delivered}
      then placed + [TrackingEntry(orderId, StageConfirmed, o.createdAt + 30 * MsPerMinute, "Order confirmed by seller", "Seller Location")]
      else placed;
    var processing :=
      if o.status in {Processing, Shipped, Delivered}
      then confirmed + [TrackingEntry(orderId, StageProcessing, o.createdAt + 2 * MsPerHour, "Order is being prepared", "Warehouse")]
      else confirmed;
    var shipped :=
      if o.status in {Shipped, Delivered}
      then processing + [TrackingEntry(orderId, StageShipped, o.createdAt + MsPerDay, "Order shipped", "Distribution Center")]
      else processing;
    if o.status == Delivered
    then shipped + [TrackingEntry(orderId, StageDelivered, o.createdAt + 3 * MsPerDay, "Order delivered successfully", o.shippingAddress.city)]
    else shipped
  }

  /** `getOrderTracking(orderId)`. */
  function GetOrderTracking(orders: seq<Order>, orderId: string): seq<TrackingEntry>
  {
    match FindOrder(orders, orderId)
    case None => []
    case Some(o) => Tracking(o, orderId)
  }

  /** How many stages an order in each status has reached. */
  function StagesReached(status: OrderStatus): nat
  {
    match status
    case Pending => 1
    case Cancelled => 1
    case Confirmed => 2
    case Processing => 3
    case Shipped => 4
    case Delivered => 5
  }

  /**
   * An unknown id has no timeline. A known order's timeline starts with
   * "order placed" at its creation time, lists the first stages of
   * placed, confirmed, processing, shipped, delivered (one for a pending
   * or cancelled order, up to all five once delivered), stamps stage `k`
   * at creation plus its offset, and so runs strictly forward in time.
   */
  lemma TrackingTimeline(orders: seq<Order>, orderId: string)
    ensures var t := GetOrderTracking(orders, orderId);
      && (FindOrder(orders, orderId).None? ==> t == [])
      && (FindOrder(orders, orderId).Some? ==>
            var o := FindOrder(orders, orderId).value;
            && |t| == StagesReached(o.status)
            && t[0] == TrackingEntry(orderId, OrderPlaced, o.createdAt, "Order placed successfully", "Online")
            && (forall k :: 0 <= k < |t| ==>
                  t[k].orderId == orderId && t[k].status == Timeline[k] && t[k].timestamp == o.createdAt + Offsets[k])
            && (forall k, l :: 0 <= k < l < |t| ==> t[k].timestamp < t[l].timestamp))
  {
    if FindOrder(orders, orderId).Some? {
      TrackingStages(FindOrder(orders, orderId).value, orderId);
    }
  }

  /** The entry for stage `k` of the timeline, as `Tracking` builds it. */
  function StageEntry(o: Order, orderId: string, k: nat): (e: TrackingEntry)
    requires k < |Timeline|
    ensures e.orderId == orderId && e.status == Timeline[k] && e.timestamp == o.createdAt + Offsets[k]
  {
    match k
    case 0 => TrackingEntry(orderId, OrderPlaced, o.createdAt, "Order placed successfully", "Online")
    case 1 => TrackingEntry(orderId, StageConfirmed, o.createdAt + 30 * MsPerMinute, "Order confirmed by seller", "Seller Location")
    case 2 => TrackingEntry(orderId, StageProcessing, o.createdAt + 2 * MsPerHour, "Order is being prepared", "Warehouse")
    case 3 => TrackingEntry(orderId, StageShipped, o.createdAt + MsPerDay, "Order shipped", "Distribution Center")
    case 4 => TrackingEntry(orderId, StageDelivered, o.createdAt + 3 * MsPerDay, "Order delivered successfully", o.shippingAddress.city)
  }

  /** The timeline of one order, stage by stage. */
  lemma TrackingStages(o: Order, orderId: string)
    ensures var t := Tracking(o, orderId);
      && |t| == StagesReached(o.status)
      && t[0] == TrackingEntry(orderId, OrderPlaced, o.createdAt, "Order placed successfully", "Online")
      && (forall k :: 0 <= k < |t| ==>
            t[k].orderId == orderId && t[k].status == Timeline[k] && t[k].timestamp == o.createdAt + Offsets[k])
      && (forall k, l :: 0 <= k < l < |t| ==> t[k].timestamp < t[l].timestamp)
  {
    var t := Tracking(o, orderId);
    var e0, e1, e2, e3, e4 := StageEntry(o, orderId, 0), StageEntry(o, orderId, 1), StageEntry(o, orderId, 2),
                              StageEntry(o, orderId, 3), StageEntry(o, orderId, 4);
    var all := [e0, e1, e2, e3, e4];
    assert t == all[..StagesReached(o.status)] by {
      match o.status
      case Pending => assert t == [e0];
      case Cancelled => assert t == [e0];
      case Confirmed => assert t == [e0, e1];
      case Processing => assert t == [e0, e1, e2];
      case Shipped => assert t == [e0, e1, e2, e3];
      case Delivered => assert t == [e0, e1, e2, e3, e4];
    }
    forall k | 0 <= k < |t|
      ensures t[k].orderId == orderId && t[k].status == Timeline[k] && t[k].timestamp == o.createdAt + Offsets[k]
    {
      assert t[k] == StageEntry(o, orderId, k);
    }
    OffsetsIncrease();
  }

  lemma OffsetsIncrease()
    ensures forall k, l :: 0 <= k < l < |Offsets| ==> Offsets[k] < Offsets[l]
  {
  }

  /** A cancelled order shows only that it was placed, whatever stage it reached before. */
  lemma CancelledShowsPlacedOnly(orders: seq<Order>, id: string, now: int)
    requires FindOrder(orders, id).Some?
    ensures |GetOrderTracking(StatusChanged(orders, id, Cancelled, now), id)| == 1
  {
    StatusChangeFound(orders, id, Cancelled, now, id);
    TrackingTimeline(StatusChanged(orders, id, Cancelled, now), id);
  }

  // ---------------------------------------------------------------------------
  // The provider's state

  /** The order list the provider holds (restoring it from local storage is not modelled). */
  class OrderList {
    var orders: seq<Order>

    constructor ()
      ensures orders == []
    {
      orders := [];
    }

    /** `addOrder`: the new order goes first, the older ones follow unchanged and in order. */
    method AddOrder(data: OrderData, now: nat, code: string) returns (o: Order)
      modifies this
      ensures o == NewOrder(data, now, code)
      ensures orders == [o] + old(orders)
    {
      o := NewOrder(data, now, code);
      orders := [o] + orders;
    }

    /**
     * `updateOrderStatus`: every order with the id gets the new status and
     * `updatedAt`; every other order, and the length and order of the list,
     * stay as they were.
     */
    method UpdateOrderStatus(id: string, status: OrderStatus, now: int)
      modifies this
      ensures |orders| == |old(orders)|
      ensures forall k :: 0 <= k < |orders| ==>
        orders[k] == if old(orders)[k].id == id then old(orders)[k].(status := status, updatedAt := now) else old(orders)[k]
      ensures orders == StatusChanged(old(orders), id, status, now)
    {
      var updated: seq<Order> := [];
      var i := 0;
      while i < |orders|
        invariant 0 <= i <= |orders|
        invariant |updated| == i
        invariant forall k :: 0 <= k < i ==>
          updated[k] == if orders[k].id == id then orders[k].(status := status, updatedAt := now) else orders[k]
      {
        var o := orders[i];
        updated := updated + [if o.id == id then o.(status := status, updatedAt := now) else o];
        i := i + 1;
      }
      orders := updated;
    }
  }
}
