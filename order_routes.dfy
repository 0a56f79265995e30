/**
 * The order handlers of server/routes/orders.js: create (line validation,
 * price snapshot, stock reservation, pricing), list, get, cancel (with stock
 * restore), return, exchange, reorder and track. Each handler is a pure
 * specification on the two collections and an imperative method on the
 * database proved to agree with it.
 */
module OrderRoutes {
  import opened Common
  import opened OrderModel
  import opened ProductModel
  import opened Store
  import Sorting
  import Text

  // ---------------------------------------------------------------------------
  // Create: request and validation

  /** One requested line: `{ product, quantity }`. */
  datatype Line = Line(product: ProductId, quantity: int)

  datatype CreateRequest = CreateRequest(
    lines: seq<Line>,
    shippingAddress: Address,
    billingAddress: Option<Address>,
    paymentMethod: PaymentMethod,
    coupon: Option<Coupon>)

  /**
   * The validator chain of `POST /api/orders`; the phone check
   * (`isMobilePhone`) is a parameter.
   */
  predicate CreateRequestValid(req: CreateRequest, isMobilePhone: string -> bool)
  {
    && |req.lines| >= 1
    && (forall i :: 0 <= i < |req.lines| ==> req.lines[i].quantity >= 1)
    && req.shippingAddress.name != ""
    && isMobilePhone(req.shippingAddress.phone)
    && req.shippingAddress.address != ""
    && req.shippingAddress.city != ""
    && req.shippingAddress.state != ""
    && Text.ValidatorLength(req.shippingAddress.pincode) == 6
    && InMethodEnum(req.paymentMethod)
  }

  // ---------------------------------------------------------------------------
  // Create: reserving stock line by line

  /** Products after the lines processed so far, the items built, and the first failure. */
  datatype Reservation = Reservation(products: map<ProductId, Product>, items: seq<Item>, failure: Option<ApiError>)

  /** One pass of the line loop: check the product, snapshot its price, subtract the quantity. */
  function ReserveLine(r: Reservation, line: Line, now: int): Reservation
  {
    if line.product !in r.products || !r.products[line.product].isActive then
      r.(failure := Some(ProductUnavailable(line.product)))
    else
      var p := r.products[line.product];
      if p.stock < line.quantity then
        r.(failure := Some(InsufficientStock(line.product)))
      else
        Reservation(
          r.products[line.product := Saved(p.(stock := AdjustedStock(p.stock, line.quantity, "subtract"), lastStockUpdate := Some(now)))],
          r.items + [Item(line.product, line.quantity, p.price, Pending)],
          None)
  }

  /** The line loop up to the first failing line; later lines are never looked at. */
  function ReserveLines(products: map<ProductId, Product>, lines: seq<Line>, now: int): Reservation
  {
    if lines == [] then Reservation(products, [], None)
    else
      var r := ReserveLines(products, lines[..|lines| - 1], now);
      if r.failure.Some? then r else ReserveLine(r, lines[|lines| - 1], now)
  }

  /**
   * `q` is `p` with new stock and `lastStockUpdate`, and with either its own
   * rating or the one a save recomputes from its reviews.
   */
  predicate StockUpdateOf(p: Product, q: Product)
  {
    && q == p.(stock := q.stock, lastStockUpdate := q.lastStockUpdate, rating := q.rating)
    && (q.rating == p.rating || q.rating == Saved(p).rating)
  }

  /** Updating the stock of a stock update and saving it is still a stock update of the original. */
  lemma StockUpdateThenSave(p: Product, q: Product, stock: int, at: Option<int>)
    requires StockUpdateOf(p, q)
    ensures StockUpdateOf(p, Saved(q.(stock := stock, lastStockUpdate := at)))
  {
  }

  /** A product map in which each product is unchanged or a stock update of the original. */
  ghost predicate OnlyStockChanged(products: map<ProductId, Product>, after: map<ProductId, Product>)
  {
    && after.Keys == products.Keys
    && forall id :: id in products ==> StockUpdateOf(products[id], after[id])
  }

  /** The items are the first lines, in order, each at the price its product has in `products`. */
  ghost predicate ItemsFollowLines(items: seq<Item>, lines: seq<Line>, products: map<ProductId, Product>)
  {
    && |items| <= |lines|
    && forall i :: 0 <= i < |items| ==>
         && items[i].product == lines[i].product
         && items[i].quantity == lines[i].quantity
         && items[i].product in products
         && items[i].price == products[items[i].product].price
  }

  /** Every product's stock went down by exactly what the items hold of it. */
  ghost predicate StockAccounted(products: map<ProductId, Product>, after: map<ProductId, Product>, items: seq<Item>)
    requires after.Keys == products.Keys
  {
    forall id :: id in products ==> products[id].stock == after[id].stock + Reserved(items, id)
  }

  /** One successful pass of the line loop keeps the three facts above. */
  lemma ReserveLineStep(products: map<ProductId, Product>, lines: seq<Line>, r: Reservation, now: int)
    requires lines != [] && r.failure.None?
    requires OnlyStockChanged(products, r.products)
    requires ItemsFollowLines(r.items, lines[..|lines| - 1], products) && |r.items| == |lines| - 1
    requires StockAccounted(products, r.products, r.items)
    ensures var r' := ReserveLine(r, lines[|lines| - 1], now);
      && OnlyStockChanged(products, r'.products)
      && ItemsFollowLines(r'.items, lines, products)
      && (r'.failure.None? ==> |r'.items| == |lines|)
      && (r'.failure.Some? ==> r'.items == r.items)
      && StockAccounted(products, r'.products, r'.items)
  {
    var line := lines[|lines| - 1];
    var r' := ReserveLine(r, line, now);
    if r'.failure.None? {
      var p := r.products[line.product];
      var q := Saved(p.(stock := AdjustedStock(p.stock, line.quantity, "subtract"), lastStockUpdate := Some(now)));
      var item := Item(line.product, line.quantity, p.price, Pending);
      assert r'.products == r.products[line.product := q];
      assert r'.items == r.items + [item];
      StockUpdateThenSave(products[line.product], p, AdjustedStock(p.stock, line.quantity, "subtract"), Some(now));
      UpdateKeepsOnlyStock(products, r.products, line.product, q);
      AppendFollowsLines(r.items, lines, products, item);
      AppendAccounted(products, r.products, r.items, q, item);
    } else {
      assert r'.products == r.products && r'.items == r.items;
      assert r.items == r.items[..|r.items|];
    }
  }

  lemma UpdateKeepsOnlyStock(products: map<ProductId, Product>, before: map<ProductId, Product>, id: ProductId, q: Product)
    requires OnlyStockChanged(products, before) && id in products && StockUpdateOf(products[id], q)
    ensures OnlyStockChanged(products, before[id := q])
  {
  }

  lemma AppendFollowsLines(items: seq<Item>, lines: seq<Line>, products: map<ProductId, Product>, item: Item)
    requires lines != [] && |items| == |lines| - 1
    requires ItemsFollowLines(items, lines[..|lines| - 1], products)
    requires item.product == lines[|lines| - 1].product && item.quantity == lines[|lines| - 1].quantity
    requires item.product in products && item.price == products[item.product].price
    ensures ItemsFollowLines(items + [item], lines, products)
  {
    var all := items + [item];
    forall i | 0 <= i < |all|
      ensures all[i].product == lines[i].product && all[i].quantity == lines[i].quantity
      ensures all[i].product in products && all[i].price == products[all[i].product].price
    {
      if i < |items| {
        assert all[i] == items[i] && lines[..|lines| - 1][i] == lines[i];
      }
    }
  }

  lemma AppendAccounted(products: map<ProductId, Product>, before: map<ProductId, Product>, items: seq<Item>, q: Product, item: Item)
    requires before.Keys == products.Keys && item.product in products
    requires StockAccounted(products, before, items)
    requires q.stock == before[item.product].stock - item.quantity
    ensures StockAccounted(products, before[item.product := q], items + [item])
  {
    var after := before[item.product := q];
    var all := items + [item];
    assert all[..|all| - 1] == items;
    forall id | id in products
      ensures products[id].stock == after[id].stock + Reserved(all, id)
    {
      assert Reserved(all, id) == Reserved(items, id) + (if item.product == id then item.quantity else 0);
    }
  }

  /**
   * What the line loop does, whether it completes or stops at a failing line:
   * the items built so far match the first lines in order, each at the price
   * its product had; every product's stock went down by exactly what those
   * items hold; and only stock changed.
   */
  lemma {:induction false} ReserveLinesFacts(products: map<ProductId, Product>, lines: seq<Line>, now: int)
    ensures var r := ReserveLines(products, lines, now);
      && OnlyStockChanged(products, r.products)
      && ItemsFollowLines(r.items, lines, products)
      && (r.failure.None? ==> |r.items| == |lines|)
      && StockAccounted(products, r.products, r.items)
  {
    if lines != [] {
      var init := lines[..|lines| - 1];
      ReserveLinesFacts(products, init, now);
      var r0 := ReserveLines(products, init, now);
      if r0.failure.None? {
        ReserveLineStep(products, lines, r0, now);
      }
    }
  }

  /** The loop over the first `i + 1` lines is the loop over the first `i`, then line `i` unless it already failed. */
  lemma ReserveLinesStep(products: map<ProductId, Product>, lines: seq<Line>, i: nat, now: int)
    requires i < |lines|
    ensures var r := ReserveLines(products, lines[..i], now);
      ReserveLines(products, lines[..i + 1], now) == if r.failure.Some? then r else ReserveLine(r, lines[i], now)
  {
    assert lines[..i + 1][..i] == lines[..i];
  }

  /** A failure is final: the loop returns at the first failing line. */
  lemma {:induction false} ReserveFailureSticks(products: map<ProductId, Product>, lines: seq<Line>, k: nat, now: int)
    requires k <= |lines|
    requires ReserveLines(products, lines[..k], now).failure.Some?
    ensures ReserveLines(products, lines, now) == ReserveLines(products, lines[..k], now)
  {
    if k < |lines| {
      assert lines[..|lines| - 1][..k] == lines[..k];
      ReserveFailureSticks(products, lines[..|lines| - 1], k, now);
    } else {
      assert lines[..k] == lines;
    }
  }

  /** The first failure names a line whose product is missing or inactive, or short of stock at that point. */
  lemma {:induction false} ReserveFailureReason(products: map<ProductId, Product>, lines: seq<Line>, now: int)
    requires ReserveLines(products, lines, now).failure.Some?
    ensures var r := ReserveLines(products, lines, now);
      var k := |r.items|;
      && k < |lines|
      && (r.failure.value == ProductUnavailable(lines[k].product) <==>
            lines[k].product !in products || !products[lines[k].product].isActive)
      && (r.failure.value.InsufficientStock? ==>
            && r.failure.value.product == lines[k].product
            && lines[k].product in r.products
            && r.products[lines[k].product].stock < lines[k].quantity)
      && (r.failure.value.ProductUnavailable? || r.failure.value.InsufficientStock?)
  {
    var init := lines[..|lines| - 1];
    var r0 := ReserveLines(products, init, now);
    if r0.failure.Some? {
      ReserveFailureReason(products, init, now);
      assert ReserveLines(products, lines, now) == r0;
      assert lines[|r0.items|] == init[|r0.items|];
    } else {
      ReserveLinesFacts(products, init, now);
      var line := lines[|lines| - 1];
      assert ReserveLines(products, lines, now) == ReserveLine(r0, line, now);
      assert |r0.items| == |init|;
      if line.product in products {
        assert StockUpdateOf(products[line.product], r0.products[line.product]);
      }
    }
  }

  /** Checked lines never drive stock below zero. */
  lemma {:induction false} ReserveKeepsStockNonNegative(products: map<ProductId, Product>, lines: seq<Line>, now: int)
    requires StockNonNegative(products)
    ensures StockNonNegative(ReserveLines(products, lines, now).products)
  {
    if lines != [] {
      ReserveKeepsStockNonNegative(products, lines[..|lines| - 1], now);
    }
  }

  // ---------------------------------------------------------------------------
  // Create: pricing and the new document

  /** Free shipping from 500, else 99; 18% tax; total = subtotal + shipping + tax - discount. */
  function PriceOrder(subtotal: real, discount: real): (p: Pricing)
    ensures PricingConsistent(p)
    ensures p.subtotal == subtotal && p.discount == discount
  {
    var shipping := if subtotal >= 500.0 then 0.0 else 99.0;
    var tax := subtotal * 0.18;
    Pricing(subtotal, shipping, tax, discount, subtotal + shipping + tax - discount)
  }

  /** Shipping is waived exactly from 500 up and is 99 otherwise; the total carries 118% of the subtotal. */
  lemma PricingRule(subtotal: real, discount: real)
    ensures PriceOrder(subtotal, discount).shipping == 0.0 <==> subtotal >= 500.0
    ensures PriceOrder(subtotal, discount).shipping in {0.0, 99.0}
    ensures PriceOrder(subtotal, discount).total == subtotal * 1.18 + PriceOrder(subtotal, discount).shipping - discount
  {
  }

  /** `coupon ? (coupon.discount || 0) : 0`. */
  function CouponDiscount(coupon: Option<Coupon>): real
  {
    if coupon.Some? && coupon.value.discount.Some? then coupon.value.discount.value else 0.0
  }

  /**
   * `Order.create` followed by `addStatusHistory('pending', note)`: a new
   * document numbered by the pre-save hook from the count of existing
   * orders, unpaid, due in seven days, with one history entry.
   */
  function PlacedOrder(user: UserId, items: seq<Item>, shipping: Address, billing: Address,
                       paymentMethod: PaymentMethod, coupon: Option<Coupon>, pricing: Pricing,
                       note: string, count: nat, now: nat): Order
  {
    var payment := Payment(paymentMethod, Unpaid, None, None, None, None, None, None, None);
    var blank := Order(OrderNumber(now, count), user, items, shipping, billing, pricing, payment,
                       Pending, [], coupon, None, None, None, None, NoTracking, now, now + 7 * MsPerDay, None);
    WithStatus(blank, Pending, note, None, now)
  }

  /** The whole create handler: validation, the line loop, then the new order. */
  function CreateOrderSpec(s: State, user: UserId, req: CreateRequest, isMobilePhone: string -> bool,
                           id: OrderId, now: nat): (State, Result<Order>)
  {
    if !CreateRequestValid(req, isMobilePhone) then (s, Err(ValidationFailed))
    else
      var r := ReserveLines(s.products, req.lines, now);
      if r.failure.Some? then (State(s.orders, r.products), Err(r.failure.value))
      else
        var billing := if req.billingAddress.Some? then req.billingAddress.value else req.shippingAddress;
        var pricing := PriceOrder(LineTotal(r.items), CouponDiscount(req.coupon));
        var o := PlacedOrder(user, r.items, req.shippingAddress, billing, req.paymentMethod, req.coupon,
                             pricing, "Order placed successfully", |s.orders|, now);
        (State(s.orders[id := o], r.products), Ok(o))
  }

  /**
   * A created order: pending with exactly one 'pending' history entry, unpaid
   * whatever the method, one item per line at the product's price, subtotal
   * the sum of the lines, priced by the shipping and tax rule, due in seven
   * days; every product's stock went down by what the order holds of it.
   */
  lemma CreatedOrderShape(s: State, user: UserId, req: CreateRequest, isMobilePhone: string -> bool, id: OrderId, now: nat)
    requires CreateOrderSpec(s, user, req, isMobilePhone, id, now).1.Ok?
    ensures var (s', res) := CreateOrderSpec(s, user, req, isMobilePhone, id, now);
      var o := res.value;
      && s'.orders == s.orders[id := o]
      && o.status == Pending && |o.statusHistory| == 1 && o.statusHistory[0].status == Pending
      && o.payment.status == Unpaid && o.payment.paymentMethod == req.paymentMethod
      && o.user == user && o.orderNumber == OrderNumber(now, |s.orders|)
      && |o.items| == |req.lines|
      && ItemsFollowLines(o.items, req.lines, s.products)
      && o.pricing.subtotal == LineTotal(o.items)
      && o.pricing == PriceOrder(LineTotal(o.items), CouponDiscount(req.coupon))
      && o.estimatedDelivery == now + 7 * MsPerDay
      && OnlyStockChanged(s.products, s'.products)
      && StockAccounted(s.products, s'.products, o.items)
  {
    ReserveLinesFacts(s.products, req.lines, now);
  }

  /**
   * A failed create adds no order but keeps the stock already subtracted for
   * the lines before the failing one.
   */
  lemma CreateFailureKeepsEarlierLines(s: State, user: UserId, req: CreateRequest, isMobilePhone: string -> bool, id: OrderId, now: nat)
    requires CreateRequestValid(req, isMobilePhone)
    requires CreateOrderSpec(s, user, req, isMobilePhone, id, now).1.Err?
    ensures var (s', _) := CreateOrderSpec(s, user, req, isMobilePhone, id, now);
      var r := ReserveLines(s.products, req.lines, now);
      && s'.orders == s.orders
      && |r.items| < |req.lines|
      && ItemsFollowLines(r.items, req.lines, s.products)
      && OnlyStockChanged(s.products, s'.products)
      && StockAccounted(s.products, s'.products, r.items)
  {
    ReserveLinesFacts(s.products, req.lines, now);
    ReserveFailureReason(s.products, req.lines, now);
  }

  /** Creating keeps the database invariant. */
  lemma CreateKeepsValid(s: State, user: UserId, req: CreateRequest, isMobilePhone: string -> bool, id: OrderId, now: nat)
    requires Valid(s) && id !in s.orders
    ensures Valid(CreateOrderSpec(s, user, req, isMobilePhone, id, now).0)
  {
    if CreateRequestValid(req, isMobilePhone) {
      var r := ReserveLines(s.products, req.lines, now);
      ReserveKeepsStockNonNegative(s.products, req.lines, now);
      if r.failure.None? {
        ReservedQuantitiesPositive(s.products, req.lines, now);
        var out := CreateOrderSpec(s, user, req, isMobilePhone, id, now);
        var o := out.1.value;
        assert out.0 == State(s.orders[id := o], r.products);
        assert o.items == r.items && StatusMatchesHistory(o);
        StoreKeepsValid(s, r.products, id, o);
      }
    }
  }

  /**
   * Under a fresh id (Mongo's ObjectIds never collide), creating leaves every
   * stored order as it was, and a created order adds exactly one document.
   */
  lemma CreateKeepsOtherOrders(s: State, user: UserId, req: CreateRequest, isMobilePhone: string -> bool, id: OrderId, now: nat)
    requires id !in s.orders
    ensures var (s', res) := CreateOrderSpec(s, user, req, isMobilePhone, id, now);
      && (forall k :: k in s.orders ==> k in s'.orders && s'.orders[k] == s.orders[k])
      && |s'.orders| == |s.orders| + (if res.Ok? then 1 else 0)
      && (res.Ok? ==> s'.orders.Keys == s.orders.Keys + {id})
  {
    var (s', res) := CreateOrderSpec(s, user, req, isMobilePhone, id, now);
    if res.Ok? {
      CreatedOrderShape(s, user, req, isMobilePhone, id, now);
      FreshInsert(s.orders, id, res.value);
    } else if CreateRequestValid(req, isMobilePhone) {
      CreateFailureKeepsEarlierLines(s, user, req, isMobilePhone, id, now);
    }
  }

  /**
   * `POST /api/orders` as written. `orderNumber` is required and only the
   * pre-save hook assigns it, but Mongoose runs the validators before that
   * hook, so `Order.create` is refused with a validation error that goes to
   * `next(error)`, after the line loop has saved every product.
   */
  function CreateOrderAsWrittenSpec(s: State, user: UserId, req: CreateRequest, isMobilePhone: string -> bool,
                                    id: OrderId, now: nat): (State, Result<Order>)
  {
    if !CreateRequestValid(req, isMobilePhone) then (s, Err(ValidationFailed))
    else
      var r := ReserveLines(s.products, req.lines, now);
      if r.failure.Some? then (State(s.orders, r.products), Err(r.failure.value))
      else (State(s.orders, r.products), Err(ServerError))
  }

  /**
   * As written, no order is ever created; where the intended handler
   * creates one, the stock its items hold is still taken from every product,
   * so a product a line names ends with less stock and no order holds it.
   */
  lemma CreateOrderAsWrittenLosesStock(s: State, user: UserId, req: CreateRequest, isMobilePhone: string -> bool,
                                       id: OrderId, now: nat, k: nat)
    requires CreateOrderSpec(s, user, req, isMobilePhone, id, now).1.Ok?
    requires k < |req.lines|
    ensures var (w, wr) := CreateOrderAsWrittenSpec(s, user, req, isMobilePhone, id, now);
      var (c, cr) := CreateOrderSpec(s, user, req, isMobilePhone, id, now);
      && wr == Err(ServerError)
      && w.orders == s.orders
      && w.products == c.products
      && OnlyStockChanged(s.products, w.products)
      && StockAccounted(s.products, w.products, cr.value.items)
      && req.lines[k].product in s.products
      && w.products[req.lines[k].product].stock < s.products[req.lines[k].product].stock
  {
    var (c, cr) := CreateOrderSpec(s, user, req, isMobilePhone, id, now);
    CreatedOrderShape(s, user, req, isMobilePhone, id, now);
    var items := cr.value.items;
    assert items[k].product == req.lines[k].product;
    AccountedStockFalls(s.products, c.products, items, req.lines, k);
  }

  /** Stock accounted to items of positive quantity is strictly lower for each product an item names. */
  lemma AccountedStockFalls(products: map<ProductId, Product>, after: map<ProductId, Product>, items: seq<Item>,
                            lines: seq<Line>, k: nat)
    requires after.Keys == products.Keys && StockAccounted(products, after, items)
    requires forall i :: 0 <= i < |lines| ==> lines[i].quantity >= 1
    requires |items| == |lines| && ItemsFollowLines(items, lines, products) && k < |items|
    ensures items[k].product in products && after[items[k].product].stock < products[items[k].product].stock
  {
    ReservedPositive(items, items[k].product, k);
  }

  /** Outside the success path the handler as written and the intended one answer alike. */
  lemma CreateOrderAsWrittenElsewhereAlike(s: State, user: UserId, req: CreateRequest, isMobilePhone: string -> bool,
                                           id: OrderId, now: nat)
    requires CreateOrderSpec(s, user, req, isMobilePhone, id, now).1.Err?
    ensures CreateOrderAsWrittenSpec(s, user, req, isMobilePhone, id, now) == CreateOrderSpec(s, user, req, isMobilePhone, id, now)
  {
  }

  /** Lines of positive quantity reserve items of positive quantity. */
  lemma ReservedQuantitiesPositive(products: map<ProductId, Product>, lines: seq<Line>, now: int)
    requires forall i :: 0 <= i < |lines| ==> lines[i].quantity >= 1
    ensures QuantitiesPositive(ReserveLines(products, lines, now).items)
  {
    ReserveLinesFacts(products, lines, now);
    ItemsFollowPositiveLines(ReserveLines(products, lines, now).items, lines, products);
  }

  /** Items that follow lines of positive quantity have positive quantities. */
  lemma ItemsFollowPositiveLines(items: seq<Item>, lines: seq<Line>, products: map<ProductId, Product>)
    requires ItemsFollowLines(items, lines, products)
    requires forall i :: 0 <= i < |lines| ==> lines[i].quantity >= 1
    ensures QuantitiesPositive(items)
  {
    forall i | 0 <= i < |items|
      ensures items[i].quantity >= 1
    {
      assert items[i].quantity == lines[i].quantity;
    }
  }

  /** Storing a well-formed order next to non-negative stock keeps the database invariant. */
  lemma StoreKeepsValid(s: State, products: map<ProductId, Product>, id: OrderId, o: Order)
    requires OrdersWellFormed(s.orders) && StockNonNegative(products)
    requires QuantitiesPositive(o.items) && StatusMatchesHistory(o)
    ensures Valid(State(s.orders[id := o], products))
  {
  }

  /** The worked example: two at 100 and one at 50 is 250, plus 99 shipping and 45 tax, 394 in all. */
  lemma WorkedExample(a: ProductId, b: ProductId)
    ensures var items := [Item(a, 2, 100.0, Pending), Item(b, 1, 50.0, Pending)];
      LineTotal(items) == 250.0
      && PriceOrder(LineTotal(items), 0.0) == Pricing(250.0, 99.0, 45.0, 0.0, 394.0)
  {
    var items := [Item(a, 2, 100.0, Pending), Item(b, 1, 50.0, Pending)];
    assert items[..1] == [Item(a, 2, 100.0, Pending)];
    assert items[..1][..0] == [];
    assert LineTotal(items[..1]) == 200.0;
    assert LineTotal(items) == LineTotal(items[..1]) + 50.0;
  }

  /** At 600 shipping is free: 600 + 108 tax = 708. */
  lemma FreeShippingExample()
    ensures PriceOrder(600.0, 0.0) == Pricing(600.0, 0.0, 108.0, 0.0, 708.0)
  {
  }

  // ---------------------------------------------------------------------------
  // List, get and track

  /** `parseInt(q) || fallback`: a missing or non-numeric value, or 0, gives the fallback. */
  function PageParam(q: Option<int>, fallback: int): (r: int)
    ensures r != 0 || fallback == 0
    ensures q.Some? && q.value != 0 ==> r == q.value
  {
    if q.Some? && q.value != 0 then q.value else fallback
  }

  datatype Listing<T> = Listing(items: seq<T>, count: nat, total: nat, page: int, pages: int)

  function Abs(x: int): nat
  {
    if x < 0 then -x else x
  }

  /**
   * `l` is page `page` of `matching` ordered by `le`, `limit` to a page: the
   * window of the ordered matches from position `(page - 1) * limit`,
   * `|limit|` of them or as many as remain (`Sorting.Window`), with their
   * count, the number of matches and `Math.ceil(total / limit)` pages.
   */
  ghost predicate IsPage<T>(l: Listing<T>, matching: seq<T>, le: (T, T) -> bool, page: int, limit: int)
    requires limit != 0
  {
    && HoldsPage(l.items, matching, le, page, limit)
    && l.count == |l.items| && l.total == |matching| && l.page == page
    && l.pages == Ceil(|matching| as real / limit as real)
  }

  /** `items` is the window of the ordered matches that page `page` shows. */
  ghost predicate HoldsPage<T>(items: seq<T>, matching: seq<T>, le: (T, T) -> bool, page: int, limit: int)
  {
    var skip := (page - 1) * limit;
    skip >= 0 && items == Sorting.Window(Sorting.SortBy(matching, le), skip, Abs(limit))
  }

  /**
   * `find(filter).sort(key desc).skip((page - 1) * limit).limit(limit)` with
   * the total and `Math.ceil(total / limit)`. A negative skip makes the
   * driver reject the query; a negative limit returns that many documents.
   */
  function Paginate<T>(matching: seq<T>, newerFirst: (T, T) -> bool, page: int, limit: int): (r: Result<Listing<T>>)
    requires limit != 0
    ensures r.Ok? <==> (page - 1) * limit >= 0
    ensures r.Ok? ==> IsPage(r.value, matching, newerFirst, page, limit)
    ensures r.Ok? ==> (|r.value.items| <= Abs(limit) && multiset(r.value.items) <= multiset(matching))
  {
    var skip := (page - 1) * limit;
    if skip < 0 then Err(QueryRejected)
    else
      var sorted := Sorting.SortBy(matching, newerFirst);
      var items := Sorting.Window(sorted, skip, Abs(limit));
      MultisetOfWindow(sorted, skip, Abs(limit));
      Ok(Listing(items, |items|, |matching|, page, Ceil(|matching| as real / limit as real)))
  }

  /**
   * Pages follow on: page `page + 1` starts where page `page` ends, so
   * together they are the next `2 * limit` matches in order, no match
   * appears on both, and after a short page the next one is empty.
   */
  lemma PagesFollowOn<T>(matching: seq<T>, le: (T, T) -> bool, page: int, limit: int, p: seq<T>, q: seq<T>)
    requires page >= 1 && limit > 0
    requires HoldsPage(p, matching, le, page, limit) && HoldsPage(q, matching, le, page + 1, limit)
    ensures p + q == Sorting.Window(Sorting.SortBy(matching, le), (page - 1) * limit, 2 * limit)
    ensures |p| < limit ==> q == []
  {
    NextSkip(page, limit);
    WindowsFollowOn(Sorting.SortBy(matching, le), (page - 1) * limit, limit);
  }

  lemma NextSkip(page: int, limit: int)
    requires page >= 1 && limit > 0
    ensures (page - 1) * limit >= 0
    ensures (page + 1 - 1) * limit == (page - 1) * limit + limit
  {
  }

  lemma WindowsFollowOn<T>(s: seq<T>, skip: nat, limit: nat)
    ensures Sorting.Window(s, skip, limit) + Sorting.Window(s, skip + limit, limit) == Sorting.Window(s, skip, 2 * limit)
    ensures |Sorting.Window(s, skip, limit)| < limit ==> Sorting.Window(s, skip + limit, limit) == []
  {
    if skip + limit <= |s| {
      if skip + 2 * limit <= |s| {
        assert s[skip..skip + limit] + s[skip + limit..skip + 2 * limit] == s[skip..skip + 2 * limit];
      } else {
        assert s[skip..skip + limit] + s[skip + limit..] == s[skip..];
      }
    }
  }

  /** A page of a list sorted by a total preorder is itself in that order. */
  lemma PaginateSorted<T(!new)>(matching: seq<T>, newerFirst: (T, T) -> bool, page: int, limit: int)
    requires limit != 0 && Sorting.TotalPreorder(newerFirst)
    ensures var r := Paginate(matching, newerFirst, page, limit);
      r.Ok? ==> Sorting.SortedBy(r.value.items, newerFirst)
  {
    var skip := (page - 1) * limit;
    if skip >= 0 {
      var sorted := Sorting.SortBy(matching, newerFirst);
      Sorting.SortBySorted(matching, newerFirst);
      var w := Sorting.Window(sorted, skip, Abs(limit));
      if skip <= |sorted| {
        forall i, j | 0 <= i < j < |w|
          ensures newerFirst(w[i], w[j])
        {
          assert w[i] == sorted[skip + i] && w[j] == sorted[skip + j];
        }
      }
    }
  }

  /**
   * A page from 1 with a positive limit always succeeds: at most `limit`
   * items, in order, with the full count and exactly as many pages as it
   * takes to hold every match.
   */
  lemma PageOfList<T(!new)>(matching: seq<T>, newerFirst: (T, T) -> bool, page: int, limit: int)
    requires page >= 1 && limit > 0 && Sorting.TotalPreorder(newerFirst)
    ensures var r := Paginate(matching, newerFirst, page, limit);
      && r.Ok? && |r.value.items| <= limit && r.value.total == |matching|
      && r.value.pages * limit >= r.value.total && (r.value.total > 0 ==> (r.value.pages - 1) * limit < r.value.total)
      && Sorting.SortedBy(r.value.items, newerFirst)
  {
    assert (page - 1) * limit >= 0 by {
      assert page - 1 >= 0;
    }
    PaginateSorted(matching, newerFirst, page, limit);
    var r := Paginate(matching, newerFirst, page, limit);
    assert r.value.pages == Ceil(|matching| as real / limit as real) && r.value.total == |matching|;
    PagesCoverTotal(|matching|, limit);
  }

  /** Every document on a page is one of the matches. */
  lemma PageDrawnFrom<T>(matching: seq<T>, le: (T, T) -> bool, page: int, limit: int)
    requires limit != 0
    ensures var r := Paginate(matching, le, page, limit);
      r.Ok? ==> forall i :: 0 <= i < |r.value.items| ==> r.value.items[i] in matching
  {
    var r := Paginate(matching, le, page, limit);
    if r.Ok? {
      forall i | 0 <= i < |r.value.items|
        ensures r.value.items[i] in matching
      {
        assert r.value.items[i] in multiset(r.value.items);
      }
    }
  }

  lemma MultisetOfWindow<T>(s: seq<T>, skip: nat, limit: nat)
    ensures multiset(Sorting.Window(s, skip, limit)) <= multiset(s)
  {
    var w := Sorting.Window(s, skip, limit);
    if skip <= |s| {
      assert s == s[..skip] + w + s[skip + |w|..];
    }
  }

  /**
   * With a positive limit, `Math.ceil(total / limit)` is the fewest pages
   * that hold every matching document: they cover it, and one page fewer
   * would not.
   */
  lemma PagesCoverTotal(total: nat, limit: int)
    requires limit > 0
    ensures Ceil(total as real / limit as real) * limit >= total
    ensures Ceil(total as real / limit as real) >= 0
    ensures total > 0 ==> (Ceil(total as real / limit as real) - 1) * limit < total
    ensures total == 0 ==> Ceil(total as real / limit as real) == 0
  {
    var q := total as real / limit as real;
    var l := limit as real;
    assert q * l == total as real;
    var c := Ceil(q);
    MulMonotonic(q, c as real, l);
    CastProduct(c, limit);
    assert (c - 1) as real < q;
    MulMonotonic((c - 1) as real, q, l);
    CastProduct(c - 1, limit);
    assert ((c - 1) * limit) as real < total as real;
  }

  lemma CastProduct(a: int, b: int)
    ensures (a * b) as real == a as real * b as real
  {
  }

  lemma MulMonotonic(a: real, b: real, l: real)
    requires a <= b && l > 0.0
    ensures a * l <= b * l
    ensures a < b ==> a * l < b * l
  {
  }

  /** The order matches `{ user, status? }`. */
  predicate OfUser(o: Order, user: UserId, status: Option<OrderStatus>)
  {
    o.user == user && (status.Some? ==> o.status == status.value)
  }

  /** `Order.find({ user, status? })`: the user's orders, filtered by status when one is given. */
  function UserOrders(docs: seq<Order>, user: UserId, status: Option<OrderStatus>): (r: seq<Order>)
    ensures forall i :: 0 <= i < |r| ==> r[i].user == user && (status.Some? ==> r[i].status == status.value)
    ensures forall o :: OfUser(o, user, status) ==> multiset(r)[o] == multiset(docs)[o]
    ensures multiset(r) <= multiset(docs)
  {
    if docs == [] then []
    else
      var rest := UserOrders(docs[1..], user, status);
      assert docs == [docs[0]] + docs[1..];
      if OfUser(docs[0], user, status) then [docs[0]] + rest else rest
  }

  /** `sort({ createdAt: -1 })`: newer orders first. */
  predicate CreatedNoEarlier(a: Order, b: Order)
  {
    a.createdAt >= b.createdAt
  }

  /** `GET /api/orders`: the caller's orders, newest first, one page at a time. */
  function ListOrders(docs: seq<Order>, user: UserId, status: Option<OrderStatus>, pageQ: Option<int>, limitQ: Option<int>): (r: Result<Listing<Order>>)
    ensures r.Ok? <==> (PageParam(pageQ, 1) - 1) * PageParam(limitQ, 10) >= 0
    ensures r.Ok? ==> IsPage(r.value, UserOrders(docs, user, status), CreatedNoEarlier, PageParam(pageQ, 1), PageParam(limitQ, 10))
    ensures r.Ok? ==> forall i :: 0 <= i < |r.value.items| ==>
      r.value.items[i].user == user && (status.Some? ==> r.value.items[i].status == status.value)
    ensures r.Ok? ==> |r.value.items| <= Abs(PageParam(limitQ, 10))
  {
    var matching := UserOrders(docs, user, status);
    PageDrawnFrom(matching, CreatedNoEarlier, PageParam(pageQ, 1), PageParam(limitQ, 10));
    Paginate(matching, CreatedNoEarlier, PageParam(pageQ, 1), PageParam(limitQ, 10))
  }

  /** Orders are listed newest first. */
  lemma ListOrdersNewestFirst(docs: seq<Order>, user: UserId, status: Option<OrderStatus>, pageQ: Option<int>, limitQ: Option<int>)
    ensures var r := ListOrders(docs, user, status, pageQ, limitQ);
      r.Ok? ==> forall i, j :: 0 <= i < j < |r.value.items| ==> r.value.items[i].createdAt >= r.value.items[j].createdAt
  {
    PaginateSorted(UserOrders(docs, user, status), CreatedNoEarlier, PageParam(pageQ, 1), PageParam(limitQ, 10));
  }

  /** The gate of `GET /api/orders/:id` and `/track`: the owner or an admin. */
  function ViewOrder(s: State, id: OrderId, requester: UserId, role: string): (r: Result<Order>)
    ensures r.Ok? <==> id in s.orders && (s.orders[id].user == requester || role == "admin")
    ensures r.Ok? ==> r.value == s.orders[id]
    ensures r.Err? ==> r.error == (if id !in s.orders then NotFound else NotPermitted)
  {
    if id !in s.orders then Err(NotFound)
    else if s.orders[id].user != requester && role != "admin" then Err(NotPermitted)
    else Ok(s.orders[id])
  }

  /** The tracking payload of `GET /api/orders/:id/track`: order fields and the carrier's `tracking` fields. */
  datatype Tracking = Tracking(orderNumber: string, status: OrderStatus, trackingNumber: Option<string>,
                               carrier: Option<string>, estimatedDelivery: int, actualDelivery: Option<int>,
                               statusHistory: seq<HistoryEntry>, trackingHistory: seq<TrackingEvent>)

  /**
   * Tracking is shown to the owner or an admin only; it reports the order's
   * status and history and the carrier's number, name and scans.
   */
  function TrackOrder(s: State, id: OrderId, requester: UserId, role: string): (r: Result<Tracking>)
    ensures r.Ok? <==> ViewOrder(s, id, requester, role).Ok?
    ensures r.Err? ==> r.error == ViewOrder(s, id, requester, role).error
    ensures r.Ok? ==>
      var o := s.orders[id];
      && r.value.orderNumber == o.orderNumber
      && r.value.status == o.status && r.value.statusHistory == o.statusHistory
      && r.value.trackingNumber == o.tracking.trackingNumber && r.value.carrier == o.tracking.carrier
      && r.value.trackingHistory == o.tracking.trackingHistory
      && r.value.estimatedDelivery == o.estimatedDelivery && r.value.actualDelivery == o.actualDelivery
  {
    var v := ViewOrder(s, id, requester, role);
    if v.Err? then Err(v.error)
    else
      var o := v.value;
      Ok(Tracking(o.orderNumber, o.status, o.tracking.trackingNumber, o.tracking.carrier, o.estimatedDelivery,
                  o.actualDelivery, o.statusHistory, o.tracking.trackingHistory))
  }

  /** No modelled handler sets `tracking`, so a just-created order tracks with no carrier and no scans. */
  lemma CreatedOrderUntracked(s: State, user: UserId, req: CreateRequest, isMobilePhone: string -> bool, id: OrderId,
                              now: nat, requester: UserId, role: string)
    requires CreateOrderSpec(s, user, req, isMobilePhone, id, now).1.Ok?
    requires requester == user || role == "admin"
    ensures var s' := CreateOrderSpec(s, user, req, isMobilePhone, id, now).0;
      var t := TrackOrder(s', id, requester, role);
      && t.Ok? && t.value.trackingNumber.None? && t.value.carrier.None? && t.value.trackingHistory == []
      && t.value.statusHistory == [HistoryEntry(Pending, now, "Order placed successfully", None)]
  {
    var (s', res) := CreateOrderSpec(s, user, req, isMobilePhone, id, now);
    CreatedOrderShape(s, user, req, isMobilePhone, id, now);
    assert s'.orders[id] == res.value;
  }

  // ---------------------------------------------------------------------------
  // Cancel, return, exchange

  /** `PUT /api/orders/:id/cancel`. */
  function CancelOrderSpec(s: State, id: OrderId, requester: UserId, reason: string, now: int): (State, Result<Order>)
  {
    if reason == "" then (s, Err(ValidationFailed))
    else if id !in s.orders then (s, Err(NotFound))
    else
      var o := s.orders[id];
      if o.user != requester then (s, Err(NotPermitted))
      else if !CanBeCancelled(o) then (s, Err(NotCancellable))
      else
        var c := WithStatus(o.(cancellation := Some(Cancellation(reason, requester, now, RefundPending))),
                            Cancelled, "Order cancelled: " + reason, Some(requester), now);
        (State(s.orders[id := c], Restock(s.products, o.items)), Ok(c))
  }

  /**
   * Cancel answers 404, 403 and 400 in that order and then changes nothing;
   * on success the order is cancelled with one more history entry and each
   * item's quantity is back in its product's stock.
   */
  lemma CancelOutcome(s: State, id: OrderId, requester: UserId, reason: string, now: int)
    ensures var (s', res) := CancelOrderSpec(s, id, requester, reason, now);
      && (res.Err? ==> s' == s)
      && (reason != "" && id !in s.orders ==> res == Err(NotFound))
      && (reason != "" && id in s.orders && s.orders[id].user != requester ==> res == Err(NotPermitted))
      && (res.Ok? <==> reason != "" && id in s.orders && s.orders[id].user == requester && CanBeCancelled(s.orders[id]))
      && (res.Ok? ==>
            && s'.orders == s.orders[id := res.value]
            && res.value.status == Cancelled && StatusMatchesHistory(res.value)
            && |res.value.statusHistory| == |s.orders[id].statusHistory| + 1
            && res.value.cancellation == Some(Cancellation(reason, requester, now, RefundPending))
            && res.value.items == s.orders[id].items
            && s'.products.Keys == s.products.Keys
            && forall pid :: pid in s.products ==>
                 s'.products[pid].stock == s.products[pid].stock + Reserved(s.orders[id].items, pid))
  {
    if id in s.orders {
      RestockAddsReserved(s.products, s.orders[id].items);
    }
  }

  lemma CancelKeepsValid(s: State, id: OrderId, requester: UserId, reason: string, now: int)
    requires Valid(s)
    ensures Valid(CancelOrderSpec(s, id, requester, reason, now).0)
  {
    if id in s.orders {
      RestockKeepsStockNonNegative(s.products, s.orders[id].items);
    }
  }

  /**
   * Creating an order and then cancelling it as the same user puts every
   * product's stock back where it was.
   */
  lemma CreateThenCancelRestoresStock(s: State, user: UserId, req: CreateRequest, isMobilePhone: string -> bool,
                                      id: OrderId, now: nat, reason: string, later: int)
    requires CreateOrderSpec(s, user, req, isMobilePhone, id, now).1.Ok?
    requires reason != ""
    ensures var s1 := CreateOrderSpec(s, user, req, isMobilePhone, id, now).0;
      var (s2, res) := CancelOrderSpec(s1, id, user, reason, later);
      && res.Ok?
      && s2.products.Keys == s.products.Keys
      && forall pid :: pid in s.products ==> s2.products[pid].stock == s.products[pid].stock
  {
    var out := CreateOrderSpec(s, user, req, isMobilePhone, id, now);
    var s1, o := out.0, out.1.value;
    CreatedOrderShape(s, user, req, isMobilePhone, id, now);
    assert s1.orders[id] == o && o.user == user && CanBeCancelled(o);
    var s2 := CancelOrderSpec(s1, id, user, reason, later).0;
    assert s2.products == Restock(s1.products, o.items);
    RestockUndoesReservation(s.products, s1.products, o.items);
  }

  /** Restocking the items a reservation took brings every product's stock back. */
  lemma RestockUndoesReservation(products: map<ProductId, Product>, after: map<ProductId, Product>, items: seq<Item>)
    requires after.Keys == products.Keys && StockAccounted(products, after, items)
    ensures Restock(after, items).Keys == products.Keys
    ensures forall pid :: pid in products ==> Restock(after, items)[pid].stock == products[pid].stock
  {
    RestockAddsReserved(after, items);
    forall pid | pid in products
      ensures Restock(after, items)[pid].stock == products[pid].stock
    {
      assert products[pid].stock == after[pid].stock + Reserved(items, pid);
    }
  }

  /** `PUT /api/orders/:id/return`. */
  function ReturnOrderSpec(s: State, id: OrderId, requester: UserId, reason: string, now: int): (State, Result<Order>)
  {
    if reason == "" then (s, Err(ValidationFailed))
    else if id !in s.orders then (s, Err(NotFound))
    else
      var o := s.orders[id];
      if o.user != requester then (s, Err(NotPermitted))
      else if !CanBeReturned(o, now) then (s, Err(ReturnWindowClosed))
      else
        var r := WithStatus(o.(returnRequest := Some(ReturnRequest(reason, now, Requested))),
                            Returned, "Return requested: " + reason, Some(requester), now);
        (State(s.orders[id := r], s.products), Ok(r))
  }

  /**
   * A return succeeds exactly for the owner of a delivered order within 30
   * days of delivery; it records a 'requested' return and the 'returned'
   * status, and touches no stock.
   */
  lemma ReturnOutcome(s: State, id: OrderId, requester: UserId, reason: string, now: int)
    ensures var (s', res) := ReturnOrderSpec(s, id, requester, reason, now);
      && s'.products == s.products
      && (res.Err? ==> s' == s)
      && (res.Ok? <==> reason != "" && id in s.orders && s.orders[id].user == requester
                        && s.orders[id].status == Delivered
                        && now - DeliveryDate(s.orders[id]) <= 30 * MsPerDay)
      && (res.Ok? ==>
            && s'.orders == s.orders[id := res.value]
            && res.value.status == Returned && StatusMatchesHistory(res.value)
            && res.value.returnRequest == Some(ReturnRequest(reason, now, Requested)))
  {
    if id in s.orders {
      ReturnWindow(s.orders[id], now);
    }
  }

  /** `PUT /api/orders/:id/exchange`. */
  function ExchangeOrderSpec(s: State, id: OrderId, requester: UserId, reason: string, newProduct: ProductId, now: int): (State, Result<Order>)
  {
    if reason == "" then (s, Err(ValidationFailed))
    else if id !in s.orders then (s, Err(NotFound))
    else
      var o := s.orders[id];
      if o.user != requester then (s, Err(NotPermitted))
      else if !CanBeExchanged(o, now) then (s, Err(ExchangeWindowClosed))
      else if newProduct !in s.products || !s.products[newProduct].isActive then (s, Err(NewProductUnavailable))
      else
        var e := ExchangedOrder(o, requester, reason, newProduct, s.products[newProduct].price - o.pricing.subtotal, now);
        (State(s.orders[id := e], s.products), Ok(e))
  }

  /** The order with the exchange request recorded and the status moved to exchanged. */
  function ExchangedOrder(o: Order, requester: UserId, reason: string, newProduct: ProductId, diff: real, now: int): Order
  {
    WithStatus(o.(exchange := Some(ExchangeRequest(reason, now, Requested, newProduct, diff))),
               Exchanged, "Exchange requested: " + reason, Some(requester), now)
  }

  /**
   * An exchange succeeds exactly for the owner of an order delivered at most
   * 15 days ago, naming an active product; the price difference is the new
   * product's price minus the order's subtotal.
   */
  lemma ExchangeOutcome(s: State, id: OrderId, requester: UserId, reason: string, newProduct: ProductId, now: int)
    ensures var (s', res) := ExchangeOrderSpec(s, id, requester, reason, newProduct, now);
      && s'.products == s.products
      && (res.Err? ==> s' == s)
      && (res.Ok? <==> reason != "" && id in s.orders && s.orders[id].user == requester
                        && s.orders[id].status == Delivered
                        && now - DeliveryDate(s.orders[id]) <= 15 * MsPerDay
                        && newProduct in s.products && s.products[newProduct].isActive)
      && (res.Ok? ==>
            && s'.orders == s.orders[id := res.value]
            && res.value.status == Exchanged && StatusMatchesHistory(res.value)
            && res.value.exchange.Some?
            && res.value.exchange.value.priceDifference == s.products[newProduct].price - s.orders[id].pricing.subtotal)
  {
    if id in s.orders {
      ExchangeWindow(s.orders[id], now);
    }
  }

  /** An order that can be exchanged can also be returned, so a 15-day request is always inside the 30-day one. */
  lemma ExchangeAllowedImpliesReturnAllowed(s: State, id: OrderId, requester: UserId, reason: string, newProduct: ProductId, now: int)
    requires ExchangeOrderSpec(s, id, requester, reason, newProduct, now).1.Ok?
    ensures ReturnOrderSpec(s, id, requester, reason, now).1.Ok?
  {
    ExchangeableImpliesReturnable(s.orders[id], now);
  }

  // ---------------------------------------------------------------------------
  // Reorder

  /** An item can be ordered again when its product exists, is active and has the stock. */
  predicate Orderable(products: map<ProductId, Product>, item: Item)
  {
    item.product in products && products[item.product].isActive && products[item.product].stock >= item.quantity
  }

  /** The entry a reorder reports for an item it leaves out. */
  function UnavailableEntry(products: map<ProductId, Product>, item: Item): UnavailableItem
    requires !Orderable(products, item)
  {
    if item.product !in products then UnavailableItem("Unknown Product", NoLongerAvailable)
    else
      var p := products[item.product];
      if !p.isActive then UnavailableItem(if p.name != "" then p.name else "Unknown Product", NoLongerAvailable)
      else UnavailableItem(p.name, StockShort(p.stock, item.quantity))
  }

  /** The reorder loop: available items at the current price, the rest reported. */
  function Partition(products: map<ProductId, Product>, items: seq<Item>): (seq<Item>, seq<UnavailableItem>)
  {
    if items == [] then ([], [])
    else
      var (a, u) := Partition(products, items[..|items| - 1]);
      var item := items[|items| - 1];
      if Orderable(products, item) then (a + [Item(item.product, item.quantity, products[item.product].price, Pending)], u)
      else (a, u + [UnavailableEntry(products, item)])
  }

  /** How many of the items are orderable. */
  function CountOrderable(products: map<ProductId, Product>, items: seq<Item>): nat
  {
    if items == [] then 0
    else CountOrderable(products, items[..|items| - 1]) + (if Orderable(products, items[|items| - 1]) then 1 else 0)
  }

  /**
   * Every item lands in exactly one list: the available list holds one entry
   * per orderable item, at the product's current price and the original
   * quantity, and the other list one per remaining item.
   */
  lemma {:induction false} PartitionFacts(products: map<ProductId, Product>, items: seq<Item>)
    ensures var (a, u) := Partition(products, items);
      && |a| + |u| == |items|
      && |a| == CountOrderable(products, items)
      && (forall k :: 0 <= k < |a| ==> Orderable(products, a[k]) && a[k].price == products[a[k].product].price)
      && (QuantitiesPositive(items) ==> QuantitiesPositive(a))
  {
    if items != [] {
      PartitionFacts(products, items[..|items| - 1]);
      var (a0, u0) := Partition(products, items[..|items| - 1]);
      var item := items[|items| - 1];
      if QuantitiesPositive(items) {
        assert QuantitiesPositive(items[..|items| - 1]);
        assert item.quantity >= 1;
      }
    }
  }

  /** The new order a reorder creates and the items it could not include. */
  datatype ReorderOutcome = ReorderOutcome(order: Order, unavailable: seq<UnavailableItem>)

  /** `POST /api/orders/:id/reorder`. */
  function ReorderSpec(s: State, id: OrderId, requester: UserId, newId: OrderId, now: nat): (State, Result<ReorderOutcome>)
  {
    if id !in s.orders then (s, Err(NotFound))
    else
      var o := s.orders[id];
      if o.user != requester then (s, Err(NotPermitted))
      else
        var (a, u) := Partition(s.products, o.items);
        if a == [] then (s, Err(NothingToReorder(u)))
        else
          var n := PlacedOrder(requester, a, o.shippingAddress, o.billingAddress, Unselected, None,
                               PriceOrder(LineTotal(a), 0.0), "Reorder from " + o.orderNumber, |s.orders|, now);
          (State(s.orders[newId := n], s.products), Ok(ReorderOutcome(n, u)))
  }

  /**
   * A reorder never changes stock; it fails with the unavailable list when no
   * item is orderable; otherwise its order holds the orderable items at their
   * current prices, priced without discount, with the 'pending' placeholder
   * method that the schema's method enum does not admit.
   */
  lemma ReorderOutcomeFacts(s: State, id: OrderId, requester: UserId, newId: OrderId, now: nat)
    ensures var (s', res) := ReorderSpec(s, id, requester, newId, now);
      && s'.products == s.products
      && (res.Err? ==> s' == s)
      && (id in s.orders && s.orders[id].user == requester ==>
            (res.Err? <==> CountOrderable(s.products, s.orders[id].items) == 0))
      && (res.Ok? ==>
            var n := res.value.order;
            && s'.orders == s.orders[newId := n]
            && |n.items| + |res.value.unavailable| == |s.orders[id].items|
            && (forall k :: 0 <= k < |n.items| ==> Orderable(s.products, n.items[k]) && n.items[k].price == s.products[n.items[k].product].price)
            && n.pricing == PriceOrder(LineTotal(n.items), 0.0)
            && n.status == Pending && |n.statusHistory| == 1
            && n.payment.paymentMethod == Unselected && !InMethodEnum(n.payment.paymentMethod))
  {
    if id in s.orders {
      PartitionFacts(s.products, s.orders[id].items);
    }
  }

  /**
   * Under a fresh id, a reorder keeps the order it copies and every other
   * stored order, and a successful one adds exactly one document.
   */
  lemma ReorderKeepsOriginal(s: State, id: OrderId, requester: UserId, newId: OrderId, now: nat)
    requires newId !in s.orders
    ensures var (s', res) := ReorderSpec(s, id, requester, newId, now);
      && (forall k :: k in s.orders ==> k in s'.orders && s'.orders[k] == s.orders[k])
      && |s'.orders| == |s.orders| + (if res.Ok? then 1 else 0)
      && (res.Ok? ==> newId != id && s'.orders.Keys == s.orders.Keys + {newId})
  {
    ReorderOutcomeFacts(s, id, requester, newId, now);
    var (s', res) := ReorderSpec(s, id, requester, newId, now);
    if res.Ok? {
      FreshInsert(s.orders, newId, res.value.order);
    }
  }

  lemma ReorderKeepsValid(s: State, id: OrderId, requester: UserId, newId: OrderId, now: nat)
    requires Valid(s)
    ensures Valid(ReorderSpec(s, id, requester, newId, now).0)
  {
    if id in s.orders {
      PartitionFacts(s.products, s.orders[id].items);
    }
  }

  /**
   * `POST /api/orders/:id/reorder` as written: like creation, `Order.create`
   * is refused because the required order number is assigned only after
   * validation (and the 'pending' payment method is outside the enum).
   */
  function ReorderAsWrittenSpec(s: State, id: OrderId, requester: UserId, newId: OrderId, now: nat): (State, Result<ReorderOutcome>)
  {
    if id !in s.orders then (s, Err(NotFound))
    else
      var o := s.orders[id];
      if o.user != requester then (s, Err(NotPermitted))
      else
        var (a, u) := Partition(s.products, o.items);
        if a == [] then (s, Err(NothingToReorder(u))) else (s, Err(ServerError))
  }

  /** As written, a reorder never changes the store and never succeeds; it fails with a server error exactly where the intended one succeeds. */
  lemma ReorderAsWrittenNeverCreates(s: State, id: OrderId, requester: UserId, newId: OrderId, now: nat)
    ensures var (w, wr) := ReorderAsWrittenSpec(s, id, requester, newId, now);
      var (c, cr) := ReorderSpec(s, id, requester, newId, now);
      && w == s && wr.Err?
      && (cr.Err? ==> wr == cr)
      && (cr.Ok? <==> wr == Err(ServerError))
  {
  }

  // ---------------------------------------------------------------------------
  // The handlers on the database

  /**
   * One successful pass of the line loop: load the product, subtract the
   * quantity and save it; the item snapshots the product's price.
   */
  method ReserveOne(db: Db, line: Line, now: int) returns (item: Item)
    requires line.product in db.products && db.products[line.product].isActive
    requires db.products[line.product].stock >= line.quantity
    modifies db
    ensures db.orders == old(db.orders)
    ensures var p := old(db.products)[line.product];
      && item == Item(line.product, line.quantity, p.price, Pending)
      && db.products == old(db.products)[line.product := Saved(p.(stock := AdjustedStock(p.stock, line.quantity, "subtract"), lastStockUpdate := Some(now)))]
  {
    var p := db.products[line.product];
    var product := new ProductDocument.Load(p);
    item := Item(line.product, line.quantity, product.price, Pending);
    product.UpdateStock(line.quantity, "subtract", now);
    product.PreSave();
    db.products := db.products[line.product := product.Value()];
  }

  /**
   * The line loop of `POST /api/orders`: check each product, snapshot its
   * price, accumulate the subtotal and subtract the stock, stopping at the
   * first failing line.
   */
  method ReserveStock(db: Db, lines: seq<Line>, now: int) returns (items: seq<Item>, subtotal: real, failure: Option<ApiError>)
    modifies db
    ensures db.orders == old(db.orders)
    ensures ReserveLines(old(db.products), lines, now) == Reservation(db.products, items, failure)
    ensures subtotal == LineTotal(items)
  {
    subtotal := 0.0;
    items := [];
    var i := 0;
    while i < |lines|
      invariant 0 <= i <= |lines|
      invariant db.orders == old(db.orders)
      invariant ReserveLines(old(db.products), lines[..i], now) == Reservation(db.products, items, None)
      invariant subtotal == LineTotal(items)
    {
      var line := lines[i];
      ghost var next := ReserveLine(Reservation(db.products, items, None), line, now);
      ReserveLinesStep(old(db.products), lines, i, now);
      if line.product !in db.products || !db.products[line.product].isActive {
        assert next == Reservation(db.products, items, Some(ProductUnavailable(line.product)));
        ReserveFailureSticks(old(db.products), lines, i + 1, now);
        return items, subtotal, Some(ProductUnavailable(line.product));
      }
      if db.products[line.product].stock < line.quantity {
        assert next == Reservation(db.products, items, Some(InsufficientStock(line.product)));
        ReserveFailureSticks(old(db.products), lines, i + 1, now);
        return items, subtotal, Some(InsufficientStock(line.product));
      }
      var item := ReserveOne(db, line, now);
      LineTotalSnoc(items, item);
      subtotal := subtotal + item.price * (item.quantity as real);
      items := items + [item];
      assert Reservation(db.products, items, None) == next;
      i := i + 1;
    }
    assert lines[..i] == lines;
    failure := None;
  }

  /** The pricing block of the create handler: shipping, tax, the coupon's discount and the total. */
  method ComputePricing(subtotal: real, coupon: Option<Coupon>) returns (pricing: Pricing)
    ensures pricing == PriceOrder(subtotal, CouponDiscount(coupon))
  {
    var shipping := if subtotal >= 500.0 then 0.0 else 99.0;
    var tax := subtotal * 0.18;
    var discount := 0.0;
    if coupon.Some? {
      discount := if coupon.value.discount.Some? then coupon.value.discount.value else 0.0;
    }
    var total := subtotal + shipping + tax - discount;
    pricing := Pricing(subtotal, shipping, tax, discount, total);
  }

  /** `POST /api/orders`. */
  method CreateOrder(db: Db, user: UserId, req: CreateRequest, isMobilePhone: string -> bool, id: OrderId, now: nat)
    returns (res: Result<Order>)
    modifies db
    ensures (db.Snapshot(), res) == CreateOrderSpec(old(db.Snapshot()), user, req, isMobilePhone, id, now)
  {
    if !CreateRequestValid(req, isMobilePhone) {
      return Err(ValidationFailed);
    }
    ghost var before := db.Snapshot();
    var items, subtotal, failure := ReserveStock(db, req.lines, now);
    if failure.Some? {
      return Err(failure.value);
    }
    var pricing := ComputePricing(subtotal, req.coupon);
    var billing := if req.billingAddress.Some? then req.billingAddress.value else req.shippingAddress;
    var payment := Payment(req.paymentMethod, Unpaid, None, None, None, None, None, None, None);
    var order := new OrderDocument.Load(Order("", user, items, req.shippingAddress, billing,
      pricing, payment, Pending, [], req.coupon, None, None, None, None, NoTracking, now, now + 7 * MsPerDay, None));
    order.AssignOrderNumber(true, |db.orders|, now);
    order.AddStatusHistory(Pending, "Order placed successfully", None, now);
    var placed := order.Value();
    assert placed == PlacedOrder(user, items, req.shippingAddress, billing, req.paymentMethod, req.coupon,
                                 pricing, "Order placed successfully", |before.orders|, now);
    db.orders := db.orders[id := placed];
    res := Ok(placed);
  }

  /** Adds each item's quantity back to its product, skipping products that no longer exist. */
  method RestoreStock(db: Db, items: seq<Item>)
    modifies db
    ensures db.orders == old(db.orders)
    ensures db.products == Restock(old(db.products), items)
  {
    var i := 0;
    while i < |items|
      invariant 0 <= i <= |items|
      invariant db.orders == old(db.orders)
      invariant db.products == Restock(old(db.products), items[..i])
    {
      RestockPrefix(old(db.products), items, i);
      var item := items[i];
      if item.product in db.products {
        db.products := db.products[item.product := db.products[item.product].(stock := db.products[item.product].stock + item.quantity)];
      }
      i := i + 1;
    }
    assert items[..i] == items;
  }

  /** `PUT /api/orders/:id/cancel`. */
  method CancelOrder(db: Db, id: OrderId, requester: UserId, reason: string, now: int) returns (res: Result<Order>)
    modifies db
    ensures (db.Snapshot(), res) == CancelOrderSpec(old(db.Snapshot()), id, requester, reason, now)
  {
    if reason == "" {
      return Err(ValidationFailed);
    }
    if id !in db.orders {
      return Err(NotFound);
    }
    var order := new OrderDocument.Load(db.orders[id]);
    if order.user != requester {
      return Err(NotPermitted);
    }
    if !CanBeCancelled(order.Value()) {
      return Err(NotCancellable);
    }
    order.cancellation := Some(Cancellation(reason, requester, now, RefundPending));
    order.AddStatusHistory(Cancelled, "Order cancelled: " + reason, Some(requester), now);
    var saved := order.Value();
    db.orders := db.orders[id := saved];
    RestoreStock(db, saved.items);
    res := Ok(saved);
  }

  /** `PUT /api/orders/:id/return`. */
  method ReturnOrder(db: Db, id: OrderId, requester: UserId, reason: string, now: int) returns (res: Result<Order>)
    modifies db
    ensures (db.Snapshot(), res) == ReturnOrderSpec(old(db.Snapshot()), id, requester, reason, now)
  {
    if reason == "" {
      return Err(ValidationFailed);
    }
    if id !in db.orders {
      return Err(NotFound);
    }
    var order := new OrderDocument.Load(db.orders[id]);
    if order.user != requester {
      return Err(NotPermitted);
    }
    if !CanBeReturned(order.Value(), now) {
      return Err(ReturnWindowClosed);
    }
    order.returnRequest := Some(ReturnRequest(reason, now, Requested));
    order.AddStatusHistory(Returned, "Return requested: " + reason, Some(requester), now);
    db.orders := db.orders[id := order.Value()];
    res := Ok(order.Value());
  }

  /** `PUT /api/orders/:id/exchange`. */
  method ExchangeOrder(db: Db, id: OrderId, requester: UserId, reason: string, newProduct: ProductId, now: int)
    returns (res: Result<Order>)
    modifies db
    ensures (db.Snapshot(), res) == ExchangeOrderSpec(old(db.Snapshot()), id, requester, reason, newProduct, now)
  {
    if reason == "" {
      return Err(ValidationFailed);
    }
    if id !in db.orders {
      return Err(NotFound);
    }
    if db.orders[id].user != requester {
      return Err(NotPermitted);
    }
    if !CanBeExchanged(db.orders[id], now) {
      return Err(ExchangeWindowClosed);
    }
    if newProduct !in db.products || !db.products[newProduct].isActive {
      return Err(NewProductUnavailable);
    }
    var priceDifference := db.products[newProduct].price - db.orders[id].pricing.subtotal;
    res := RequestExchange(db, id, requester, reason, newProduct, priceDifference, now);
  }

  /** Load the order, record the exchange request and its history entry, save. */
  method RequestExchange(db: Db, id: OrderId, requester: UserId, reason: string, newProduct: ProductId, diff: real, now: int)
    returns (res: Result<Order>)
    requires id in db.orders
    modifies db
    ensures var e := ExchangedOrder(old(db.orders)[id], requester, reason, newProduct, diff, now);
      db.Snapshot() == State(old(db.orders)[id := e], old(db.products)) && res == Ok(e)
  {
    var order := new OrderDocument.Load(db.orders[id]);
    order.exchange := Some(ExchangeRequest(reason, now, Requested, newProduct, diff));
    order.AddStatusHistory(Exchanged, "Exchange requested: " + reason, Some(requester), now);
    var exchanged := order.Value();
    db.orders := db.orders[id := exchanged];
    res := Ok(exchanged);
  }

  /** The availability loop of the reorder handler: split the old items into orderable ones, at today's price, and the rest. */
  method SplitAvailable(db: Db, items: seq<Item>) returns (available: seq<Item>, unavailable: seq<UnavailableItem>)
    ensures Partition(db.products, items) == (available, unavailable)
  {
    available := [];
    unavailable := [];
    var i := 0;
    while i < |items|
      invariant 0 <= i <= |items|
      invariant Partition(db.products, items[..i]) == (available, unavailable)
    {
      assert items[..i + 1][..i] == items[..i];
      var item := items[i];
      if item.product !in db.products || !db.products[item.product].isActive {
        var name := if item.product in db.products && db.products[item.product].name != "" then db.products[item.product].name else "Unknown Product";
        unavailable := unavailable + [UnavailableItem(name, NoLongerAvailable)];
      } else if db.products[item.product].stock < item.quantity {
        var product := db.products[item.product];
        unavailable := unavailable + [UnavailableItem(product.name, StockShort(product.stock, item.quantity))];
      } else {
        available := available + [Item(item.product, item.quantity, db.products[item.product].price, Pending)];
      }
      i := i + 1;
    }
    assert items[..i] == items;
  }

  /** `POST /api/orders/:id/reorder`. */
  method Reorder(db: Db, id: OrderId, requester: UserId, newId: OrderId, now: nat) returns (res: Result<ReorderOutcome>)
    modifies db
    ensures (db.Snapshot(), res) == ReorderSpec(old(db.Snapshot()), id, requester, newId, now)
  {
    if id !in db.orders {
      return Err(NotFound);
    }
    var original := db.orders[id];
    if original.user != requester {
      return Err(NotPermitted);
    }
    var available, unavailable := SplitAvailable(db, original.items);
    if |available| == 0 {
      return Err(NothingToReorder(unavailable));
    }
    var subtotal := LineTotal(available);
    var shipping := if subtotal >= 500.0 then 0.0 else 99.0;
    var tax := subtotal * 0.18;
    var payment := Payment(Unselected, Unpaid, None, None, None, None, None, None, None);
    var pricing := Pricing(subtotal, shipping, tax, 0.0, subtotal + shipping + tax);
    assert pricing == PriceOrder(LineTotal(available), 0.0);
    var order := new OrderDocument.Load(Order("", requester, available, original.shippingAddress, original.billingAddress,
      pricing, payment, Pending, [], None, None, None, None, None, NoTracking, now, now + 7 * MsPerDay, None));
    order.AssignOrderNumber(true, |db.orders|, now);
    order.AddStatusHistory(Pending, "Reorder from " + original.orderNumber, None, now);
    var placed := order.Value();
    assert placed == PlacedOrder(requester, available, original.shippingAddress, original.billingAddress, Unselected, None,
                                 pricing, "Reorder from " + original.orderNumber, |db.orders|, now);
    db.orders := db.orders[newId := placed];
    res := Ok(ReorderOutcome(placed, unavailable));
  }
}
