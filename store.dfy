/**
 * The database the route handlers read and write: the `orders` and
 * `products` collections as maps from document id to stored value, the
 * errors a handler answers with, and the stock bookkeeping shared by the
 * order and payment handlers (reserving stock for order lines and adding
 * it back with `$inc`).
 */
module Store {
  import opened Common
  import opened OrderModel
  import opened ProductModel

  /** Why a handler answered with an error status instead of a success. */
  datatype ApiError =
    | ValidationFailed
    | ProductUnavailable(product: ProductId)
    | InsufficientStock(product: ProductId)
    | NotCancellable
    | ReturnWindowClosed
    | ExchangeWindowClosed
    | NewProductUnavailable
    | NothingToReorder(unavailable: seq<UnavailableItem>)
    | SignatureMismatch
    | NotRefundable
    | DuplicateSku
    | QueryRejected
    | NotAuthenticated
    | NotPermitted
    | NotFound
    | TooManyRequests
    | ServerError

  /** The HTTP status each error is sent with. */
  function StatusCode(e: ApiError): (code: int)
    ensures code in {400, 401, 403, 404, 429, 500}
    ensures e.NotFound? <==> code == 404
    ensures e.NotPermitted? <==> code == 403
    ensures e.NotAuthenticated? <==> code == 401
  {
    match e
    case NotAuthenticated => 401
    case NotPermitted => 403
    case NotFound => 404
    case TooManyRequests => 429
    case QueryRejected => 500
    case ServerError => 500
    case _ => 400
  }

  datatype Result<T> = Ok(value: T) | Err(error: ApiError)

  /** Why a reorder left an item out: `product?.name || 'Unknown Product'` and the reason text. */
  datatype UnavailableReason = NoLongerAvailable | StockShort(available: int, required: int)
  datatype UnavailableItem = UnavailableItem(name: string, reason: UnavailableReason)

  /** The two collections at one instant. */
  datatype State = State(orders: map<OrderId, Order>, products: map<ProductId, Product>)

  /** The database: changed only by route handlers, one request at a time. */
  class Db {
    var orders: map<OrderId, Order>
    var products: map<ProductId, Product>

    function Snapshot(): State
      reads this
    {
      State(orders, products)
    }

    constructor (s: State)
      ensures Snapshot() == s
    {
      orders, products := s.orders, s.products;
    }
  }

  // ---------------------------------------------------------------------------
  // Invariants the handlers keep

  /** No product has negative stock. */
  ghost predicate StockNonNegative(products: map<ProductId, Product>)
  {
    forall id :: id in products ==> products[id].stock >= 0
  }

  /** Every item has `quantity >= 1` (the schema's `min: 1`). */
  ghost predicate QuantitiesPositive(items: seq<Item>)
  {
    forall i :: 0 <= i < |items| ==> items[i].quantity >= 1
  }

  /** Every stored order has positive quantities and a status equal to its last history entry. */
  ghost predicate OrdersWellFormed(orders: map<OrderId, Order>)
  {
    forall id :: id in orders ==> QuantitiesPositive(orders[id].items) && StatusMatchesHistory(orders[id])
  }

  ghost predicate Valid(s: State)
  {
    StockNonNegative(s.products) && OrdersWellFormed(s.orders)
  }

  // ---------------------------------------------------------------------------
  // Stock held by items

  /** The total quantity the items hold of product `id`. */
  function Reserved(items: seq<Item>, id: ProductId): int
  {
    if items == [] then 0
    else
      var last := items[|items| - 1];
      Reserved(items[..|items| - 1], id) + (if last.product == id then last.quantity else 0)
  }

  /** `Product.findByIdAndUpdate(item.product, { $inc: { stock: item.quantity } })`. */
  function RestockOne(products: map<ProductId, Product>, item: Item): map<ProductId, Product>
  {
    if item.product in products then
      products[item.product := products[item.product].(stock := products[item.product].stock + item.quantity)]
    else products
  }

  /** The stock restore loop over `order.items`, first item first. */
  function Restock(products: map<ProductId, Product>, items: seq<Item>): (r: map<ProductId, Product>)
    ensures r.Keys == products.Keys
  {
    if items == [] then products
    else RestockOne(Restock(products, items[..|items| - 1]), items[|items| - 1])
  }

  /**
   * Restoring adds back exactly what the items hold of each product that still
   * exists; no product is created or removed and nothing but stock changes.
   */
  lemma {:induction false} RestockAddsReserved(products: map<ProductId, Product>, items: seq<Item>)
    ensures Restock(products, items).Keys == products.Keys
    ensures forall id :: id in products ==>
      Restock(products, items)[id] == products[id].(stock := products[id].stock + Reserved(items, id))
  {
    if items != [] {
      var init, last := items[..|items| - 1], items[|items| - 1];
      RestockAddsReserved(products, init);
      var before := Restock(products, init);
      assert Restock(products, items) == RestockOne(before, last);
      forall id | id in products
        ensures Restock(products, items)[id] == products[id].(stock := products[id].stock + Reserved(items, id))
      {
        assert Reserved(items, id) == Reserved(init, id) + (if last.product == id then last.quantity else 0);
      }
    }
  }

  /** Items with positive quantities never hold a negative amount of a product. */
  lemma {:induction false} ReservedNonNegative(items: seq<Item>, id: ProductId)
    requires QuantitiesPositive(items)
    ensures Reserved(items, id) >= 0
  {
    if items != [] {
      ReservedNonNegative(items[..|items| - 1], id);
    }
  }

  /** Items with positive quantities, one of them for `id`, hold at least one unit of it. */
  lemma {:induction false} ReservedPositive(items: seq<Item>, id: ProductId, k: nat)
    requires QuantitiesPositive(items)
    requires k < |items| && items[k].product == id
    ensures Reserved(items, id) >= 1
  {
    var init := items[..|items| - 1];
    if k == |items| - 1 {
      ReservedNonNegative(init, id);
    } else {
      ReservedPositive(init, id, k);
    }
  }

  /** Restoring the stock of items with positive quantities keeps stock non-negative. */
  lemma RestockKeepsStockNonNegative(products: map<ProductId, Product>, items: seq<Item>)
    requires StockNonNegative(products) && QuantitiesPositive(items)
    ensures StockNonNegative(Restock(products, items))
  {
    RestockAddsReserved(products, items);
    forall id | id in products
      ensures Restock(products, items)[id].stock >= 0
    {
      ReservedNonNegative(items, id);
    }
  }

  /** A restore loop that stops after `i` items has restored exactly the first `i`. */
  lemma RestockPrefix(products: map<ProductId, Product>, items: seq<Item>, i: nat)
    requires i < |items|
    ensures Restock(products, items[..i + 1]) == RestockOne(Restock(products, items[..i]), items[i])
  {
    assert items[..i + 1][..i] == items[..i];
  }

  /** Sequence helpers for loops that walk items front to back. */
  lemma ReservedPrefix(items: seq<Item>, i: nat, id: ProductId)
    requires i < |items|
    ensures Reserved(items[..i + 1], id) == Reserved(items[..i], id) + (if items[i].product == id then items[i].quantity else 0)
  {
    assert items[..i + 1][..i] == items[..i];
  }
}
