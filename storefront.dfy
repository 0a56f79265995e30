/**
 * The client's view of the shop (src/types/index.ts): catalogue products,
 * cart lines, shipping addresses and the orders the browser keeps. Only the
 * fields the modelled client logic reads or writes are kept.
 */
module Storefront {
  import opened Common

  datatype Product = Product(
    id: string,
    name: string,
    description: string,
    price: real,
    category: string,
    rating: real,
    shopName: string,
    tags: seq<string>)

  datatype CartItem = CartItem(product: Product, quantity: int)

  datatype ShippingAddress = ShippingAddress(
    name: string,
    phone: string,
    address: string,
    city: string,
    state: string,
    pincode: string)

  datatype OrderStatus = Pending | Confirmed | Processing | Shipped | Delivered | Cancelled

  datatype PaymentStatus = PaymentPending | PaymentCompleted | PaymentFailed

  datatype Order = Order(
    id: string,
    userId: string,
    items: seq<CartItem>,
    total: real,
    status: OrderStatus,
    shippingAddress: ShippingAddress,
    paymentStatus: PaymentStatus,
    paymentMethod: string,
    trackingNumber: Option<string>,
    estimatedDelivery: Option<int>,
    createdAt: int,
    updatedAt: int)

  /** The first catalogue product with the given id (`products.find(p => p.id === id)`). */
  function FindProduct(catalog: seq<Product>, id: string): (r: Option<Product>)
    ensures r.Some? ==> r.value in catalog && r.value.id == id
    ensures r.None? <==> forall p :: p in catalog ==> p.id != id
    ensures r.Some? ==> exists k :: 0 <= k < |catalog| && catalog[k] == r.value
                                    && forall j :: 0 <= j < k ==> catalog[j].id != id
  {
    if catalog == [] then None
    else if catalog[0].id == id then Some(catalog[0])
    else
      var r := FindProduct(catalog[1..], id);
      if r.Some? then
        var k :| 0 <= k < |catalog[1..]| && catalog[1..][k] == r.value
                 && forall j :: 0 <= j < k ==> catalog[1..][j].id != id;
        assert catalog[k + 1] == r.value;
        r
      else r
  }
}
