/**
 * The catalogue handlers of server/routes/products.js: the listing query
 * (validation, the filter and sort records, pagination), the single-product
 * read that counts a view, creation with its SKU check, the owner-or-admin
 * update and soft delete, and posting a review.
 *
 * The `$text` search is a parameter `textMatch(search, product)`: whether
 * the text index matches the product.
 */
module ProductRoutes {
  import opened Common
  import opened Text
  import opened ProductModel
  import opened UserModel
  import opened Store
  import Sorting
  import OrderRoutes
  import AuthMiddleware

  // ---------------------------------------------------------------------------
  // The listing query

  /** The query string of `GET /api/products`; numeric parameters as parsed, absent ones `None`. */
  datatype ListQuery = ListQuery(
    page: Option<int>,
    limit: Option<int>,
    category: Option<string>,
    subcategory: Option<string>,
    brand: Option<string>,
    minPrice: Option<real>,
    maxPrice: Option<real>,
    rating: Option<real>,
    inStock: Option<string>,
    search: Option<string>,
    tags: Option<string>,
    sort: Option<string>)

  /** The validation chain: page from 1, limit 1..100, non-negative prices, rating 0..5. */
  predicate ListQueryValid(q: ListQuery)
  {
    && (q.page.Some? ==> q.page.value >= 1)
    && (q.limit.Some? ==> 1 <= q.limit.value <= 100)
    && (q.minPrice.Some? ==> q.minPrice.value >= 0.0)
    && (q.maxPrice.Some? ==> q.maxPrice.value >= 0.0)
    && (q.rating.Some? ==> 0.0 <= q.rating.value <= 5.0)
  }

  /** The `filter` object the handler builds; an absent field puts no condition. */
  datatype Filter = Filter(
    isActive: bool,
    category: Option<string>,
    subcategory: Option<string>,
    brand: Option<string>,
    minPrice: Option<real>,
    maxPrice: Option<real>,
    minRating: Option<real>,
    inStock: bool,
    search: Option<string>,
    tags: Option<seq<string>>)

  /** `Product.find(filter)`'s test of one document. */
  predicate Matches(f: Filter, p: Product, textMatch: (string, Product) -> bool)
  {
    && p.isActive == f.isActive
    && (f.category.Some? ==> p.category == f.category.value)
    && (f.subcategory.Some? ==> p.subcategory == f.subcategory.value)
    && (f.brand.Some? ==> p.brand == f.brand.value)
    && (f.minPrice.Some? ==> p.price >= f.minPrice.value)
    && (f.maxPrice.Some? ==> p.price <= f.maxPrice.value)
    && (f.minRating.Some? ==> p.rating.average >= f.minRating.value)
    && (f.inStock ==> p.stock > 0)
    && (f.search.Some? ==> textMatch(f.search.value, p))
    && (f.tags.Some? ==> exists k :: 0 <= k < |p.tags| && p.tags[k] in f.tags.value)
  }

  /** Builds the filter field by field; text parameters count only when non-empty. */
  function BuildFilter(q: ListQuery): (f: Filter)
    ensures f.isActive
  {
    Filter(
      true,
      if Truthy(q.category) then q.category else None,
      if Truthy(q.subcategory) then q.subcategory else None,
      if Truthy(q.brand) then q.brand else None,
      q.minPrice,
      q.maxPrice,
      q.rating,
      q.inStock == Some("true"),
      if Truthy(q.search) then q.search else None,
      if Truthy(q.tags) then Some(Split(q.tags.value, ',')) else None)
  }

  /** The query with no parameters at all. */
  const EmptyQuery := ListQuery(None, None, None, None, None, None, None, None, None, None, None, None)

  /**
   * Without parameters the listing admits exactly the active products;
   * with any query an inactive product never matches, a supplied price
   * bound holds of every match, and "true" asks for stock.
   */
  lemma FilterConditions(q: ListQuery, p: Product, textMatch: (string, Product) -> bool)
    ensures Matches(BuildFilter(EmptyQuery), p, textMatch) <==> p.isActive
    ensures Matches(BuildFilter(q), p, textMatch) ==> p.isActive
    ensures Matches(BuildFilter(q), p, textMatch) && q.minPrice.Some? ==> p.price >= q.minPrice.value
    ensures Matches(BuildFilter(q), p, textMatch) && q.maxPrice.Some? ==> p.price <= q.maxPrice.value
    ensures Matches(BuildFilter(q), p, textMatch) && q.inStock == Some("true") ==> p.stock > 0
  {
  }

  /**
   * The tags parameter is the comma-separated tag list: a product matches
   * when it carries at least one of the listed tags.
   */
  lemma TagsFilter(tags: seq<string>, q: ListQuery, p: Product, textMatch: (string, Product) -> bool)
    requires |tags| >= 1 && forall k :: 0 <= k < |tags| ==> ',' !in tags[k]
    requires q.tags == Some(Join(tags, ',')) && Join(tags, ',') != ""
    ensures BuildFilter(q).tags == Some(tags)
    ensures Matches(BuildFilter(q), p, textMatch) ==> exists k :: 0 <= k < |p.tags| && p.tags[k] in tags
  {
    SplitJoin(tags, ',');
  }

  // ---------------------------------------------------------------------------
  // The sort record

  datatype SortKey = PriceAsc | PriceDesc | RatingDesc | NewestFirst | BestSelling | FeaturedThenNewest

  /** The `switch (req.query.sort)`. */
  function SortKeyOf(sort: Option<string>): (k: SortKey)
    ensures sort == Some("price_asc") <==> k == PriceAsc
    ensures sort == Some("price_desc") <==> k == PriceDesc
    ensures sort == Some("rating") <==> k == RatingDesc
    ensures sort == Some("newest") <==> k == NewestFirst
    ensures sort == Some("popular") <==> k == BestSelling
  {
    match sort
    case Some("price_asc") => PriceAsc
    case Some("price_desc") => PriceDesc
    case Some("rating") => RatingDesc
    case Some("newest") => NewestFirst
    case Some("popular") => BestSelling
    case _ => FeaturedThenNewest
  }

  /** `Before(k)(a, b)`: `a` may come before `b` under the sort record for `k`. */
  function Before(k: SortKey): (Product, Product) -> bool
  {
    match k
    case PriceAsc => (a: Product, b: Product) => a.price <= b.price
    case PriceDesc => (a: Product, b: Product) => a.price >= b.price
    case RatingDesc => (a: Product, b: Product) => a.rating.average >= b.rating.average
    case NewestFirst => (a: Product, b: Product) => a.createdAt >= b.createdAt
    case BestSelling => (a: Product, b: Product) => a.salesCount >= b.salesCount
    case FeaturedThenNewest =>
      (a: Product, b: Product) => (a.isFeatured && !b.isFeatured) || (a.isFeatured == b.isFeatured && a.createdAt >= b.createdAt)
  }

  /** Every sort record orders all products consistently. */
  lemma BeforeIsTotalPreorder(k: SortKey)
    ensures Sorting.TotalPreorder(Before(k))
  {
    var le := Before(k);
    forall a: Product, b: Product
      ensures le(a, b) || le(b, a)
    {
    }
    forall a: Product, b: Product, c: Product | le(a, b) && le(b, c)
      ensures le(a, c)
    {
    }
  }

  // ---------------------------------------------------------------------------
  // The listing

  /** The documents the filter admits, in collection order. */
  function MatchingProducts(docs: seq<Product>, f: Filter, textMatch: (string, Product) -> bool): (r: seq<Product>)
    ensures forall i :: 0 <= i < |r| ==> Matches(f, r[i], textMatch)
    ensures forall p :: p in docs && Matches(f, p, textMatch) ==> p in r
    ensures multiset(r) <= multiset(docs)
  {
    if docs == [] then []
    else
      var rest := MatchingProducts(docs[1..], f, textMatch);
      assert docs == [docs[0]] + docs[1..];
      if Matches(f, docs[0], textMatch) then [docs[0]] + rest else rest
  }

  /** Each admitted document is listed as often as the collection holds it. */
  lemma {:induction false} MatchingCounts(docs: seq<Product>, f: Filter, textMatch: (string, Product) -> bool)
    ensures forall p :: Matches(f, p, textMatch) ==> multiset(MatchingProducts(docs, f, textMatch))[p] == multiset(docs)[p]
  {
    if docs != [] {
      assert docs == [docs[0]] + docs[1..];
      MatchingCounts(docs[1..], f, textMatch);
    }
  }

  /** Matching keeps collection order: the matches of two runs of documents are the first run's, then the second's. */
  lemma {:induction false} MatchingAppend(a: seq<Product>, b: seq<Product>, f: Filter, textMatch: (string, Product) -> bool)
    ensures MatchingProducts(a + b, f, textMatch) == MatchingProducts(a, f, textMatch) + MatchingProducts(b, f, textMatch)
  {
    if a != [] {
      var head := if Matches(f, a[0], textMatch) then [a[0]] else [];
      assert (a + b)[0] == a[0];
      assert (a + b)[1..] == a[1..] + b;
      assert MatchingProducts(a + b, f, textMatch) == head + MatchingProducts(a[1..] + b, f, textMatch);
      assert MatchingProducts(a, f, textMatch) == head + MatchingProducts(a[1..], f, textMatch);
      MatchingAppend(a[1..], b, f, textMatch);
    } else {
      assert a + b == b;
    }
  }

  /** `GET /api/products`. */
  function ListProducts(docs: seq<Product>, q: ListQuery, textMatch: (string, Product) -> bool): Result<OrderRoutes.Listing<Product>>
  {
    if !ListQueryValid(q) then Err(ValidationFailed)
    else
      var page := OrderRoutes.PageParam(q.page, 1);
      var limit := OrderRoutes.PageParam(q.limit, 20);
      OrderRoutes.Paginate(MatchingProducts(docs, BuildFilter(q), textMatch), Before(SortKeyOf(q.sort)), page, limit)
  }

  /**
   * An invalid query is a 400; a valid one always succeeds with at most
   * `limit` products (20 by default, never more than 100), each an active
   * catalogue document the filter admits, ordered by the requested sort,
   * and with the total and a page count that covers it.
   */
  lemma ListProductsFacts(docs: seq<Product>, q: ListQuery, textMatch: (string, Product) -> bool)
    ensures var r := ListProducts(docs, q, textMatch);
      && (r.Ok? <==> ListQueryValid(q))
      && (r.Err? ==> r.error == ValidationFailed)
      && (r.Ok? ==>
            var limit := if q.limit.Some? then q.limit.value else 20;
            && r.value.page == (if q.page.Some? then q.page.value else 1)
            && |r.value.items| <= limit <= 100
            && r.value.total == |MatchingProducts(docs, BuildFilter(q), textMatch)|
            && r.value.pages * limit >= r.value.total
            && (forall i :: 0 <= i < |r.value.items| ==>
                  r.value.items[i] in docs && r.value.items[i].isActive
                  && Matches(BuildFilter(q), r.value.items[i], textMatch))
            && Sorting.SortedBy(r.value.items, Before(SortKeyOf(q.sort))))
  {
    if ListQueryValid(q) {
      var matching := MatchingProducts(docs, BuildFilter(q), textMatch);
      BeforeIsTotalPreorder(SortKeyOf(q.sort));
      OrderRoutes.PageOfList(matching, Before(SortKeyOf(q.sort)), OrderRoutes.PageParam(q.page, 1), OrderRoutes.PageParam(q.limit, 20));
      OrderRoutes.PageDrawnFrom(matching, Before(SortKeyOf(q.sort)), OrderRoutes.PageParam(q.page, 1), OrderRoutes.PageParam(q.limit, 20));
      forall p | p in matching
        ensures p in docs && p.isActive && Matches(BuildFilter(q), p, textMatch)
      {
        MatchingMember(docs, BuildFilter(q), textMatch, p);
      }
    }
  }

  /**
   * The page a valid query returns is the window of the sorted matches
   * that starts at `(page - 1) * limit`, with the total and
   * `Math.ceil(total / limit)` pages, the fewest that hold every match.
   */
  lemma ListProductsPage(docs: seq<Product>, q: ListQuery, textMatch: (string, Product) -> bool)
    requires ListQueryValid(q)
    ensures var r := ListProducts(docs, q, textMatch);
      var limit := if q.limit.Some? then q.limit.value else 20;
      && r.Ok?
      && OrderRoutes.IsPage(r.value, MatchingProducts(docs, BuildFilter(q), textMatch), Before(SortKeyOf(q.sort)),
                            OrderRoutes.PageParam(q.page, 1), limit)
      && r.value.pages * limit >= r.value.total
      && (r.value.total > 0 ==> (r.value.pages - 1) * limit < r.value.total)
  {
    var matching := MatchingProducts(docs, BuildFilter(q), textMatch);
    BeforeIsTotalPreorder(SortKeyOf(q.sort));
    OrderRoutes.PageOfList(matching, Before(SortKeyOf(q.sort)), OrderRoutes.PageParam(q.page, 1), OrderRoutes.PageParam(q.limit, 20));
  }

  /** What the filter admits is a catalogue document it matches. */
  lemma MatchingMember(docs: seq<Product>, f: Filter, textMatch: (string, Product) -> bool, p: Product)
    requires p in MatchingProducts(docs, f, textMatch)
    ensures p in docs && Matches(f, p, textMatch)
  {
    var r := MatchingProducts(docs, f, textMatch);
    assert p in multiset(r);
    var i :| 0 <= i < |r| && r[i] == p;
  }

  // ---------------------------------------------------------------------------
  // Reading one product

  /** `GET /api/products/:id`: 404 for a missing or inactive product; otherwise one more view, saved. */
  function GetProductSpec(s: State, id: ProductId): (State, Result<Product>)
  {
    if id !in s.products || !s.products[id].isActive then (s, Err(NotFound))
    else
      var viewed := s.products[id].(views := s.products[id].views + 1);
      (State(s.orders, s.products[id := Saved(viewed)]), Ok(viewed))
  }

  /**
   * Only an active product is shown; showing it counts exactly one view and
   * changes nothing else about it but the saved rating summary.
   */
  lemma GetProductCountsView(s: State, id: ProductId)
    ensures var (s', r) := GetProductSpec(s, id);
      && (r.Ok? <==> id in s.products && s.products[id].isActive)
      && (r.Err? ==> s' == s && r.error == NotFound)
      && (r.Ok? ==>
            && r.value == s.products[id].(views := s.products[id].views + 1)
            && s'.orders == s.orders && s'.products.Keys == s.products.Keys
            && s'.products[id].views == s.products[id].views + 1
            && s'.products[id] == s.products[id].(views := s'.products[id].views, rating := s'.products[id].rating)
            && (forall other :: other in s.products && other != id ==> s'.products[other] == s.products[other]))
  {
  }

  // ---------------------------------------------------------------------------
  // Creating a product

  /** The fields of `POST /api/products` the model keeps. */
  datatype ProductInput = ProductInput(
    name: string,
    description: string,
    price: real,
    originalPrice: Option<real>,
    discount: Option<real>,
    category: string,
    subcategory: string,
    brand: string,
    sku: string,
    tags: seq<string>,
    stock: int,
    lowStockThreshold: Option<int>,
    isFeatured: Option<bool>)

  /** The validation chain; name and description are measured after trimming, by validator.js `isLength`. */
  predicate ProductInputValid(input: ProductInput)
  {
    && 1 <= ValidatorLength(Trim(input.name)) <= 100
    && 10 <= ValidatorLength(Trim(input.description)) <= 2000
    && input.price >= 0.0
    && input.category != "" && input.subcategory != "" && input.brand != "" && input.sku != ""
    && input.stock >= 0
  }

  /** `Product.findOne({ sku })`: some product, active or not, already has the SKU. */
  predicate SkuTaken(products: map<ProductId, Product>, sku: string)
  {
    exists id :: id in products && products[id].sku == sku
  }

  /** The document `Product.create` stores: the trimmed input, the caller as seller, the schema defaults. */
  function NewProduct(input: ProductInput, seller: UserId, now: int): Product
  {
    Product(Trim(input.name), Trim(input.description), input.price, input.originalPrice, input.discount,
            input.category, input.subcategory, input.brand, input.sku, input.tags, input.stock,
            if input.lowStockThreshold.Some? then input.lowStockThreshold.value else 10,
            seller, [], RatingSummary(0.0, 0), true,
            if input.isFeatured.Some? then input.isFeatured.value else false,
            0, 0, None, now)
  }

  /** Sellers and admins may manage the catalogue. */
  const CatalogueRoles: seq<Role> := [Seller, Admin]

  /** `POST /api/products` (behind `protect` and `authorize('seller', 'admin')`), storing under the new id. */
  function CreateProductSpec(s: State, requester: User, input: ProductInput, id: ProductId, now: int): (State, Result<Product>)
  {
    if AuthMiddleware.Authorize(Some(requester), CatalogueRoles).Deny? then (s, Err(NotPermitted))
    else if !ProductInputValid(input) then (s, Err(ValidationFailed))
    else if SkuTaken(s.products, input.sku) then (s, Err(DuplicateSku))
    else
      var p := NewProduct(input, requester.id, now);
      (State(s.orders, s.products[id := Saved(p)]), Ok(Saved(p)))
  }

  /**
   * Creation is refused to customers, refused for a SKU any stored product
   * already has, and otherwise stores one active product with no reviews,
   * sold by the caller, leaving every other document as it was.
   */
  lemma CreateProductFacts(s: State, requester: User, input: ProductInput, id: ProductId, now: int)
    ensures var (s', r) := CreateProductSpec(s, requester, input, id, now);
      && (r.Err? ==> s' == s)
      && (r.Ok? <==> requester.role in CatalogueRoles && ProductInputValid(input) && !SkuTaken(s.products, input.sku))
      && (r == Err(DuplicateSku) <==> requester.role in CatalogueRoles && ProductInputValid(input) && SkuTaken(s.products, input.sku))
      && (r.Ok? ==>
            && s'.products == s.products[id := r.value]
            && s'.orders == s.orders
            && r.value.seller == requester.id && r.value.sku == input.sku
            && r.value.isActive && r.value.reviews == [] && r.value.rating == RatingSummary(0.0, 0)
            && r.value.name == Trim(input.name) && r.value.stock == input.stock)
  {
  }

  /** Under a fresh id, creating leaves every stored product as it was and adds exactly one. */
  lemma CreateProductKeepsOthers(s: State, requester: User, input: ProductInput, id: ProductId, now: int)
    requires id !in s.products
    ensures var (s', r) := CreateProductSpec(s, requester, input, id, now);
      && (forall k :: k in s.products ==> k in s'.products && s'.products[k] == s.products[k])
      && |s'.products| == |s.products| + (if r.Ok? then 1 else 0)
      && (r.Ok? ==> s'.products.Keys == s.products.Keys + {id})
  {
    CreateProductFacts(s, requester, input, id, now);
    var (s', r) := CreateProductSpec(s, requester, input, id, now);
    if r.Ok? {
      FreshInsert(s.products, id, r.value);
    }
  }

  /** Once a SKU is stored, creating another product with it is refused. */
  lemma SecondCreateWithSameSkuRefused(s: State, requester: User, input: ProductInput, id: ProductId, id2: ProductId, input2: ProductInput, now: int)
    requires CreateProductSpec(s, requester, input, id, now).1.Ok?
    requires input2.sku == input.sku && ProductInputValid(input2)
    ensures CreateProductSpec(CreateProductSpec(s, requester, input, id, now).0, requester, input2, id2, now).1 == Err(DuplicateSku)
  {
    var (s', r) := CreateProductSpec(s, requester, input, id, now);
    CreateProductFacts(s, requester, input, id, now);
    assert s'.products[id].sku == input2.sku;
    assert SkuTaken(s'.products, input2.sku);
    CreateProductFacts(s', requester, input2, id2, now);
  }

  // ---------------------------------------------------------------------------
  // Updating and deleting

  /**
   * The body of `PUT /api/products/:id`, which goes to `findByIdAndUpdate`
   * as it is: any stored field may be supplied, and absent ones are left
   * alone. `createdAt` is not among them: the timestamps option keeps it.
   */
  datatype ProductPatch = ProductPatch(
    name: Option<string>,
    description: Option<string>,
    price: Option<real>,
    originalPrice: Option<real>,
    discount: Option<real>,
    category: Option<string>,
    subcategory: Option<string>,
    brand: Option<string>,
    sku: Option<string>,
    tags: Option<seq<string>>,
    stock: Option<int>,
    lowStockThreshold: Option<int>,
    seller: Option<UserId>,
    reviews: Option<seq<Review>>,
    rating: Option<RatingSummary>,
    isActive: Option<bool>,
    isFeatured: Option<bool>,
    views: Option<int>,
    salesCount: Option<int>,
    lastStockUpdate: Option<int>)

  /** A body that supplies nothing. */
  const EmptyPatch := ProductPatch(None, None, None, None, None, None, None, None, None, None,
                                   None, None, None, None, None, None, None, None, None, None)

  function Pick<T>(supplied: Option<T>, current: T): T
  {
    if supplied.Some? then supplied.value else current
  }

  /** `findByIdAndUpdate(id, body)`: every supplied field replaced; no save hook runs. */
  function ApplyPatch(p: Product, patch: ProductPatch): Product
  {
    p.(name := Pick(patch.name, p.name), description := Pick(patch.description, p.description),
       price := Pick(patch.price, p.price),
       originalPrice := if patch.originalPrice.Some? then patch.originalPrice else p.originalPrice,
       discount := if patch.discount.Some? then patch.discount else p.discount,
       category := Pick(patch.category, p.category), subcategory := Pick(patch.subcategory, p.subcategory),
       brand := Pick(patch.brand, p.brand), sku := Pick(patch.sku, p.sku),
       tags := Pick(patch.tags, p.tags), stock := Pick(patch.stock, p.stock),
       lowStockThreshold := Pick(patch.lowStockThreshold, p.lowStockThreshold),
       seller := Pick(patch.seller, p.seller), reviews := Pick(patch.reviews, p.reviews),
       rating := Pick(patch.rating, p.rating),
       isActive := Pick(patch.isActive, p.isActive), isFeatured := Pick(patch.isFeatured, p.isFeatured),
       views := Pick(patch.views, p.views), salesCount := Pick(patch.salesCount, p.salesCount),
       lastStockUpdate := if patch.lastStockUpdate.Some? then patch.lastStockUpdate else p.lastStockUpdate)
  }

  /**
   * Applying the same update twice is applying it once; an empty body
   * changes nothing; the SKU, the seller and the reviews change only when
   * the body supplies them, and the creation time never does.
   */
  lemma ApplyPatchIdempotent(p: Product, patch: ProductPatch)
    ensures ApplyPatch(ApplyPatch(p, patch), patch) == ApplyPatch(p, patch)
    ensures ApplyPatch(p, EmptyPatch) == p
    ensures var r := ApplyPatch(p, patch);
      && (patch.sku.None? ==> r.sku == p.sku)
      && (patch.seller.None? ==> r.seller == p.seller)
      && (patch.reviews.None? ==> r.reviews == p.reviews)
      && r.createdAt == p.createdAt
  {
  }

  /** Another stored product already holds the SKU. */
  predicate SkuHeldByOther(products: map<ProductId, Product>, id: ProductId, sku: string)
  {
    exists other :: other in products && other != id && products[other].sku == sku
  }

  /** No two stored products share a SKU: what the schema's unique index enforces. */
  ghost predicate SkusUnique(products: map<ProductId, Product>)
  {
    forall a, b :: a in products && b in products && a != b ==> products[a].sku != products[b].sku
  }

  /** The gate update and delete share: 404 for an unknown id, 403 unless the seller or an admin. */
  function ManageGate(s: State, requester: User, id: ProductId): (r: Option<ApiError>)
    ensures r.None? <==> requester.role in CatalogueRoles && id in s.products
                         && (s.products[id].seller == requester.id || requester.role == Admin)
  {
    if AuthMiddleware.Authorize(Some(requester), CatalogueRoles).Deny? then Some(NotPermitted)
    else if id !in s.products then Some(NotFound)
    else if s.products[id].seller != requester.id && requester.role != Admin then Some(NotPermitted)
    else None
  }

  /** `PUT /api/products/:id`. */
  function UpdateProductSpec(s: State, requester: User, id: ProductId, patch: ProductPatch): (State, Result<Product>)
  {
    var gate := ManageGate(s, requester, id);
    if gate.Some? then (s, Err(gate.value))
    else if patch.sku.Some? && SkuHeldByOther(s.products, id, patch.sku.value) then (s, Err(ServerError))
    else
      var p := ApplyPatch(s.products[id], patch);
      (State(s.orders, s.products[id := p]), Ok(p))
  }

  /** `DELETE /api/products/:id`: the product stays stored, marked inactive, and is saved. */
  function DeleteProductSpec(s: State, requester: User, id: ProductId): (State, Result<()>)
  {
    var gate := ManageGate(s, requester, id);
    if gate.Some? then (s, Err(gate.value))
    else (State(s.orders, s.products[id := Saved(s.products[id].(isActive := false))]), Ok(()))
  }

  /**
   * Only the product's seller or an admin may change or delete it; anyone
   * else changes nothing. A delete is soft: the product is kept with all its
   * data except the active flag (and the saved rating summary).
   */
  lemma ManageOwnerOrAdmin(s: State, requester: User, id: ProductId, patch: ProductPatch)
    ensures var (s', r) := UpdateProductSpec(s, requester, id, patch);
      && (r.Ok? <==> ManageGate(s, requester, id).None? && !(patch.sku.Some? && SkuHeldByOther(s.products, id, patch.sku.value)))
      && (r.Err? ==> s' == s && r.error in {NotPermitted, NotFound, ServerError})
      && (r.Err? && r.error != ServerError <==> ManageGate(s, requester, id).Some?)
      && (r.Ok? ==> s'.products == s.products[id := ApplyPatch(s.products[id], patch)])
    ensures var (s', r) := DeleteProductSpec(s, requester, id);
      && (r.Ok? <==> ManageGate(s, requester, id).None?)
      && (r.Err? ==> s' == s)
      && (r.Ok? ==>
            && s'.products.Keys == s.products.Keys && s'.orders == s.orders
            && !s'.products[id].isActive
            && s'.products[id] == s.products[id].(isActive := false, rating := s'.products[id].rating)
            && (forall other :: other in s.products && other != id ==> s'.products[other] == s.products[other]))
  {
  }

  /**
   * After a delete the product is gone for shoppers (a 404 on read, never
   * listed) but its SKU still blocks a new product.
   */
  lemma DeletedProductHidden(s: State, requester: User, id: ProductId, q: ListQuery, textMatch: (string, Product) -> bool)
    requires DeleteProductSpec(s, requester, id).1.Ok?
    ensures var s' := DeleteProductSpec(s, requester, id).0;
      && GetProductSpec(s', id).1 == Err(NotFound)
      && !Matches(BuildFilter(q), s'.products[id], textMatch)
      && SkuTaken(s'.products, s.products[id].sku)
  {
    var s' := DeleteProductSpec(s, requester, id).0;
    assert s'.products[id].sku == s.products[id].sku;
  }

  // ---------------------------------------------------------------------------
  // Reviews

  /**
   * `body('rating').isInt({ min: 1, max: 5 })` on the JSON number: a whole
   * number from 1 to 5, so 4.0 passes and 4.5 does not.
   */
  predicate RatingAccepted(rating: real)
  {
    rating.Floor as real == rating && 1.0 <= rating <= 5.0
  }

  /** `POST /api/products/:id/reviews`: the rating check, trimmed comment 10..500, then `addReview` and save. */
  function AddReviewSpec(s: State, requester: User, id: ProductId, rating: real, comment: string,
                         images: Option<seq<string>>): (State, Result<()>)
  {
    if !(RatingAccepted(rating) && 10 <= ValidatorLength(Trim(comment)) <= 500) then (s, Err(ValidationFailed))
    else if id !in s.products then (s, Err(NotFound))
    else
      var p := s.products[id];
      var reviews := UpsertReview(p.reviews, requester.id, rating.Floor, Trim(comment), if images.Some? then images.value else []);
      (State(s.orders, s.products[id := Saved(p.(reviews := reviews))]), Ok(()))
  }

  /**
   * A posted review leaves its author with exactly one review on the
   * product, holding the given whole-number rating, and the saved summary
   * counts every review with an average inside 1..5.
   */
  lemma AddReviewSummarises(s: State, requester: User, id: ProductId, rating: real, comment: string, images: Option<seq<string>>)
    requires id in s.products
    requires OneReviewPerUser(s.products[id].reviews) && RatingsInRange(s.products[id].reviews)
    ensures var (s', r) := AddReviewSpec(s, requester, id, rating, comment, images);
      && (r.Ok? <==> rating.Floor as real == rating && 1.0 <= rating <= 5.0 && 10 <= ValidatorLength(Trim(comment)) <= 500)
      && (r.Ok? ==>
            var p' := s'.products[id];
            && OneReviewPerUser(p'.reviews)
            && (exists k :: 0 <= k < |p'.reviews| && p'.reviews[k].user == requester.id && p'.reviews[k].rating as real == rating)
            && p'.rating.count == |p'.reviews| >= 1
            && 1.0 <= p'.rating.average <= 5.0)
  {
    if RatingAccepted(rating) && 10 <= ValidatorLength(Trim(comment)) <= 500 {
      var p := s.products[id];
      var im := if images.Some? then images.value else [];
      var reviews := UpsertReview(p.reviews, requester.id, rating.Floor, Trim(comment), im);
      UpsertLeavesOneReview(p.reviews, requester.id, rating.Floor, Trim(comment), im);
      UpsertKeepsRatingsInRange(p.reviews, requester.id, rating.Floor, Trim(comment), im);
      AverageInRange(reviews, p.rating);
    }
  }

  /**
   * Creating, updating and deleting keep SKUs unique: creation checks
   * `findOne({ sku })` first, and an update to a SKU another product holds
   * is refused by the unique index.
   */
  lemma CatalogueKeepsSkusUnique(s: State, requester: User, id: ProductId, input: ProductInput, patch: ProductPatch, now: int)
    requires SkusUnique(s.products)
    ensures SkusUnique(CreateProductSpec(s, requester, input, id, now).0.products)
    ensures SkusUnique(UpdateProductSpec(s, requester, id, patch).0.products)
    ensures SkusUnique(DeleteProductSpec(s, requester, id).0.products)
  {
    CreateKeepsSkusUnique(s, requester, id, input, now);
    UpdateKeepsSkusUnique(s, requester, id, patch);
    DeleteKeepsSkusUnique(s, requester, id);
  }

  lemma CreateKeepsSkusUnique(s: State, requester: User, id: ProductId, input: ProductInput, now: int)
    requires SkusUnique(s.products)
    ensures SkusUnique(CreateProductSpec(s, requester, input, id, now).0.products)
  {
    CreateProductFacts(s, requester, input, id, now);
    var (c, r) := CreateProductSpec(s, requester, input, id, now);
    if r.Ok? {
      StoreUnusedSku(s.products, id, r.value);
    }
  }

  /** Storing a product whose SKU no stored product has keeps SKUs distinct. */
  lemma StoreUnusedSku(products: map<ProductId, Product>, id: ProductId, p: Product)
    requires SkusUnique(products) && !SkuTaken(products, p.sku)
    ensures SkusUnique(products[id := p])
  {
    var after := products[id := p];
    forall a, b | a in after && b in after && a != b
      ensures after[a].sku != after[b].sku
    {
      if a == id || b == id {
        var other := if a == id then b else a;
        assert other in products && products[other].sku != p.sku;
      }
    }
  }

  lemma UpdateKeepsSkusUnique(s: State, requester: User, id: ProductId, patch: ProductPatch)
    requires SkusUnique(s.products)
    ensures SkusUnique(UpdateProductSpec(s, requester, id, patch).0.products)
  {
    var (u, _) := UpdateProductSpec(s, requester, id, patch);
    forall a, b | a in u.products && b in u.products && a != b
      ensures u.products[a].sku != u.products[b].sku
    {
      if u != s && (a == id || b == id) {
        var other := if a == id then b else a;
        assert other in s.products && other != id;
        if patch.sku.Some? {
          assert !SkuHeldByOther(s.products, id, patch.sku.value);
          assert s.products[other].sku != patch.sku.value;
        }
      }
    }
  }

  lemma DeleteKeepsSkusUnique(s: State, requester: User, id: ProductId)
    requires SkusUnique(s.products)
    ensures SkusUnique(DeleteProductSpec(s, requester, id).0.products)
  {
    var (d, _) := DeleteProductSpec(s, requester, id);
    forall a, b | a in d.products && b in d.products && a != b
      ensures d.products[a].sku != d.products[b].sku
    {
      if d != s && (a == id || b == id) {
        assert d.products[id].sku == s.products[id].sku;
      }
    }
  }

  /**
   * The body may name a new seller: after such an update the former seller,
   * unless an admin, can no longer change or delete the product.
   */
  lemma SellerHandOverLocksOutFormerSeller(s: State, requester: User, id: ProductId, patch: ProductPatch)
    requires UpdateProductSpec(s, requester, id, patch).1.Ok?
    requires requester.role != Admin && patch.seller.Some? && patch.seller.value != requester.id
    ensures ManageGate(UpdateProductSpec(s, requester, id, patch).0, requester, id) == Some(NotPermitted)
  {
  }

  // ---------------------------------------------------------------------------
  // The handlers on the database

  /** `GET /api/products/:id`. */
  method GetProduct(db: Db, id: ProductId) returns (res: Result<Product>)
    modifies db
    ensures (db.Snapshot(), res) == GetProductSpec(old(db.Snapshot()), id)
  {
    if id !in db.products || !db.products[id].isActive {
      return Err(NotFound);
    }
    var product := new ProductDocument.Load(db.products[id]);
    product.IncrementViews();
    res := Ok(product.Value());
    product.PreSave();
    db.products := db.products[id := product.Value()];
  }

  /** `POST /api/products`. */
  method CreateProduct(db: Db, requester: User, input: ProductInput, id: ProductId, now: int) returns (res: Result<Product>)
    modifies db
    ensures (db.Snapshot(), res) == CreateProductSpec(old(db.Snapshot()), requester, input, id, now)
  {
    if AuthMiddleware.Authorize(Some(requester), CatalogueRoles).Deny? {
      return Err(NotPermitted);
    }
    if !ProductInputValid(input) {
      return Err(ValidationFailed);
    }
    if exists other :: other in db.products && db.products[other].sku == input.sku {
      return Err(DuplicateSku);
    }
    var saved := InsertProduct(db, NewProduct(input, requester.id, now), id);
    res := Ok(saved);
  }

  /** `new Product(...)` then `save()`: the pre-save hook runs and the document is stored under `id`. */
  method InsertProduct(db: Db, p: Product, id: ProductId) returns (saved: Product)
    modifies db
    ensures saved == Saved(p)
    ensures db.Snapshot() == State(old(db.orders), old(db.products)[id := saved])
  {
    var product := new ProductDocument.Load(p);
    product.PreSave();
    saved := product.Value();
    db.products := db.products[id := saved];
  }

  /** `PUT /api/products/:id`. */
  method UpdateProduct(db: Db, requester: User, id: ProductId, patch: ProductPatch) returns (res: Result<Product>)
    modifies db
    ensures (db.Snapshot(), res) == UpdateProductSpec(old(db.Snapshot()), requester, id, patch)
  {
    var gate := ManageGate(db.Snapshot(), requester, id);
    if gate.Some? {
      return Err(gate.value);
    }
    if patch.sku.Some? && SkuHeldByOther(db.products, id, patch.sku.value) {
      return Err(ServerError);
    }
    var updated := ApplyPatch(db.products[id], patch);
    db.products := db.products[id := updated];
    res := Ok(updated);
  }

  /** `DELETE /api/products/:id`. */
  method DeleteProduct(db: Db, requester: User, id: ProductId) returns (res: Result<()>)
    modifies db
    ensures (db.Snapshot(), res) == DeleteProductSpec(old(db.Snapshot()), requester, id)
  {
    var gate := ManageGate(db.Snapshot(), requester, id);
    if gate.Some? {
      return Err(gate.value);
    }
    var product := new ProductDocument.Load(db.products[id]);
    product.isActive := false;
    product.PreSave();
    db.products := db.products[id := product.Value()];
    res := Ok(());
  }

  /** `POST /api/products/:id/reviews`. */
  method AddReview(db: Db, requester: User, id: ProductId, rating: real, comment: string, images: Option<seq<string>>)
    returns (res: Result<()>)
    modifies db
    ensures (db.Snapshot(), res) == AddReviewSpec(old(db.Snapshot()), requester, id, rating, comment, images)
  {
    var trimmed := Trim(comment);
    if !(RatingAccepted(rating) && 10 <= ValidatorLength(trimmed) <= 500) {
      return Err(ValidationFailed);
    }
    if id !in db.products {
      return Err(NotFound);
    }
    SaveReview(db, requester.id, id, rating.Floor, trimmed, if images.Some? then images.value else []);
    res := Ok(());
  }

  /** Load the product, upsert the review, save: the steps after validation. */
  method SaveReview(db: Db, user: UserId, id: ProductId, rating: int, text: string, images: seq<string>)
    requires id in db.products
    modifies db
    ensures var p := old(db.products)[id];
      db.Snapshot() == State(old(db.orders), old(db.products)[id := Saved(p.(reviews := UpsertReview(p.reviews, user, rating, text, images)))])
  {
    var product := new ProductDocument.Load(db.products[id]);
    product.AddReview(user, rating, text, images);
    product.PreSave();
    db.products := db.products[id := product.Value()];
  }
}
