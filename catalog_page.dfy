/**
 * The storefront page's catalogue view (src/pages/EcommercePage.tsx): the
 * category list offered to the shopper and the filtered, sorted product
 * list for a category, a search box, a price range and a sort choice.
 */
module CatalogPage {
  import opened Text
  import opened Sorting
  import opened Storefront

  const AllCategories := "All Categories"

  /** `Array.from(new Set(xs))`: each value once, at its first occurrence. */
  function Distinct(xs: seq<string>): (r: seq<string>)
    ensures forall x :: x in r <==> x in xs
    ensures forall i, j :: 0 <= i < j < |r| ==> r[i] != r[j]
  {
    if xs == [] then []
    else
      var init := xs[..|xs| - 1];
      var last := xs[|xs| - 1];
      assert xs == init + [last];
      var r := Distinct(init);
      if last in init then r else r + [last]
  }

  function CategoryOf(products: seq<Product>): (r: seq<string>)
    ensures |r| == |products| && forall k :: 0 <= k < |products| ==> r[k] == products[k].category
  {
    seq(|products|, k requires 0 <= k < |products| => products[k].category)
  }

  /** `categories`: "All Categories", then each product category once. */
  function Categories(products: seq<Product>): seq<string>
  {
    [AllCategories] + Distinct(CategoryOf(products))
  }

  /**
   * The list starts with "All Categories", offers every product's category,
   * offers nothing else, and lists no category twice after the first entry.
   */
  lemma CategoriesOffered(products: seq<Product>)
    ensures var c := Categories(products);
      && c[0] == AllCategories
      && (forall p :: p in products ==> p.category in c)
      && (forall x :: x in c[1..] ==> exists p :: p in products && p.category == x)
      && (forall i, j :: 1 <= i < j < |c| ==> c[i] != c[j])
  {
    var c := Categories(products);
    var cats := CategoryOf(products);
    assert c[1..] == Distinct(cats);
    forall p | p in products
      ensures p.category in c
    {
      var k :| 0 <= k < |products| && products[k] == p;
      assert cats[k] == p.category;
      assert p.category in c[1..];
    }
    forall x | x in c[1..]
      ensures exists p :: p in products && p.category == x
    {
      var k :| 0 <= k < |cats| && cats[k] == x;
      assert products[k] in products;
    }
  }

  // ---------------------------------------------------------------------------
  // Filtering

  /** `xs.filter(keep)`. */
  function Filter(xs: seq<Product>, keep: Product -> bool): (r: seq<Product>)
    ensures |r| <= |xs|
    ensures forall p :: p in r <==> p in xs && keep(p)
    ensures multiset(r) <= multiset(xs)
  {
    if xs == [] then []
    else
      var init := xs[..|xs| - 1];
      var last := xs[|xs| - 1];
      assert xs == init + [last];
      Filter(init, keep) + (if keep(last) then [last] else [])
  }

  /** Each kept product is kept as often as the list holds it. */
  lemma {:induction false} FilterCounts(xs: seq<Product>, keep: Product -> bool)
    ensures forall p :: keep(p) ==> multiset(Filter(xs, keep))[p] == multiset(xs)[p]
  {
    if xs != [] {
      var init := xs[..|xs| - 1];
      assert xs == init + [xs[|xs| - 1]];
      FilterCounts(init, keep);
    }
  }

  /** Two tests that agree on every product filter alike. */
  lemma {:induction false} FilterSame(xs: seq<Product>, a: Product -> bool, b: Product -> bool)
    requires forall p :: a(p) == b(p)
    ensures Filter(xs, a) == Filter(xs, b)
  {
    if xs != [] {
      FilterSame(xs[..|xs| - 1], a, b);
    }
  }

  /** Filtering keeps catalogue order: the kept products of two runs are the first run's, then the second's. */
  lemma {:induction false} FilterAppend(xs: seq<Product>, ys: seq<Product>, keep: Product -> bool)
    ensures Filter(xs + ys, keep) == Filter(xs, keep) + Filter(ys, keep)
  {
    if ys == [] {
      assert xs + ys == xs;
    } else {
      var init, last := ys[..|ys| - 1], ys[|ys| - 1];
      var tail := if keep(last) then [last] else [];
      assert (xs + ys)[..|xs + ys| - 1] == xs + init;
      assert (xs + ys)[|xs + ys| - 1] == last;
      assert Filter(xs + ys, keep) == Filter(xs + init, keep) + tail;
      assert Filter(ys, keep) == Filter(init, keep) + tail;
      FilterAppend(xs, init, keep);
    }
  }

  /** Filtering by two tests in turn is filtering once by both. */
  lemma {:induction false} FilterFilter(xs: seq<Product>, a: Product -> bool, b: Product -> bool, ab: Product -> bool)
    requires forall p :: ab(p) == (a(p) && b(p))
    ensures Filter(Filter(xs, a), b) == Filter(xs, ab)
  {
    if xs != [] {
      var init, last := xs[..|xs| - 1], xs[|xs| - 1];
      var kept := if a(last) then [last] else [];
      var tail := if ab(last) then [last] else [];
      assert Filter(xs, a) == Filter(init, a) + kept;
      assert Filter(xs, ab) == Filter(init, ab) + tail;
      FilterAppend(Filter(init, a), kept, b);
      assert Filter(kept, b) == tail by {
        if a(last) {
          FilterOne(last, b);
        }
      }
      FilterFilter(init, a, b, ab);
    }
  }

  /** A one-product list is kept iff its product passes. */
  lemma FilterOne(x: Product, keep: Product -> bool)
    ensures Filter([x], keep) == if keep(x) then [x] else []
  {
    assert [x][..0] == [];
  }

  /** Filtering by a test every product passes keeps everything. */
  lemma {:induction false} FilterAll(xs: seq<Product>, keep: Product -> bool)
    requires forall p :: keep(p)
    ensures Filter(xs, keep) == xs
  {
    if xs != [] {
      var init := xs[..|xs| - 1];
      assert xs == init + [xs[|xs| - 1]];
      FilterAll(init, keep);
    }
  }

  /** The search box's test: the lower-cased query occurs in the name, description, a tag or the shop name. */
  predicate MatchesSearch(p: Product, query: string)
  {
    var q := ToLower(query);
    || Includes(ToLower(p.name), q)
    || Includes(ToLower(p.description), q)
    || (exists k :: 0 <= k < |p.tags| && Includes(ToLower(p.tags[k]), q))
    || Includes(ToLower(p.shopName), q)
  }

  /** The category filter's test. */
  function CategoryTest(category: string): Product -> bool
  {
    (p: Product) => p.category == category
  }

  /** The search filter's test. */
  function SearchTest(query: string): Product -> bool
  {
    (p: Product) => MatchesSearch(p, query)
  }

  /** The price range filter's test, both bounds inclusive. */
  function PriceTest(minPrice: real, maxPrice: real): Product -> bool
  {
    (p: Product) => p.price >= minPrice && p.price <= maxPrice
  }

  /** The three filters in the order the page applies them. */
  function FilterProducts(products: seq<Product>, category: string, query: string, minPrice: real, maxPrice: real): seq<Product>
  {
    var byCategory := if category != AllCategories then Filter(products, CategoryTest(category)) else products;
    var bySearch := if query != "" then Filter(byCategory, SearchTest(query)) else byCategory;
    Filter(bySearch, PriceTest(minPrice, maxPrice))
  }

  /** Everything the filters ask of one product. */
  predicate Shown(p: Product, category: string, query: string, minPrice: real, maxPrice: real)
  {
    && (category == AllCategories || p.category == category)
    && (query == "" || MatchesSearch(p, query))
    && minPrice <= p.price <= maxPrice
  }

  /** `Shown` as the test a single `filter` call would apply. */
  function ShownTest(category: string, query: string, minPrice: real, maxPrice: real): Product -> bool
  {
    (p: Product) => Shown(p, category, query, minPrice, maxPrice)
  }

  /** The category filter as a test that "All Categories" always passes. */
  function InCategoryTest(category: string): Product -> bool
  {
    (p: Product) => category == AllCategories || p.category == category
  }

  /** The search filter as a test that the empty search always passes. */
  function MatchingTest(query: string): Product -> bool
  {
    (p: Product) => query == "" || MatchesSearch(p, query)
  }

  /** The first two filters as one test. */
  function CategoryAndSearchTest(category: string, query: string): Product -> bool
  {
    (p: Product) => InCategoryTest(category)(p) && MatchingTest(query)(p)
  }

  lemma CategoryStep(products: seq<Product>, category: string)
    ensures (if category != AllCategories then Filter(products, CategoryTest(category)) else products)
            == Filter(products, InCategoryTest(category))
  {
    if category != AllCategories {
      FilterSame(products, CategoryTest(category), InCategoryTest(category));
    } else {
      FilterAll(products, InCategoryTest(category));
    }
  }

  lemma SearchStep(byCategory: seq<Product>, query: string)
    ensures (if query != "" then Filter(byCategory, SearchTest(query)) else byCategory)
            == Filter(byCategory, MatchingTest(query))
  {
    if query != "" {
      FilterSame(byCategory, SearchTest(query), MatchingTest(query));
    } else {
      FilterAll(byCategory, MatchingTest(query));
    }
  }

  lemma CategoryAndSearchSplits(category: string, query: string)
    ensures forall p :: CategoryAndSearchTest(category, query)(p) == (InCategoryTest(category)(p) && MatchingTest(query)(p))
  {
  }

  lemma ShownSplits(category: string, query: string, minPrice: real, maxPrice: real)
    ensures forall p :: ShownTest(category, query, minPrice, maxPrice)(p)
                        == (CategoryAndSearchTest(category, query)(p) && PriceTest(minPrice, maxPrice)(p))
  {
    forall p: Product
      ensures ShownTest(category, query, minPrice, maxPrice)(p)
              == (CategoryAndSearchTest(category, query)(p) && PriceTest(minPrice, maxPrice)(p))
    {
      assert CategoryAndSearchTest(category, query)(p) == (InCategoryTest(category)(p) && MatchingTest(query)(p));
      assert InCategoryTest(category)(p) == (category == AllCategories || p.category == category);
      assert MatchingTest(query)(p) == (query == "" || MatchesSearch(p, query));
    }
  }

  /**
   * The page's three filters are one filter by `Shown`: the filtered list
   * keeps catalogue order and every copy of a shown product.
   */
  lemma FilterProductsInOrder(products: seq<Product>, category: string, query: string, minPrice: real, maxPrice: real)
    ensures FilterProducts(products, category, query, minPrice, maxPrice) == Filter(products, ShownTest(category, query, minPrice, maxPrice))
    ensures forall p :: Shown(p, category, query, minPrice, maxPrice) ==>
              multiset(FilterProducts(products, category, query, minPrice, maxPrice))[p] == multiset(products)[p]
  {
    var byCategory := if category != AllCategories then Filter(products, CategoryTest(category)) else products;
    var bySearch := if query != "" then Filter(byCategory, SearchTest(query)) else byCategory;
    CategoryStep(products, category);
    SearchStep(byCategory, query);
    CategoryAndSearchSplits(category, query);
    ShownSplits(category, query, minPrice, maxPrice);
    FilterFilter(products, InCategoryTest(category), MatchingTest(query), CategoryAndSearchTest(category, query));
    assert bySearch == Filter(products, CategoryAndSearchTest(category, query));
    FilterFilter(products, CategoryAndSearchTest(category, query), PriceTest(minPrice, maxPrice), ShownTest(category, query, minPrice, maxPrice));
    FilterCounts(products, ShownTest(category, query, minPrice, maxPrice));
  }

  /** An empty search matches every product: `"…".includes("")` holds. */
  lemma EmptySearchMatchesAll(p: Product)
    ensures MatchesSearch(p, "")
  {
    IncludesEmpty(ToLower(p.name));
  }

  /**
   * The filtered list holds exactly the catalogue products that are in the
   * chosen category (any, for "All Categories"), match the search and cost
   * between the two bounds inclusive, never more copies than the catalogue.
   */
  lemma FilterProductsExact(products: seq<Product>, category: string, query: string, minPrice: real, maxPrice: real)
    ensures var r := FilterProducts(products, category, query, minPrice, maxPrice);
      && (forall p :: p in r <==> p in products && Shown(p, category, query, minPrice, maxPrice))
      && multiset(r) <= multiset(products)
  {
    var byCategory := if category != AllCategories then Filter(products, CategoryTest(category)) else products;
    var bySearch := if query != "" then Filter(byCategory, SearchTest(query)) else byCategory;
    var r := Filter(bySearch, PriceTest(minPrice, maxPrice));
    assert r == FilterProducts(products, category, query, minPrice, maxPrice);
    assert forall p :: p in byCategory <==> p in products && (category == AllCategories || p.category == category);
    assert forall p :: p in bySearch <==> p in byCategory && (query == "" || MatchesSearch(p, query));
    assert forall p :: p in r <==> p in bySearch && minPrice <= p.price <= maxPrice;
    assert multiset(r) <= multiset(bySearch) <= multiset(byCategory) <= multiset(products);
  }

  // ---------------------------------------------------------------------------
  // Sorting

  datatype SortChoice = PriceLow | PriceHigh | Rating | Newest | Featured

  /** The `sortBy` value of the select box; anything unrecognised keeps catalogue order. */
  function SortChoiceOf(sortBy: string): SortChoice
  {
    if sortBy == "price-low" then PriceLow
    else if sortBy == "price-high" then PriceHigh
    else if sortBy == "rating" then Rating
    else if sortBy == "newest" then Newest
    else Featured
  }

  /** When `a` may stay before `b`: the comparator returns at most zero. */
  function Order(choice: SortChoice): (Product, Product) -> bool
  {
    match choice
    case PriceLow => (a: Product, b: Product) => a.price <= b.price
    case PriceHigh => (a: Product, b: Product) => b.price <= a.price
    case Rating => (a: Product, b: Product) => b.rating <= a.rating
    case Newest => (a: Product, b: Product) => LexLe(a.name, b.name)
    case Featured => (a: Product, b: Product) => true
  }

  lemma OrderIsTotalPreorder(choice: SortChoice)
    ensures TotalPreorder(Order(choice))
  {
    if choice == Newest {
      forall a: Product, b: Product
        ensures Order(choice)(a, b) || Order(choice)(b, a)
      {
        LexLeTotal(a.name, b.name);
      }
      forall a: Product, b: Product, c: Product | Order(choice)(a, b) && Order(choice)(b, c)
        ensures Order(choice)(a, c)
      {
        LexLeTransitive(a.name, b.name, c.name);
      }
    }
  }

  /** `filteredProducts`: filter, then sort the fresh copy unless the choice keeps catalogue order. */
  function FilteredProducts(products: seq<Product>, category: string, query: string,
                            minPrice: real, maxPrice: real, sortBy: string): seq<Product>
  {
    var filtered := FilterProducts(products, category, query, minPrice, maxPrice);
    var choice := SortChoiceOf(sortBy);
    if choice == Featured then filtered else SortBy(filtered, Order(choice))
  }

  /**
   * The page shows a permutation of the filtered products: by price from
   * low to high for "price-low", high to low for "price-high", by rating
   * from best for "rating", by name for "newest", and in catalogue order
   * for anything else.
   */
  lemma FilteredProductsSorted(products: seq<Product>, category: string, query: string,
                               minPrice: real, maxPrice: real, sortBy: string)
    ensures var filtered := FilterProducts(products, category, query, minPrice, maxPrice);
      var r := FilteredProducts(products, category, query, minPrice, maxPrice, sortBy);
      && multiset(r) == multiset(filtered)
      && (sortBy == "price-low" ==> forall i, j :: 0 <= i < j < |r| ==> r[i].price <= r[j].price)
      && (sortBy == "price-high" ==> forall i, j :: 0 <= i < j < |r| ==> r[i].price >= r[j].price)
      && (sortBy == "rating" ==> forall i, j :: 0 <= i < j < |r| ==> r[i].rating >= r[j].rating)
      && (sortBy == "newest" ==> forall i, j :: 0 <= i < j < |r| ==> LexLe(r[i].name, r[j].name))
      && (SortChoiceOf(sortBy) == Featured ==> r == filtered == Filter(products, ShownTest(category, query, minPrice, maxPrice)))
  {
    FilterProductsInOrder(products, category, query, minPrice, maxPrice);
    var choice := SortChoiceOf(sortBy);
    var filtered := FilterProducts(products, category, query, minPrice, maxPrice);
    if choice != Featured {
      OrderIsTotalPreorder(choice);
      SortBySorted(filtered, Order(choice));
    }
  }
}
