/**
 * The product document of server/models/Product.js: stock adjustment, the
 * stock-status and discount-percentage virtuals, the one-review-per-user
 * upsert and the rating summary the pre-save hook recomputes.
 */
module ProductModel {
  import opened Common

  datatype Review = Review(user: UserId, rating: int, comment: string, images: seq<string>)

  datatype RatingSummary = RatingSummary(average: real, count: nat)

  /** A stored product document. */
  datatype Product = Product(
    name: string,
    description: string,
    price: real,
    originalPrice: Option<real>,
    discount: Option<real>,
    category: string,
    subcategory: string,
    brand: string,
    sku: string,
    tags: seq<string>,
    stock: int,
    lowStockThreshold: int,
    seller: UserId,
    reviews: seq<Review>,
    rating: RatingSummary,
    isActive: bool,
    isFeatured: bool,
    views: int,
    salesCount: int,
    lastStockUpdate: Option<int>,
    createdAt: int)

  // ---------------------------------------------------------------------------
  // Stock

  /** The stock `updateStock(quantity, operation)` leaves. */
  function AdjustedStock(stock: int, quantity: int, operation: string): (r: int)
    ensures operation == "subtract" ==> r >= 0 && r >= stock - quantity
    ensures operation == "subtract" && quantity <= stock ==> r == stock - quantity
    ensures operation != "subtract" ==> r - stock == quantity
  {
    if operation == "subtract" then (if stock - quantity > 0 then stock - quantity else 0)
    else stock + quantity
  }

  /** Stock that starts non-negative stays so, whatever is subtracted or added back. */
  lemma StockNeverNegative(stock: int, quantity: int, operation: string)
    requires stock >= 0 && quantity >= 0
    ensures AdjustedStock(stock, quantity, operation) >= 0
  {
  }

  /** Subtracting `q <= stock` and then adding `q` back restores the original stock. */
  lemma SubtractThenAddRestores(stock: int, q: int)
    requires 0 <= q <= stock
    ensures AdjustedStock(AdjustedStock(stock, q, "subtract"), q, "add") == stock
  {
  }

  datatype StockStatus = OutOfStock | LowStock | InStock

  /** The `stockStatus` virtual. */
  function StockStatusOf(stock: int, lowStockThreshold: int): (s: StockStatus)
    ensures s == OutOfStock <==> stock == 0
    ensures s == LowStock <==> stock != 0 && stock <= lowStockThreshold
    ensures s == InStock <==> stock != 0 && stock > lowStockThreshold
  {
    if stock == 0 then OutOfStock
    else if stock <= lowStockThreshold then LowStock
    else InStock
  }

  /** For non-negative stock the three classes are ordered by the threshold. */
  lemma StockStatusBands(stock: int, lowStockThreshold: int)
    requires stock >= 0 && lowStockThreshold >= 0
    ensures StockStatusOf(stock, lowStockThreshold) == OutOfStock <==> stock == 0
    ensures StockStatusOf(stock, lowStockThreshold) == LowStock <==> 0 < stock <= lowStockThreshold
    ensures StockStatusOf(stock, lowStockThreshold) == InStock <==> stock > lowStockThreshold
  {
  }

  // ---------------------------------------------------------------------------
  // Discount percentage

  /** `this.originalPrice && this.originalPrice > this.price`. */
  predicate HasMarkdown(p: Product)
  {
    p.originalPrice.Some? && p.originalPrice.value != 0.0 && p.originalPrice.value > p.price
  }

  /** The `discountPercentage` virtual. */
  function DiscountPercentage(p: Product): (r: real)
    ensures HasMarkdown(p) && p.price >= 0.0 ==> 0.0 <= r <= 100.0 && r == r.Floor as real
    ensures !HasMarkdown(p) ==> r == (if p.discount.Some? then p.discount.value else 0.0)
  {
    if HasMarkdown(p) then
      var o := p.originalPrice.value;
      var r := Round((o - p.price) / o * 100.0);
      MarkdownBounds(o, p.price);
      r as real
    else if p.discount.Some? && p.discount.value != 0.0 then p.discount.value
    else 0.0
  }

  lemma MarkdownBounds(o: real, price: real)
    requires o != 0.0 && o > price
    ensures price >= 0.0 ==> 0 <= Round((o - price) / o * 100.0) <= 100
  {
    if price >= 0.0 {
      var f := (o - price) / o;
      assert f * o == o - price;
      assert 0.0 < f <= 1.0;
    }
  }

  // ---------------------------------------------------------------------------
  // Reviews

  /** Index of the first review written by `user`, as `reviews.find` returns it. */
  function FindReview(reviews: seq<Review>, user: UserId): (k: Option<nat>)
    ensures k.Some? ==> k.value < |reviews| && reviews[k.value].user == user
    ensures k.Some? ==> forall j :: 0 <= j < k.value ==> reviews[j].user != user
    ensures k.None? ==> forall j :: 0 <= j < |reviews| ==> reviews[j].user != user
  {
    if reviews == [] then None
    else if reviews[0].user == user then Some(0)
    else
      match FindReview(reviews[1..], user)
      case None => None
      case Some(k) => Some(k + 1)
  }

  /** No user has written two reviews. */
  ghost predicate OneReviewPerUser(reviews: seq<Review>)
  {
    forall i, j :: 0 <= i < j < |reviews| ==> reviews[i].user != reviews[j].user
  }

  /** The reviews `addReview(user, rating, comment, images)` leaves. */
  function UpsertReview(reviews: seq<Review>, user: UserId, rating: int, comment: string, images: seq<string>): (r: seq<Review>)
    ensures FindReview(reviews, user).Some? ==> |r| == |reviews|
    ensures FindReview(reviews, user).None? ==> r == reviews + [Review(user, rating, comment, images)]
    ensures exists k :: 0 <= k < |r| && r[k] == Review(user, rating, comment, images)
    ensures forall j :: 0 <= j < |reviews| && reviews[j].user != user ==> r[j] == reviews[j]
    ensures OneReviewPerUser(reviews) ==> OneReviewPerUser(r)
  {
    match FindReview(reviews, user)
    case Some(k) =>
      var r := reviews[k := reviews[k].(rating := rating, comment := comment, images := images)];
      assert r[k] == Review(user, rating, comment, images);
      r
    case None =>
      var r := reviews + [Review(user, rating, comment, images)];
      assert r[|reviews|] == Review(user, rating, comment, images);
      r
  }

  /** After the upsert the author has exactly one review if no one had two before. */
  lemma UpsertLeavesOneReview(reviews: seq<Review>, user: UserId, rating: int, comment: string, images: seq<string>)
    requires OneReviewPerUser(reviews)
    ensures var r := UpsertReview(reviews, user, rating, comment, images);
            exists k :: 0 <= k < |r| && r[k] == Review(user, rating, comment, images)
                        && forall j :: 0 <= j < |r| && j != k ==> r[j].user != user
  {
    var r := UpsertReview(reviews, user, rating, comment, images);
    var k :| 0 <= k < |r| && r[k] == Review(user, rating, comment, images);
    assert forall j :: 0 <= j < |r| && j != k ==> r[j].user != user;
  }

  /** A rating within 1..5 keeps every rating within 1..5. */
  lemma UpsertKeepsRatingsInRange(reviews: seq<Review>, user: UserId, rating: int, comment: string, images: seq<string>)
    requires RatingsInRange(reviews) && 1 <= rating <= 5
    ensures RatingsInRange(UpsertReview(reviews, user, rating, comment, images))
  {
  }

  // ---------------------------------------------------------------------------
  // Rating summary

  function RatingSum(reviews: seq<Review>): int
  {
    if reviews == [] then 0 else RatingSum(reviews[..|reviews| - 1]) + reviews[|reviews| - 1].rating
  }

  /** Every rating is within the schema's 1..5. */
  ghost predicate RatingsInRange(reviews: seq<Review>)
  {
    forall i :: 0 <= i < |reviews| ==> 1 <= reviews[i].rating <= 5
  }

  lemma {:induction false} RatingSumBounds(reviews: seq<Review>)
    requires RatingsInRange(reviews)
    ensures |reviews| <= RatingSum(reviews) <= 5 * |reviews|
  {
    if reviews != [] {
      RatingSumBounds(reviews[..|reviews| - 1]);
    }
  }

  /** The summary the pre-save hook computes; no reviews leave the summary as it was. */
  function RecomputedRating(reviews: seq<Review>, current: RatingSummary): (r: RatingSummary)
    ensures reviews == [] ==> r == current
    ensures reviews != [] ==> r.count == |reviews|
    ensures reviews != [] ==> r.average * (|reviews| as real) == RatingSum(reviews) as real
  {
    if |reviews| > 0 then RatingSummary(RatingSum(reviews) as real / (|reviews| as real), |reviews|)
    else current
  }

  /** What `save()` stores: the document with the rating the pre-save hook recomputes. */
  function Saved(p: Product): (r: Product)
    ensures r == p.(rating := r.rating)
    ensures p.reviews == [] ==> r == p
    ensures p.reviews != [] ==> r.rating.count == |p.reviews|
  {
    p.(rating := RecomputedRating(p.reviews, p.rating))
  }

  /**
   * Saving twice is saving once, even with stock or the stock timestamp
   * changed in between: the recomputed rating depends only on the reviews.
   */
  lemma SavedIdempotent(p: Product, stock: int, at: Option<int>)
    ensures Saved(Saved(p)) == Saved(p)
    ensures Saved(Saved(p).(stock := stock, lastStockUpdate := at)) == Saved(p.(stock := stock, lastStockUpdate := at))
  {
  }

  /** With ratings in 1..5 the average is within 1..5 too. */
  lemma AverageInRange(reviews: seq<Review>, current: RatingSummary)
    requires reviews != [] && RatingsInRange(reviews)
    ensures 1.0 <= RecomputedRating(reviews, current).average <= 5.0
  {
    RatingSumBounds(reviews);
    QuotientBounds(RatingSum(reviews) as real, |reviews| as real);
  }

  lemma QuotientBounds(total: real, n: real)
    requires n > 0.0 && n <= total <= 5.0 * n
    ensures 1.0 <= total / n <= 5.0
  {
    var a := total / n;
    assert a * n == total;
    if a < 1.0 {
      PositiveProduct(1.0 - a, n);
      assert false;
    } else if a > 5.0 {
      PositiveProduct(a - 5.0, n);
      assert false;
    }
  }

  lemma PositiveProduct(x: real, y: real)
    requires x > 0.0 && y > 0.0
    ensures x * y > 0.0
  {
  }

  // ---------------------------------------------------------------------------
  // The loaded document

  /** A product document loaded for one request, changed in place, then saved. */
  class ProductDocument {
    var name: string
    var description: string
    var price: real
    var originalPrice: Option<real>
    var discount: Option<real>
    var category: string
    var subcategory: string
    var brand: string
    var sku: string
    var tags: seq<string>
    var stock: int
    var lowStockThreshold: int
    var seller: UserId
    var reviews: seq<Review>
    var rating: RatingSummary
    var isActive: bool
    var isFeatured: bool
    var views: int
    var salesCount: int
    var lastStockUpdate: Option<int>
    var createdAt: int

    function Value(): Product
      reads this
    {
      Product(name, description, price, originalPrice, discount, category, subcategory, brand,
              sku, tags, stock, lowStockThreshold, seller, reviews, rating, isActive, isFeatured,
              views, salesCount, lastStockUpdate, createdAt)
    }

    constructor Load(p: Product)
      ensures Value() == p
    {
      name, description, price, originalPrice, discount := p.name, p.description, p.price, p.originalPrice, p.discount;
      category, subcategory, brand, sku, tags := p.category, p.subcategory, p.brand, p.sku, p.tags;
      stock, lowStockThreshold, seller, reviews, rating := p.stock, p.lowStockThreshold, p.seller, p.reviews, p.rating;
      isActive, isFeatured, views, salesCount := p.isActive, p.isFeatured, p.views, p.salesCount;
      lastStockUpdate, createdAt := p.lastStockUpdate, p.createdAt;
    }

    /** `updateStock(quantity, operation)`: clamp at zero on subtract, add otherwise. */
    method UpdateStock(quantity: int, operation: string, now: int)
      modifies this
      ensures Value() == old(Value()).(stock := AdjustedStock(old(stock), quantity, operation), lastStockUpdate := Some(now))
    {
      if operation == "subtract" {
        stock := if stock - quantity > 0 then stock - quantity else 0;
      } else {
        stock := stock + quantity;
      }
      lastStockUpdate := Some(now);
    }

    /** `incrementViews`: exactly one more view, nothing else changes. */
    method IncrementViews()
      modifies this
      ensures Value() == old(Value()).(views := old(views) + 1)
    {
      views := views + 1;
    }

    /** `addReview`: overwrite the author's review if there is one, else append one. */
    method AddReview(user: UserId, r: int, comment: string, images: seq<string>)
      modifies this
      ensures Value() == old(Value()).(reviews := UpsertReview(old(reviews), user, r, comment, images))
    {
      var k := FindReview(reviews, user);
      if k.Some? {
        var existing := reviews[k.value];
        reviews := reviews[k.value := existing.(rating := r, comment := comment, images := images)];
      } else {
        reviews := reviews + [Review(user, r, comment, images)];
      }
    }

    /** The pre-save hook: recompute the rating summary when there are reviews. */
    method PreSave()
      modifies this
      ensures Value() == Saved(old(Value()))
    {
      if |reviews| > 0 {
        var total := 0;
        var i := 0;
        while i < |reviews|
          invariant 0 <= i <= |reviews|
          invariant total == RatingSum(reviews[..i])
        {
          assert reviews[..i + 1][..i] == reviews[..i];
          total := total + reviews[i].rating;
          i := i + 1;
        }
        assert reviews[..i] == reviews;
        rating := RatingSummary(total as real / (|reviews| as real), |reviews|);
      }
    }
  }
}
