/**
 * The review form of src/utils/validation.ts set against the server's
 * check in `POST /api/products/:id/reviews`: where the two agree and the
 * input on which they do not.
 */
module ReviewAgreement {
  import Common
  import Text
  import UserModel
  import Store
  import ProductRoutes
  import Validation

  /**
   * For a whole-number rating, on a product that exists, and a comment the
   * browser and validator.js measure alike (no character above U+FFFF, no
   * variation selector), the client accepts a review exactly when
   * `POST /api/products/:id/reviews` stores it. A fractional rating is
   * always refused by the server.
   */
  lemma ReviewFormMatchesServer(s: Store.State, requester: UserModel.User, id: Common.ProductId, rating: real, comment: string,
                                images: Common.Option<seq<string>>)
    requires id in s.products
    ensures rating.Floor as real == rating && Text.InBmp(Text.Trim(comment))
            && (forall i | 0 <= i < |Text.Trim(comment)| :: !Text.VariationSelector(Text.Trim(comment)[i])) ==>
      (Validation.ValidateProductReview(rating, comment).isValid <==> ProductRoutes.AddReviewSpec(s, requester, id, rating, comment, images).1.Ok?)
    ensures rating.Floor as real != rating ==>
      ProductRoutes.AddReviewSpec(s, requester, id, rating, comment, images).1 == Store.Err(Store.ValidationFailed)
  {
    var t := Text.Trim(comment);
    Validation.ReviewFormRules(rating, comment);
    ServerGate(s, requester, id, rating, comment, images);
    ServerRefuses(s, requester, id, rating, comment, images);
    if Text.InBmp(t) && forall i | 0 <= i < |t| :: !Text.VariationSelector(t[i]) {
      Text.LengthsAgree(t);
    }
  }

  lemma ServerGate(s: Store.State, requester: UserModel.User, id: Common.ProductId, rating: real, comment: string,
                   images: Common.Option<seq<string>>)
    requires id in s.products
    ensures ProductRoutes.AddReviewSpec(s, requester, id, rating, comment, images).1.Ok?
            <==> ProductRoutes.RatingAccepted(rating) && 10 <= Text.ValidatorLength(Text.Trim(comment)) <= 500
  {
    ServerRefuses(s, requester, id, rating, comment, images);
  }

  lemma ServerRefuses(s: Store.State, requester: UserModel.User, id: Common.ProductId, rating: real, comment: string,
                      images: Common.Option<seq<string>>)
    ensures !(ProductRoutes.RatingAccepted(rating) && 10 <= Text.ValidatorLength(Text.Trim(comment)) <= 500) ==>
            ProductRoutes.AddReviewSpec(s, requester, id, rating, comment, images).1 == Store.Err(Store.ValidationFailed)
  {
  }

  /** The two disagree on a half star: the form accepts 4.5, the server's `isInt` refuses it. */
  lemma HalfStarRefusedByServer(s: Store.State, requester: UserModel.User, id: Common.ProductId, comment: string,
                                images: Common.Option<seq<string>>)
    requires 10 <= Text.Utf16Length(Text.Trim(comment)) <= 500
    ensures Validation.ValidateProductReview(4.5, comment).isValid
    ensures ProductRoutes.AddReviewSpec(s, requester, id, 4.5, comment, images).1 == Store.Err(Store.ValidationFailed)
  {
    Validation.ReviewFormRules(4.5, comment);
    ServerRefuses(s, requester, id, 4.5, comment, images);
  }

  /**
   * The two disagree on characters above U+FFFF: a comment of five to nine
   * such characters (five emoji, say) is ten to eighteen UTF-16 units to
   * the form, which accepts it, and five to nine characters to `isLength`,
   * which refuses it.
   */
  lemma AstralCommentRefusedByServer(s: Store.State, requester: UserModel.User, id: Common.ProductId, comment: string,
                                     images: Common.Option<seq<string>>)
    requires 5 <= |comment| < 10 && forall i | 0 <= i < |comment| :: Text.Astral(comment[i])
    ensures Validation.ValidateProductReview(5.0, comment).isValid
    ensures ProductRoutes.AddReviewSpec(s, requester, id, 5.0, comment, images).1 == Store.Err(Store.ValidationFailed)
  {
    Text.TrimUnpadded(comment);
    Text.AstralCountsTwice(comment);
    assert 10 <= Text.Utf16Length(Text.Trim(comment)) <= 500 && Text.ValidatorLength(Text.Trim(comment)) < 10;
    Validation.ReviewFormRules(5.0, comment);
    ServerRefuses(s, requester, id, 5.0, comment, images);
  }
}
