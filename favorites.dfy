/**
 * The favourites list of src/contexts/FavoritesContext.tsx: entries are
 * appended without a duplicate check, removed per (product, user) pair, and
 * resolved against the catalogue for one user.
 */
module Favorites {
  import opened Common
  import Decimal
  import opened Storefront

  datatype FavoriteItem = FavoriteItem(id: string, userId: string, productId: string, addedAt: int)

  predicate IsPair(f: FavoriteItem, productId: string, userId: string)
  {
    f.productId == productId && f.userId == userId
  }

  /** `isFavorite(productId, userId)`: some entry is for that pair. */
  predicate IsFavorite(favorites: seq<FavoriteItem>, productId: string, userId: string)
  {
    exists k :: 0 <= k < |favorites| && IsPair(favorites[k], productId, userId)
  }

  /** The entry `addToFavorites` appends at `now`, with id `fav-<now>`. */
  function NewFavorite(productId: string, userId: string, now: nat): (f: FavoriteItem)
    ensures IsPair(f, productId, userId) && f.addedAt == now
  {
    FavoriteItem("fav-" + Decimal.NatToString(now), userId, productId, now)
  }

  /** The list `removeFromFavorites(productId, userId)` leaves: the entries for other pairs, in order. */
  function Without(favorites: seq<FavoriteItem>, productId: string, userId: string): (r: seq<FavoriteItem>)
    ensures |r| <= |favorites|
    ensures forall f :: f in r <==> f in favorites && !IsPair(f, productId, userId)
  {
    if favorites == [] then []
    else
      var init := favorites[..|favorites| - 1];
      var last := favorites[|favorites| - 1];
      assert favorites == init + [last];
      Without(init, productId, userId) + (if IsPair(last, productId, userId) then [] else [last])
  }

  /** After an add the pair is a favourite, and no other pair's answer changes. */
  lemma AddedIsFavorite(favorites: seq<FavoriteItem>, productId: string, userId: string, now: nat, p: string, u: string)
    ensures IsFavorite(favorites + [NewFavorite(productId, userId, now)], productId, userId)
    ensures IsFavorite(favorites + [NewFavorite(productId, userId, now)], p, u) <==>
      IsFavorite(favorites, p, u) || (p == productId && u == userId)
  {
    var added := favorites + [NewFavorite(productId, userId, now)];
    assert IsPair(added[|favorites|], productId, userId);
    if IsFavorite(favorites, p, u) {
      var k :| 0 <= k < |favorites| && IsPair(favorites[k], p, u);
      assert added[k] == favorites[k];
    }
    if IsFavorite(added, p, u) && !(p == productId && u == userId) {
      var k :| 0 <= k < |added| && IsPair(added[k], p, u);
      assert k < |favorites| && IsPair(favorites[k], p, u);
    }
  }

  /** After a remove the pair is no longer a favourite, and no other pair's answer changes. */
  lemma RemovedIsNotFavorite(favorites: seq<FavoriteItem>, productId: string, userId: string, p: string, u: string)
    ensures !IsFavorite(Without(favorites, productId, userId), productId, userId)
    ensures !(p == productId && u == userId) ==>
      (IsFavorite(Without(favorites, productId, userId), p, u) <==> IsFavorite(favorites, p, u))
  {
    var r := Without(favorites, productId, userId);
    forall k | 0 <= k < |r|
      ensures !IsPair(r[k], productId, userId)
    {
      assert r[k] in r;
    }
    if !(p == productId && u == userId) {
      if IsFavorite(r, p, u) {
        var k :| 0 <= k < |r| && IsPair(r[k], p, u);
        assert r[k] in favorites;
        var j :| 0 <= j < |favorites| && favorites[j] == r[k];
      }
      if IsFavorite(favorites, p, u) {
        var k :| 0 <= k < |favorites| && IsPair(favorites[k], p, u);
        assert favorites[k] in r;
        var j :| 0 <= j < |r| && r[j] == favorites[k];
      }
    }
  }

  /** Removing works entry by entry, so the kept entries stay in their order. */
  lemma {:induction false} WithoutAppend(a: seq<FavoriteItem>, b: seq<FavoriteItem>, productId: string, userId: string)
    ensures Without(a + b, productId, userId) == Without(a, productId, userId) + Without(b, productId, userId)
  {
    if b == [] {
      assert a + b == a;
    } else {
      var init := b[..|b| - 1];
      assert (a + b)[..|a + b| - 1] == a + init;
      assert (a + b)[|a + b| - 1] == b[|b| - 1];
      WithoutAppend(a, init, productId, userId);
    }
  }

  /** Removing a pair that is not a favourite changes nothing. */
  lemma {:induction false} RemoveAbsent(favorites: seq<FavoriteItem>, productId: string, userId: string)
    requires !IsFavorite(favorites, productId, userId)
    ensures Without(favorites, productId, userId) == favorites
  {
    if favorites != [] {
      var init := favorites[..|favorites| - 1];
      forall k | 0 <= k < |init|
        ensures !IsPair(init[k], productId, userId)
      {
        assert favorites[k] == init[k];
      }
      RemoveAbsent(init, productId, userId);
      assert !IsPair(favorites[|favorites| - 1], productId, userId);
      assert favorites == init + [favorites[|favorites| - 1]];
    }
  }

  /** The entries of one user, in order. */
  function OfUser(favorites: seq<FavoriteItem>, userId: string): (r: seq<FavoriteItem>)
    ensures |r| <= |favorites|
    ensures forall f :: f in r <==> f in favorites && f.userId == userId
  {
    if favorites == [] then []
    else
      var init := favorites[..|favorites| - 1];
      var last := favorites[|favorites| - 1];
      assert favorites == init + [last];
      OfUser(init, userId) + (if last.userId == userId then [last] else [])
  }

  /** Each of the user's entries is kept as often as the list holds it, and no other entry is kept. */
  lemma {:induction false} OfUserCounts(favorites: seq<FavoriteItem>, userId: string)
    ensures forall f: FavoriteItem :: f.userId == userId ==> multiset(OfUser(favorites, userId))[f] == multiset(favorites)[f]
    ensures forall f: FavoriteItem :: f.userId != userId ==> multiset(OfUser(favorites, userId))[f] == 0
  {
    if favorites != [] {
      var init, last := favorites[..|favorites| - 1], favorites[|favorites| - 1];
      assert favorites == init + [last];
      OfUserCounts(init, userId);
    }
  }

  /** Selection keeps the list's order: one user's entries of two runs are the first run's, then the second's. */
  lemma {:induction false} OfUserAppend(a: seq<FavoriteItem>, b: seq<FavoriteItem>, userId: string)
    ensures OfUser(a + b, userId) == OfUser(a, userId) + OfUser(b, userId)
  {
    if b == [] {
      assert a + b == a;
    } else {
      var init, last := b[..|b| - 1], b[|b| - 1];
      var tail := if last.userId == userId then [last] else [];
      assert (a + b)[..|a + b| - 1] == a + init;
      assert (a + b)[|a + b| - 1] == last;
      assert OfUser(a + b, userId) == OfUser(a + init, userId) + tail;
      assert OfUser(b, userId) == OfUser(init, userId) + tail;
      OfUserAppend(a, init, userId);
    }
  }

  /** Each entry's catalogue product, skipping entries whose product the catalogue lacks. */
  function Resolve(entries: seq<FavoriteItem>, catalog: seq<Product>): (r: seq<Product>)
    ensures |r| <= |entries|
    ensures forall p :: p in r ==> p in catalog && exists f :: f in entries && FindProduct(catalog, f.productId) == Some(p)
  {
    if entries == [] then []
    else
      var init := entries[..|entries| - 1];
      var last := entries[|entries| - 1];
      var found := FindProduct(catalog, last.productId);
      var rest := Resolve(init, catalog);
      assert forall f :: f in init ==> f in entries;
      rest + (if found.Some? then [found.value] else [])
  }

  /** `getFavoriteProducts(userId)` against the catalogue. */
  function GetFavoriteProducts(favorites: seq<FavoriteItem>, catalog: seq<Product>, userId: string): seq<Product>
  {
    Resolve(OfUser(favorites, userId), catalog)
  }

  /**
   * The favourite products of a user are catalogue products, each the first
   * catalogue entry for the id of one of that user's favourites; every
   * favourite of the user whose product is in the catalogue contributes it;
   * another user's favourites never contribute.
   */
  lemma FavoriteProductsOfUser(favorites: seq<FavoriteItem>, catalog: seq<Product>, userId: string)
    ensures var r := GetFavoriteProducts(favorites, catalog, userId);
      && |r| <= |favorites|
      && (forall p :: p in r ==>
            p in catalog && exists f :: f in favorites && f.userId == userId && FindProduct(catalog, f.productId) == Some(p))
      && (forall f :: f in favorites && f.userId == userId && FindProduct(catalog, f.productId).Some? ==>
            FindProduct(catalog, f.productId).value in r)
  {
    var mine := OfUser(favorites, userId);
    forall f | f in favorites && f.userId == userId && FindProduct(catalog, f.productId).Some?
      ensures FindProduct(catalog, f.productId).value in Resolve(mine, catalog)
    {
      ResolveIncludes(mine, catalog, f);
    }
  }

  lemma {:induction false} ResolveIncludes(entries: seq<FavoriteItem>, catalog: seq<Product>, f: FavoriteItem)
    requires f in entries && FindProduct(catalog, f.productId).Some?
    ensures FindProduct(catalog, f.productId).value in Resolve(entries, catalog)
  {
    var init := entries[..|entries| - 1];
    if f != entries[|entries| - 1] {
      assert entries == init + [entries[|entries| - 1]];
      assert f in init;
      ResolveIncludes(init, catalog, f);
    }
  }

  /** Adding a favourite puts its product, if catalogued, last in the user's favourite products. */
  lemma AddedProductLast(favorites: seq<FavoriteItem>, catalog: seq<Product>, productId: string, userId: string, now: nat)
    requires FindProduct(catalog, productId).Some?
    ensures var before := GetFavoriteProducts(favorites, catalog, userId);
      GetFavoriteProducts(favorites + [NewFavorite(productId, userId, now)], catalog, userId)
        == before + [FindProduct(catalog, productId).value]
  {
    var added := favorites + [NewFavorite(productId, userId, now)];
    assert added[..|added| - 1] == favorites;
  }

  // ---------------------------------------------------------------------------
  // The provider's state

  /** The favourites the provider holds (restoring them from local storage is not modelled). */
  class FavoritesList {
    var favorites: seq<FavoriteItem>

    constructor ()
      ensures favorites == []
    {
      favorites := [];
    }

    /** `addToFavorites`: one entry appended, even when the pair is already a favourite. */
    method AddToFavorites(productId: string, userId: string, now: nat)
      modifies this
      ensures favorites == old(favorites) + [NewFavorite(productId, userId, now)]
      ensures |favorites| == |old(favorites)| + 1
    {
      favorites := favorites + [NewFavorite(productId, userId, now)];
    }

    /** `removeFromFavorites`: every entry for the pair goes, the rest stay in order. */
    method RemoveFromFavorites(productId: string, userId: string)
      modifies this
      ensures favorites == Without(old(favorites), productId, userId)
    {
      var kept: seq<FavoriteItem> := [];
      var i := 0;
      while i < |favorites|
        invariant 0 <= i <= |favorites|
        invariant kept == Without(favorites[..i], productId, userId)
      {
        var f := favorites[i];
        assert favorites[..i + 1] == favorites[..i] + [f];
        if !IsPair(f, productId, userId) {
          kept := kept + [f];
        }
        i := i + 1;
      }
      assert favorites[..i] == favorites;
      favorites := kept;
    }
  }
}
