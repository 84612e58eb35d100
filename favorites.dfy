/** Favourites: a user's bookmarked listings, one row per (user, listing)
    pair. */
module Favorites {
  import opened Wrappers
  import opened Seqs
  import opened Errors
  import opened Store

  const LISTING_NOT_FOUND: string := "Объявление не найдено"
  const ALREADY_FAVORITE: string := "Объявление уже в избранном"
  const NOT_A_FAVORITE: string := "Объявление не найдено в избранном"
  const FAVORITE_REMOVED: string := "Объявление удалено из избранного"

  /** `orderBy: { createdAt: "desc" }` as an ascending sort key. */
  function NewestFirst(f: Favorite): int {
    -f.createdAt
  }

  /** `findAll`: the user's favourites, newest first. */
  function FindAll(favorites: seq<Favorite>, userId: Id): (r: seq<Favorite>)
    ensures forall f :: f in r <==> f in favorites && f.userId == userId
    ensures forall i, j :: 0 <= i < j < |r| ==> r[i].createdAt >= r[j].createdAt
    ensures multiset(r) == multiset(Filter(favorites, (f: Favorite) => f.userId == userId))
  {
    var mine := Filter(favorites, (f: Favorite) => f.userId == userId);
    var r := SortBy(mine, NewestFirst);
    assert forall f :: f in r <==> f in mine by {
      forall f ensures f in r <==> f in mine {
        assert f in multiset(r) <==> f in multiset(mine);
      }
    }
    r
  }

  /** Adding a pair that was absent and then removing it restores the table. */
  lemma {:induction false} AddThenRemoveRestores(favorites: seq<Favorite>, f: Favorite)
    requires FavoriteOf(favorites, f.userId, f.propertyId).None?
    ensures FavoriteOf(favorites + [f], f.userId, f.propertyId) == Some(|favorites|)
    ensures RemoveAt(favorites + [f], |favorites|) == favorites
  {
    var s := favorites + [f];
    forall j | 0 <= j < |favorites| ensures !(s[j].userId == f.userId && s[j].propertyId == f.propertyId) {
      assert s[j] == favorites[j];
    }
    FavoriteOfAt(s, |favorites|);
    assert s[..|favorites|] == favorites;
  }

  class FavoritesService {
    const db: Database

    constructor (db: Database)
      ensures this.db == db
    {
      this.db := db;
    }

    /** `add`: the listing must exist and the pair must be new; then one row is appended. */
    method Add(userId: Id, propertyId: Id, now: int) returns (r: Result<Favorite, Failure>)
      requires db.Valid()
      modifies db`favorites, db`nextId
      ensures db.Valid()
      ensures ListingById(db.properties, propertyId).None? ==>
                r == Err(Http(NotFound(LISTING_NOT_FOUND))) && unchanged(db)
      ensures ListingById(db.properties, propertyId).Some? && FavoriteOf(old(db.favorites), userId, propertyId).Some? ==>
                r == Err(Http(Conflict(ALREADY_FAVORITE))) && unchanged(db)
      ensures ListingById(db.properties, propertyId).Some? && FavoriteOf(old(db.favorites), userId, propertyId).None? ==>
                && r == Ok(Favorite(old(db.nextId), userId, propertyId, now))
                && db.favorites == old(db.favorites) + [r.value]
                && db.nextId == old(db.nextId) + 1
                && FavoriteOf(db.favorites, userId, propertyId) == Some(|old(db.favorites)|)
    {
      if ListingById(db.properties, propertyId).None? {
        return Err(Http(NotFound(LISTING_NOT_FOUND)));
      }
      if FavoriteOf(db.favorites, userId, propertyId).Some? {
        return Err(Http(Conflict(ALREADY_FAVORITE)));
      }
      var f := Favorite(db.nextId, userId, propertyId, now);
      AddThenRemoveRestores(db.favorites, f);
      db.favorites := db.favorites + [f];
      db.nextId := db.nextId + 1;
      r := Ok(f);
    }

    /** `remove`: deletes the pair's row; a missing pair is NotFound and changes nothing. */
    method Remove(userId: Id, propertyId: Id) returns (r: Result<string, Failure>)
      requires db.Valid()
      modifies db`favorites
      ensures db.Valid()
      ensures FavoriteOf(old(db.favorites), userId, propertyId).None? ==>
                r == Err(Http(NotFound(NOT_A_FAVORITE))) && db.favorites == old(db.favorites)
      ensures FavoriteOf(old(db.favorites), userId, propertyId).Some? ==>
                && r == Ok(FAVORITE_REMOVED)
                && db.favorites == RemoveAt(old(db.favorites), FavoriteOf(old(db.favorites), userId, propertyId).value)
                && FavoriteOf(db.favorites, userId, propertyId).None?
    {
      var found := FavoriteOf(db.favorites, userId, propertyId);
      if found.None? {
        return Err(Http(NotFound(NOT_A_FAVORITE)));
      }
      ghost var before := db.favorites;
      db.favorites := RemoveAt(db.favorites, found.value);
      forall j | 0 <= j < |db.favorites| ensures !(db.favorites[j].userId == userId && db.favorites[j].propertyId == propertyId) {
        if j >= found.value {
          assert db.favorites[j] == before[j + 1];
        }
      }
      r := Ok(FAVORITE_REMOVED);
    }
  }
}
