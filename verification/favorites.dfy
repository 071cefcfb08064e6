/** The local favourites table: one row per product id, insert-or-replace,
    delete by id, an existence query, and a listing newest first. */
module Favorites {
  import opened Catalog

  /** A stored favourite: a copy of the product's fields and the time it was
      added (milliseconds since the epoch, supplied by the caller). */
  datatype FavoriteProduct = FavoriteProduct(
    id: ProductId,
    title: string,
    price: real,
    description: string,
    category: string,
    image: string,
    rating: real,
    ratingCount: int,
    timestamp: int)

  /** Every row sits under its own primary key. */
  predicate WellKeyed(m: map<ProductId, FavoriteProduct>) {
    forall k :: k in m ==> m[k].id == k
  }

  type FavoriteTable = m: map<ProductId, FavoriteProduct> | WellKeyed(m) witness map[]

  /** `isFavorite`. */
  predicate IsFavorite(t: FavoriteTable, id: ProductId) {
    id in t
  }

  /** `isFavorite` answers whether some stored row carries the id. */
  lemma IsFavoriteIffRowExists(t: FavoriteTable, id: ProductId)
    ensures IsFavorite(t, id) <==> exists f :: f in t.Values && f.id == id
  {
    if id in t {
      assert t[id] in t.Values;
    }
  }

  /** `addToFavorites` with the REPLACE conflict strategy: the new row
      replaces any row with the same id; no other row changes. */
  function AddToFavorites(t: FavoriteTable, f: FavoriteProduct): (r: FavoriteTable)
    ensures f.id in r && r[f.id] == f
    ensures forall k :: k != f.id ==> (k in r <==> k in t)
    ensures forall k :: k != f.id && k in t ==> r[k] == t[k]
    ensures |r| == if f.id in t then |t| else |t| + 1
  {
    t[f.id := f]
  }

  /** `removeFromFavorites`: deletes the row with this id, if any. */
  function RemoveFromFavorites(t: FavoriteTable, id: ProductId): (r: FavoriteTable)
    ensures id !in r
    ensures forall k :: k != id ==> (k in r <==> k in t)
    ensures forall k :: k in r ==> r[k] == t[k]
    ensures |r| == if id in t then |t| - 1 else |t|
  {
    t - {id}
  }

  /** Rows ordered newest first. */
  predicate NewestFirst(rows: seq<FavoriteProduct>) {
    forall i, j :: 0 <= i < j < |rows| ==> rows[i].timestamp >= rows[j].timestamp
  }

  predicate Distinct(rows: seq<FavoriteProduct>) {
    forall i, j :: 0 <= i < j < |rows| ==> rows[i] != rows[j]
  }

  /** Places a row in a newest-first list, ahead of rows no newer than it. */
  function InsertNewestFirst(rows: seq<FavoriteProduct>, f: FavoriteProduct): (r: seq<FavoriteProduct>)
    requires NewestFirst(rows)
    ensures NewestFirst(r)
    ensures |r| == |rows| + 1
    ensures multiset(r) == multiset(rows) + multiset{f}
    ensures forall x :: x in r <==> x in rows || x == f
    ensures Distinct(rows) && f !in rows ==> Distinct(r)
  {
    if |rows| == 0 || f.timestamp >= rows[0].timestamp then
      Prepend(f, rows);
      [f] + rows
    else
      var rest := InsertNewestFirst(rows[1..], f);
      InsertBehind(rows, f, rest);
      [rows[0]] + rest
  }

  /** The recursive step of `InsertNewestFirst`: a newer head stays in front
      of the rest with the row inserted. */
  lemma InsertBehind(rows: seq<FavoriteProduct>, f: FavoriteProduct, rest: seq<FavoriteProduct>)
    requires NewestFirst(rows) && |rows| > 0 && f.timestamp < rows[0].timestamp
    requires NewestFirst(rest) && multiset(rest) == multiset(rows[1..]) + multiset{f}
    requires Distinct(rows[1..]) && f !in rows[1..] ==> Distinct(rest)
    ensures NewestFirst([rows[0]] + rest)
    ensures multiset([rows[0]] + rest) == multiset(rows) + multiset{f}
    ensures Distinct(rows) && f !in rows ==> Distinct([rows[0]] + rest)
  {
    assert rows == [rows[0]] + rows[1..];
    forall x | x in rest
      ensures x.timestamp <= rows[0].timestamp
    {
      assert x in multiset(rest);
      if x != f {
        assert x in multiset(rows[1..]);
      }
    }
    if Distinct(rows) && f !in rows {
      assert rows[0] !in rows[1..];
      assert rows[0] != f;
      assert rows[0] !in multiset(rest);
    }
    Prepend(rows[0], rest);
  }

  /** A row no older than any row of a newest-first list may lead it, and
      keeps the rows distinct if it is new. */
  lemma Prepend(head: FavoriteProduct, rest: seq<FavoriteProduct>)
    requires NewestFirst(rest)
    requires forall x :: x in rest ==> x.timestamp <= head.timestamp
    ensures NewestFirst([head] + rest)
    ensures Distinct(rest) && head !in rest ==> Distinct([head] + rest)
  {
    var r := [head] + rest;
    forall i, j | 0 <= i < j < |r|
      ensures r[i].timestamp >= r[j].timestamp
    {
      if i > 0 {
        assert r[i] == rest[i - 1] && r[j] == rest[j - 1];
      } else {
        assert r[j] == rest[j - 1];
      }
    }
    if Distinct(rest) && head !in rest {
      forall i, j | 0 <= i < j < |r|
        ensures r[i] != r[j]
      {
        assert r[j] == rest[j - 1];
      }
    }
  }

  /** `getAllFavorites`: every stored row exactly once, newest first. Rows
      added in the same millisecond come in no particular order. */
  method GetAllFavorites(t: FavoriteTable) returns (rows: seq<FavoriteProduct>)
    ensures NewestFirst(rows)
    ensures Distinct(rows)
    ensures |rows| == |t|
    ensures forall i :: 0 <= i < |rows| ==> rows[i].id in t && t[rows[i].id] == rows[i]
    ensures forall k :: k in t ==> t[k] in rows
  {
    rows := [];
    var pending := t.Keys;
    while pending != {}
      invariant pending <= t.Keys
      invariant NewestFirst(rows) && Distinct(rows)
      invariant |rows| + |pending| == |t|
      invariant forall i :: 0 <= i < |rows| ==> rows[i].id in t && t[rows[i].id] == rows[i] && rows[i].id !in pending
      invariant forall k :: k in t && k !in pending ==> t[k] in rows
      decreases pending
    {
      var k :| k in pending;
      assert t[k].id == k;
      assert t[k] !in rows;
      var before := rows;
      rows := InsertNewestFirst(rows, t[k]);
      pending := pending - {k};
      forall i | 0 <= i < |rows|
        ensures rows[i].id in t && t[rows[i].id] == rows[i] && rows[i].id !in pending
      {
        assert rows[i] in rows;
        if rows[i] != t[k] {
          assert rows[i] in before;
          var j :| 0 <= j < |before| && before[j] == rows[i];
        }
      }
    }
  }

  /** After an add the id is a favourite; after a remove it is not. */
  lemma AddThenRemove(t: FavoriteTable, f: FavoriteProduct)
    ensures IsFavorite(AddToFavorites(t, f), f.id)
    ensures !IsFavorite(RemoveFromFavorites(AddToFavorites(t, f), f.id), f.id)
    ensures f.id !in t ==> RemoveFromFavorites(AddToFavorites(t, f), f.id) == t
  {
    if f.id !in t {
      var r := RemoveFromFavorites(AddToFavorites(t, f), f.id);
      assert r.Keys == t.Keys;
    }
  }

  /** Adding the same id again never grows the table. */
  lemma AddTwiceSameSize(t: FavoriteTable, f: FavoriteProduct, g: FavoriteProduct)
    requires f.id == g.id
    ensures |AddToFavorites(AddToFavorites(t, f), g)| == |AddToFavorites(t, f)|
    ensures AddToFavorites(AddToFavorites(t, f), g) == AddToFavorites(t, g)
  {
  }

  /** Removing an absent id leaves the table as it was. */
  lemma RemoveAbsent(t: FavoriteTable, id: ProductId)
    requires !IsFavorite(t, id)
    ensures RemoveFromFavorites(t, id) == t
  {
    assert RemoveFromFavorites(t, id).Keys == t.Keys;
  }
}
