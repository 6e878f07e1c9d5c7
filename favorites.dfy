/**
 * The favorites store: an ordered list of saved chart queries, mirrored
 * to durable key-value storage under the key "favorites", plus one
 * transient "selected for edit" item.
 *
 * Each operation's new list is a pure function on sequences (spread,
 * index-filter, index-map, `some`); the store itself is a class whose
 * methods replace its fields and rewrite the durable copy.
 */
module Favorites {
  import opened Wrappers

  /** One saved chart query. `stockSymbol2` is optional in a stored record. */
  datatype FavoriteItem = FavoriteItem(
    stockSymbol1: string,
    stockSymbol2: Option<string>,
    startDate: string,
    endDate: string,
    timeframe: string)

  /** Durable storage, abstracted from serialised text to key -> list. */
  type Storage = map<string, seq<FavoriteItem>>

  const FavoritesKey: string := "favorites"

  /** The list the store starts with: the stored one, or empty when there is none. */
  function Hydrate(saved: Storage): (list: seq<FavoriteItem>)
    ensures FavoritesKey !in saved ==> list == []
    ensures FavoritesKey in saved ==> list == saved[FavoritesKey]
  {
    if FavoritesKey in saved then saved[FavoritesKey] else []
  }

  /** `[...favorites, favorite]` */
  function Appended(list: seq<FavoriteItem>, f: FavoriteItem): (r: seq<FavoriteItem>)
    ensures |r| == |list| + 1
    ensures r[|list|] == f
    ensures forall k :: 0 <= k < |list| ==> r[k] == list[k]
  {
    list + [f]
  }

  /**
   * `list.filter((_, i) => i !== index)`, where the first element of
   * `list` sits at position `from` of the whole list.
   */
  function KeepOtherPositions<T>(list: seq<T>, index: int, from: int): seq<T>
    decreases |list|
  {
    if list == [] then []
    else (if from != index then [list[0]] else []) + KeepOtherPositions(list[1..], index, from + 1)
  }

  /** Filtering out one position is a splice when that position exists, and the identity otherwise. */
  lemma {:induction false} KeepOtherPositionsIsSplice<T>(list: seq<T>, index: int, from: int)
    ensures from <= index < from + |list| ==>
      KeepOtherPositions(list, index, from) == list[..index - from] + list[index - from + 1..]
    ensures !(from <= index < from + |list|) ==> KeepOtherPositions(list, index, from) == list
    decreases |list|
  {
    if list != [] {
      var tail := list[1..];
      var rest := KeepOtherPositions(tail, index, from + 1);
      KeepOtherPositionsIsSplice(tail, index, from + 1);
      if from == index {
        assert KeepOtherPositions(list, index, from) == rest;
        assert rest == tail;
        assert list[..0] + list[1..] == tail;
      } else {
        assert KeepOtherPositions(list, index, from) == [list[0]] + rest;
        if from < index < from + |list| {
          var d := index - from;
          assert rest == tail[..d - 1] + tail[d..];
          assert list[..d] == [list[0]] + tail[..d - 1];
          assert list[d + 1..] == tail[d..];
        } else {
          assert rest == tail;
          assert [list[0]] + tail == list;
        }
      }
    }
  }

  /** The list after `removeFavorite(index)`. */
  function Removed(list: seq<FavoriteItem>, index: int): (r: seq<FavoriteItem>)
    ensures 0 <= index < |list| ==> r == list[..index] + list[index + 1..] && |r| == |list| - 1
    ensures !(0 <= index < |list|) ==> r == list
  {
    KeepOtherPositionsIsSplice(list, index, 0);
    KeepOtherPositions(list, index, 0)
  }

  /** The list after `updateFavorite(index, f)`: `list.map((fav, i) => i === index ? f : fav)`. */
  function Updated(list: seq<FavoriteItem>, index: int, f: FavoriteItem): (r: seq<FavoriteItem>)
    ensures |r| == |list|
    ensures forall k :: 0 <= k < |list| && k != index ==> r[k] == list[k]
    ensures 0 <= index < |list| ==> r[index] == f && r == list[index := f]
    ensures !(0 <= index < |list|) ==> r == list
  {
    seq(|list|, k requires 0 <= k < |list| => if k == index then f else list[k])
  }

  /** `list.some(fav => fav.stockSymbol1 === symbol)` */
  function AnyHasPrimarySymbol(list: seq<FavoriteItem>, symbol: string): (b: bool)
    ensures b <==> exists k :: 0 <= k < |list| && list[k].stockSymbol1 == symbol
  {
    if list == [] then false
    else if list[0].stockSymbol1 == symbol then true
    else
      var rest := AnyHasPrimarySymbol(list[1..], symbol);
      assert rest ==> exists k :: 0 <= k < |list| && list[k].stockSymbol1 == symbol by {
        if rest {
          var k :| 0 <= k < |list[1..]| && list[1..][k].stockSymbol1 == symbol;
          assert list[k + 1].stockSymbol1 == symbol;
        }
      }
      rest
  }

  /**
   * The provider's state. `storage` is the durable store; Valid() is the
   * invariant that its "favorites" entry equals the in-memory list.
   */
  class FavoritesStore {
    var favorites: seq<FavoriteItem>
    var selected: Option<FavoriteItem>
    var storage: Storage

    ghost predicate Valid()
      reads this
    {
      FavoritesKey in storage && storage[FavoritesKey] == favorites
    }

    /** Mounting: hydrate from `saved`, then the persist effect writes the list back. */
    constructor (saved: Storage)
      ensures Valid()
      ensures favorites == Hydrate(saved)
      ensures storage == saved[FavoritesKey := favorites]
      ensures selected == None
    {
      favorites := Hydrate(saved);
      selected := None;
      storage := saved[FavoritesKey := Hydrate(saved)];
    }

    /** `setFavorites(list)` followed by the persist effect. */
    method SetFavorites(list: seq<FavoriteItem>)
      modifies this`favorites, this`storage
      ensures Valid()
      ensures favorites == list
      ensures storage == old(storage)[FavoritesKey := list]
    {
      favorites := list;
      storage := storage[FavoritesKey := favorites];
    }

    method AddFavorite(f: FavoriteItem)
      requires Valid()
      modifies this`favorites, this`storage
      ensures Valid()
      ensures favorites == old(favorites) + [f]
      ensures storage == old(storage)[FavoritesKey := favorites]
    {
      SetFavorites(Appended(favorites, f));
    }

    method RemoveFavorite(index: int)
      requires Valid()
      modifies this`favorites, this`storage
      ensures Valid()
      ensures 0 <= index < |old(favorites)| ==>
        favorites == old(favorites)[..index] + old(favorites)[index + 1..]
      ensures !(0 <= index < |old(favorites)|) ==> favorites == old(favorites)
      ensures storage == old(storage)[FavoritesKey := favorites]
    {
      SetFavorites(Removed(favorites, index));
    }

    method UpdateFavorite(index: int, f: FavoriteItem)
      requires Valid()
      modifies this`favorites, this`storage
      ensures Valid()
      ensures 0 <= index < |old(favorites)| ==> favorites == old(favorites)[index := f]
      ensures !(0 <= index < |old(favorites)|) ==> favorites == old(favorites)
      ensures storage == old(storage)[FavoritesKey := favorites]
    {
      SetFavorites(Updated(favorites, index, f));
    }

    method IsFavorite(symbol: string) returns (b: bool)
      ensures b <==> exists k :: 0 <= k < |favorites| && favorites[k].stockSymbol1 == symbol
    {
      b := AnyHasPrimarySymbol(favorites, symbol);
    }

    /** `selectFavoriteForEdit(f)`; the selection is never persisted. */
    method SelectFavoriteForEdit(f: Option<FavoriteItem>)
      modifies this`selected
      ensures selected == f
    {
      selected := f;
    }
  }

  /** Persisting a list and hydrating from the same storage gives the list back. */
  lemma PersistThenHydrate(saved: Storage, list: seq<FavoriteItem>)
    ensures Hydrate(saved[FavoritesKey := list]) == list
  {
  }

  /** Membership is by exact primary symbol: "AAPL" is not found as "aapl", nor through the secondary symbol. */
  lemma IsFavoriteCaseSensitive(f: FavoriteItem)
    requires f.stockSymbol1 == "AAPL" && f.stockSymbol2 == Some("aapl")
    ensures AnyHasPrimarySymbol([f], "AAPL")
    ensures !AnyHasPrimarySymbol([f], "aapl")
  {
  }

  /** Add, out-of-range remove, in-range remove, starting from nothing stored. */
  method AddRemoveScenario(f: FavoriteItem)
  {
    var store := new FavoritesStore(map[]);
    assert store.favorites == [];
    store.AddFavorite(f);
    assert store.favorites == [f] && Hydrate(store.storage) == [f];
    store.RemoveFavorite(5);
    assert store.favorites == [f];
    store.RemoveFavorite(0);
    assert store.favorites == [] && Hydrate(store.storage) == [];
  }

  /** Selecting twice is the same as selecting once, and neither touches the list or storage. */
  method SelectTwiceScenario(store: FavoritesStore, f: Option<FavoriteItem>)
    requires store.Valid()
    modifies store
  {
    var list, saved := store.favorites, store.storage;
    store.SelectFavoriteForEdit(f);
    var once := store.selected;
    store.SelectFavoriteForEdit(f);
    assert store.selected == once == f;
    assert store.favorites == list && store.storage == saved && store.Valid();
  }
}
