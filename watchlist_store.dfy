/**
 * The watchlist composable: an object owning the list, whose operations
 * change it in place. Each operation takes the user id the identity
 * provider returned and the outcome of its remote request as inputs.
 */
module WatchlistStore {
  import opened Wrappers
  import opened WatchlistItems
  import opened Enrichment
  import opened WatchlistSpec

  class Watchlist {
    /** The watched items in insertion order (the shared `watchlist` state). */
    var items: seq<Item>

    /** The state starts as an empty list. */
    constructor ()
      ensures items == []
    {
      items := [];
    }

    /** `loadWatchlist`: replaces the whole list with the enriched remote list. */
    method Load(userId: Option<string>, list: Option<ListBody>, catalog: Option<CatalogBody>)
      modifies this
      ensures items == AfterLoad(old(items), userId, list, catalog)
    {
      if !Authenticated(userId) {
        return;
      }
      if list.None? {
        return;
      }
      var watchlistData := list.value;
      if catalog.None? {
        return;
      }
      var allStocks := CatalogStocks(catalog.value);
      if watchlistData.ListOther? {
        return;
      }
      items := Enrich(watchlistData.entries, allStocks);
    }

    /** `addToWatchlist`: appends the stock after a successful POST, unless already watched. */
    method Add(stock: Item, userId: Option<string>, posted: bool)
      modifies this
      ensures items == AfterAdd(old(items), stock, userId, posted)
      ensures Unique(old(items)) ==> Unique(items)
    {
      ghost var before := items;
      if Unique(before) {
        AddPreservesUnique(before, stock, userId, posted);
      }
      if IsIn(items, stock.symbol) {
        return;
      }
      if !Authenticated(userId) {
        return;
      }
      if !posted {
        return;
      }
      items := items + [Item(stock.symbol, stock.name)];
    }

    /** `removeFromWatchlist`: splices out the first item with the symbol after a successful DELETE. */
    method Remove(symbol: string, userId: Option<string>, deleted: bool)
      modifies this
      ensures items == AfterRemove(old(items), symbol, userId, deleted)
      ensures Unique(old(items)) ==> Unique(items)
    {
      ghost var before := items;
      if Unique(before) {
        RemovePreservesUnique(before, symbol, userId, deleted);
      }
      var index := FindIndex(items, symbol);
      if index == -1 {
        return;
      }
      if !Authenticated(userId) {
        return;
      }
      if !deleted {
        return;
      }
      items := items[..index] + items[index + 1..];
    }

    /** `toggleWatchlist`: removes a watched symbol, adds an unwatched one. */
    method Toggle(stock: Item, userId: Option<string>, succeeded: bool)
      modifies this
      ensures items == AfterToggle(old(items), stock, userId, succeeded)
      ensures Unique(old(items)) ==> Unique(items)
    {
      if IsIn(items, stock.symbol) {
        Remove(stock.symbol, userId, succeeded);
      } else {
        Add(stock, userId, succeeded);
      }
    }

    /** `clearWatchlist`: empties the list after a successful DELETE of the whole list. */
    method Clear(userId: Option<string>, deleted: bool)
      modifies this
      ensures items == AfterClear(old(items), userId, deleted)
    {
      if !Authenticated(userId) {
        return;
      }
      if !deleted {
        return;
      }
      items := [];
    }
  }

  /**
   * A client of the store: starting empty, a successful add of a stock makes
   * the count 1 and a successful toggle of the same stock brings it back to 0.
   */
  method AddThenToggle(stock: Item, userId: Option<string>) returns (afterAdd: nat, afterToggle: nat)
    requires Authenticated(userId)
    ensures afterAdd == 1 && afterToggle == 0
  {
    var w := new Watchlist();
    w.Add(stock, userId, true);
    afterAdd := Count(w.items);
    AddThenToggleEmpties(stock, userId);
    w.Toggle(stock, userId, true);
    afterToggle := Count(w.items);
  }
}
