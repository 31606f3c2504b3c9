/**
 * Name enrichment performed by a reload: every remote entry carries only a
 * symbol, and its display name is looked up in the stock catalog.
 */
module Enrichment {
  import opened Wrappers
  import opened WatchlistItems

  /** An entry of the user's remote watchlist: only its symbol is used. */
  datatype RemoteEntry = RemoteEntry(symbol: string)

  /** A catalog stock; `name` is None when the field is missing or null. */
  datatype CatalogEntry = CatalogEntry(symbol: string, name: Option<string>)

  /** The body of the watchlist reply: an array of entries, or any other JSON value. */
  datatype ListBody = ListArray(entries: seq<RemoteEntry>) | ListOther

  /** The body of the catalog reply: an array of stocks, or any other JSON value. */
  datatype CatalogBody = CatalogArray(stocks: seq<CatalogEntry>) | CatalogOther

  /** The display name given when the catalog yields none. */
  const Fallback: string := "Unbekannt"

  /** The catalog as the reload reads it: a body that is not an array counts as empty. */
  function CatalogStocks(body: CatalogBody): seq<CatalogEntry>
  {
    match body
    case CatalogArray(stocks) => stocks
    case CatalogOther => []
  }

  /** The first catalog stock with the symbol, if any (`find`). */
  function FindStock(stocks: seq<CatalogEntry>, symbol: string): (r: Option<CatalogEntry>)
    ensures r.None? <==> forall i :: 0 <= i < |stocks| ==> stocks[i].symbol != symbol
    ensures r.Some? ==> r.value in stocks && r.value.symbol == symbol
  {
    if stocks == [] then None
    else if stocks[0].symbol == symbol then Some(stocks[0])
    else FindStock(stocks[1..], symbol)
  }

  /** JavaScript truthiness of a name field: present and not the empty string. */
  predicate Truthy(name: Option<string>)
  {
    name.Some? && name.value != ""
  }

  /** The name the reload gives a symbol: the found stock's name, or the fallback. */
  function DisplayName(stocks: seq<CatalogEntry>, symbol: string): (r: string)
    ensures r != ""
    ensures (forall i :: 0 <= i < |stocks| ==> stocks[i].symbol != symbol) ==> r == Fallback
  {
    match FindStock(stocks, symbol)
    case None => Fallback
    case Some(stock) => if Truthy(stock.name) then stock.name.value else Fallback
  }

  /** The enriched list: one item per remote entry, in the remote order. */
  function Enrich(remote: seq<RemoteEntry>, stocks: seq<CatalogEntry>): (r: seq<Item>)
    ensures |r| == |remote|
    ensures forall i :: 0 <= i < |remote| ==> r[i].symbol == remote[i].symbol
    ensures forall i :: 0 <= i < |remote| ==> r[i].name == DisplayName(stocks, remote[i].symbol)
  {
    if remote == [] then []
    else [Item(remote[0].symbol, DisplayName(stocks, remote[0].symbol))] + Enrich(remote[1..], stocks)
  }

  /** `k` is the position of the first catalog stock with the symbol. */
  ghost predicate FirstMatch(stocks: seq<CatalogEntry>, symbol: string, k: int)
  {
    0 <= k < |stocks| && stocks[k].symbol == symbol &&
    forall j :: 0 <= j < k ==> stocks[j].symbol != symbol
  }

  /** The lookup yields the first matching stock, not just some matching stock. */
  lemma {:induction false} FindStockFirst(stocks: seq<CatalogEntry>, symbol: string, k: int)
    requires FirstMatch(stocks, symbol, k)
    ensures FindStock(stocks, symbol) == Some(stocks[k])
  {
    if k > 0 {
      assert stocks[0].symbol != symbol;
      assert FirstMatch(stocks[1..], symbol, k - 1) by {
        forall j | 0 <= j < k - 1 ensures stocks[1..][j].symbol != symbol {
          assert stocks[1..][j] == stocks[j + 1];
        }
      }
      FindStockFirst(stocks[1..], symbol, k - 1);
    }
  }

  /**
   * The name comes from the first matching stock alone: its truthy name, or
   * the fallback when that name is missing or empty, even if a later stock
   * with the same symbol has a name.
   */
  lemma DisplayNameOfFirstMatch(stocks: seq<CatalogEntry>, symbol: string, k: int)
    requires FirstMatch(stocks, symbol, k)
    ensures Truthy(stocks[k].name) ==> DisplayName(stocks, symbol) == stocks[k].name.value
    ensures !Truthy(stocks[k].name) ==> DisplayName(stocks, symbol) == Fallback
  {
    FindStockFirst(stocks, symbol, k);
  }

  /** With a catalog body that is not an array every name is the fallback. */
  lemma NonArrayCatalogGivesFallback(remote: seq<RemoteEntry>)
    ensures forall i :: 0 <= i < |remote| ==> Enrich(remote, CatalogStocks(CatalogOther))[i].name == Fallback
  {
  }

  /** A remote entry found in the catalog takes the catalog's name. */
  lemma EnrichKnownSymbol()
    ensures Enrich([RemoteEntry("AAPL")], [CatalogEntry("AAPL", Some("Apple Inc."))])
         == [Item("AAPL", "Apple Inc.")]
  {
  }

  /** A remote entry missing from the catalog gets the fallback name. */
  lemma EnrichUnknownSymbol()
    ensures Enrich([RemoteEntry("ZZZZ")], [CatalogEntry("AAPL", Some("Apple Inc."))])
         == [Item("ZZZZ", Fallback)]
  {
  }

  /** An empty name on the first match shadows a later match that has a name. */
  lemma EmptyFirstNameShadows()
    ensures DisplayName([CatalogEntry("X", Some("")), CatalogEntry("X", Some("Xco"))], "X") == Fallback
  {
  }

  /** Enrichment copies the remote list verbatim: duplicate entries stay duplicated. */
  lemma EnrichKeepsDuplicates(stocks: seq<CatalogEntry>, symbol: string)
    ensures var r := Enrich([RemoteEntry(symbol), RemoteEntry(symbol)], stocks);
            |r| == 2 && r[0] == r[1] && !Unique(r)
  {
  }
}
