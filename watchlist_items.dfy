/**
 * The watchlist's items and the views derived from the list: the symbol
 * list, the count, membership and the position of a symbol.
 */
module WatchlistItems {

  /** One entry of the watchlist: a ticker symbol and its display name. */
  datatype Item = Item(symbol: string, name: string)

  /** The symbols of the items, in list order (the `watchlistSymbols` view). */
  function Symbols(items: seq<Item>): (r: seq<string>)
    ensures |r| == |items|
    ensures forall i :: 0 <= i < |items| ==> r[i] == items[i].symbol
  {
    if items == [] then [] else [items[0].symbol] + Symbols(items[1..])
  }

  /** The number of entries (the `watchlistCount` view). */
  function Count(items: seq<Item>): nat
  {
    |items|
  }

  /** Membership as the source decides it: the symbol occurs in the symbol view. */
  predicate IsIn(items: seq<Item>, symbol: string)
  {
    symbol in Symbols(items)
  }

  /** The position of the first item with the symbol, or -1 (`findIndex`). */
  function FindIndex(items: seq<Item>, symbol: string): (r: int)
    ensures -1 <= r < |items|
    ensures r == -1 <==> forall i :: 0 <= i < |items| ==> items[i].symbol != symbol
    ensures 0 <= r ==> items[r].symbol == symbol
    ensures 0 <= r ==> forall j :: 0 <= j < r ==> items[j].symbol != symbol
  {
    if items == [] then -1
    else if items[0].symbol == symbol then 0
    else
      var k := FindIndex(items[1..], symbol);
      if k == -1 then -1 else k + 1
  }

  /** No two items share a symbol. */
  ghost predicate Unique(items: seq<Item>)
  {
    forall i, j :: 0 <= i < j < |items| ==> items[i].symbol != items[j].symbol
  }

  /** How many items carry the symbol. */
  function Occurrences(items: seq<Item>, symbol: string): nat
  {
    if items == [] then 0
    else (if items[0].symbol == symbol then 1 else 0) + Occurrences(items[1..], symbol)
  }

  /** The count equals the length of the list and of the symbol view. */
  lemma ViewsAgree(items: seq<Item>)
    ensures Count(items) == |Symbols(items)| == |items|
  {
  }

  /** A symbol is watched exactly when some item carries it. */
  lemma IsInIff(items: seq<Item>, symbol: string)
    ensures IsIn(items, symbol) <==> exists i :: 0 <= i < |items| && items[i].symbol == symbol
  {
  }

  /** Membership through the symbol view and the search by `findIndex` agree. */
  lemma IsInIffFound(items: seq<Item>, symbol: string)
    ensures IsIn(items, symbol) <==> FindIndex(items, symbol) != -1
  {
  }

  /** The item at a position whose symbol is not watched cannot carry it. */
  lemma NotInNoItem(items: seq<Item>, symbol: string, i: int)
    requires !IsIn(items, symbol) && 0 <= i < |items|
    ensures items[i].symbol != symbol
  {
  }

  /** Occurrences of a concatenation add up. */
  lemma {:induction false} OccurrencesAppend(a: seq<Item>, b: seq<Item>, symbol: string)
    ensures Occurrences(a + b, symbol) == Occurrences(a, symbol) + Occurrences(b, symbol)
  {
    if a == [] {
      assert a + b == b;
    } else {
      assert (a + b)[1..] == a[1..] + b;
      OccurrencesAppend(a[1..], b, symbol);
    }
  }

  /** A symbol is watched exactly when it occurs at least once. */
  lemma {:induction false} IsInIffOccurs(items: seq<Item>, symbol: string)
    ensures IsIn(items, symbol) <==> Occurrences(items, symbol) > 0
  {
    IsInIff(items, symbol);
    if items != [] {
      IsInIffOccurs(items[1..], symbol);
      IsInIff(items[1..], symbol);
      if items[0].symbol != symbol && IsIn(items, symbol) {
        var k :| 0 <= k < |items| && items[k].symbol == symbol;
        assert items[1..][k - 1] == items[k];
      }
    }
  }

  /** In a list without duplicate symbols every symbol occurs at most once. */
  lemma {:induction false} UniqueAtMostOnce(items: seq<Item>, symbol: string)
    requires Unique(items)
    ensures Occurrences(items, symbol) <= 1
  {
    if items != [] {
      assert Unique(items[1..]) by {
        forall i, j | 0 <= i < j < |items[1..]| ensures items[1..][i].symbol != items[1..][j].symbol {
          assert items[1..][i] == items[i + 1] && items[1..][j] == items[j + 1];
        }
      }
      UniqueAtMostOnce(items[1..], symbol);
      if items[0].symbol == symbol {
        IsInIff(items[1..], symbol);
        IsInIffOccurs(items[1..], symbol);
      }
    }
  }
}
