# Watchlist store

A Dafny model of the watchlist composable of a stock-watchlist front-end
(`composables/useWatchlist.ts`). The composable keeps an ordered list of
`{symbol, name}` items. It derives the symbol list, the count and membership
from that list. It offers five mutations that keep the list in step with a
remote watchlist API: load, add, remove, toggle and clear.

Every remote-backed mutation changes the in-memory list only when the user id
is present and the remote call succeeds. Otherwise the list stays exactly as
it was. The model makes the environment explicit:

- the identity provider's answer is an `Option<string>` user id; like the
  source's `if (!userId)`, an empty string counts as no user;
- each POST or DELETE becomes a success flag;
- each GET becomes an `Option` of its reply body (`None` when the request
  fails). A body is either a JSON array or some other value.

Modules:

- `WatchlistItems`: the item datatype and the derived views `Symbols`,
  `Count`, `IsIn` and `FindIndex` (the source's `findIndex`), plus the
  no-duplicate-symbols predicate `Unique`.
- `Enrichment`: how a reload names each remote entry from the stock catalog
  (`FindStock` is the source's `find`, `DisplayName` the `|| 'Unbekannt'`
  fallback, `Enrich` the `map`).
- `WatchlistSpec`: for each operation, a function giving the list after the
  call from the list before it and the inputs, and the lemmas about these
  functions.
- `WatchlistStore`: the class `Watchlist` owning the list. Its methods change
  it in place, and each is proved to produce exactly what the matching
  `WatchlistSpec` function describes.

Behaviour of the code that the model keeps:

- The fallback display name is `"Unbekannt"`.
- The code does not keep symbols unique: a reload copies the remote list
  verbatim, duplicates included. Uniqueness is therefore not a class
  invariant. Add, remove and toggle are proved to preserve it.
- A remove drops only the first item with the symbol. So a successful toggle
  takes one occurrence away from a watched symbol, however many it has.
  Two successful toggles restore the watched status unless the symbol occurs
  exactly twice (`ToggleTwiceRestores`, `ToggleTwiceWithDuplicate`).
- A catalog lookup takes the first catalog stock whose symbol matches. If
  that stock's name is missing or empty, the name is the fallback, even when
  a later stock with the same symbol has a name.
- A watchlist reply whose body is not an array makes `.map` throw. The throw
  is caught, so such a reload leaves the list unchanged.

## Model

| member | source | states |
|---|---|---|
| `WatchlistItems.Symbols` | composables/useWatchlist.ts:16-18 | the symbol view has one entry per item, and entry i is item i's symbol |
| `WatchlistItems.ViewsAgree` | composables/useWatchlist.ts:20-22 | the count equals the list length and the length of the symbol view |
| `WatchlistItems.Count` | composables/useWatchlist.ts:20-22 | definition of the `watchlistCount` view, no contract: the length of the list (stated by `ViewsAgree`) |
| `WatchlistItems.IsIn` | composables/useWatchlist.ts:24-26 | definition of `isInWatchlist`, no contract: the symbol occurs in the symbol view (characterised by `IsInIff`) |
| `WatchlistItems.IsInIff` | composables/useWatchlist.ts:24-26 | a symbol is watched iff some item carries it |
| `WatchlistItems.FindIndex` | composables/useWatchlist.ts:86 | returns -1 iff no item has the symbol; otherwise the position of the first item that has it |
| `WatchlistItems.IsInIffFound` | composables/useWatchlist.ts:86-90 | membership through the symbol view agrees with the `findIndex` search that remove relies on |
| `WatchlistItems.IsInIffOccurs` | composables/useWatchlist.ts:24-26 | a symbol is watched iff it occurs at least once in the list |
| `WatchlistItems.UniqueAtMostOnce` | composables/useWatchlist.ts:61-78 | in a list without duplicate symbols every symbol occurs at most once, so the occurrence-based toggle lemmas apply to it |
| `Enrichment.CatalogStocks` | composables/useWatchlist.ts:43 | definition of line 43, no contract: a non-array catalog body is read as the empty catalog (its consequence is proved by `NonArrayCatalogGivesFallback`) |
| `Enrichment.FindStock` | composables/useWatchlist.ts:47 | none iff no catalog stock has the symbol; a found stock is in the catalog and has the symbol |
| `Enrichment.FindStockFirst` | composables/useWatchlist.ts:47 | the stock found is the first catalog stock with the symbol |
| `Enrichment.Truthy` | composables/useWatchlist.ts:50 | definition of the `||` test on the name, no contract: present and not the empty string (used by `DisplayNameOfFirstMatch`) |
| `Enrichment.DisplayName` | composables/useWatchlist.ts:47-50 | the resolved name is never empty, and is the fallback when no catalog stock has the symbol |
| `Enrichment.DisplayNameOfFirstMatch` | composables/useWatchlist.ts:47-50 | the name is the first matching stock's name when that is truthy, and the fallback when it is missing or empty |
| `Enrichment.Enrich` | composables/useWatchlist.ts:46-52 | one item per remote entry, same order, remote symbol kept, name resolved from the catalog |
| `Enrichment.NonArrayCatalogGivesFallback` | composables/useWatchlist.ts:42-43 | with a non-array catalog reply every enriched name is `Unbekannt` |
| `Enrichment.EnrichKnownSymbol` | composables/useWatchlist.ts:46-52 | remote `[AAPL]` with catalog `[AAPL: Apple Inc.]` gives `[{AAPL, Apple Inc.}]` |
| `Enrichment.EnrichUnknownSymbol` | composables/useWatchlist.ts:50 | a remote symbol missing from the catalog gets the name `Unbekannt` |
| `Enrichment.EmptyFirstNameShadows` | composables/useWatchlist.ts:47-50 | an empty name on the first match gives the fallback even though a later match has a name |
| `Enrichment.EnrichKeepsDuplicates` | composables/useWatchlist.ts:46 | enrichment copies duplicate remote entries, so the result need not be unique |
| `WatchlistSpec.Authenticated` | composables/useWatchlist.ts:31-32 | definition of the `if (!userId)` guard (repeated at lines 68-69, 94-95, 123-124), no contract: a user id is usable when present and not empty |
| `WatchlistSpec.AfterAdd` | composables/useWatchlist.ts:60-83 | definition of the list after `addToWatchlist`, no contract; its meaning is proved by `AddWatchedIsNoOp`, `AddUnwatched` and `AddPreservesUnique` |
| `WatchlistSpec.AfterRemove` | composables/useWatchlist.ts:85-109 | definition of the list after `removeFromWatchlist`, no contract; its meaning is proved by `RemoveUnwatchedIsNoOp`, `RemoveDropsFirstItem` and `RemoveOccurrences` |
| `WatchlistSpec.AfterToggle` | composables/useWatchlist.ts:112-118 | definition of the list after `toggleWatchlist`, no contract: remove when watched, add otherwise; its meaning is proved by `ToggleOccurrences` and `ToggleTwiceRestores` |
| `WatchlistSpec.AfterClear` | composables/useWatchlist.ts:120-135 | definition of the list after `clearWatchlist`, no contract; its meaning is proved by `ClearEmpties` |
| `WatchlistSpec.LoadSucceeds` | composables/useWatchlist.ts:30-46 | definition, no contract: a usable user id, both GETs answered and an array watchlist body |
| `WatchlistSpec.AfterLoad` | composables/useWatchlist.ts:28-58 | definition of the list after `loadWatchlist`, no contract; its meaning is proved by `LoadReplaces` and `FailedCallNoChange` |
| `WatchlistSpec.AddWatchedIsNoOp` | composables/useWatchlist.ts:60-64 | adding an already-watched symbol leaves the list identical, whatever the outcome |
| `WatchlistSpec.AddUnwatched` | composables/useWatchlist.ts:66-78 | for an unwatched symbol: with a user id and a successful POST, exactly the stock is appended and earlier items are untouched; otherwise nothing changes |
| `WatchlistSpec.AddWatches` | composables/useWatchlist.ts:74-78 | after a successful add the symbol is watched |
| `WatchlistSpec.AddPreservesUnique` | composables/useWatchlist.ts:60-78 | a list without duplicate symbols has none after an add, whatever the outcome |
| `WatchlistSpec.RemoveUnwatchedIsNoOp` | composables/useWatchlist.ts:85-90 | removing an unwatched symbol leaves the list identical, whatever the outcome |
| `WatchlistSpec.RemoveDropsFirstItem` | composables/useWatchlist.ts:86-103 | with a user id and a successful DELETE, exactly the first item with the symbol is spliced out and the others keep their order; otherwise nothing changes |
| `WatchlistSpec.RemoveOccurrences` | composables/useWatchlist.ts:85-103 | a successful remove takes away exactly one occurrence of a watched symbol and none of an unwatched one |
| `WatchlistSpec.RemovePreservesUnique` | composables/useWatchlist.ts:85-103 | a list without duplicate symbols has none after a remove, whatever the outcome |
| `WatchlistSpec.RemoveUnwatches` | composables/useWatchlist.ts:85-103 | a successful remove leaves the symbol unwatched iff it occurred at most once |
| `WatchlistSpec.TogglePreservesUnique` | composables/useWatchlist.ts:112-118 | a list without duplicate symbols has none after a toggle, whatever the outcome |
| `WatchlistSpec.AddOccurrences` | composables/useWatchlist.ts:66-78 | a successful add of an unwatched symbol makes it occur exactly once |
| `WatchlistSpec.ToggleOccurrences` | composables/useWatchlist.ts:112-118 | a successful toggle adds one occurrence of an unwatched symbol and removes one from a watched symbol |
| `WatchlistSpec.ToggleFlips` | composables/useWatchlist.ts:112-118 | a successful toggle flips the symbol's watched status iff the symbol occurs at most once |
| `WatchlistSpec.ToggleTwiceRestores` | composables/useWatchlist.ts:112-118 | for any list, two successful toggles restore the watched status iff the symbol does not occur exactly twice; for an unwatched stock they give back the very same list |
| `WatchlistSpec.ToggleTwiceWithDuplicate` | composables/useWatchlist.ts:112-118 | a reloaded list holding the toggled symbol exactly twice is watched before, and unwatched after, two successful toggles |
| `WatchlistSpec.AddThenToggleEmpties` | composables/useWatchlist.ts:112-118 | starting empty, a successful add then a successful toggle of the same stock leave count 0 |
| `WatchlistSpec.ClearEmpties` | composables/useWatchlist.ts:120-135 | a successful clear gives the empty list, empty symbol view and count 0, whatever the prior list; otherwise nothing changes |
| `WatchlistSpec.LoadReplaces` | composables/useWatchlist.ts:28-58 | a successful reload gives one item per remote entry in remote order with the remote symbols and catalog names; any failure leaves the list untouched |
| `WatchlistSpec.NoUserNoChange` | composables/useWatchlist.ts:30-34 | without a usable user id (the same guard at lines 67-71, 93-97, 122-126), load, add, remove, toggle and clear all leave the list untouched |
| `WatchlistSpec.FailedCallNoChange` | composables/useWatchlist.ts:55-57 | a failed remote call (the same catch at lines 80-82, 105-108, 132-134) leaves the list untouched; for load this covers a failed watchlist GET, a failed catalog GET and a non-array watchlist body |
| `WatchlistStore.Watchlist.constructor` | composables/useWatchlist.ts:14 | the state starts as the empty list |
| `WatchlistStore.Watchlist.Load` | composables/useWatchlist.ts:28-58 | the new list is exactly what `AfterLoad` gives for the old list and the inputs |
| `WatchlistStore.Watchlist.Add` | composables/useWatchlist.ts:60-83 | the new list is exactly `AfterAdd` of the old one; an old list without duplicates stays without duplicates |
| `WatchlistStore.Watchlist.Remove` | composables/useWatchlist.ts:85-109 | the new list is exactly `AfterRemove` of the old one; an old list without duplicates stays without duplicates |
| `WatchlistStore.Watchlist.Toggle` | composables/useWatchlist.ts:112-118 | dispatches to remove or add; the new list is exactly `AfterToggle` of the old one, and uniqueness is kept |
| `WatchlistStore.Watchlist.Clear` | composables/useWatchlist.ts:120-135 | the new list is exactly `AfterClear` of the old one |
| `WatchlistStore.AddThenToggle` | composables/useWatchlist.ts:112-118 | through the class's own contracts: from a new store, add gives count 1 and toggle then gives count 0 |

## Left out

- HTTP requests through axios: URLs, JSON decoding and status codes are not modelled. Each POST or DELETE is a success flag, and each GET is an optional reply body whose only distinction is array or not.
- The identity provider (`auth.getUser()`, `user?.sub`): it is an optional user-id input. A throwing `getUser()` has the same effect as a failed request and is covered by the same no-change cases. `composables/useAuth.ts` and `plugins/okta.client.ts` are not part of this model.
- Console logging: it has no effect on the list.
- The framework's keyed global state and `computed` reactivity: the list is a plain field and the views are functions over it.
- Direct writes to the exported `watchlist` ref by other code are not modelled; the model's `items` field is public, and only the class's methods are specified.
- Aliasing of the shared array: add and remove change the existing array in place (`push`, `splice`), while load and clear assign a new array. A caller holding the old array sees the first two changes but not the last two. The model's list is a sequence value, so it does not capture that distinction.
- Concurrency: interleaved asynchronous calls, such as two overlapping toggles that both see "not watched", are not modelled. Each operation runs to completion before the next begins.
- Malformed entries: remote or catalog entries without a string `symbol`, and non-string names, are outside the model's types. A missing or null name is `None`.
- Extra fields of the stock passed to add or toggle: the source appends a fresh `{symbol, name}` copy, and the model's stock has only those two fields.
- `nuxt.config.ts` and `vue.config.js`: runtime and dev-server configuration with no logic.
