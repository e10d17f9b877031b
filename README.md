# MemStorage: the in-memory repository of a script catalogue

This project models the storage layer of a catalogue web application. The catalogue lists
user-submitted Roblox scripts, grouped by category, with view and download counters.
The component is `MemStorage` (`server/storage.ts`). It holds three tables: users, scripts and
categories. Each table is a JavaScript `Map` from a numeric id to a record, with its own id
counter that starts at 1. On construction the store is seeded with six categories and nine scripts.
It then serves lookups, filtered and sorted listings, inserts, and two counter bumps.

Modules, one per concern:

- `Entities` (`entities.dfy`): the records `User`, `Script` and `Category`, the inputs of the
  create operations, `Option`, and `Truthy`, JavaScript's truthiness of an optional string.
- `Text` (`text.dfy`): `toLowerCase` for ASCII, and `includes` proved equal to substring containment.
- `Arrays` (`arrays.dfy`): `Array.prototype.filter` and `Array.prototype.find`.
- `Ranking` (`ranking.dfy`): the listing order. This is a stable sort with the comparator
  `(a, b) => b.views - a.views`. It is modelled by an insertion sort, which is proved to be a
  stable descending sort, and the only one.
- `Queries` (`queries.dfy`): the bodies of `getScripts`, `getFeaturedScripts` and
  `getPopularScripts`, written over a snapshot of the script table in insertion order.
- `Seed` (`seed.dfy`): the seed entries, with their literal names, slugs, counters and flags.
- `Storage` (`storage.dfy`): the class `MemStorage`.
  - Its fields are the three maps and the three counters, as in the source.
  - `Valid()` is the store invariant. Each table's keys are exactly `1 .. counter - 1`, and each
    record is stored under its own id.
  - The constructor and the create and increment operations are methods with `modifies this`.
  - The lookups and listings are functions that read the object.
- `SeedFacts` (`seed_facts.dfy`): what the queries return on the freshly seeded store.

A JavaScript `Map` yields its values in insertion order. Keys are handed out by the counter and
never deleted, and `set` on an existing key keeps that key's place. So insertion order is ascending
id order. `InOrder` lists a table in that order, and the invariant makes the two agree. "Ties in
insertion order" in a listing therefore means "ties by ascending id" (`Ranking.Ranked`).

The seed holds six categories (server/storage.ts:42-49) and nine scripts
(server/storage.ts:57-386); after seeding, the category counter is 7 and the script counter is 10.

## Model

| member | source | states |
|---|---|---|
| `Text.ToLower` | server/storage.ts:421-424 | lower-casing keeps the length and maps every character on its own (ASCII letters only) |
| `Text.Includes` | server/storage.ts:423-424 | `includes` is true exactly when the needle occurs as a substring at some index |
| `Text.LowerKeepsOccurrence` | server/storage.ts:420-426 | an exact occurrence still occurs after lower-casing both strings, so the case-insensitive search finds it |
| `Arrays.Filter` | server/storage.ts:417 | `filter` keeps exactly the elements satisfying the predicate, with their multiplicities, and adds nothing |
| `Arrays.FilterAppend` | server/storage.ts:417 | filtering keeps the input order: filtering a concatenation is the concatenation of the filtered parts |
| `Arrays.FilterSingleton` | server/storage.ts:417 | a one-element array keeps its element exactly when the predicate holds; with `FilterAppend` this fixes the whole result, elements and order |
| `Arrays.Find` | server/storage.ts:400-402 | `find` gives none exactly when nothing matches; otherwise it gives the matching element with no match before it |
| `Ranking.SortByViews` | server/storage.ts:428 | sorting returns a permutation of its input |
| `Ranking.SortByViewsDescending` | server/storage.ts:428 | in the sorted list, views never increase |
| `Ranking.SortByViewsStable` | server/storage.ts:428 | for every view count, the scripts with that count keep their input order (`Array.prototype.sort` is stable) |
| `Ranking.SortByViewsIsStableSort` | server/storage.ts:428 | the sort is descending by views, a permutation, and stable |
| `Ranking.StableSortUnique` | server/storage.ts:428 | two arrangements that are both descending by views and agree within every group of equal views are identical |
| `Ranking.SortByViewsUnique` | server/storage.ts:428 | any stable descending sort of the input equals `SortByViews`, so the insertion sort stands for whatever algorithm the runtime uses |
| `Ranking.SortByViewsRanked` | server/storage.ts:428 | on an input in insertion (id) order, the result has more views first and breaks ties by insertion order |
| `Ranking.FilterKeepsIdsIncreasing` | server/storage.ts:417-426 | filtering a list that is in insertion order leaves it in insertion order |
| `Queries.Selection` | server/storage.ts:414-426 | a script passes both filters exactly when its category equals a real category argument and, for a non-empty search, its lower-cased name or description contains the lower-cased search; multiplicities are kept |
| `Queries.ListScripts` | server/storage.ts:413-429 | `getScripts` is a stable descending-by-views sort of the selection, and contains exactly the scripts that pass both filters |
| `Queries.AllMeansNoFilter` | server/storage.ts:416 | the category argument "all" lists the same scripts as no category argument |
| `Queries.ListScriptsRanked` | server/storage.ts:413-429 | on a snapshot in insertion order, `getScripts` lists more views first and ties in insertion order |
| `Queries.Featured` | server/storage.ts:469-471 | `getFeaturedScripts` keeps exactly the featured scripts, with their multiplicities |
| `Queries.FeaturedInOrder` | server/storage.ts:470 | the featured scripts stay in insertion order, unsorted |
| `Queries.PopularRanking` | server/storage.ts:473-477 | `getPopularScripts` contains exactly the popular scripts, as a stable descending-by-views sort of them |
| `Queries.PopularRanked` | server/storage.ts:473-477 | on a snapshot in insertion order, the popular list has more views first and ties in insertion order |
| `Storage.InOrder` | server/storage.ts:400 | `Array.from(map.values())` lists the value under key 1, then key 2, and so on up to the counter |
| `Storage.Increment` | server/storage.ts:453-467 | one increment keeps the key set, changes no other script, and never lowers an id or counter |
| `Storage.IncrementTimesAddsN` | server/storage.ts:453-467 | n increments of a present id raise that counter by exactly n and change nothing else; with the id absent, the table is unchanged |
| `Storage.MemStorage.UserValues` | server/storage.ts:400 | the user snapshot lists every stored user exactly once, with ids 1, 2, ... in insertion order |
| `Storage.MemStorage.ScriptValues` | server/storage.ts:414 | the script snapshot lists every stored script exactly once, with ids increasing |
| `Storage.MemStorage.CategoryValues` | server/storage.ts:481 | the category snapshot lists every stored category exactly once, in id order |
| `Storage.MemStorage.constructor` | server/storage.ts:29-38 | a new store is valid, has no users, and holds the six seed categories (ids 1-6) and the nine seed scripts (ids 1-9, no image); the counters are 1, 7 and 10 |
| `Storage.MemStorage.InitializeData` | server/storage.ts:40-392 | seeding stores the seed categories, then the seed scripts, in list order, and leaves the users untouched |
| `Storage.MemStorage.InsertSeedCategories` | server/storage.ts:51-54 | each seed category is stored as given under the next category id |
| `Storage.MemStorage.InsertSeedScripts` | server/storage.ts:388-391 | each seed script is stored under the next script id, with its image set to none |
| `Storage.MemStorage.GetUser` | server/storage.ts:395-397 | a user is found exactly for the ids handed out so far, and the user found carries that id |
| `Storage.MemStorage.GetUserByUsername` | server/storage.ts:399-403 | the result is none exactly when no user has that username; otherwise it is the stored user with that username and the smallest id |
| `Storage.MemStorage.CreateUser` | server/storage.ts:405-410 | the new user gets the old counter as id, and the counter advances by 1; it is appended to the table and `getUser` returns it; the other tables are unchanged |
| `Storage.MemStorage.GetScripts` | server/storage.ts:413-429 | the result contains exactly the stored scripts that pass both filters; it is ranked by views, with ties in insertion order, so it has no duplicates |
| `Storage.MemStorage.GetScript` | server/storage.ts:431-433 | a script is found exactly for the ids handed out so far, and the script found carries that id |
| `Storage.MemStorage.CreateScript` | server/storage.ts:435-451 | the new script gets the old counter as id and copies the input fields; views, downloads and rating are 0; it is not popular, is new, and is not featured; status defaults to "active" and image to none when absent or empty; the other tables are unchanged |
| `Storage.MemStorage.IncrementScriptViews` | server/storage.ts:453-459 | a present script gains exactly one view and nothing else changes; an absent id changes nothing |
| `Storage.MemStorage.IncrementScriptDownloads` | server/storage.ts:461-467 | a present script gains exactly one download and nothing else changes; an absent id changes nothing |
| `Storage.MemStorage.GetFeaturedScripts` | server/storage.ts:469-471 | the result contains exactly the stored featured scripts, in insertion order |
| `Storage.MemStorage.GetPopularScripts` | server/storage.ts:473-477 | the result contains exactly the stored popular scripts, ranked by views with ties in insertion order |
| `Storage.MemStorage.GetCategories` | server/storage.ts:480-482 | the result is every category, in id (insertion) order |
| `Storage.MemStorage.GetCategory` | server/storage.ts:484-486 | the result is none exactly when no category has that slug; otherwise it is the stored category with that slug and the smallest id |
| `Storage.MemStorage.CreateCategory` | server/storage.ts:488-497 | the new category gets the old counter as id and copies the input; an absent or empty description becomes none; the other tables are unchanged |
| `SeedFacts.SeedScriptsAt` | server/storage.ts:388-391 | the seeded script list has nine entries, the i-th with id i + 1, in id order |
| `SeedFacts.SeedViewsExtremes` | server/storage.ts:57-386 | among the seed scripts, "Universal Script Hub" has strictly the most views and "Admin Commands Hub" strictly the fewest |
| `SeedFacts.ListingEnds` | server/storage.ts:413-429 | unfiltered, the listing has every script, starts with the one with strictly the most views, and ends with the one with strictly the fewest |
| `SeedFacts.SeedListingEnds` | server/storage.ts:413-429 | on the seed, the unfiltered listing has nine scripts, from "Universal Script Hub" to "Admin Commands Hub" |
| `SeedFacts.FeaturedExactlyTwo` | server/storage.ts:469-471 | when exactly two entries are featured, the featured list is those two, in insertion order |
| `SeedFacts.SeedFeatured` | server/storage.ts:469-471 | on the seed, the featured scripts are "Universal Script Hub", then "Advanced Exploit Suite" |
| `SeedFacts.ListingExactlyOne` | server/storage.ts:413-429 | when exactly one entry passes the filters, the listing is that entry alone |
| `SeedFacts.SeedAdminOnly` | server/storage.ts:416-418 | on the seed, the category "admin" lists "Admin Commands Hub" alone |
| `SeedFacts.SearchFindsName` | server/storage.ts:420-426 | a script whose name contains text that lower-cases like the search is listed by that search |
| `SeedFacts.SeedSearchEsp` | server/storage.ts:420-426 | on the seed, the search "esp" lists "Universal ESP GUI" |
| `SeedFacts.SeedDanglingCategory` | server/storage.ts:42-49 | the seed has a category with slug "all", and `find` reaches it; no seeded category has the slug "universal", which the seed script "R4D Hub" uses |

## Left out

- Promises: every operation completes at once, so the methods are modelled as synchronous.
- The module-level singleton `storage` is not modelled. It only wires one instance into the application.
- The Lua sources in the seed scripts are not reproduced. The constructor takes them as a
  parameter, and every seed property holds whatever they are.
- Text.ToLower: maps only the ASCII letters A-Z. JavaScript's `toLowerCase` also lowers other
  scripts, such as the Cyrillic text in the seed. The seed facts search only for ASCII text,
  which no lower-cased Cyrillic letter can match.
- SeedFacts.SeedSearchEsp: states only that "Universal ESP GUI" is listed. It does not show
  that it is the only match, because that would mean ruling out every position in every seed
  description.
- The user schema is defined outside this component. Every user field other than `id` and
  `username` is folded into one opaque `auth` string, which is only copied.
- Object aliasing is not modelled. In the source, callers get the stored objects themselves, and
  an increment mutates the object in place, so callers see the change. Here records are values
  in maps, and an increment stores an updated copy.
- Ids, counters and view/download counts are unbounded integers. The JavaScript numbers lose
  precision above 2^53, which the model does not capture.
- Input validation, duplicate usernames and category references are not checked, as in the
  source. A script may name a category that does not exist.
