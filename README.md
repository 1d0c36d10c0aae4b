# Restaurant reviews: data access layer and asset cache worker

A Dafny model of the two pieces of logic in the restaurant-directory web app:

- **`DBHelper`** (`js/dbhelper.js`). `fetchRestaurants` tries the network first. On success it hands the
  collection to its callback and copies it into the IndexedDB object store `details-db`, but only
  while that store is empty (first write wins). On failure it walks the store with a cursor and hands
  the callback every stored collection, and the error `Error in processing` for a falsy entry. The
  queries built on it are: lookup by id, the cuisine and neighborhood filters, the combined filter with
  its `'all'` sentinel, and the distinct neighborhood and cuisine lists. There are also two URL builders.
- **The service worker** (`sw.js`). Its cache version `restaurant-reviews-v1` and nine-item asset list.
  Its handlers: `install` stores the assets, `activate` deletes every other cache, `fetch` is cache-first
  with the network behind it and a fallback into a cache named `"Error"`, and `message` triggers
  `skipWaiting`.

Files:

- `outcomes.dfy`: `Option`, and `Result`, which stands for the `(error, result)` callback convention.
- `restaurant_queries.dfy`: the queries, as functions over one delivered collection.
- `restaurant_urls.dfy`: the URL builders. It also renders and parses the decimal id, so that a page URL
  can be read back.
- `offline_fetch.dfy`: `fetchRestaurants`. The object store is a class whose entries the operation
  counts, appends to and walks. The method returns the list of callbacks it makes, in order.
- `asset_cache.dfy`: the worker. It is a class holding the origin's cache storage as a
  `map<string, map<Url, Response>>`. Each handler is a method. A specification function gives the storage
  each handler leaves behind.

The network, the browser's IndexedDB support and the worker's incoming messages are parameters of the
operations that use them. Each callback `fetchRestaurants` makes is one `Result` value. A query turns
one such value into the value its own callback receives.

Notes on the code:

- With the network down and the object store empty, `fetchRestaurants` makes no callback at all: the
  cursor is null and the walk returns (`js/dbhelper.js:68-70`). `Error in processing` comes only from a
  stored entry whose value is falsy.
- On a fetch miss the worker stores the response under the request's URL (`sw.js:51`).
- The cache version is the constant of `sw.js:2`.

## Model

| member | source | states |
|---|---|---|
| `RestaurantQueries.FindById` | js/dbhelper.js:94-99 | succeeds exactly when some record has the id. It then returns a record with that id that no earlier record's id matches (the first match). Otherwise it fails with `Restaurant does not exist` |
| `RestaurantQueries.FetchRestaurantById` | js/dbhelper.js:88-102 | an error from `fetchRestaurants` is passed on unchanged; a delivered collection goes to the lookup |
| `RestaurantQueries.ByIdExample` | js/dbhelper.js:94-99 | with ids 1, 2, 3 the lookup of 2 gives the second record and the lookup of 99 gives `Restaurant does not exist` |
| `RestaurantQueries.ByField` | js/dbhelper.js:114 | the result is an ordered subsequence of the input. It keeps every record whose field equals the argument, as many times as the input has it, and drops all others. An empty result is a value, not an error |
| `RestaurantQueries.FetchRestaurantByCuisine` | js/dbhelper.js:107-118 | an error is passed on unchanged; a collection gives a success holding the cuisine filter's result |
| `RestaurantQueries.FetchRestaurantByNeighborhood` | js/dbhelper.js:123-134 | an error is passed on unchanged; a collection gives a success holding the neighborhood filter's result |
| `RestaurantQueries.FiltersCommute` | js/dbhelper.js:145-151 | applying two field filters in either order gives the same sequence |
| `RestaurantQueries.ByCuisineAndNeighborhood` | js/dbhelper.js:145-151 | with both arguments `'all'` the collection comes back unchanged. Otherwise the result is the ordered subsequence holding exactly the records (with their multiplicity) that match every argument other than `'all'` |
| `RestaurantQueries.CombinedFilterOrderIrrelevant` | js/dbhelper.js:145-151 | when neither argument is `'all'`, the combined query gives the same result as filtering by neighborhood first and by cuisine second |
| `RestaurantQueries.FetchRestaurantByCuisineAndNeighborhood` | js/dbhelper.js:139-155 | an error is passed on unchanged; a collection gives a success holding the combined filter's result |
| `RestaurantQueries.IndexOf` | js/dbhelper.js:169 | `indexOf` gives -1 exactly for an absent value, and otherwise a position holding the value that no earlier position holds |
| `RestaurantQueries.Distinct` | js/dbhelper.js:169 | the `indexOf(v) == i` filter has no duplicates and the same values as its input. Its values come in the order of their first occurrence in the input |
| `RestaurantQueries.DistinctValues` | js/dbhelper.js:167-169 | the list of one field holds each value some record has, exactly once, and nothing else. The values come in the order of first occurrence |
| `RestaurantQueries.FetchNeighborhoods` | js/dbhelper.js:160-173 | an error is passed on unchanged; a collection gives the distinct neighborhoods |
| `RestaurantQueries.FetchCuisines` | js/dbhelper.js:178-191 | an error is passed on unchanged; a collection gives the distinct cuisines |
| `RestaurantQueries.CuisinesExample` | js/dbhelper.js:185-188 | cuisines Mexican, Italian, Mexican list as Mexican, Italian |
| `RestaurantUrls.DecimalRoundTrip` | js/dbhelper.js:197 | the decimal text of an id reads back as that id |
| `RestaurantUrls.UrlForRestaurant` | js/dbhelper.js:196-198 | the page URL starts with `./restaurant.html?id=` and has something after it |
| `RestaurantUrls.UrlRoundTrip` | js/dbhelper.js:196-198 | the id read back from the page URL after `./restaurant.html?id=` is the restaurant's id |
| `RestaurantUrls.UrlsDistinguishIds` | js/dbhelper.js:196-198 | restaurants with different ids get different page URLs |
| `RestaurantUrls.FirstCharacter` | js/dbhelper.js:204 | `substr(0, 1)` is a prefix of the name, one character long unless the name is empty |
| `RestaurantUrls.ImageUrlsForRestaurant` | js/dbhelper.js:203-210 | the three URLs share the path `./img/` plus the photograph's first character. They end in `-small.jpg`, `-medium.jpg` and `-large.jpg` and are pairwise different |
| `RestaurantUrls.ImageUrlsDependOnFirstCharacterOnly` | js/dbhelper.js:204-209 | two restaurants get the same image URLs if and only if their photograph names start with the same character |
| `OfflineFetch.ObjectStore.Count` | js/dbhelper.js:48 | `store.count()` is the number of stored entries |
| `OfflineFetch.ObjectStore.Add` | js/dbhelper.js:50 | `store.add` appends one entry after all existing ones |
| `OfflineFetch.Deliver` | js/dbhelper.js:72-78 | a stored collection is delivered as a success; a falsy value gives `Error in processing` |
| `OfflineFetch.WalkCursor` | js/dbhelper.js:66-80 | one callback per stored entry, in key order, each the delivery of that entry; an empty store makes no callback |
| `OfflineFetch.StoreAfterFetch` | js/dbhelper.js:48-54 | a store that holds an entry is never changed. An empty store receives the network's collection only when IndexedDB is supported and the network succeeded |
| `OfflineFetch.FetchRestaurants` | js/dbhelper.js:22-82 | without IndexedDB it makes no callback. On network success it makes exactly one callback, with the collection. On failure it makes the cursor walk's callbacks. The store is left as the store function says |
| `OfflineFetch.FirstWriteWins` | js/dbhelper.js:48-54 | over any run of calls, a store that holds an entry keeps it unchanged. An empty store ends up holding exactly the first collection the network delivered, or nothing |
| `OfflineFetch.AtMostOneSnapshot` | js/dbhelper.js:48-54 | starting from an empty store, this path never puts more than one entry in it |
| `AssetCache.Open` | sw.js:18 | `caches.open` leaves every existing cache as it was and creates the named one empty when it is missing |
| `AssetCache.Put` | sw.js:51 | `cache.put` sets one URL of one cache and changes no other entry or cache |
| `AssetCache.Installed` | sw.js:16-21 | after install the current cache exists. When every asset was fetched with a status `addAll` accepts (200 to 299, not 206), its URLs are exactly its old URLs plus the nine assets, and each asset maps to its response. Entries for other URLs and all other caches are unchanged. When one asset fails or answers another status, only the creation of the cache remains |
| `AssetCache.InstallStoresEveryItem` | sw.js:3-21 | a successful install into empty storage leaves exactly nine entries in `restaurant-reviews-v1` |
| `AssetCache.ServiceWorker.Install` | sw.js:16-21 | reports whether `addAll` succeeded (every asset fetched with an accepted status) and leaves the storage `Installed` gives |
| `AssetCache.Activated` | sw.js:26-33 | after activate the only cache name that can remain is `restaurant-reviews-v1`, and it keeps its contents |
| `AssetCache.ActivateIdempotent` | sw.js:26-33 | activating twice leaves the same storage as activating once |
| `AssetCache.ServiceWorker.Activate` | sw.js:24-36 | the loop over the cache names deletes every stale cache and leaves the storage `Activated` gives |
| `AssetCache.ServiceWorker.Match` | sw.js:41 | `caches.match` finds a response exactly when some cache holds the URL. What it returns is what such a cache holds |
| `AssetCache.Lookup` | sw.js:56 | `cache.match(key)` on one cache answers exactly when the key is stored, with the stored response |
| `AssetCache.FetchedStorage` | sw.js:41-56 | a hit leaves the storage unchanged. A miss with a network answer puts it under the URL in `restaurant-reviews-v1`. A miss without one only opens `"Error"` |
| `AssetCache.ServiceWorker.Fetch` | sw.js:39-60 | a hit returns the stored response without contacting the network. A miss contacts the network and returns its response. With the network down too, it returns what `"Error"` holds under the key `restaurant-reviews-v1` |
| `AssetCache.FetchMissStoresResponse` | sw.js:47-54 | after a miss the network answered, `restaurant-reviews-v1` maps the URL to that response and every other entry and cache is unchanged. The next fetch of that URL is a hit answering exactly that response |
| `AssetCache.FetchMissWithoutNetwork` | sw.js:55-56 | a miss the network cannot answer changes no existing cache, only adds an empty `"Error"` cache, and leaves the URL uncached |
| `AssetCache.ErrorFallbackStaysEmpty` | sw.js:55-56 | no handler writes into `"Error"`. Once it lacks the key `restaurant-reviews-v1`, it lacks it after any run of events, so every later offline miss answers with no response |
| `AssetCache.ServiceWorker.Message` | sw.js:64-68 | `skipWaiting` is called once exactly when the action is the string `skipWaiting`; the caches do not change |

## Left out

- Service worker registration at `js/dbhelper.js:1-10`, and all console logging: browser plumbing.
- The `idb.open` upgrade callback (`js/dbhelper.js:27-35`): the store `details-db` is taken to exist. When
  IndexedDB is missing, the model makes no callback and touches no store.
- Promise scheduling. The store write and the callback run in sequence, and the write does not wait for
  `tx.complete`. Races between a write and a concurrent cursor read are not modelled. Neither are failures
  of the store transaction.
- An exception thrown by the caller's callback on the success path would reach the `.catch` at
  `js/dbhelper.js:60` and start the store fallback; that path is not modelled.
- `OfflineFetch.FetchRestaurants`: a network body that parses to a falsy value is not modelled. A successful
  network outcome always carries a collection; falsy store entries (`Blank`) are taken as given. A body
  that does not parse as JSON counts as a network failure, as in the code.
- `RestaurantQueries.FindById`: ids are natural numbers compared exactly. JavaScript's loose `==` between a
  numeric id and a query-string id is not modelled.
- `RestaurantUrls.UrlForRestaurant`: ids are rendered as plain decimal text; JavaScript's rendering of
  non-integer or huge numbers is not modelled.
- `RestaurantUrls.FirstCharacter`: names are sequences of Unicode characters, while `substr(0, 1)` takes one
  UTF-16 code unit. A photograph name that starts outside the Basic Multilingual Plane (U+0000 to U+FFFF)
  gives a different image path than the code, which keeps only the first half of a surrogate pair.
- `RestaurantUrls.ImageUrlsForRestaurant`: `photograph` is always a string. The `TypeError` for a record
  without one is not modelled.
- `mapMarkerForRestaurant` (`js/dbhelper.js:215-224`): a call into the Leaflet map library. The record's
  `latlng` field is omitted with it.
- In the worker: the `waitUntil`/`respondWith` lifecycle, `res.clone()`, and the HTTP fetches themselves.
  The network is an input: a map of fetchable URLs at install, an optional response at fetch.
- `AssetCache.ServiceWorker.Match`: when several caches hold the URL, it does not say which one answers.
  The cache API consults caches in creation order; the model does not keep that order.
- Requests are their URLs, as given. Request methods, `Vary` headers and the resolution of relative URLs
  (including the key `restaurant-reviews-v1` in the `"Error"` cache) against the worker's scope are not
  modelled.
- The atomicity of `cache.addAll` belongs to the cache API. It is modelled as all or nothing, in one step.
- Failures of `cache.put`, which the fetch handler never observes, are not modelled.
- What `skipWaiting` does to the worker's lifecycle: the model only counts the calls. A message whose
  data has no `action` is `None`.
