/**
 * The asset cache worker (sw.js): the cache version and asset list, and
 * the `install`, `activate`, `fetch` and `message` handlers as transitions
 * of the origin's cache storage, a map from cache name to a map from
 * request URL to stored response.
 *
 * The network is an input of each handler that uses it; `skipWaiting` is
 * recorded as a count of calls.
 */
module AssetCache {
  import opened Outcomes

  type Url = string

  /** A response as the cache stores it; its contents do not matter here. */
  datatype Response = Response(status: nat, body: string)

  type Cache = map<Url, Response>
  type CacheStorage = map<string, Cache>

  /** `cache_name`: the version string of the current cache. */
  const CacheName := "restaurant-reviews-v1"

  /** `cache_items`: the assets stored at install. */
  const CacheItems: seq<Url> := [
    "./",
    "./index.html",
    "./restaurant.html",
    "./css/styles.css",
    "./js/dbhelper.js",
    "./js/main.js",
    "./js/restaurant_info.js",
    "./img/",
    "./manifest.json"
  ]

  /** The cache the fetch handler falls back to when the network fails. */
  const ErrorCacheName := "Error"

  const SkipWaitingAction := "skipWaiting"

  // ---------------------------------------------------------------------
  // Cache storage operations
  // ---------------------------------------------------------------------

  /** `caches.open(name)`: the named cache, created empty when there is none. */
  function Open(cs: CacheStorage, name: string): (r: CacheStorage)
    ensures name in r && r.Keys == cs.Keys + {name}
    ensures name !in cs ==> r[name] == map[]
    ensures forall n :: n in cs ==> r[n] == cs[n]
  {
    if name in cs then cs else cs[name := map[]]
  }

  /** `cache.put(url, response)` into an open cache. */
  function Put(cs: CacheStorage, name: string, url: Url, response: Response): (r: CacheStorage)
    requires name in cs
    ensures r.Keys == cs.Keys
    ensures r[name].Keys == cs[name].Keys + {url} && r[name][url] == response
    ensures forall u :: u in cs[name] && u != url ==> r[name][u] == cs[name][u]
    ensures forall n :: n in cs && n != name ==> r[n] == cs[n]
  {
    cs[name := cs[name][url := response]]
  }

  /** Some cache of the storage holds a response for `url`. */
  predicate Cached(cs: CacheStorage, url: Url) {
    exists n :: n in cs && url in cs[n]
  }

  /** `response` is what some cache of the storage holds for `url`. */
  predicate StoredIn(cs: CacheStorage, url: Url, response: Response) {
    exists n :: n in cs && url in cs[n] && cs[n][url] == response
  }

  // ---------------------------------------------------------------------
  // install
  // ---------------------------------------------------------------------

  /** A response `cache.addAll` accepts: an OK status (200 to 299) that is not a partial 206. */
  predicate Storable(response: Response) {
    200 <= response.status <= 299 && response.status != 206
  }

  /** Every asset of the list is fetched with a response `cache.addAll` accepts. */
  predicate AllFetched(network: map<Url, Response>) {
    forall u :: u in CacheItems ==> u in network && Storable(network[u])
  }

  function ItemResponses(network: map<Url, Response>): (m: Cache)
    requires AllFetched(network)
    ensures m.Keys == set u | u in CacheItems
    ensures forall u :: u in m ==> m[u] == network[u]
  {
    map u | u in CacheItems :: network[u]
  }

  /** The storage after `caches.open(cache_name).then(cache => cache.addAll(cache_items))`. */
  function Installed(cs: CacheStorage, network: map<Url, Response>): (r: CacheStorage)
    ensures r.Keys == cs.Keys + {CacheName}
    ensures forall n :: n in cs && n != CacheName ==> r[n] == cs[n]
    ensures AllFetched(network) ==>
      forall u :: u in CacheItems ==> u in r[CacheName] && r[CacheName][u] == network[u]
    ensures AllFetched(network) ==>
      r[CacheName].Keys == Open(cs, CacheName)[CacheName].Keys + (set u | u in CacheItems)
    ensures forall u :: u in Open(cs, CacheName)[CacheName] && u !in CacheItems ==>
      u in r[CacheName] && r[CacheName][u] == Open(cs, CacheName)[CacheName][u]
    ensures !AllFetched(network) ==> r == Open(cs, CacheName)
  {
    var current := Open(cs, CacheName);
    if AllFetched(network) then current[CacheName := current[CacheName] + ItemResponses(network)]
    else current
  }

  lemma {:induction false} DistinctUrlsCount(s: seq<Url>)
    requires forall i, j :: 0 <= i < j < |s| ==> s[i] != s[j]
    ensures |set u | u in s| == |s|
    decreases |s|
  {
    if s != [] {
      var init := s[..|s| - 1];
      DistinctUrlsCount(init);
      assert (set u | u in s) == (set u | u in init) + {s[|s| - 1]};
    }
  }

  /** The nine assets are distinct, so a fresh install stores exactly nine entries. */
  lemma InstallStoresEveryItem(network: map<Url, Response>)
    requires AllFetched(network)
    ensures |Installed(map[], network)[CacheName]| == |CacheItems| == 9
  {
    assert forall i, j :: 0 <= i < j < |CacheItems| ==> CacheItems[i] != CacheItems[j] by {
      forall i, j | 0 <= i < j < |CacheItems| ensures CacheItems[i] != CacheItems[j] {
        assert |CacheItems[i]| != |CacheItems[j]| || CacheItems[i][2] != CacheItems[j][2];
      }
    }
    DistinctUrlsCount(CacheItems);
  }

  // ---------------------------------------------------------------------
  // activate
  // ---------------------------------------------------------------------

  /** The storage once every cache whose name is not `cache_name` is deleted. */
  function Activated(cs: CacheStorage): (r: CacheStorage)
    ensures r.Keys <= {CacheName}
    ensures CacheName in cs <==> CacheName in r
    ensures CacheName in cs ==> r[CacheName] == cs[CacheName]
  {
    map n | n in cs && n == CacheName :: cs[n]
  }

  lemma ActivateIdempotent(cs: CacheStorage)
    ensures Activated(Activated(cs)) == Activated(cs)
  {
  }

  // ---------------------------------------------------------------------
  // fetch
  // ---------------------------------------------------------------------

  /** `cache.match(key)` on one cache. */
  function Lookup(c: Cache, key: Url): (r: Option<Response>)
    ensures r.Some? <==> key in c
    ensures r.Some? ==> r.value == c[key]
  {
    if key in c then Some(c[key]) else None
  }

  /** The storage after the fetch handler serves `url`. */
  function FetchedStorage(cs: CacheStorage, url: Url, network: Option<Response>): (r: CacheStorage)
    ensures Cached(cs, url) ==> r == cs
    ensures !Cached(cs, url) && network.Some? ==> r == Put(Open(cs, CacheName), CacheName, url, network.value)
    ensures !Cached(cs, url) && network.None? ==> r == Open(cs, ErrorCacheName)
  {
    if Cached(cs, url) then cs
    else match network
      case Some(response) => Put(Open(cs, CacheName), CacheName, url, response)
      case None => Open(cs, ErrorCacheName)
  }

  // ---------------------------------------------------------------------
  // The worker
  // ---------------------------------------------------------------------

  class ServiceWorker {
    /** `caches`: the cache storage of the worker's origin. */
    var caches: CacheStorage
    /** How many times `self.skipWaiting()` has been called. */
    var skipWaitingCalls: nat

    constructor (initial: CacheStorage)
      ensures caches == initial && skipWaitingCalls == 0
    {
      caches := initial;
      skipWaitingCalls := 0;
    }

    /** `install`; `ok` is whether `cache.addAll` succeeded. */
    method Install(network: map<Url, Response>) returns (ok: bool)
      modifies this
      ensures ok == AllFetched(network)
      ensures caches == Installed(old(caches), network)
      ensures skipWaitingCalls == old(skipWaitingCalls)
    {
      caches := Open(caches, CacheName);
      ok := AllFetched(network);
      if ok {
        caches := caches[CacheName := caches[CacheName] + ItemResponses(network)];
      }
    }

    /** `activate`: the loop over `caches.keys()` that deletes every stale cache. */
    method Activate()
      modifies this
      ensures caches == Activated(old(caches))
      ensures skipWaitingCalls == old(skipWaitingCalls)
    {
      var keys := caches.Keys;
      while keys != {}
        invariant keys <= old(caches).Keys
        invariant forall n :: n in caches <==> n in old(caches) && (n in keys || n == CacheName)
        invariant forall n :: n in caches ==> caches[n] == old(caches)[n]
        invariant skipWaitingCalls == old(skipWaitingCalls)
        decreases keys
      {
        var key :| key in keys;
        if key != CacheName {
          caches := caches - {key};
        }
        keys := keys - {key};
      }
      assert caches.Keys == Activated(old(caches)).Keys;
    }

    /** `caches.match(request)`: a response some cache holds for `url`. */
    method Match(url: Url) returns (hit: Option<Response>)
      ensures hit.Some? <==> Cached(caches, url)
      ensures hit.Some? ==> StoredIn(caches, url, hit.value)
    {
      hit := None;
      var names := caches.Keys;
      while names != {} && hit.None?
        invariant names <= caches.Keys
        invariant hit.None? ==> forall n :: n in caches && n !in names ==> url !in caches[n]
        invariant hit.Some? ==> StoredIn(caches, url, hit.value)
        decreases names
      {
        var name :| name in names;
        hit := Lookup(caches[name], url);
        names := names - {name};
      }
    }

    /**
     * `fetch`: cache first; on a miss the network, whose response is put
     * under the request URL in `cache_name`; when that fails too, the
     * entry `cache_name` of the cache `"Error"`.
     */
    method Fetch(url: Url, network: Option<Response>) returns (response: Option<Response>, contactedNetwork: bool)
      modifies this
      ensures contactedNetwork <==> !Cached(old(caches), url)
      ensures caches == FetchedStorage(old(caches), url, network)
      ensures Cached(old(caches), url) ==> response.Some? && StoredIn(old(caches), url, response.value)
      ensures !Cached(old(caches), url) && network.Some? ==> response == network
      ensures !Cached(old(caches), url) && network.None? ==> response == Lookup(caches[ErrorCacheName], CacheName)
      ensures skipWaitingCalls == old(skipWaitingCalls)
    {
      var hit := Match(url);
      if hit.Some? {
        response, contactedNetwork := hit, false;
      } else {
        contactedNetwork := true;
        match network
        case Some(res) =>
          caches := Open(caches, CacheName);
          caches := caches[CacheName := caches[CacheName][url := res]];
          response := Some(res);
        case None =>
          caches := Open(caches, ErrorCacheName);
          response := Lookup(caches[ErrorCacheName], CacheName);
      }
    }

    /** `message`: `skipWaiting` for the exact action string, nothing otherwise. */
    method Message(action: Option<string>)
      modifies this
      ensures skipWaitingCalls == old(skipWaitingCalls) + (if action == Some(SkipWaitingAction) then 1 else 0)
      ensures caches == old(caches)
    {
      if action == Some(SkipWaitingAction) {
        skipWaitingCalls := skipWaitingCalls + 1;
      }
    }
  }

  // ---------------------------------------------------------------------
  // Properties over runs of events
  // ---------------------------------------------------------------------

  /** The events the worker handles, with the network's answers as inputs. */
  datatype Event =
    | InstallEvent(network: map<Url, Response>)
    | ActivateEvent
    | FetchEvent(url: Url, answer: Option<Response>)
    | MessageEvent(action: Option<string>)

  /** The storage after one event, as the handlers above leave it. */
  function AfterEvent(cs: CacheStorage, e: Event): CacheStorage {
    match e
    case InstallEvent(network) => Installed(cs, network)
    case ActivateEvent => Activated(cs)
    case FetchEvent(url, answer) => FetchedStorage(cs, url, answer)
    case MessageEvent(_) => cs
  }

  function AfterEvents(cs: CacheStorage, events: seq<Event>): CacheStorage
    decreases |events|
  {
    if events == [] then cs else AfterEvents(AfterEvent(cs, events[0]), events[1..])
  }

  /** The `"Error"` cache holds nothing under the key `cache_name`. */
  predicate ErrorFallbackMisses(cs: CacheStorage) {
    ErrorCacheName in cs ==> CacheName !in cs[ErrorCacheName]
  }

  /**
   * No handler writes into the `"Error"` cache, so once its key
   * `cache_name` is absent, every later network failure on a miss answers
   * with no response.
   */
  lemma {:induction false} ErrorFallbackStaysEmpty(cs: CacheStorage, events: seq<Event>)
    requires ErrorFallbackMisses(cs)
    ensures ErrorFallbackMisses(AfterEvents(cs, events))
    ensures forall url :: !Cached(AfterEvents(cs, events), url) ==>
      Lookup(FetchedStorage(AfterEvents(cs, events), url, None)[ErrorCacheName], CacheName) == None
    decreases |events|
  {
    if events != [] {
      var next := AfterEvent(cs, events[0]);
      assert ErrorFallbackMisses(next);
      ErrorFallbackStaysEmpty(next, events[1..]);
    }
  }

  /**
   * A miss answered by the network stores that response under the request
   * URL in `cache_name` and nowhere else, so the next fetch of the URL is a
   * hit that answers with exactly that response.
   */
  lemma FetchMissStoresResponse(cs: CacheStorage, url: Url, response: Response)
    requires !Cached(cs, url)
    ensures var r := FetchedStorage(cs, url, Some(response));
      && r.Keys == cs.Keys + {CacheName}
      && r[CacheName][url] == response
      && (forall n :: n in cs && n != CacheName ==> r[n] == cs[n])
      && (CacheName in cs ==> forall u :: u in cs[CacheName] ==> u in r[CacheName] && r[CacheName][u] == cs[CacheName][u])
      && Cached(r, url)
      && (forall x :: StoredIn(r, url, x) <==> x == response)
  {
  }

  /**
   * A miss the network cannot answer writes nothing into any existing
   * cache; it only makes sure the cache `"Error"` exists.
   */
  lemma FetchMissWithoutNetwork(cs: CacheStorage, url: Url)
    requires !Cached(cs, url)
    ensures var r := FetchedStorage(cs, url, None);
      && r.Keys == cs.Keys + {ErrorCacheName}
      && (forall n :: n in cs ==> r[n] == cs[n])
      && (ErrorCacheName !in cs ==> r[ErrorCacheName] == map[])
      && !Cached(r, url)
  {
  }
}
