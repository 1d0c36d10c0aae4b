/**
 * `DBHelper.fetchRestaurants` (js/dbhelper.js): one network attempt, a
 * first-write-wins copy into the `details-db` object store on success, and
 * a cursor walk over that store on failure.
 *
 * The network and the browser's storage support are inputs; the object
 * store is an object whose entries, in key order, the operation reads and
 * appends to. Every callback the operation makes is returned, in order.
 */
module OfflineFetch {
  import opened Outcomes
  import opened RestaurantQueries

  const ProcessingError := "Error in processing"

  /** The value an entry of the object store holds: a stored collection, or a falsy value. */
  datatype Entry = Blank | Snapshot(restaurants: seq<Restaurant>)

  /** What `fetch(DATABASE_URL)` and `response.json()` produce together. */
  datatype NetworkOutcome = Fetched(restaurants: seq<Restaurant>) | Failed

  /** One `callback(error, restaurants)` call. */
  type Delivery = Result<seq<Restaurant>>

  /** The object store `details-db` of the database `restaurant-db`, with auto-incremented keys. */
  class ObjectStore {
    /** The stored values, in key order, which is the order the cursor visits them in. */
    var entries: seq<Entry>

    constructor ()
      ensures entries == []
    {
      entries := [];
    }

    /** `store.count()`. */
    method Count() returns (n: nat)
      ensures n == |entries|
    {
      n := |entries|;
    }

    /** `store.add(value)`: a new key, larger than every key in use. */
    method Add(value: Entry)
      modifies this
      ensures entries == old(entries) + [value]
    {
      entries := entries + [value];
    }
  }

  /** What one step of `continueCursoring` hands to the callback for an entry. */
  function Deliver(e: Entry): (d: Delivery)
    ensures d.Ok? <==> e.Snapshot?
    ensures d.Ok? ==> d.value == e.restaurants
    ensures d.Err? ==> d.error == ProcessingError
  {
    match e
    case Snapshot(rs) => Ok(rs)
    case Blank => Err(ProcessingError)
  }

  /**
   * The `continueCursoring` walk: one callback per stored entry, in key
   * order, and none at all when the store is empty.
   */
  method WalkCursor(store: ObjectStore) returns (calls: seq<Delivery>)
    ensures |calls| == |store.entries|
    ensures forall i :: 0 <= i < |calls| ==> calls[i] == Deliver(store.entries[i])
  {
    calls := [];
    var cursor := 0;
    while cursor < |store.entries|
      invariant 0 <= cursor <= |store.entries|
      invariant |calls| == cursor
      invariant forall i :: 0 <= i < cursor ==> calls[i] == Deliver(store.entries[i])
    {
      var value := store.entries[cursor];
      if value.Snapshot? {
        calls := calls + [Ok(value.restaurants)];
      } else {
        calls := calls + [Err(ProcessingError)];
      }
      cursor := cursor + 1;
    }
  }

  /** The store after one `fetchRestaurants` call. */
  function StoreAfterFetch(entries: seq<Entry>, indexedDbSupported: bool, network: NetworkOutcome): (r: seq<Entry>)
    ensures |entries| >= 1 ==> r == entries
    ensures entries == [] && indexedDbSupported && network.Fetched? ==> r == [Snapshot(network.restaurants)]
    ensures !indexedDbSupported || network.Failed? ==> r == entries
  {
    if indexedDbSupported && network.Fetched? && |entries| < 1
    then entries + [Snapshot(network.restaurants)]
    else entries
  }

  method FetchRestaurants(indexedDbSupported: bool, network: NetworkOutcome, store: ObjectStore)
    returns (calls: seq<Delivery>)
    modifies store
    ensures store.entries == StoreAfterFetch(old(store.entries), indexedDbSupported, network)
    ensures !indexedDbSupported ==> calls == []
    ensures indexedDbSupported && network.Fetched? ==> calls == [Ok(network.restaurants)]
    ensures indexedDbSupported && network.Failed? ==>
      |calls| == |old(store.entries)| &&
      forall i :: 0 <= i < |calls| ==> calls[i] == Deliver(old(store.entries)[i])
  {
    if !indexedDbSupported {
      return [];
    }
    match network
    case Fetched(restaurants) =>
      var count := store.Count();
      if count < 1 {
        store.Add(Snapshot(restaurants));
      }
      calls := [Ok(restaurants)];
    case Failed =>
      calls := WalkCursor(store);
  }

  // ---------------------------------------------------------------------
  // First write wins
  // ---------------------------------------------------------------------

  /** The store after a run of `fetchRestaurants` calls with the given network outcomes. */
  function StoreAfterRuns(entries: seq<Entry>, indexedDbSupported: bool, outcomes: seq<NetworkOutcome>): (r: seq<Entry>)
    decreases |outcomes|
  {
    if outcomes == [] then entries
    else StoreAfterRuns(StoreAfterFetch(entries, indexedDbSupported, outcomes[0]), indexedDbSupported, outcomes[1..])
  }

  /** The collection of the first successful network attempt, if any. */
  function FirstFetched(outcomes: seq<NetworkOutcome>): (c: Option<seq<Restaurant>>)
    ensures c.Some? <==> exists i :: 0 <= i < |outcomes| && outcomes[i].Fetched?
    ensures c.Some? ==> exists i :: 0 <= i < |outcomes| && outcomes[i] == Fetched(c.value) &&
                                    forall j :: 0 <= j < i ==> outcomes[j].Failed?
  {
    if outcomes == [] then None
    else if outcomes[0].Fetched? then Some(outcomes[0].restaurants)
    else
      var c := FirstFetched(outcomes[1..]);
      assert forall i :: 0 < i < |outcomes| ==> outcomes[i] == outcomes[1..][i - 1];
      c
  }

  /**
   * Once the store holds an entry, no later call changes it; from an empty
   * store, it ends up holding exactly the first collection the network
   * delivered, and nothing if the network never succeeded.
   */
  lemma {:induction false} FirstWriteWins(entries: seq<Entry>, indexedDbSupported: bool, outcomes: seq<NetworkOutcome>)
    ensures |entries| >= 1 ==> StoreAfterRuns(entries, indexedDbSupported, outcomes) == entries
    ensures entries == [] ==>
      StoreAfterRuns(entries, indexedDbSupported, outcomes) ==
        if indexedDbSupported && FirstFetched(outcomes).Some? then [Snapshot(FirstFetched(outcomes).value)] else []
    decreases |outcomes|
  {
    if outcomes != [] {
      var next := StoreAfterFetch(entries, indexedDbSupported, outcomes[0]);
      FirstWriteWins(next, indexedDbSupported, outcomes[1..]);
    }
  }

  /** Through this path the store never holds more than one entry. */
  lemma AtMostOneSnapshot(indexedDbSupported: bool, outcomes: seq<NetworkOutcome>)
    ensures |StoreAfterRuns([], indexedDbSupported, outcomes)| <= 1
  {
    FirstWriteWins([], indexedDbSupported, outcomes);
  }
}
