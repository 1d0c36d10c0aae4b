/**
 * The query helpers of `DBHelper` (js/dbhelper.js): lookup by id, the
 * cuisine and neighborhood filters, the combined filter with its `'all'`
 * sentinel, and the distinct neighborhood and cuisine lists.
 *
 * Each `Fetch...` function takes what one `fetchRestaurants` callback
 * delivered and returns what the query hands to its own callback.
 */
module RestaurantQueries {
  import opened Outcomes

  /** A restaurant record; only the fields this layer reads. */
  datatype Restaurant = Restaurant(
    id: nat,
    name: string,
    neighborhood: string,
    cuisineType: string,
    photograph: string)

  /** The two record fields the filters and lists look at. */
  datatype Field = Cuisine | Neighborhood

  function FieldOf(r: Restaurant, f: Field): string {
    match f
    case Cuisine => r.cuisineType
    case Neighborhood => r.neighborhood
  }

  const NotFound := "Restaurant does not exist"

  /** The argument that switches a filter of the combined query off. */
  const All := "all"

  // ---------------------------------------------------------------------
  // Sequence vocabulary
  // ---------------------------------------------------------------------

  /** `xs` is `ys` with some elements deleted, the rest kept in order. */
  ghost predicate IsSubsequence<T>(xs: seq<T>, ys: seq<T>)
    decreases |ys|
  {
    xs == [] ||
    (ys != [] &&
     ((xs[0] == ys[0] && IsSubsequence(xs[1..], ys[1..])) || IsSubsequence(xs, ys[1..])))
  }

  lemma {:induction false} SubsequenceReflexive<T>(s: seq<T>)
    ensures IsSubsequence(s, s)
    decreases |s|
  {
    if s != [] {
      SubsequenceReflexive(s[1..]);
    }
  }

  lemma {:induction false} SubsequenceTransitive<T>(xs: seq<T>, ys: seq<T>, zs: seq<T>)
    requires IsSubsequence(xs, ys) && IsSubsequence(ys, zs)
    ensures IsSubsequence(xs, zs)
    decreases |zs|
  {
    if xs != [] {
      if ys[0] == zs[0] && IsSubsequence(ys[1..], zs[1..]) {
        if xs[0] == ys[0] && IsSubsequence(xs[1..], ys[1..]) {
          SubsequenceTransitive(xs[1..], ys[1..], zs[1..]);
        } else {
          SubsequenceTransitive(xs, ys[1..], zs[1..]);
        }
      } else {
        SubsequenceTransitive(xs, ys, zs[1..]);
      }
    }
  }

  ghost predicate NoDuplicates<T>(s: seq<T>) {
    forall i, j :: 0 <= i < j < |s| ==> s[i] != s[j]
  }

  // ---------------------------------------------------------------------
  // fetchRestaurantById
  // ---------------------------------------------------------------------

  /** The position of the first record with the given id (`|rs|` when none has it). */
  function FirstWithId(rs: seq<Restaurant>, id: nat): (k: nat)
    ensures k <= |rs|
    ensures k < |rs| ==> rs[k].id == id
    ensures forall j :: 0 <= j < k ==> rs[j].id != id
  {
    if rs == [] then 0
    else if rs[0].id == id then 0
    else 1 + FirstWithId(rs[1..], id)
  }

  /** `restaurants.find(r => r.id == id)`, with the not-found error. */
  function FindById(rs: seq<Restaurant>, id: nat): (r: Result<Restaurant>)
    ensures r.Ok? <==> exists i :: 0 <= i < |rs| && rs[i].id == id
    ensures r.Ok? ==> r.value.id == id
    ensures r.Ok? ==> exists k :: 0 <= k < |rs| && rs[k] == r.value && forall j :: 0 <= j < k ==> rs[j].id != id
    ensures r.Err? ==> r.error == NotFound
  {
    var k := FirstWithId(rs, id);
    if k < |rs| then Ok(rs[k]) else Err(NotFound)
  }

  function FetchRestaurantById(fetched: Result<seq<Restaurant>>, id: nat): (r: Result<Restaurant>)
    ensures fetched.Err? ==> r == Err(fetched.error)
    ensures fetched.Ok? ==> r == FindById(fetched.value, id)
  {
    match fetched
    case Err(e) => Err(e)
    case Ok(rs) => FindById(rs, id)
  }

  // ---------------------------------------------------------------------
  // fetchRestaurantByCuisine, fetchRestaurantByNeighborhood
  // ---------------------------------------------------------------------

  /** `restaurants.filter(r => r.<field> == v)`. */
  function ByField(rs: seq<Restaurant>, f: Field, v: string): (r: seq<Restaurant>)
    ensures IsSubsequence(r, rs)
    ensures forall x :: multiset(r)[x] == if FieldOf(x, f) == v then multiset(rs)[x] else 0
    ensures forall x :: x in r <==> x in rs && FieldOf(x, f) == v
  {
    if rs == [] then []
    else
      assert rs == [rs[0]] + rs[1..];
      if FieldOf(rs[0], f) == v then [rs[0]] + ByField(rs[1..], f, v)
      else ByField(rs[1..], f, v)
  }

  /** The two filters can be applied in either order. */
  lemma {:induction false} FiltersCommute(rs: seq<Restaurant>, f: Field, v: string, g: Field, w: string)
    ensures ByField(ByField(rs, f, v), g, w) == ByField(ByField(rs, g, w), f, v)
  {
    if rs != [] {
      FiltersCommute(rs[1..], f, v, g, w);
      var x, tail := rs[0], rs[1..];
      if FieldOf(x, f) == v {
        assert ([x] + ByField(tail, f, v))[1..] == ByField(tail, f, v);
      }
      if FieldOf(x, g) == w {
        assert ([x] + ByField(tail, g, w))[1..] == ByField(tail, g, w);
      }
    }
  }

  function FetchRestaurantByCuisine(fetched: Result<seq<Restaurant>>, cuisine: string): (r: Result<seq<Restaurant>>)
    ensures fetched.Err? ==> r == Err(fetched.error)
    ensures fetched.Ok? ==> r == Ok(ByField(fetched.value, Cuisine, cuisine))
  {
    match fetched
    case Err(e) => Err(e)
    case Ok(rs) => Ok(ByField(rs, Cuisine, cuisine))
  }

  function FetchRestaurantByNeighborhood(fetched: Result<seq<Restaurant>>, neighborhood: string): (r: Result<seq<Restaurant>>)
    ensures fetched.Err? ==> r == Err(fetched.error)
    ensures fetched.Ok? ==> r == Ok(ByField(fetched.value, Neighborhood, neighborhood))
  {
    match fetched
    case Err(e) => Err(e)
    case Ok(rs) => Ok(ByField(rs, Neighborhood, neighborhood))
  }

  // ---------------------------------------------------------------------
  // fetchRestaurantByCuisineAndNeighborhood
  // ---------------------------------------------------------------------

  /** A record passes the combined query: each argument other than `'all'` must equal its field. */
  predicate Selected(x: Restaurant, cuisine: string, neighborhood: string) {
    (cuisine == All || x.cuisineType == cuisine) &&
    (neighborhood == All || x.neighborhood == neighborhood)
  }

  /** The cuisine filter, then the neighborhood filter, each skipped for `'all'`. */
  function ByCuisineAndNeighborhood(rs: seq<Restaurant>, cuisine: string, neighborhood: string): (r: seq<Restaurant>)
    ensures cuisine == All && neighborhood == All ==> r == rs
    ensures IsSubsequence(r, rs)
    ensures forall x :: multiset(r)[x] == if Selected(x, cuisine, neighborhood) then multiset(rs)[x] else 0
  {
    var byCuisine := if cuisine != All then ByField(rs, Cuisine, cuisine) else rs;
    var result := if neighborhood != All then ByField(byCuisine, Neighborhood, neighborhood) else byCuisine;
    SubsequenceReflexive(rs);
    SubsequenceReflexive(byCuisine);
    SubsequenceTransitive(result, byCuisine, rs);
    result
  }

  /** Filtering by neighborhood first and cuisine second gives the same records in the same order. */
  lemma CombinedFilterOrderIrrelevant(rs: seq<Restaurant>, cuisine: string, neighborhood: string)
    requires cuisine != All && neighborhood != All
    ensures ByCuisineAndNeighborhood(rs, cuisine, neighborhood)
         == ByField(ByField(rs, Neighborhood, neighborhood), Cuisine, cuisine)
  {
    FiltersCommute(rs, Cuisine, cuisine, Neighborhood, neighborhood);
  }

  function FetchRestaurantByCuisineAndNeighborhood(fetched: Result<seq<Restaurant>>, cuisine: string, neighborhood: string)
    : (r: Result<seq<Restaurant>>)
    ensures fetched.Err? ==> r == Err(fetched.error)
    ensures fetched.Ok? ==> r == Ok(ByCuisineAndNeighborhood(fetched.value, cuisine, neighborhood))
  {
    match fetched
    case Err(e) => Err(e)
    case Ok(rs) => Ok(ByCuisineAndNeighborhood(rs, cuisine, neighborhood))
  }

  // ---------------------------------------------------------------------
  // fetchNeighborhoods, fetchCuisines
  // ---------------------------------------------------------------------

  /** `s.indexOf(v)`: the first position holding `v`, or -1. */
  function IndexOf(s: seq<string>, v: string): (k: int)
    ensures -1 <= k < |s|
    ensures k == -1 <==> v !in s
    ensures 0 <= k ==> s[k] == v
    ensures forall j :: 0 <= j < k ==> s[j] != v
  {
    if s == [] then -1
    else if s[0] == v then 0
    else
      var k := IndexOf(s[1..], v);
      if k == -1 then -1 else k + 1
  }

  /**
   * The elements `s[k]` with `i <= k` that pass `s.indexOf(s[k]) == k`,
   * in order: the tail of `s.filter((v, k) => s.indexOf(v) == k)` from `i`.
   */
  function FirstOccurrencesFrom(s: seq<string>, i: nat): (r: seq<string>)
    requires i <= |s|
    ensures forall x :: x in r <==> x in s[i..] && i <= IndexOf(s, x)
    ensures forall a, b :: 0 <= a < b < |r| ==> IndexOf(s, r[a]) < IndexOf(s, r[b])
    decreases |s| - i
  {
    if i == |s| then []
    else
      var rest := FirstOccurrencesFrom(s, i + 1);
      assert s[i..] == [s[i]] + s[i + 1..];
      if IndexOf(s, s[i]) == i then [s[i]] + rest else rest
  }

  /** `s.filter((v, i) => s.indexOf(v) == i)`: the distinct values of `s`. */
  function Distinct(s: seq<string>): (r: seq<string>)
    ensures forall x :: x in r <==> x in s
    ensures NoDuplicates(r)
    ensures forall a, b :: 0 <= a < b < |r| ==> IndexOf(s, r[a]) < IndexOf(s, r[b])
  {
    FirstOccurrencesFrom(s, 0)
  }

  /** `restaurants.map((v, i) => restaurants[i].<field>)`. */
  function Project(rs: seq<Restaurant>, f: Field): (r: seq<string>)
    ensures |r| == |rs|
    ensures forall i :: 0 <= i < |rs| ==> r[i] == FieldOf(rs[i], f)
  {
    seq(|rs|, i requires 0 <= i < |rs| => FieldOf(rs[i], f))
  }

  /** The distinct values of one field, in the order in which each first appears. */
  function DistinctValues(rs: seq<Restaurant>, f: Field): (r: seq<string>)
    ensures NoDuplicates(r)
    ensures forall v :: v in r <==> exists i :: 0 <= i < |rs| && FieldOf(rs[i], f) == v
    ensures forall a, b :: 0 <= a < b < |r| ==> IndexOf(Project(rs, f), r[a]) < IndexOf(Project(rs, f), r[b])
  {
    var values := Project(rs, f);
    var r := Distinct(values);
    assert forall v :: v in values <==> exists i :: 0 <= i < |rs| && FieldOf(rs[i], f) == v by {
      forall v | v in values ensures exists i :: 0 <= i < |rs| && FieldOf(rs[i], f) == v {
        var i :| 0 <= i < |values| && values[i] == v;
      }
    }
    r
  }

  function FetchNeighborhoods(fetched: Result<seq<Restaurant>>): (r: Result<seq<string>>)
    ensures fetched.Err? ==> r == Err(fetched.error)
    ensures fetched.Ok? ==> r == Ok(DistinctValues(fetched.value, Neighborhood))
  {
    match fetched
    case Err(e) => Err(e)
    case Ok(rs) => Ok(DistinctValues(rs, Neighborhood))
  }

  function FetchCuisines(fetched: Result<seq<Restaurant>>): (r: Result<seq<string>>)
    ensures fetched.Err? ==> r == Err(fetched.error)
    ensures fetched.Ok? ==> r == Ok(DistinctValues(fetched.value, Cuisine))
  {
    match fetched
    case Err(e) => Err(e)
    case Ok(rs) => Ok(DistinctValues(rs, Cuisine))
  }

  // ---------------------------------------------------------------------
  // Worked cases
  // ---------------------------------------------------------------------

  /** Mexican, Italian, Mexican lists as Mexican, Italian. */
  lemma CuisinesExample(a: Restaurant, b: Restaurant, c: Restaurant)
    requires a.cuisineType == "Mexican" && b.cuisineType == "Italian" && c.cuisineType == "Mexican"
    ensures FetchCuisines(Ok([a, b, c])) == Ok(["Mexican", "Italian"])
  {
    var values := Project([a, b, c], Cuisine);
    assert values == ["Mexican", "Italian", "Mexican"];
    assert IndexOf(values, "Mexican") == 0;
    assert IndexOf(values, "Italian") == 1;
    assert FirstOccurrencesFrom(values, 3) == [];
    assert FirstOccurrencesFrom(values, 2) == [];
    assert FirstOccurrencesFrom(values, 1) == ["Italian"];
    assert FirstOccurrencesFrom(values, 0) == ["Mexican", "Italian"];
  }

  /** With ids 1, 2, 3 the lookup of 2 finds the second record and the lookup of 99 fails. */
  lemma ByIdExample(a: Restaurant, b: Restaurant, c: Restaurant)
    requires a.id == 1 && b.id == 2 && c.id == 3
    ensures FetchRestaurantById(Ok([a, b, c]), 2) == Ok(b)
    ensures FetchRestaurantById(Ok([a, b, c]), 99) == Err(NotFound)
  {
    assert FirstWithId([a, b, c], 2) == 1;
  }
}
