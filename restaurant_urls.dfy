/**
 * The two URL builders of `DBHelper` (js/dbhelper.js): the restaurant page
 * URL keyed by id and the three image URLs derived from the photograph.
 */
module RestaurantUrls {
  import opened Outcomes
  import opened RestaurantQueries

  // ---------------------------------------------------------------------
  // Decimal text of an id, as a template literal renders an integer
  // ---------------------------------------------------------------------

  predicate IsDigit(c: char) {
    '0' <= c <= '9'
  }

  function DigitChar(d: nat): (c: char)
    requires d < 10
    ensures IsDigit(c)
  {
    ('0' as int + d) as char
  }

  function DigitValue(c: char): (d: nat)
    requires IsDigit(c)
    ensures d < 10
  {
    c as int - '0' as int
  }

  /** The decimal text of `n`: digits only, no leading zero. */
  function DecimalText(n: nat): (s: string)
    ensures |s| >= 1
    ensures forall i :: 0 <= i < |s| ==> IsDigit(s[i])
    ensures |s| > 1 ==> s[0] != '0'
    decreases n
  {
    if n < 10 then [DigitChar(n)] else DecimalText(n / 10) + [DigitChar(n % 10)]
  }

  /** Reads a non-empty run of decimal digits back as a number. */
  function ParseDecimal(s: string): (n: Option<nat>)
    ensures n.Some? ==> s != []
    decreases |s|
  {
    if s == [] || !IsDigit(s[|s| - 1]) then None
    else if |s| == 1 then Some(DigitValue(s[0]))
    else
      match ParseDecimal(s[..|s| - 1])
      case None => None
      case Some(m) => Some(10 * m + DigitValue(s[|s| - 1]))
  }

  lemma {:induction false} DecimalRoundTrip(n: nat)
    ensures ParseDecimal(DecimalText(n)) == Some(n)
    decreases n
  {
    var s := DecimalText(n);
    if n >= 10 {
      DecimalRoundTrip(n / 10);
      assert s[..|s| - 1] == DecimalText(n / 10);
    }
  }

  // ---------------------------------------------------------------------
  // urlForRestaurant
  // ---------------------------------------------------------------------

  const PagePrefix := "./restaurant.html?id="

  /** `./restaurant.html?id=${restaurant.id}`. */
  function UrlForRestaurant(r: Restaurant): (url: string)
    ensures |url| > |PagePrefix| && url[..|PagePrefix|] == PagePrefix
  {
    PagePrefix + DecimalText(r.id)
  }

  /** The id a restaurant page reads back from its URL. */
  function IdFromUrl(url: string): (id: Option<nat>)
  {
    if |PagePrefix| <= |url| && url[..|PagePrefix|] == PagePrefix
    then ParseDecimal(url[|PagePrefix|..])
    else None
  }

  /** The page URL carries the id and nothing else: it can be read back. */
  lemma UrlRoundTrip(r: Restaurant)
    ensures IdFromUrl(UrlForRestaurant(r)) == Some(r.id)
  {
    var url := UrlForRestaurant(r);
    assert url[|PagePrefix|..] == DecimalText(r.id);
    DecimalRoundTrip(r.id);
  }

  /** Restaurants with different ids get different page URLs. */
  lemma UrlsDistinguishIds(r1: Restaurant, r2: Restaurant)
    requires r1.id != r2.id
    ensures UrlForRestaurant(r1) != UrlForRestaurant(r2)
  {
    UrlRoundTrip(r1);
    UrlRoundTrip(r2);
  }

  // ---------------------------------------------------------------------
  // imageUrlForRestaurant
  // ---------------------------------------------------------------------

  datatype ImageUrls = ImageUrls(small: string, medium: string, large: string)

  const ImageDir := "./img/"
  const SmallSuffix := "-small.jpg"
  const MediumSuffix := "-medium.jpg"
  const LargeSuffix := "-large.jpg"

  /** `photograph.substr(0, 1)`: the first character, or nothing for an empty name. */
  function FirstCharacter(photograph: string): (c: string)
    ensures |c| <= 1
    ensures c <= photograph
    ensures photograph != [] ==> |c| == 1
  {
    if photograph == [] then [] else photograph[..1]
  }

  /** `./img/${restaurant.photograph.substr(0, 1)}`. */
  function ImagePath(r: Restaurant): (p: string)
  {
    ImageDir + FirstCharacter(r.photograph)
  }

  function ImageUrlsForRestaurant(r: Restaurant): (u: ImageUrls)
    ensures u.small == ImagePath(r) + SmallSuffix
    ensures u.medium == ImagePath(r) + MediumSuffix
    ensures u.large == ImagePath(r) + LargeSuffix
    ensures u.small != u.medium && u.medium != u.large && u.small != u.large
  {
    var path := ImagePath(r);
    assert (path + SmallSuffix)[|path| + 1] == 's';
    assert (path + MediumSuffix)[|path| + 1] == 'm';
    assert (path + LargeSuffix)[|path| + 1] == 'l';
    ImageUrls(path + SmallSuffix, path + MediumSuffix, path + LargeSuffix)
  }

  /**
   * Two restaurants get the same image URLs exactly when their photograph
   * names start with the same character: nothing past the first one counts.
   */
  lemma ImageUrlsDependOnFirstCharacterOnly(r1: Restaurant, r2: Restaurant)
    ensures ImageUrlsForRestaurant(r1) == ImageUrlsForRestaurant(r2)
        <==> FirstCharacter(r1.photograph) == FirstCharacter(r2.photograph)
  {
    var u1, u2 := ImageUrlsForRestaurant(r1), ImageUrlsForRestaurant(r2);
    var p1, p2 := ImagePath(r1), ImagePath(r2);
    if u1 == u2 {
      assert |p1| == |p2|;
      assert p1 == u1.small[..|p1|] && p2 == u2.small[..|p2|];
      assert FirstCharacter(r1.photograph) == p1[|ImageDir|..];
      assert FirstCharacter(r2.photograph) == p2[|ImageDir|..];
    }
  }
}
