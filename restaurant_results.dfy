/** The helpers of the restaurant result list: the favourite toggle, the
    price glyphs and the distance label. */
module ResultHelpers {
  import opened Common
  import opened Strings

  // ------------------------------------------------------------ favourites

  /** The favourite set after toggling `id`: `id` flips, nothing else moves. */
  function Toggled(favorites: set<string>, id: string): (r: set<string>)
    ensures id in r <==> id !in favorites
    ensures forall other :: other != id ==> (other in r <==> other in favorites)
  {
    if id in favorites then favorites - {id} else favorites + {id}
  }

  /** `toggleFavorite`: copies the set, then deletes or adds the id in the
      copy; the copy is what `setFavorites` stores. */
  method ToggleFavorite(favorites: set<string>, restaurantId: string) returns (newFavorites: set<string>)
    ensures newFavorites == Toggled(favorites, restaurantId)
  {
    newFavorites := favorites;
    if restaurantId in newFavorites {
      newFavorites := newFavorites - {restaurantId};
    } else {
      newFavorites := newFavorites + {restaurantId};
    }
  }

  /** Toggling the same id twice gives back the set it started from. */
  lemma ToggleTwice(favorites: set<string>, id: string)
    ensures Toggled(Toggled(favorites, id), id) == favorites
  {
    var once := Toggled(favorites, id);
    var twice := Toggled(once, id);
    assert forall x :: x in twice <==> x in favorites;
  }

  /** Toggles of two different ids do not interfere: their order does not matter. */
  lemma ToggleCommutes(favorites: set<string>, a: string, b: string)
    ensures Toggled(Toggled(favorites, a), b) == Toggled(Toggled(favorites, b), a)
  {
    var ab := Toggled(Toggled(favorites, a), b);
    var ba := Toggled(Toggled(favorites, b), a);
    assert forall x :: x in ab <==> x in ba;
  }

  // ----------------------------------------------------------------- price

  /** `getPriceDisplay`: `priceLevel` half-width yen signs, then full-width
      ones up to four glyphs. `repeat` throws on a negative count, so the
      level must lie in 0..4. */
  function PriceDisplay(priceLevel: int): (r: string)
    requires 0 <= priceLevel <= 4
    ensures |r| == 4
    ensures forall i :: 0 <= i < priceLevel ==> r[i] == '¥'
    ensures forall i :: priceLevel <= i < 4 ==> r[i] == '￥'
  {
    Repeat('¥', priceLevel) + Repeat('￥', 4 - priceLevel)
  }

  /** Different levels show different glyph strings. */
  lemma PriceDisplayDistinguishes(p: int, q: int)
    requires 0 <= p <= 4 && 0 <= q <= 4 && p != q
    ensures PriceDisplay(p) != PriceDisplay(q)
  {
    if p < q {
      assert PriceDisplay(p)[p] != PriceDisplay(q)[p];
    } else {
      assert PriceDisplay(p)[q] != PriceDisplay(q)[q];
    }
  }

  // -------------------------------------------------------------- distance

  /** `Math.round`: the nearest integer, halves rounded up. */
  function Round(x: real): (r: int)
    ensures x - 0.5 < r as real <= x + 0.5
  {
    (x + 0.5).Floor
  }

  /** `String(n)` for an integer. */
  function IntToString(n: int): (s: string)
    ensures |s| >= 1
    ensures '0' <= s[|s| - 1] <= '9'
  {
    if n < 0 then "-" + NatToString(-n) else NatToString(n)
  }

  /** `x.toFixed(1)` for a non-negative x: whole part, '.', one rounded decimal. */
  function Fixed1(x: real): (s: string)
    requires x >= 0.0
    ensures |s| >= 3 && s[|s| - 2] == '.' && '0' <= s[|s| - 1] <= '9'
  {
    var tenths := Round(x * 10.0);
    assert tenths >= 0;
    TenthsText(tenths)
  }

  /** A count of tenths written as its whole part, '.', and its tenths digit. */
  function TenthsText(t: nat): (s: string)
    ensures |s| >= 3 && s[|s| - 2] == '.' && '0' <= s[|s| - 1] <= '9'
    ensures s[..|s| - 2] == NatToString(t / 10)
  {
    NatToString(t / 10) + "." + [DigitChar(t % 10)]
  }

  /** `formatDistance`: nothing for a missing or zero distance, whole metres
      below 1000, kilometres with one decimal from 1000 on. */
  function FormatDistance(distance: Option<real>): (r: string)
    ensures distance.None? || distance.value == 0.0 <==> r == ""
    ensures distance.Some? && distance.value != 0.0 && distance.value < 1000.0 ==>
      |r| >= 2 && r[|r| - 1] == 'm' && '0' <= r[|r| - 2] <= '9'
    ensures distance.Some? && distance.value >= 1000.0 ==>
      |r| >= 5 && r[|r| - 2] == 'k' && r[|r| - 1] == 'm' && r[|r| - 4] == '.'
  {
    if distance.None? || distance.value == 0.0 then ""
    else if distance.value < 1000.0 then MetresText(distance.value)
    else KilometresText(distance.value)
  }

  /** Below 1000: the rounded metres and "m". */
  function MetresText(m: real): (s: string)
    ensures |s| >= 2 && s[|s| - 1] == 'm' && '0' <= s[|s| - 2] <= '9'
  {
    IntToString(Round(m)) + "m"
  }

  /** From 1000 on: the kilometres with one decimal and "km". */
  function KilometresText(m: real): (s: string)
    requires m >= 0.0
    ensures |s| >= 5 && s[|s| - 2] == 'k' && s[|s| - 1] == 'm' && s[|s| - 4] == '.'
  {
    Fixed1(m / 1000.0) + "km"
  }

  /** A whole number of metres below 1000 is shown as those digits and "m". */
  lemma MetresShown(d: nat)
    requires 0 < d < 1000
    ensures FormatDistance(Some(d as real)) == NatToString(d) + "m"
  {
    assert Round(d as real) == d;
  }

  /** A whole number of hundred-metre steps from 1000 on is shown exactly:
      kilometres, '.', and the hundreds digit. */
  lemma KilometresShown(hundreds: nat)
    requires hundreds >= 10
    ensures FormatDistance(Some((100 * hundreds) as real)) == TenthsText(hundreds) + "km"
  {
    var d := (100 * hundreds) as real;
    RealOfHundreds(hundreds, d);
    TenthsOfKilometreShown(d, hundreds);
  }

  /** A distance of a whole number `t` >= 10 of tenths of a kilometre is
      shown as those tenths and "km". */
  lemma TenthsOfKilometreShown(d: real, t: nat)
    requires t >= 10 && d / 1000.0 * 10.0 == t as real
    ensures FormatDistance(Some(d)) == TenthsText(t) + "km"
  {
    Fixed1Exact(d / 1000.0, t);
    assert FormatDistance(Some(d)) == KilometresText(d);
  }

  /** `d` metres, a whole number of hundreds, is `hundreds` tenths of a kilometre. */
  lemma RealOfHundreds(hundreds: nat, d: real)
    requires d == (100 * hundreds) as real
    ensures d / 1000.0 * 10.0 == hundreds as real
  {
    assert d == 100.0 * (hundreds as real);
  }

  /** A value with a whole number `t` of tenths is shown exactly as `t` tenths. */
  lemma Fixed1Exact(x: real, t: nat)
    requires x * 10.0 == t as real
    ensures Fixed1(x) == TenthsText(t)
  {
    assert Round(t as real) == t;
  }
}
