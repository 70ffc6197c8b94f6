/** OpenStreetMap restaurant search (lib/overpass.ts) without its network
    calls: the cuisine filter of the Overpass query, the mapping from a
    user-facing cuisine name to OSM cuisine tags, the element-to-record
    mapping, the mood-based score and the filter/sort/top-20 step applied
    to the elements the Overpass server returns.  Distances are the rounded
    great-circle distances from the user, supplied with each element. */
module Overpass {
  import opened Common
  import opened Strings
  import opened StableSort
  import opened Dictionary

  // ---------------------------------------------------------------------
  // Cuisine names and the query filter

  /** `CUISINE_MAPPING`: a cuisine name and the OSM cuisine tags it stands for. */
  const CuisineMapping: seq<KeywordGroup> := [
    KeywordGroup("和食", ["japanese", "sushi", "ramen", "udon", "soba", "tempura", "yakitori"]),
    KeywordGroup("中華", ["chinese", "asian"]),
    KeywordGroup("イタリアン", ["italian", "pizza", "pasta"]),
    KeywordGroup("フレンチ", ["french"]),
    KeywordGroup("韓国料理", ["korean", "asian"]),
    KeywordGroup("タイ料理", ["thai", "asian"]),
    KeywordGroup("インド料理", ["indian"]),
    KeywordGroup("アメリカン", ["american", "burger"]),
    KeywordGroup("焼肉", ["bbq", "korean", "yakiniku"]),
    KeywordGroup("居酒屋", ["izakaya", "japanese"]),
    KeywordGroup("カフェ", ["cafe", "coffee"]),
    KeywordGroup("ファストフード", ["fast_food", "burger"]),
    KeywordGroup("洋食", ["western", "european"]),
    KeywordGroup("アジア料理", ["asian", "thai", "vietnamese", "korean"]),
    KeywordGroup("バー", ["bar", "cocktail"]),
    KeywordGroup("寿司", ["sushi", "japanese"]),
    KeywordGroup("ラーメン", ["ramen", "japanese"]),
    KeywordGroup("焼き鳥", ["yakitori", "japanese"]),
    KeywordGroup("天ぷら", ["tempura", "japanese"]),
    KeywordGroup("うどん", ["udon", "japanese"]),
    KeywordGroup("そば", ["soba", "japanese"])
  ]

  /** `CUISINE_MAPPING[type] || []`. */
  function MappedTags(cuisine: string): seq<string> {
    GroupKeywords(CuisineMapping, cuisine)
  }

  /** `params.cuisineTypes?.flatMap(type => CUISINE_MAPPING[type] || []) || []`. */
  function ExpandCuisines(types: Option<seq<string>>): seq<string> {
    match types
    case None => []
    case Some(ts) => ExpandAll(ts)
  }

  function ExpandAll(ts: seq<string>): seq<string> {
    if ts == [] then [] else ExpandAll(ts[..|ts| - 1]) + MappedTags(ts[|ts| - 1])
  }

  /** Expanding keeps the tags of every known name in order, and a name the
      mapping does not know contributes nothing. */
  lemma {:induction false} ExpandAllMeaning(ts: seq<string>, tag: string)
    ensures tag in ExpandAll(ts) <==> exists i :: 0 <= i < |ts| && tag in MappedTags(ts[i])
  {
    if ts != [] {
      var init := ts[..|ts| - 1];
      ExpandAllMeaning(init, tag);
      assert forall i :: 0 <= i < |init| ==> init[i] == ts[i];
      if exists i :: 0 <= i < |ts| && tag in MappedTags(ts[i]) {
        var i :| 0 <= i < |ts| && tag in MappedTags(ts[i]);
        if i < |init| {
          assert tag in MappedTags(init[i]);
        }
      }
    }
  }

  /** The types lower-cased, for the regular expression. */
  function LowerAll(ts: seq<string>): (r: seq<string>)
    ensures |r| == |ts| && forall i :: 0 <= i < |ts| ==> r[i] == Lower(ts[i])
  {
    if ts == [] then [] else LowerAll(ts[..|ts| - 1]) + [Lower(ts[|ts| - 1])]
  }

  /** The cuisine filter `buildRestaurantQuery` inserts after each tag
      selector: none without cuisine types, else a case-insensitive
      regular-expression match on `cuisine`. */
  function CuisineFilter(types: seq<string>): string {
    if |types| > 0 then "[cuisine~\"" + Join(LowerAll(types), "|") + "\",i]" else ""
  }

  /** The filter is empty exactly when there are no cuisine types; otherwise
      it is the `[cuisine~"…",i]` selector whose pattern includes every
      type, lower-cased. */
  lemma CuisineFilterMeaning(types: seq<string>)
    ensures CuisineFilter(types) == "" <==> types == []
    ensures types != [] ==>
      var f := CuisineFilter(types);
      && |f| >= 14 && f[..10] == "[cuisine~\"" && f[|f| - 4..] == "\",i]"
      && forall i :: 0 <= i < |types| ==> Contains(f, Lower(types[i]))
  {
    if types != [] {
      var f := CuisineFilter(types);
      var body := Join(LowerAll(types), "|");
      assert f == "[cuisine~\"" + body + "\",i]";
      forall i | 0 <= i < |types|
        ensures Contains(f, Lower(types[i]))
      {
        ContainsAt(LowerAll(types)[i], Lower(types[i]), 0);
        JoinContainsPiece(LowerAll(types), "|", i, Lower(types[i]));
        ContainsRight("[cuisine~\"", body, Lower(types[i]));
        ContainsLeft("[cuisine~\"" + body, "\",i]", Lower(types[i]));
      }
    }
  }

  // ---------------------------------------------------------------------
  // Elements and records

  datatype Center = Center(lat: real, lon: real)

  /** An element of the Overpass answer.  `distance` is the rounded distance
      in metres from the user to the element's coordinates. */
  datatype Element = Element(
    kind: string, id: nat, lat: Option<real>, lon: Option<real>, center: Option<Center>,
    tags: Option<map<string, string>>, distance: nat)

  /** `OSMRestaurant`; `score` is absent until a mood analysis scores it. */
  datatype Place = Place(
    id: string, name: string, cuisine: Option<string>, amenity: Option<string>,
    lat: real, lon: real, tags: map<string, string>, distance: nat, score: Option<real>)

  /** `element.tags || {}`. */
  function TagsOf(e: Element): map<string, string> {
    match e.tags
    case Some(t) => t
    case None => map[]
  }

  /** `tags?.[key]`. */
  function Tag(tags: map<string, string>, key: string): Option<string> {
    if key in tags then Some(tags[key]) else None
  }

  /** A present, non-empty string: what `||` and `&&` treat as true. */
  predicate Truthy(s: Option<string>) {
    s.Some? && s.value != ""
  }

  /** `tags?.name || tags?.['name:ja'] || 'unknown'`. */
  function PlaceName(tags: map<string, string>): (name: string)
    ensures name != ""
    ensures Truthy(Tag(tags, "name")) ==> name == tags["name"]
    ensures !Truthy(Tag(tags, "name")) && Truthy(Tag(tags, "name:ja")) ==> name == tags["name:ja"]
    ensures !Truthy(Tag(tags, "name")) && !Truthy(Tag(tags, "name:ja")) ==> name == "unknown"
  {
    if Truthy(Tag(tags, "name")) then tags["name"]
    else if Truthy(Tag(tags, "name:ja")) then tags["name:ja"]
    else "unknown"
  }

  /** `element.lat || (element.center ? element.center.lat : 0)`, and the
      same for the longitude: a zero or missing value falls back to the
      centre of a way or relation. */
  function Coordinate(own: Option<real>, center: Option<real>): (r: real)
    ensures own.Some? && own.value != 0.0 ==> r == own.value
    ensures (own.None? || own.value == 0.0) ==> r == (if center.Some? then center.value else 0.0)
  {
    if own.Some? && own.value != 0.0 then own.value
    else if center.Some? then center.value
    else 0.0
  }

  /** `parseOSMRestaurant`: the record's id is the element's type and id
      joined by '_', its name never empty, its tags those of the element or
      none. */
  function ParsePlace(e: Element): (p: Place)
    ensures p.id == e.kind + "_" + NatToString(e.id)
    ensures p.name != ""
    ensures e.tags.None? ==> p.tags == map[] && p.name == "unknown" && p.cuisine.None? && p.amenity.None?
    ensures p.distance == e.distance && p.score.None?
  {
    var tags := TagsOf(e);
    Place(
      e.kind + "_" + NatToString(e.id),
      PlaceName(tags),
      Tag(tags, "cuisine"),
      Tag(tags, "amenity"),
      Coordinate(e.lat, if e.center.Some? then Some(e.center.value.lat) else None),
      Coordinate(e.lon, if e.center.Some? then Some(e.center.value.lon) else None),
      tags,
      e.distance,
      None)
  }

  // ---------------------------------------------------------------------
  // Score

  /** The mood analysis fields the score reads. */
  datatype MoodQuery = MoodQuery(cuisineTypes: Option<seq<string>>, atmosphere: Option<string>, priceRange: Option<string>)

  /** `Math.min(distance / 50, 50)`, charged only for a non-zero distance. */
  function DistancePenalty(distance: nat): (r: real)
    ensures 0.0 <= r <= 50.0
    ensures distance == 0 ==> r == 0.0
  {
    if distance != 0 then Min(distance as real / 50.0, 50.0) else 0.0
  }

  /** Some of the tags is included in the lower-cased text. */
  function AnyIncluded(text: Option<string>, tags: seq<string>): (b: bool)
    ensures b <==> text.Some? && exists j :: 0 <= j < |tags| && Contains(Lower(text.value), tags[j])
  {
    if tags == [] || text.None? then false
    else
      assert forall j :: 0 <= j < |tags| - 1 ==> tags[..|tags| - 1][j] == tags[j];
      AnyIncluded(text, tags[..|tags| - 1]) || Contains(Lower(text.value), tags[|tags| - 1])
  }

  /** `CUISINE_MAPPING[type]?.some(...)` for one requested type. */
  predicate CuisineTypeMatches(t: string, p: Place) {
    AnyIncluded(p.cuisine, MappedTags(t)) || AnyIncluded(Tag(p.tags, "cuisine"), MappedTags(t))
  }

  /** Some requested cuisine maps to a tag the place's cuisine includes. */
  function CuisineMatch(types: seq<string>, p: Place): (b: bool)
    ensures b <==> exists i :: 0 <= i < |types| && CuisineTypeMatches(types[i], p)
  {
    if types == [] then false
    else
      assert forall i :: 0 <= i < |types| - 1 ==> types[..|types| - 1][i] == types[i];
      CuisineMatch(types[..|types| - 1], p) || CuisineTypeMatches(types[|types| - 1], p)
  }

  /** +30 when cuisine types are requested, the place has a cuisine and
      some requested type matches it. */
  function CuisineBonus(q: MoodQuery, p: Place): (r: real)
    ensures r == 0.0 || r == 30.0
    ensures r == 30.0 <==>
      && q.cuisineTypes.Some? && Truthy(p.cuisine)
      && exists i :: 0 <= i < |q.cuisineTypes.value| && MappedTags(q.cuisineTypes.value[i]) != []
           && CuisineTypeMatches(q.cuisineTypes.value[i], p)
  {
    if q.cuisineTypes.Some? && Truthy(p.cuisine) && CuisineMatch(q.cuisineTypes.value, p) then 30.0 else 0.0
  }

  /** +20 for 'リラックス' at a cafe or casual place, +25 for '特別' at a
      formal one, +20 for 'にぎやか' at an izakaya. */
  function AtmosphereBonus(q: MoodQuery, p: Place): (r: real)
    ensures 0.0 <= r <= 65.0
    ensures !Truthy(q.atmosphere) ==> r == 0.0
  {
    if !Truthy(q.atmosphere) then 0.0
    else
      var a := Lower(q.atmosphere.value);
      (if Contains(a, "リラックス") && (p.amenity == Some("cafe") || Tag(p.tags, "atmosphere") == Some("casual")) then 20.0 else 0.0)
      + (if Contains(a, "特別") && Tag(p.tags, "formal") == Some("yes") then 25.0 else 0.0)
      + (if Contains(a, "にぎやか") && p.amenity == Some("izakaya") then 20.0 else 0.0)
  }

  /** `priceMap[range] || []`. */
  function PriceTokens(range: string): seq<string> {
    if range == "安い" then ["$", "budget", "cheap"]
    else if range == "普通" then ["$$", "moderate"]
    else if range == "高い" then ["$$$", "$$$$", "expensive", "fine_dining"]
    else []
  }

  /** Some token occurs in the place's price tag. */
  function PriceMatch(tokens: seq<string>, priceTag: string): (b: bool)
    ensures b <==> exists j :: 0 <= j < |tokens| && Contains(priceTag, tokens[j])
  {
    if tokens == [] then false
    else
      assert forall j :: 0 <= j < |tokens| - 1 ==> tokens[..|tokens| - 1][j] == tokens[j];
      PriceMatch(tokens[..|tokens| - 1], priceTag) || Contains(priceTag, tokens[|tokens| - 1])
  }

  /** +15 when a price range is asked for, the place has a price tag and
      the tag includes one of the range's tokens. */
  function PriceBonus(q: MoodQuery, p: Place): (r: real)
    ensures r == 0.0 || r == 15.0
    ensures r == 15.0 <==>
      && q.priceRange.Some? && q.priceRange.value in ["安い", "普通", "高い"]
      && Truthy(Tag(p.tags, "price_range"))
      && exists j :: 0 <= j < |PriceTokens(q.priceRange.value)| && Contains(p.tags["price_range"], PriceTokens(q.priceRange.value)[j])
  {
    if Truthy(q.priceRange) && Truthy(Tag(p.tags, "price_range"))
       && PriceMatch(PriceTokens(q.priceRange.value), p.tags["price_range"])
    then 15.0 else 0.0
  }

  /** `scoreRestaurant`: 100, less the distance penalty, plus the bonuses,
      clamped to [0, 100]. */
  function ScoreOf(p: Place, q: MoodQuery): (r: real)
    ensures 50.0 <= r <= 100.0
    ensures p.distance == 0 ==> r == 100.0
  {
    Clamp(100.0 - DistancePenalty(p.distance) + CuisineBonus(q, p) + AtmosphereBonus(q, p) + PriceBonus(q, p), 0.0, 100.0)
  }

  /** `scoreRestaurant`, step by step. */
  method ScoreRestaurant(p: Place, q: MoodQuery) returns (score: real)
    ensures score == ScoreOf(p, q)
  {
    score := 100.0;
    if p.distance != 0 {
      score := score - Min(p.distance as real / 50.0, 50.0);
    }
    assert score == 100.0 - DistancePenalty(p.distance);
    if q.cuisineTypes.Some? && Truthy(p.cuisine) {
      if CuisineMatch(q.cuisineTypes.value, p) {
        score := score + 30.0;
      }
    }
    assert score == 100.0 - DistancePenalty(p.distance) + CuisineBonus(q, p);
    ghost var before := score;
    if Truthy(q.atmosphere) {
      var a := Lower(q.atmosphere.value);
      if Contains(a, "リラックス") && (p.amenity == Some("cafe") || Tag(p.tags, "atmosphere") == Some("casual")) {
        score := score + 20.0;
      }
      if Contains(a, "特別") && Tag(p.tags, "formal") == Some("yes") {
        score := score + 25.0;
      }
      if Contains(a, "にぎやか") && p.amenity == Some("izakaya") {
        score := score + 20.0;
      }
    }
    assert score == before + AtmosphereBonus(q, p);
    before := score;
    if Truthy(q.priceRange) && Truthy(Tag(p.tags, "price_range")) {
      var expected := PriceTokens(q.priceRange.value);
      if PriceMatch(expected, p.tags["price_range"]) {
        score := score + 15.0;
      }
    }
    assert score == before + PriceBonus(q, p);
    score := Max(0.0, Min(100.0, score));
  }

  /** With no bonus earned, the score is 100 less min(distance / 50, 50). */
  lemma PenaltyOnly(p: Place, q: MoodQuery)
    requires CuisineBonus(q, p) == 0.0 && AtmosphereBonus(q, p) == 0.0 && PriceBonus(q, p) == 0.0
    ensures p.distance != 0 ==> ScoreOf(p, q) == 100.0 - Min(p.distance as real / 50.0, 50.0)
  {
  }

  /** Because '$' is a token of '安い', a place tagged with any run of
      dollar signs, '$$$$' included, earns the bonus for a cheap request. */
  lemma CheapMatchesAnyDollarTag(q: MoodQuery, p: Place)
    requires q.priceRange == Some("安い")
    requires "price_range" in p.tags && Contains(p.tags["price_range"], "$")
    ensures PriceBonus(q, p) == 15.0
  {
    assert PriceTokens("安い")[0] == "$";
  }

  // ---------------------------------------------------------------------
  // After the query: filter, score, sort, keep 20

  /** `element.tags?.name`: only named elements are kept. */
  predicate HasName(e: Element) {
    Truthy(Tag(TagsOf(e), "name"))
  }

  /** `params.radius || 2000`. */
  function SearchRadius(radius: Option<nat>): nat {
    if radius.Some? && radius.value != 0 then radius.value else 2000
  }

  /** Within reach: a non-zero distance no farther than the radius. */
  predicate InReach(p: Place, radius: nat) {
    p.distance != 0 && p.distance <= radius
  }

  /** The named elements, parsed, that lie within reach, in answer order. */
  function Candidates(es: seq<Element>, radius: nat): seq<Place> {
    if es == [] then []
    else
      var e := es[|es| - 1];
      Candidates(es[..|es| - 1], radius)
      + (if HasName(e) && InReach(ParsePlace(e), radius) then [ParsePlace(e)] else [])
  }

  /** `(score || 0)`, the key of the descending score sort. */
  function ScoreKey(p: Place): real {
    if p.score.Some? then p.score.value else 0.0
  }

  /** `-(distance || 0)`: the ascending distance sort as a descending one. */
  function NearKey(p: Place): real {
    -(p.distance as real)
  }

  /** `restaurant.score = scoreRestaurant(restaurant, moodAnalysis)`. */
  function WithScore(p: Place, q: MoodQuery): Place {
    p.(score := Some(ScoreOf(p, q)))
  }

  /** Each place with its score set. */
  function Scored(ps: seq<Place>, q: MoodQuery): (r: seq<Place>)
    ensures |r| == |ps| && forall i :: 0 <= i < |ps| ==> r[i] == WithScore(ps[i], q)
  {
    seq(|ps|, i requires 0 <= i < |ps| => WithScore(ps[i], q))
  }

  function Top20(ps: seq<Place>): (r: seq<Place>)
    ensures |r| == if |ps| < 20 then |ps| else 20
  {
    if |ps| <= 20 then ps else ps[..20]
  }

  /** The places the sort receives: scored when there is a mood analysis. */
  function PreSort(cs: seq<Place>, mood: Option<MoodQuery>): seq<Place> {
    if mood.Some? then Scored(cs, mood.value) else cs
  }

  /** The sort key: the score with a mood analysis, nearness otherwise. */
  function RankKey(mood: Option<MoodQuery>): Place -> real {
    if mood.Some? then ScoreKey else NearKey
  }

  /** Scored and best first with a mood analysis, else nearest first. */
  function Ranked(cs: seq<Place>, mood: Option<MoodQuery>): seq<Place> {
    SortDesc(PreSort(cs, mood), RankKey(mood))
  }

  /** What `searchRestaurants` returns for the elements of the answer
      (None when the answer has no `elements`). */
  function SearchResultOf(elements: Option<seq<Element>>, radius: Option<nat>, mood: Option<MoodQuery>): seq<Place> {
    if elements.None? || |elements.value| == 0 then []
    else
      var cs := Candidates(elements.value, SearchRadius(radius));
      Top20(Ranked(cs, mood))
  }

  /** The part of `searchRestaurants` after the Overpass answer arrives. */
  method SearchResults(elements: Option<seq<Element>>, radius: Option<nat>, mood: Option<MoodQuery>)
    returns (result: seq<Place>)
    ensures result == SearchResultOf(elements, radius, mood)
  {
    if elements.None? || |elements.value| == 0 {
      return [];
    }
    var cs := CollectCandidates(elements.value, SearchRadius(radius));
    var restaurants: seq<Place>;
    if mood.Some? {
      var scored := ScoreAll(cs, mood.value);
      restaurants := SortDesc(scored, ScoreKey);
      assert restaurants == Ranked(cs, mood);
    } else {
      restaurants := SortDesc(cs, NearKey);
      assert restaurants == Ranked(cs, mood);
    }
    result := Top20(restaurants);
  }

  /** The `filter`, `map`, `filter` chain over the elements. */
  method CollectCandidates(es: seq<Element>, reach: nat) returns (restaurants: seq<Place>)
    ensures restaurants == Candidates(es, reach)
  {
    restaurants := [];
    for i := 0 to |es|
      invariant restaurants == Candidates(es[..i], reach)
    {
      if HasName(es[i]) {
        var p := ParsePlace(es[i]);
        if p.distance != 0 && p.distance <= reach {
          restaurants := restaurants + [p];
        }
      }
      assert es[..i + 1][..i] == es[..i];
    }
    assert es[..|es|] == es;
  }

  /** `restaurants.forEach(r => r.score = scoreRestaurant(r, moodAnalysis))`. */
  method ScoreAll(cs: seq<Place>, q: MoodQuery) returns (restaurants: seq<Place>)
    ensures restaurants == Scored(cs, q)
  {
    restaurants := cs;
    for i := 0 to |restaurants|
      invariant |restaurants| == |cs|
      invariant forall j :: 0 <= j < i ==> restaurants[j] == WithScore(cs[j], q)
      invariant forall j :: i <= j < |cs| ==> restaurants[j] == cs[j]
    {
      var score := ScoreRestaurant(restaurants[i], q);
      restaurants := restaurants[i := restaurants[i].(score := Some(score))];
    }
  }

  lemma {:induction false} CandidatesMeaning(es: seq<Element>, radius: nat, p: Place)
    ensures p in Candidates(es, radius) <==>
      exists i :: 0 <= i < |es| && HasName(es[i]) && p == ParsePlace(es[i]) && InReach(p, radius)
  {
    if es != [] {
      var init := es[..|es| - 1];
      CandidatesMeaning(init, radius, p);
      assert forall i :: 0 <= i < |init| ==> init[i] == es[i];
      if exists i :: 0 <= i < |es| && HasName(es[i]) && p == ParsePlace(es[i]) && InReach(p, radius) {
        var i :| 0 <= i < |es| && HasName(es[i]) && p == ParsePlace(es[i]) && InReach(p, radius);
        if i < |init| {
          assert HasName(init[i]) && p == ParsePlace(init[i]);
        }
      }
    }
  }

  /** The record an element becomes: parsed, and scored when there is a
      mood analysis. */
  function Expected(e: Element, mood: Option<MoodQuery>): Place {
    match mood
    case Some(q) => WithScore(ParsePlace(e), q)
    case None => ParsePlace(e)
  }

  /** p is what some named element within reach becomes. */
  predicate Produced(es: seq<Element>, reach: nat, mood: Option<MoodQuery>, p: Place) {
    exists i :: 0 <= i < |es| && HasName(es[i]) && InReach(ParsePlace(es[i]), reach) && p == Expected(es[i], mood)
  }

  /** Every place before sorting comes from a named element within reach. */
  lemma PreSortProduced(es: seq<Element>, reach: nat, mood: Option<MoodQuery>, p: Place)
    requires p in PreSort(Candidates(es, reach), mood)
    ensures Produced(es, reach, mood, p)
  {
    var cs := Candidates(es, reach);
    var j: int;
    if mood.Some? {
      j :| 0 <= j < |cs| && p == WithScore(cs[j], mood.value);
    } else {
      j :| 0 <= j < |cs| && p == cs[j];
    }
    CandidatesMeaning(es, reach, cs[j]);
    var i :| 0 <= i < |es| && HasName(es[i]) && cs[j] == ParsePlace(es[i]) && InReach(cs[j], reach);
    ExpectedOf(es[i], mood, cs[j], p);
  }

  lemma ExpectedOf(e: Element, mood: Option<MoodQuery>, c: Place, p: Place)
    requires c == ParsePlace(e)
    requires mood.Some? ==> p == WithScore(c, mood.value)
    requires mood.None? ==> p == c
    ensures p == Expected(e, mood)
  {
  }

  /** At most 20 places come back, each what a named element within the
      radius (2000 m unless given) becomes, keeping that element's name;
      with a mood analysis they come best first, otherwise nearest first;
      twenty come back when more qualify, all of them otherwise, and none
      that is cut off ranks above one that is kept. */
  lemma SearchResultMeaning(elements: Option<seq<Element>>, radius: Option<nat>, mood: Option<MoodQuery>)
    ensures var r := SearchResultOf(elements, radius, mood);
      && |r| <= 20
      && (elements.None? ==> r == [])
      && (elements.Some? ==> forall k :: 0 <= k < |r| ==> Produced(elements.value, SearchRadius(radius), mood, r[k]))
      && (mood.Some? ==> SortedDesc(r, ScoreKey))
      && (mood.None? ==> SortedDesc(r, NearKey))
      && (elements.Some? ==> |r| == var n := |Candidates(elements.value, SearchRadius(radius))|; if n < 20 then n else 20)
      && (elements.Some? ==> KeptBest(r, PreSort(Candidates(elements.value, SearchRadius(radius)), mood), RankKey(mood)))
  {
    if elements.Some? {
      SearchResultKeepsBest(elements, radius, mood);
    }
    if elements.Some? && |elements.value| > 0 {
      var es := elements.value;
      var reach := SearchRadius(radius);
      var cs := Candidates(es, reach);
      if mood.Some? {
        forall p | p in Scored(cs, mood.value)
          ensures Produced(es, reach, mood, p)
        {
          PreSortProduced(es, reach, mood, p);
        }
        TopProduced(es, reach, mood, Scored(cs, mood.value), ScoreKey);
      } else {
        forall p | p in cs
          ensures Produced(es, reach, mood, p)
        {
          PreSortProduced(es, reach, mood, p);
        }
        TopProduced(es, reach, mood, cs, NearKey);
      }
    }
  }

  /** The places that come back are places the sort received, all of them
      when no more than 20 qualify, and every place that comes back ranks at
      least as high as every place that was cut off. */
  lemma SearchResultKeepsBest(elements: Option<seq<Element>>, radius: Option<nat>, mood: Option<MoodQuery>)
    requires elements.Some?
    ensures KeptBest(SearchResultOf(elements, radius, mood),
      PreSort(Candidates(elements.value, SearchRadius(radius)), mood), RankKey(mood))
  {
    var pre := PreSort(Candidates(elements.value, SearchRadius(radius)), mood);
    if |elements.value| > 0 {
      TopKeepsBest(pre, RankKey(mood));
    } else {
      assert Candidates(elements.value, SearchRadius(radius)) == [];
    }
  }

  /** Places that rank equally come back in the order the sort received
      them: for each key value, those kept are the first ones with it, and
      all of them when no more than 20 qualify. */
  lemma SearchResultKeepsTieOrder(elements: Option<seq<Element>>, radius: Option<nat>, mood: Option<MoodQuery>, w: real)
    requires elements.Some?
    ensures WithKey(SearchResultOf(elements, radius, mood), RankKey(mood), w)
      <= WithKey(PreSort(Candidates(elements.value, SearchRadius(radius)), mood), RankKey(mood), w)
    ensures |Candidates(elements.value, SearchRadius(radius))| <= 20 ==>
      WithKey(SearchResultOf(elements, radius, mood), RankKey(mood), w)
      == WithKey(PreSort(Candidates(elements.value, SearchRadius(radius)), mood), RankKey(mood), w)
  {
    var pre := PreSort(Candidates(elements.value, SearchRadius(radius)), mood);
    var sorted := SortDesc(pre, RankKey(mood));
    if |elements.value| > 0 {
      SortDescStable(pre, RankKey(mood), w);
      SortDescPermutation(pre, RankKey(mood));
      assert |sorted| == |pre| by { assert |multiset(sorted)| == |multiset(pre)|; }
      if |sorted| > 20 {
        TakeWithKey(sorted, RankKey(mood), w, 20);
      }
    } else {
      assert Candidates(elements.value, SearchRadius(radius)) == [];
    }
  }

  /** r is part of pre: twenty of its places, or all of them when pre has
      no more than 20, and every place of r ranks at least as high as every
      place left out. */
  ghost predicate KeptBest(r: seq<Place>, pre: seq<Place>, key: Place -> real) {
    && |r| == (if |pre| < 20 then |pre| else 20)
    && multiset(r) <= multiset(pre)
    && (|pre| <= 20 ==> multiset(r) == multiset(pre))
    && forall x, y :: x in r && y in multiset(pre) - multiset(r) ==> key(x) >= key(y)
  }

  /** The first 20 of the sorted places: a part of them, all of them when
      there are no more than 20, and none ranked below a place left out. */
  lemma TopKeepsBest(pre: seq<Place>, key: Place -> real)
    ensures KeptBest(Top20(SortDesc(pre, key)), pre, key)
  {
    var sorted := SortDesc(pre, key);
    SortDescPermutation(pre, key);
    SortDescSorted(pre, key);
    assert |sorted| == |pre| by {
      assert |multiset(sorted)| == |multiset(pre)|;
    }
    var r := Top20(sorted);
    if |sorted| > 20 {
      var dropped := sorted[20..];
      assert sorted == r + dropped;
      assert multiset(sorted) == multiset(r) + multiset(dropped);
      forall x, y | x in r && y in multiset(pre) - multiset(r)
        ensures key(x) >= key(y)
      {
        assert y in multiset(dropped);
        var j :| 0 <= j < |dropped| && dropped[j] == y;
        var i :| 0 <= i < |r| && r[i] == x;
        assert sorted[i] == x && sorted[20 + j] == y;
      }
    }
  }

  /** The first 20 of a sorted list of produced places are produced and sorted. */
  lemma TopProduced(es: seq<Element>, reach: nat, mood: Option<MoodQuery>, pre: seq<Place>, key: Place -> real)
    requires forall p :: p in pre ==> Produced(es, reach, mood, p)
    ensures var r := Top20(SortDesc(pre, key));
      && |r| <= 20
      && (|pre| <= 20 ==> |r| == |pre|)
      && SortedDesc(r, key)
      && forall k :: 0 <= k < |r| ==> Produced(es, reach, mood, r[k])
  {
    var sorted := SortDesc(pre, key);
    SortDescPermutation(pre, key);
    SortDescSorted(pre, key);
    TopOfSorted(sorted, key);
    var r := Top20(sorted);
    forall k | 0 <= k < |r|
      ensures Produced(es, reach, mood, r[k])
    {
      assert r[k] == sorted[k];
      assert sorted[k] in multiset(pre);
    }
  }

  /** The first 20 of a sorted sequence are sorted. */
  lemma TopOfSorted(s: seq<Place>, key: Place -> real)
    requires SortedDesc(s, key)
    ensures SortedDesc(Top20(s), key)
    ensures forall k :: 0 <= k < |Top20(s)| ==> Top20(s)[k] == s[k]
  {
    if |s| > 20 {
      TakeSorted(s, key, 20);
    }
  }

  /** A place produced from a named element carries that element's name. */
  lemma ProducedKeepsName(e: Element, mood: Option<MoodQuery>)
    requires HasName(e)
    ensures Expected(e, mood).name == TagsOf(e)["name"]
    ensures Expected(e, mood).id == e.kind + "_" + NatToString(e.id)
  {
  }
}
