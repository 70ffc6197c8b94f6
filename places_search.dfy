/** The Google Places route (pages/api/search-restaurants.ts): the search
    keywords drawn from a mood analysis, the genre, atmosphere and reason
    texts derived for each place, the match score and the top-10 ranking.
    The two mappings of lib/googleMaps (genre name to Google place types,
    mood to search keywords) are parameters.  Ratings are counted in tenths
    of a star, as the Places API reports them with one decimal. */
module PlacesSearch {
  import opened Common
  import opened Strings
  import opened StableSort
  import opened Dictionary

  /** The fields of the analysis object this route reads.  An absent field
      and an empty one are both falsy in the source, so both are "" (or []). */
  datatype Request = Request(genres: seq<string>, mood: string, atmosphere: string,
                             temperature: string, appetite: string)

  /** `genreMapping` and `moodKeywordMapping`, in declaration order. */
  datatype Mappings = Mappings(genreTypes: seq<KeywordGroup>, moodWords: seq<KeywordGroup>)

  /** `moodKeywordMapping[analysis.mood]`, none when the mood is empty or unmapped. */
  function MoodWords(a: Request, m: Mappings): seq<string> {
    if a.mood == "" then [] else GroupKeywords(m.moodWords, a.mood)
  }

  // ---------------------------------------------------------------- keywords

  /** One for a field that is set, none for an empty one. */
  function Flag(field: string): nat {
    if field == "" then 0 else 1
  }

  /** The field as a keyword list: empty when the field is. */
  function Optional(field: string): (ks: seq<string>)
    ensures |ks| == Flag(field) && forall k :: k in ks ==> k == field
  {
    if field == "" then [] else [field]
  }

  /** The genres, then the mood's keywords, then the atmosphere and the
      temperature when set, cut to the first five. */
  function SearchKeywordsOf(a: Request, m: Mappings): seq<string> {
    var all := a.genres + MoodWords(a, m) + Optional(a.atmosphere) + Optional(a.temperature);
    if |all| > 5 then all[..5] else all
  }

  /** `generateSearchKeywords`. */
  method GenerateSearchKeywords(a: Request, m: Mappings) returns (keywords: seq<string>)
    ensures keywords == SearchKeywordsOf(a, m)
  {
    keywords := [];
    if |a.genres| > 0 {
      keywords := keywords + a.genres;
    }
    assert keywords == a.genres;
    if a.mood != "" {
      keywords := keywords + GroupKeywords(m.moodWords, a.mood);
    }
    assert keywords == a.genres + MoodWords(a, m);
    if a.atmosphere != "" {
      keywords := keywords + [a.atmosphere];
    }
    assert keywords == a.genres + MoodWords(a, m) + Optional(a.atmosphere);
    if a.temperature != "" {
      keywords := keywords + [a.temperature];
    }
    assert keywords == a.genres + MoodWords(a, m) + Optional(a.atmosphere) + Optional(a.temperature);
    if |keywords| > 5 {
      keywords := keywords[..5];
    }
  }

  /** At most five keywords: the genres first, then the mood's keywords, then
      the atmosphere and then the temperature, each set field present while
      there is room, and nothing else. */
  lemma SearchKeywordsMeaning(a: Request, m: Mappings)
    ensures var keywords, g, w := SearchKeywordsOf(a, m), |a.genres|, |MoodWords(a, m)|;
      && |keywords| <= 5
      && (forall i :: 0 <= i < |keywords| && i < g ==> keywords[i] == a.genres[i])
      && (forall i :: g <= i < |keywords| && i < g + w ==> keywords[i] == MoodWords(a, m)[i - g])
      && (forall k :: k in keywords ==>
            k in a.genres || k in MoodWords(a, m) || k == a.atmosphere || k == a.temperature)
      && (a.atmosphere != "" && g + w < 5 ==> g + w < |keywords| && keywords[g + w] == a.atmosphere)
      && (a.temperature != "" && g + w + Flag(a.atmosphere) < 5 ==>
            |keywords| == g + w + Flag(a.atmosphere) + 1 && keywords[|keywords| - 1] == a.temperature)
      && (g + w + Flag(a.atmosphere) + Flag(a.temperature) <= 5 ==>
            |keywords| == g + w + Flag(a.atmosphere) + Flag(a.temperature))
  {
    var front := a.genres + MoodWords(a, m);
    var all := front + Optional(a.atmosphere) + Optional(a.temperature);
    var keywords := SearchKeywordsOf(a, m);
    assert keywords == all[..|keywords|];
    assert forall i :: 0 <= i < |keywords| ==> keywords[i] == all[i];
    forall k | k in keywords
      ensures k in a.genres || k in MoodWords(a, m) || k == a.atmosphere || k == a.temperature
    {
      var i :| 0 <= i < |keywords| && keywords[i] == k;
      assert all[i] == k;
      assert k in front || k in Optional(a.atmosphere) || k in Optional(a.temperature);
    }
  }

  // ------------------------------------------------------------------ genres

  /** Some Google type of the genre is among the place's types. */
  predicate SharesType(googleTypes: seq<string>, types: seq<string>) {
    exists i :: 0 <= i < |googleTypes| && googleTypes[i] in types
  }

  /** The genres, in mapping order, whose Google types meet the place's types. */
  function GenresFound(mapping: seq<KeywordGroup>, types: seq<string>): seq<string> {
    if mapping == [] then []
    else
      var g := mapping[|mapping| - 1];
      GenresFound(mapping[..|mapping| - 1], types) + (if SharesType(g.keywords, types) then [g.name] else [])
  }

  /** What `extractGenres` returns. */
  function GenresOf(mapping: seq<KeywordGroup>, types: seq<string>): seq<string> {
    var found := GenresFound(mapping, types);
    if |found| > 0 then found else ["レストラン"]
  }

  /** `extractGenres`. */
  method ExtractGenres(mapping: seq<KeywordGroup>, types: seq<string>) returns (genres: seq<string>)
    ensures genres == GenresOf(mapping, types)
  {
    genres := [];
    for i := 0 to |mapping|
      invariant genres == GenresFound(mapping[..i], types)
    {
      assert mapping[..i + 1][..i] == mapping[..i];
      var g := mapping[i];
      var j := 0;
      var shares := false;
      while j < |g.keywords|
        invariant 0 <= j <= |g.keywords|
        invariant shares <==> exists k :: 0 <= k < j && g.keywords[k] in types
      {
        if g.keywords[j] in types {
          shares := true;
        }
        j := j + 1;
      }
      if shares {
        genres := genres + [g.name];
      }
    }
    assert mapping[..|mapping|] == mapping;
    if |genres| == 0 {
      genres := ["レストラン"];
    }
  }

  /** A genre is found exactly when some entry of that name shares a type. */
  lemma {:induction false} GenresFoundMeaning(mapping: seq<KeywordGroup>, types: seq<string>, name: string)
    ensures name in GenresFound(mapping, types) <==>
      exists i :: 0 <= i < |mapping| && mapping[i].name == name && SharesType(mapping[i].keywords, types)
    ensures |GenresFound(mapping, types)| <= |mapping|
  {
    if mapping != [] {
      var init := mapping[..|mapping| - 1];
      GenresFoundMeaning(init, types, name);
      assert forall j :: 0 <= j < |init| ==> init[j] == mapping[j];
      if exists i :: 0 <= i < |mapping| && mapping[i].name == name && SharesType(mapping[i].keywords, types) {
        var i :| 0 <= i < |mapping| && mapping[i].name == name && SharesType(mapping[i].keywords, types);
        if i < |init| {
          assert init[i] == mapping[i];
        }
      }
    }
  }

  /** `extractGenres` is never empty: the genres found, or 'レストラン' alone. */
  lemma GenresMeaning(mapping: seq<KeywordGroup>, types: seq<string>, name: string)
    ensures GenresOf(mapping, types) != []
    ensures GenresFound(mapping, types) == [] ==> GenresOf(mapping, types) == ["レストラン"]
    ensures GenresFound(mapping, types) != [] ==>
      (name in GenresOf(mapping, types) <==>
        exists i :: 0 <= i < |mapping| && mapping[i].name == name && SharesType(mapping[i].keywords, types))
  {
    GenresFoundMeaning(mapping, types, name);
  }

  // -------------------------------------------------------------- atmosphere

  /** `place.price_level || 2`. */
  function PriceLevel(price: Option<int>): (r: int)
    ensures price.None? || price.value == 0 ==> r == 2
    ensures price.Some? && price.value != 0 ==> r == price.value
  {
    if price.None? || price.value == 0 then 2 else price.value
  }

  /** `place.rating || 0`, in tenths. */
  function RatingTenths(rating: Option<nat>): nat {
    if rating.None? then 0 else rating.value
  }

  /** `extractAtmosphere`: the price level decides first, then the rating. */
  function AtmosphereOf(rating: Option<nat>, price: Option<int>): (r: string)
    ensures PriceLevel(price) >= 4 ==> r == "高級"
    ensures (price.None? || price.value >= 0) ==> (r == "カジュアル" <==> price == Some(1))
    ensures 2 <= PriceLevel(price) <= 3 ==>
      (r == "評判の良い" <==> RatingTenths(rating) >= 45)
      && (r == "人気の" <==> 40 <= RatingTenths(rating) < 45)
      && (r == "アットホーム" <==> RatingTenths(rating) < 40)
    ensures r in {"高級", "カジュアル", "評判の良い", "人気の", "アットホーム"}
  {
    var t := RatingTenths(rating);
    var p := PriceLevel(price);
    if p >= 4 then "高級"
    else if p <= 1 then "カジュアル"
    else if t >= 45 then "評判の良い"
    else if t >= 40 then "人気の"
    else "アットホーム"
  }

  // ------------------------------------------------------------------ reason

  /** `${rating}` for a rating in tenths: "4" for 4.0, "4.5" for 4.5. */
  function RatingText(tenths: nat): (s: string)
    ensures tenths % 10 == 0 ==> s == NatToString(tenths / 10)
    ensures tenths % 10 != 0 ==> s == NatToString(tenths / 10) + "." + [DigitChar(tenths % 10)]
  {
    NatToString(tenths / 10) + (if tenths % 10 == 0 then "" else "." + [DigitChar(tenths % 10)])
  }

  /** The `switch (analysis.mood)` line, for the three moods it knows. */
  function MoodReason(mood: string): Option<string> {
    if mood == "疲れた" then Some("疲れた時にぴったりの優しい味")
    else if mood == "お祝い" then Some("特別な日にふさわしい雰囲気")
    else if mood == "友達と" then Some("友達とシェアして楽しめる")
    else None
  }

  function TemperatureReason(temperature: string): string {
    temperature + "料理でほっとできる"
  }

  function GenreReason(genre: string): string {
    genre + "で気分にマッチ"
  }

  function RatingReason(tenths: nat): string {
    "評価" + RatingText(tenths) + "の人気店"
  }

  const DefaultMatchReason: string := "あなたの気分にぴったり"

  /** The reasons `generateMatchReason` pushes, in the order it pushes them. */
  function Reasons(a: Request, genres: seq<string>, rating: Option<nat>): (rs: seq<string>)
    ensures |rs| == (if MoodReason(a.mood).Some? then 1 else 0) + (if a.temperature != "" then 1 else 0)
      + (if genres != [] then 1 else 0) + (if rating.Some? && rating.value >= 40 then 1 else 0)
    ensures forall i :: 0 <= i < |rs| ==> rs[i] != ""
    ensures MoodReason(a.mood).Some? ==> rs[0] == MoodReason(a.mood).value
    ensures a.temperature != "" ==> TemperatureReason(a.temperature) in rs
    ensures genres != [] ==> GenreReason(genres[0]) in rs
    ensures rating.Some? && rating.value >= 40 ==> rs[|rs| - 1] == RatingReason(rating.value)
  {
    (if MoodReason(a.mood).Some? then [MoodReason(a.mood).value] else [])
    + (if a.temperature != "" then [TemperatureReason(a.temperature)] else [])
    + (if genres != [] then [GenreReason(genres[0])] else [])
    + (if rating.Some? && rating.value >= 40 then [RatingReason(rating.value)] else [])
  }

  /** A join of non-empty pieces is empty only when there are no pieces. */
  lemma JoinNonEmpty(ps: seq<string>, sep: string)
    requires ps != [] && ps[0] != ""
    ensures Join(ps, sep) != ""
  {
  }

  /** What `generateMatchReason` returns. */
  function MatchReasonOf(a: Request, genres: seq<string>, rating: Option<nat>): (r: string)
    ensures r != ""
    ensures Reasons(a, genres, rating) == [] ==> r == DefaultMatchReason
    ensures Reasons(a, genres, rating) != [] ==> r == Join(Reasons(a, genres, rating), "、")
  {
    var rs := Reasons(a, genres, rating);
    if rs != [] then JoinNonEmpty(rs, "、"); Join(rs, "、") else DefaultMatchReason
  }

  /** `generateMatchReason`: push each applicable reason, join them with '、'
      or fall back to the default. */
  method GenerateMatchReason(a: Request, genres: seq<string>, rating: Option<nat>) returns (r: string)
    ensures r == MatchReasonOf(a, genres, rating)
  {
    var reasons := PushReasons(a, genres, rating);
    r := Join(reasons, "、");
    if r == "" {
      r := DefaultMatchReason;
    } else {
      assert reasons != [];
    }
  }

  /** The pushes of `generateMatchReason`, in order. */
  method PushReasons(a: Request, genres: seq<string>, rating: Option<nat>) returns (reasons: seq<string>)
    ensures reasons == Reasons(a, genres, rating)
  {
    reasons := [];
    var mood := MoodReason(a.mood);
    if mood.Some? {
      reasons := reasons + [mood.value];
    }
    var moodPart := reasons;
    if a.temperature != "" {
      reasons := reasons + [TemperatureReason(a.temperature)];
    }
    var temperaturePart := if a.temperature != "" then [TemperatureReason(a.temperature)] else [];
    assert reasons == moodPart + temperaturePart;
    if |genres| > 0 {
      reasons := reasons + [GenreReason(genres[0])];
    }
    var genrePart := if genres != [] then [GenreReason(genres[0])] else [];
    assert reasons == moodPart + temperaturePart + genrePart;
    if rating.Some? && rating.value >= 40 {
      reasons := reasons + [RatingReason(rating.value)];
    }
    var ratingPart := if rating.Some? && rating.value >= 40 then [RatingReason(rating.value)] else [];
    assert reasons == moodPart + temperaturePart + genrePart + ratingPart;
  }

  /** Every reason that applies can be read in the joined text. */
  lemma ReasonShown(a: Request, genres: seq<string>, rating: Option<nat>, j: nat)
    requires j < |Reasons(a, genres, rating)|
    ensures Contains(MatchReasonOf(a, genres, rating), Reasons(a, genres, rating)[j])
  {
    var rs := Reasons(a, genres, rating);
    ContainsAt(rs[j], rs[j], 0);
    JoinContainsPiece(rs, "、", j, rs[j]);
  }

  // -------------------------------------------------------------- restaurant

  /** The fields of a Place Details answer the model reads. */
  datatype PlaceDetails = PlaceDetails(placeId: string, name: string, rating: Option<nat>,
                                       priceLevel: Option<int>, types: seq<string>,
                                       overview: Option<string>)

  /** The `Restaurant` the route builds; `rating` is in tenths. */
  datatype Restaurant = Restaurant(id: string, name: string, rating: nat, priceLevel: int,
                                   distance: nat, genres: seq<string>, atmosphere: string,
                                   description: string, matchReason: string)

  /** `mapPlaceToRestaurant`, given the rounded distance to the user. */
  function MapPlace(place: PlaceDetails, distance: nat, a: Request, m: Mappings): (r: Restaurant)
    ensures r.id == place.placeId && r.name == place.name && r.distance == distance
    ensures r.rating == RatingTenths(place.rating) && r.priceLevel == PriceLevel(place.priceLevel)
    ensures r.genres == GenresOf(m.genreTypes, place.types) && r.genres != []
    ensures r.atmosphere == AtmosphereOf(place.rating, place.priceLevel)
    ensures r.description == (if place.overview.Some? then place.overview.value else "")
    ensures r.matchReason == MatchReasonOf(a, r.genres, place.rating) && r.matchReason != ""
  {
    var genres := GenresOf(m.genreTypes, place.types);
    GenresMeaning(m.genreTypes, place.types, "");
    Restaurant(place.placeId, place.name, RatingTenths(place.rating), PriceLevel(place.priceLevel),
               distance, genres, AtmosphereOf(place.rating, place.priceLevel),
               if place.overview.Some? then place.overview.value else "",
               MatchReasonOf(a, genres, place.rating))
  }

  // ------------------------------------------------------------------- score

  /** Some genre of the restaurant is one the analysis asks for. */
  predicate GenreOverlap(r: Restaurant, a: Request) {
    exists i :: 0 <= i < |r.genres| && r.genres[i] in a.genres
  }

  /** Some keyword of the mood occurs in the name or the description. */
  predicate MoodWordShown(r: Restaurant, a: Request, m: Mappings) {
    exists i :: 0 <= i < |MoodWords(a, m)|
      && (Contains(r.name, MoodWords(a, m)[i]) || Contains(r.description, MoodWords(a, m)[i]))
  }

  function GenreBonus(r: Restaurant, a: Request): (b: real)
    ensures b == 20.0 <==> a.genres != [] && GenreOverlap(r, a)
    ensures b == 0.0 || b == 20.0
  {
    if |a.genres| > 0 && GenreOverlap(r, a) then 20.0 else 0.0
  }

  function MoodBonus(r: Restaurant, a: Request, m: Mappings): (b: real)
    ensures b == 15.0 <==> MoodWordShown(r, a, m)
    ensures b == 0.0 || b == 15.0
    ensures a.mood == "" ==> b == 0.0
  {
    if MoodWordShown(r, a, m) then 15.0 else 0.0
  }

  /** `Math.max(0, 10 - distance / 200)` for a known, non-zero distance. */
  function DistanceBonus(distance: nat): (b: real)
    ensures 0.0 <= b <= 10.0
    ensures distance == 0 || distance >= 2000 ==> b == 0.0
    ensures 0 < distance < 2000 ==> b == 10.0 - distance as real / 200.0 && b > 0.0
  {
    if distance == 0 then 0.0 else Max(0.0, 10.0 - distance as real / 200.0)
  }

  /** The price adjustment: a celebration at price level 3 or more, else a
      light appetite at price level 2 or less. */
  function PriceBonus(r: Restaurant, a: Request): (b: real)
    ensures b == 10.0 <==> a.mood == "お祝い" && r.priceLevel >= 3
    ensures b == 5.0 <==> !(a.mood == "お祝い" && r.priceLevel >= 3) && a.appetite == "軽め" && r.priceLevel <= 2
    ensures b == 0.0 || b == 5.0 || b == 10.0
  {
    if a.mood == "お祝い" && r.priceLevel >= 3 then 10.0
    else if a.appetite == "軽め" && r.priceLevel <= 2 then 5.0
    else 0.0
  }

  /** What `calculateMatchScore` returns. */
  function MatchScoreOf(r: Restaurant, a: Request, m: Mappings): (s: real)
    ensures r.rating as real <= s <= r.rating as real + 55.0
  {
    r.rating as real + GenreBonus(r, a) + MoodBonus(r, a, m) + DistanceBonus(r.distance) + PriceBonus(r, a)
  }

  /** `calculateMatchScore`, accumulating `score` step by step. */
  method CalculateMatchScore(r: Restaurant, a: Request, m: Mappings) returns (score: real)
    ensures score == MatchScoreOf(r, a, m)
  {
    score := 0.0;
    score := score + r.rating as real;
    if |a.genres| > 0 {
      var j := 0;
      var genreMatch := false;
      while j < |r.genres|
        invariant 0 <= j <= |r.genres|
        invariant genreMatch <==> exists i :: 0 <= i < j && r.genres[i] in a.genres
      {
        if r.genres[j] in a.genres {
          genreMatch := true;
        }
        j := j + 1;
      }
      assert genreMatch == GenreOverlap(r, a);
      if genreMatch {
        score := score + 20.0;
      }
    }
    if a.mood != "" {
      var words := GroupKeywords(m.moodWords, a.mood);
      var j := 0;
      var nameMatch := false;
      while j < |words|
        invariant 0 <= j <= |words|
        invariant nameMatch <==> exists i :: 0 <= i < j && (Contains(r.name, words[i]) || Contains(r.description, words[i]))
      {
        if Contains(r.name, words[j]) || Contains(r.description, words[j]) {
          nameMatch := true;
        }
        j := j + 1;
      }
      assert words == MoodWords(a, m);
      assert nameMatch == MoodWordShown(r, a, m);
      if nameMatch {
        score := score + 15.0;
      }
    }
    if r.distance != 0 {
      score := score + Max(0.0, 10.0 - r.distance as real / 200.0);
    }
    if a.mood == "お祝い" && r.priceLevel >= 3 {
      score := score + 10.0;
    } else if a.appetite == "軽め" && r.priceLevel <= 2 {
      score := score + 5.0;
    }
  }

  /** Which parts the score is made of: the rating once more counts ten per
      star, a genre the analysis asks for adds 20, a shown mood word 15, a
      nearer place up to 10, and the celebration price bonus shuts out the
      light-appetite one. */
  lemma MatchScoreParts(r: Restaurant, a: Request, m: Mappings)
    ensures a.genres == [] ==> MatchScoreOf(r, a, m) <= r.rating as real + 35.0
    ensures a.mood == "お祝い" && r.priceLevel >= 3 ==>
      MatchScoreOf(r, a, m) == r.rating as real + GenreBonus(r, a) + MoodBonus(r, a, m) + DistanceBonus(r.distance) + 10.0
    ensures a.mood != "お祝い" && a.appetite == "軽め" && r.priceLevel <= 2 ==>
      MatchScoreOf(r, a, m) == r.rating as real + GenreBonus(r, a) + MoodBonus(r, a, m) + DistanceBonus(r.distance) + 5.0
  {
  }

  // ----------------------------------------------------------------- ranking

  /** The sort key: a restaurant's match score for this analysis. */
  function ScoreKeyFor(a: Request, m: Mappings): Restaurant -> real {
    r => MatchScoreOf(r, a, m)
  }

  /** The ranking: best score first (a stable sort), the first ten, with the
      score itself not part of what is returned. */
  function Ranked(restaurants: seq<Restaurant>, a: Request, m: Mappings): seq<Restaurant> {
    var sorted := SortDesc(restaurants, ScoreKeyFor(a, m));
    if |sorted| <= 10 then sorted else sorted[..10]
  }

  /** Restaurants with equal match scores come back in the order the places
      search gave them: for each score, those kept are the first ones with
      that score, and when there are ten or fewer, all of them. */
  lemma RankedKeepsTieOrder(restaurants: seq<Restaurant>, a: Request, m: Mappings, w: real)
    ensures WithKey(Ranked(restaurants, a, m), ScoreKeyFor(a, m), w) <= WithKey(restaurants, ScoreKeyFor(a, m), w)
    ensures |restaurants| <= 10 ==>
      WithKey(Ranked(restaurants, a, m), ScoreKeyFor(a, m), w) == WithKey(restaurants, ScoreKeyFor(a, m), w)
  {
    var key := ScoreKeyFor(a, m);
    var sorted := SortDesc(restaurants, key);
    SortDescStable(restaurants, key, w);
    SortDescPermutation(restaurants, key);
    assert |sorted| == |restaurants| by { assert |multiset(sorted)| == |multiset(restaurants)|; }
    if |sorted| > 10 {
      TakeWithKey(sorted, key, w, 10);
    }
  }

  /** The ten kept are the best ten: no restaurant that comes back has a
      lower match score than one that was cut off. */
  lemma RankedKeepsBest(restaurants: seq<Restaurant>, a: Request, m: Mappings)
    ensures forall x, y :: x in Ranked(restaurants, a, m) && y in multiset(restaurants) - multiset(Ranked(restaurants, a, m)) ==>
      MatchScoreOf(x, a, m) >= MatchScoreOf(y, a, m)
  {
    var key := ScoreKeyFor(a, m);
    var sorted := SortDesc(restaurants, key);
    SortDescPermutation(restaurants, key);
    var r := Ranked(restaurants, a, m);
    if |sorted| > 10 {
      SortDescSorted(restaurants, key);
      TakeKeepsBest(sorted, key, 10);
      forall x, y | x in r && y in multiset(restaurants) - multiset(r)
        ensures MatchScoreOf(x, a, m) >= MatchScoreOf(y, a, m)
      {
        assert key(x) >= key(y);
      }
    } else {
      assert multiset(restaurants) - multiset(r) == multiset{};
    }
  }

  /** At most ten restaurants, all from the input, best score first; when
      there are ten or fewer, all of them. */
  lemma RankedMeaning(restaurants: seq<Restaurant>, a: Request, m: Mappings)
    ensures |Ranked(restaurants, a, m)| == if |restaurants| <= 10 then |restaurants| else 10
    ensures multiset(Ranked(restaurants, a, m)) <= multiset(restaurants)
    ensures |restaurants| <= 10 ==> multiset(Ranked(restaurants, a, m)) == multiset(restaurants)
    ensures forall i, j :: 0 <= i < j < |Ranked(restaurants, a, m)| ==>
      MatchScoreOf(Ranked(restaurants, a, m)[i], a, m) >= MatchScoreOf(Ranked(restaurants, a, m)[j], a, m)
  {
    var key := ScoreKeyFor(a, m);
    var sorted := SortDesc(restaurants, key);
    SortDescPermutation(restaurants, key);
    SortDescSorted(restaurants, key);
    assert |sorted| == |restaurants| by {
      assert |multiset(sorted)| == |multiset(restaurants)|;
    }
    var r := Ranked(restaurants, a, m);
    if |sorted| > 10 {
      TakeSorted(sorted, key, 10);
      assert sorted == r + sorted[10..];
      assert multiset(sorted) == multiset(r) + multiset(sorted[10..]);
    }
    assert SortedDesc(r, key);
    forall i, j | 0 <= i < j < |r|
      ensures MatchScoreOf(r[i], a, m) >= MatchScoreOf(r[j], a, m)
    {
      assert key(r[i]) >= key(r[j]);
    }
  }
}
