/** The review scorer (`ReviewAnalyzer`): it reads a restaurant's reviews
    against the user's mood profile and reports a 0-10 score, a reason and
    per-keyword statistics.  Its keyword tables are fixed when the object is
    built and never change, so they are constants here and the scorer's
    methods are methods of this module. */
module ReviewAnalyzer {
  import opened Common
  import opened Strings
  import opened Dictionary
  import opened Profile

  /** A review as the caller hands it over; either field may be missing. */
  datatype Review = Review(text: Option<string>, rating: Option<real>)

  /** One keyword counted in a review: how often it occurs and its category's weight. */
  datatype KeywordMatch = KeywordMatch(keyword: string, category: string, count: nat, weight: real)

  /** `{ score, matches }` of the positive and negative scorers. */
  datatype ScoreResult = ScoreResult(score: real, matches: seq<KeywordMatch>)

  datatype TextureMatch = TextureMatch(keyword: string, category: string, isDesired: bool, weight: real)

  datatype MoodMatch = MoodMatch(keyword: string, mood: string, weight: real)

  /** What `analyzeSingleReview` records about one review. */
  datatype ReviewAnalysis = ReviewAnalysis(
    originalRating: real,
    positive: ScoreResult,
    negative: ScoreResult,
    texture: seq<TextureMatch>,
    moods: seq<MoodMatch>,
    density: real,
    length: nat)

  /** `review.text || ''`. */
  function ReviewText(r: Review): string {
    match r.text
    case Some(t) => t
    case None => ""
  }

  /** `review.rating || 0`. */
  function ReviewRating(r: Review): real {
    match r.rating
    case Some(x) => x
    case None => 0.0
  }

  // ---------------------------------------------------------------------
  // Keyword tables

  const TastePraise: seq<string> := ["美味しい", "おいしい", "うまい", "絶品", "最高", "素晴らしい", "感動"]
  const ServicePraise: seq<string> := ["親切", "丁寧", "感じがいい", "接客", "サービス", "対応"]
  const AtmospherePraise: seq<string> := ["雰囲気", "居心地", "くつろげる", "落ち着く", "癒し", "リラックス"]
  const ValuePraise: seq<string> := ["コスパ", "お得", "安い", "リーズナブル", "価値", "満足"]
  const QualityPraise: seq<string> := ["新鮮", "品質", "こだわり", "手作り", "本格的", "上質"]

  /** `positiveKeywords`. */
  const PositiveKeywords: seq<Category> := [
    Category("taste", TastePraise, 2.0),
    Category("service", ServicePraise, 1.5),
    Category("atmosphere", AtmospherePraise, 1.3),
    Category("value", ValuePraise, 1.8),
    Category("quality", QualityPraise, 1.6)
  ]

  const TasteComplaint: seq<string> := ["まずい", "不味い", "いまいち", "微妙", "期待外れ", "がっかり"]
  const ServiceComplaint: seq<string> := ["態度が悪い", "無愛想", "遅い", "冷たい", "最悪", "不快"]
  const CleanlinessComplaint: seq<string> := ["汚い", "不衛生", "臭い", "ベタベタ", "清潔感がない"]
  const WaitComplaint: seq<string> := ["待たされた", "時間がかかる", "遅すぎる", "混雑", "待ち時間"]
  const PriceComplaint: seq<string> := ["高い", "高すぎる", "ぼったくり", "値段の割に", "コスパ悪い"]

  /** `negativeKeywords`: every weight is negative. */
  const NegativeKeywords: seq<Category> := [
    Category("taste", TasteComplaint, -2.0),
    Category("service", ServiceComplaint, -1.5),
    Category("cleanliness", CleanlinessComplaint, -1.8),
    Category("wait", WaitComplaint, -1.2),
    Category("price", PriceComplaint, -1.6)
  ]

  /** `textureKeywords`. */
  const TextureKeywords: seq<KeywordGroup> := [
    KeywordGroup("hot", ["温かい", "あったかい", "アツアツ", "熱々", "湯気"]),
    KeywordGroup("cold", ["冷たい", "つめたい", "ひんやり", "キンキン"]),
    KeywordGroup("crispy", ["サクサク", "カリカリ", "パリパリ", "クリスピー"]),
    KeywordGroup("soft", ["柔らかい", "やわらか", "ふわふわ", "とろとろ", "もちもち"]),
    KeywordGroup("fresh", ["新鮮", "フレッシュ", "みずみずしい", "シャキシャキ"])
  ]

  /** The mood phrases `findMoodMatches` looks for, per mood. */
  const ReviewMoodKeywords: seq<KeywordGroup> := [
    KeywordGroup("comfort", ["ほっとする", "癒される", "安らぐ", "懐かしい", "温かみ"]),
    KeywordGroup("energy", ["元気になる", "パワーが出る", "活力", "エネルギー", "疲れが取れる"]),
    KeywordGroup("celebration", ["特別感", "贅沢", "ご褒美", "記念", "おめでたい"])
  ]

  predicate AllWeights(table: seq<Category>, positive: bool) {
    forall i :: 0 <= i < |table| ==> if positive then table[i].weight > 0.0 else table[i].weight < 0.0
  }

  // ---------------------------------------------------------------------
  // Positive and negative scores

  /** The match one keyword of category c contributes: one entry when
      `text.split(k).length - 1` is positive. */
  function KeywordMatchOf(text: string, c: Category, k: string): seq<KeywordMatch> {
    var n := SplitCount(text, k);
    if n > 0 then [KeywordMatch(k, c.name, n, c.weight)] else []
  }

  function CategoryMatches(text: string, c: Category, kws: seq<string>): seq<KeywordMatch> {
    if kws == [] then []
    else CategoryMatches(text, c, kws[..|kws| - 1]) + KeywordMatchOf(text, c, kws[|kws| - 1])
  }

  /** The matches of a table, category by category, keyword by keyword. */
  function ScoreMatches(text: string, table: seq<Category>): seq<KeywordMatch> {
    if table == [] then []
    else
      var c := table[|table| - 1];
      ScoreMatches(text, table[..|table| - 1]) + CategoryMatches(text, c, c.keywords)
  }

  /** The score of a list of matches: occurrences times weight, summed. */
  function MatchTotal(ms: seq<KeywordMatch>): real {
    if ms == [] then 0.0
    else MatchTotal(ms[..|ms| - 1]) + ms[|ms| - 1].count as real * ms[|ms| - 1].weight
  }

  lemma MatchTotalAppend(ms: seq<KeywordMatch>, m: KeywordMatch)
    ensures MatchTotal(ms + [m]) == MatchTotal(ms) + m.count as real * m.weight
  {
    assert (ms + [m])[..|ms|] == ms;
  }

  lemma {:induction false} MatchTotalConcat(a: seq<KeywordMatch>, b: seq<KeywordMatch>)
    ensures MatchTotal(a + b) == MatchTotal(a) + MatchTotal(b)
  {
    if b == [] {
      assert a + b == a;
    } else {
      var init := b[..|b| - 1];
      MatchTotalConcat(a, init);
      assert a + b == (a + init) + [b[|b| - 1]];
      MatchTotalAppend(a + init, b[|b| - 1]);
    }
  }

  /** `calculatePositiveScore` and `calculateNegativeScore`, which differ only
      in the table they read. */
  method CalculateScore(text: string, table: seq<Category>) returns (r: ScoreResult)
    ensures r.matches == ScoreMatches(text, table)
    ensures r.score == MatchTotal(r.matches)
  {
    var score := 0.0;
    var matches: seq<KeywordMatch> := [];
    for i := 0 to |table|
      invariant matches == ScoreMatches(text, table[..i])
      invariant score == MatchTotal(matches)
    {
      var c := table[i];
      var cs, cm := ScoreCategory(text, c);
      MatchTotalConcat(matches, cm);
      score := score + cs;
      matches := matches + cm;
      assert table[..i + 1][..i] == table[..i];
    }
    assert table[..|table|] == table;
    r := ScoreResult(score, matches);
  }

  /** One category's pass over its keywords. */
  method ScoreCategory(text: string, c: Category) returns (score: real, matches: seq<KeywordMatch>)
    ensures matches == CategoryMatches(text, c, c.keywords)
    ensures score == MatchTotal(matches)
  {
    score := 0.0;
    matches := [];
    for j := 0 to |c.keywords|
      invariant matches == CategoryMatches(text, c, c.keywords[..j])
      invariant score == MatchTotal(matches)
    {
      var k := c.keywords[j];
      var count := SplitCount(text, k);
      if count > 0 {
        var m := KeywordMatch(k, c.name, count, c.weight);
        MatchTotalAppend(matches, m);
        score := score + m.count as real * m.weight;
        matches := matches + [m];
      }
      assert c.keywords[..j + 1][..j] == c.keywords[..j];
    }
    assert c.keywords[..|c.keywords|] == c.keywords;
  }

  method CalculatePositiveScore(text: string) returns (r: ScoreResult)
    ensures r == ScoreResultOf(text, PositiveKeywords)
    ensures r.score >= 0.0
  {
    r := CalculateScore(text, PositiveKeywords);
    ScoreSign(text, PositiveKeywords, true);
  }

  method CalculateNegativeScore(text: string) returns (r: ScoreResult)
    ensures r == ScoreResultOf(text, NegativeKeywords)
    ensures r.score <= 0.0
  {
    r := CalculateScore(text, NegativeKeywords);
    ScoreSign(text, NegativeKeywords, false);
  }

  function ScoreResultOf(text: string, table: seq<Category>): ScoreResult {
    var ms := ScoreMatches(text, table);
    ScoreResult(MatchTotal(ms), ms)
  }

  lemma {:induction false} CategoryMatchesMembership(text: string, c: Category, kws: seq<string>, m: KeywordMatch)
    ensures m in CategoryMatches(text, c, kws) <==>
      exists j :: 0 <= j < |kws| && SplitCount(text, kws[j]) > 0
        && m == KeywordMatch(kws[j], c.name, SplitCount(text, kws[j]), c.weight)
  {
    if kws != [] {
      var init := kws[..|kws| - 1];
      CategoryMatchesMembership(text, c, init, m);
      assert forall j :: 0 <= j < |init| ==> init[j] == kws[j];
      if exists j :: 0 <= j < |kws| && SplitCount(text, kws[j]) > 0
          && m == KeywordMatch(kws[j], c.name, SplitCount(text, kws[j]), c.weight) {
        var j :| 0 <= j < |kws| && SplitCount(text, kws[j]) > 0
          && m == KeywordMatch(kws[j], c.name, SplitCount(text, kws[j]), c.weight);
        if j < |init| {
          assert init[j] == kws[j];
        }
      }
    }
  }

  /** A match is recorded exactly for each table keyword that occurs, with
      its occurrence count and its category's name and weight. */
  lemma {:induction false} ScoreMatchesMembership(text: string, table: seq<Category>, m: KeywordMatch)
    ensures m in ScoreMatches(text, table) <==>
      exists i, j :: 0 <= i < |table| && 0 <= j < |table[i].keywords|
        && SplitCount(text, table[i].keywords[j]) > 0
        && m == KeywordMatch(table[i].keywords[j], table[i].name, SplitCount(text, table[i].keywords[j]), table[i].weight)
  {
    if table != [] {
      var init := table[..|table| - 1];
      var c := table[|table| - 1];
      ScoreMatchesMembership(text, init, m);
      CategoryMatchesMembership(text, c, c.keywords, m);
      assert forall i :: 0 <= i < |init| ==> init[i] == table[i];
      if exists i, j :: 0 <= i < |table| && 0 <= j < |table[i].keywords|
          && SplitCount(text, table[i].keywords[j]) > 0
          && m == KeywordMatch(table[i].keywords[j], table[i].name, SplitCount(text, table[i].keywords[j]), table[i].weight) {
        var i, j :| 0 <= i < |table| && 0 <= j < |table[i].keywords|
          && SplitCount(text, table[i].keywords[j]) > 0
          && m == KeywordMatch(table[i].keywords[j], table[i].name, SplitCount(text, table[i].keywords[j]), table[i].weight);
        if i < |init| {
          assert init[i] == table[i];
        } else {
          assert table[i] == c;
        }
      }
    }
  }

  /** Every recorded match has a positive count and its category's weight. */
  lemma {:induction false} MatchesCarryWeights(text: string, table: seq<Category>, positive: bool)
    requires AllWeights(table, positive)
    ensures forall m :: m in ScoreMatches(text, table) ==>
      m.count > 0 && (if positive then m.weight > 0.0 else m.weight < 0.0)
  {
    forall m | m in ScoreMatches(text, table)
      ensures m.count > 0 && (if positive then m.weight > 0.0 else m.weight < 0.0)
    {
      ScoreMatchesMembership(text, table, m);
    }
  }

  /** Summing matches whose weights share a sign: zero exactly for no
      matches, otherwise of that sign. */
  lemma {:induction false} MatchTotalSign(ms: seq<KeywordMatch>, positive: bool)
    requires forall m :: m in ms ==> m.count > 0 && (if positive then m.weight > 0.0 else m.weight < 0.0)
    ensures ms == [] <==> MatchTotal(ms) == 0.0
    ensures positive ==> MatchTotal(ms) >= 0.0
    ensures !positive ==> MatchTotal(ms) <= 0.0
  {
    if ms != [] {
      var init := ms[..|ms| - 1];
      var last := ms[|ms| - 1];
      assert forall m :: m in init ==> m in ms;
      MatchTotalSign(init, positive);
      assert last in ms;
      var t := last.count as real * last.weight;
      if positive {
        assert t > 0.0;
      } else {
        assert t < 0.0;
      }
    }
  }

  /** The positive score is never negative and the negative score never
      positive; either is zero exactly when no table keyword occurs. */
  lemma ScoreSign(text: string, table: seq<Category>, positive: bool)
    requires AllWeights(table, positive)
    ensures var s := MatchTotal(ScoreMatches(text, table));
      && (positive ==> s >= 0.0)
      && (!positive ==> s <= 0.0)
      && (s == 0.0 <==> ScoreMatches(text, table) == [])
  {
    MatchesCarryWeights(text, table, positive);
    MatchTotalSign(ScoreMatches(text, table), positive);
  }

  /** For a table without empty keywords, there are no matches exactly when
      no keyword occurs in the text. */
  lemma NoMatchesIffNoKeyword(text: string, table: seq<Category>)
    requires NoEmptyKeyword(table)
    ensures ScoreMatches(text, table) == [] <==>
      forall i, j :: 0 <= i < |table| && 0 <= j < |table[i].keywords| ==> !Contains(text, table[i].keywords[j])
  {
    var ms := ScoreMatches(text, table);
    if ms != [] {
      assert ms[0] in ms;
      ScoreMatchesMembership(text, table, ms[0]);
      var i, j :| 0 <= i < |table| && 0 <= j < |table[i].keywords|
        && SplitCount(text, table[i].keywords[j]) > 0
        && ms[0] == KeywordMatch(table[i].keywords[j], table[i].name, SplitCount(text, table[i].keywords[j]), table[i].weight);
      OccurrencesPositive(text, table[i].keywords[j]);
    }
    if exists i, j :: 0 <= i < |table| && 0 <= j < |table[i].keywords| && Contains(text, table[i].keywords[j]) {
      var i, j :| 0 <= i < |table| && 0 <= j < |table[i].keywords| && Contains(text, table[i].keywords[j]);
      OccurrencesPositive(text, table[i].keywords[j]);
      var k := table[i].keywords[j];
      ScoreMatchesMembership(text, table, KeywordMatch(k, table[i].name, SplitCount(text, k), table[i].weight));
    }
  }

  // ---------------------------------------------------------------------
  // Texture and mood matches

  /** `desiredTextures.some(d => d.category === category || d.keyword === keyword)`. */
  function SomeDesired(desired: seq<KeywordEntry>, category: string, keyword: string): (b: bool)
    ensures b <==> exists d :: d in desired && (d.category == category || d.keyword == keyword)
  {
    if desired == [] then false
    else
      assert forall d :: d in desired[1..] ==> d in desired;
      (desired[0].category == category || desired[0].keyword == keyword) || SomeDesired(desired[1..], category, keyword)
  }

  function TextureMatchOf(text: string, g: KeywordGroup, k: string, desired: seq<KeywordEntry>): seq<TextureMatch> {
    if Contains(text, k) then
      var isDesired := SomeDesired(desired, g.name, k);
      [TextureMatch(k, g.name, isDesired, if isDesired then 1.5 else 0.5)]
    else []
  }

  function GroupTextureMatches(text: string, g: KeywordGroup, kws: seq<string>, desired: seq<KeywordEntry>): seq<TextureMatch> {
    if kws == [] then []
    else GroupTextureMatches(text, g, kws[..|kws| - 1], desired) + TextureMatchOf(text, g, kws[|kws| - 1], desired)
  }

  function TextureMatches(text: string, table: seq<KeywordGroup>, desired: seq<KeywordEntry>): seq<TextureMatch> {
    if table == [] then []
    else
      var g := table[|table| - 1];
      TextureMatches(text, table[..|table| - 1], desired) + GroupTextureMatches(text, g, g.keywords, desired)
  }

  /** `findTextureMatches`: `desired` is the profile's desired keywords. */
  method FindTextureMatches(text: string, desired: seq<KeywordEntry>) returns (matches: seq<TextureMatch>)
    ensures matches == TextureMatches(text, TextureKeywords, desired)
  {
    matches := [];
    for i := 0 to |TextureKeywords|
      invariant matches == TextureMatches(text, TextureKeywords[..i], desired)
    {
      var g := TextureKeywords[i];
      var gm := FindGroupTextures(text, g, desired);
      matches := matches + gm;
      assert TextureKeywords[..i + 1][..i] == TextureKeywords[..i];
    }
    assert TextureKeywords[..|TextureKeywords|] == TextureKeywords;
  }

  method FindGroupTextures(text: string, g: KeywordGroup, desired: seq<KeywordEntry>) returns (matches: seq<TextureMatch>)
    ensures matches == GroupTextureMatches(text, g, g.keywords, desired)
  {
    matches := [];
    for j := 0 to |g.keywords|
      invariant matches == GroupTextureMatches(text, g, g.keywords[..j], desired)
    {
      var k := g.keywords[j];
      if Contains(text, k) {
        var isDesired := SomeDesired(desired, g.name, k);
        matches := matches + [TextureMatch(k, g.name, isDesired, if isDesired then 1.5 else 0.5)];
      }
      assert g.keywords[..j + 1][..j] == g.keywords[..j];
    }
    assert g.keywords[..|g.keywords|] == g.keywords;
  }

  /** The texture match a keyword of group g makes when the text includes it. */
  predicate IsTextureMatch(text: string, g: KeywordGroup, k: string, desired: seq<KeywordEntry>, m: TextureMatch) {
    && Contains(text, k)
    && m.keyword == k && m.category == g.name
    && (m.isDesired <==> exists d :: d in desired && (d.category == g.name || d.keyword == k))
    && m.weight == if m.isDesired then 1.5 else 0.5
  }

  lemma {:induction false} GroupTextureMembership(text: string, g: KeywordGroup, kws: seq<string>, desired: seq<KeywordEntry>, m: TextureMatch)
    ensures m in GroupTextureMatches(text, g, kws, desired) <==>
      exists j :: 0 <= j < |kws| && IsTextureMatch(text, g, kws[j], desired, m)
  {
    if kws != [] {
      var init := kws[..|kws| - 1];
      GroupTextureMembership(text, g, init, desired, m);
      assert forall j :: 0 <= j < |init| ==> init[j] == kws[j];
      if exists j :: 0 <= j < |kws| && IsTextureMatch(text, g, kws[j], desired, m) {
        var j :| 0 <= j < |kws| && IsTextureMatch(text, g, kws[j], desired, m);
        if j < |init| {
          assert IsTextureMatch(text, g, init[j], desired, m);
        }
      }
    }
  }

  /** A texture match is made exactly for each texture keyword the text
      includes; it is desired exactly when some desired keyword shares its
      category or is the keyword itself, and then weighs 1.5, else 0.5. */
  lemma {:induction false} TextureMembership(text: string, table: seq<KeywordGroup>, desired: seq<KeywordEntry>, m: TextureMatch)
    ensures m in TextureMatches(text, table, desired) <==>
      exists i, j :: 0 <= i < |table| && 0 <= j < |table[i].keywords| && IsTextureMatch(text, table[i], table[i].keywords[j], desired, m)
  {
    if table != [] {
      var init := table[..|table| - 1];
      var g := table[|table| - 1];
      TextureMembership(text, init, desired, m);
      GroupTextureMembership(text, g, g.keywords, desired, m);
      assert forall i :: 0 <= i < |init| ==> init[i] == table[i];
      if exists i, j :: 0 <= i < |table| && 0 <= j < |table[i].keywords| && IsTextureMatch(text, table[i], table[i].keywords[j], desired, m) {
        var i, j :| 0 <= i < |table| && 0 <= j < |table[i].keywords| && IsTextureMatch(text, table[i], table[i].keywords[j], desired, m);
        if i < |init| {
          assert init[i] == table[i];
        } else {
          assert table[i] == g;
        }
      }
    }
  }

  /** The mood-phrase matches one of the user's moods makes; a mood the
      table does not know has no phrases. */
  function MoodPhraseMatches(text: string, mood: string, kws: seq<string>): seq<MoodMatch> {
    if kws == [] then []
    else
      var k := kws[|kws| - 1];
      MoodPhraseMatches(text, mood, kws[..|kws| - 1]) + (if Contains(text, k) then [MoodMatch(k, mood, 1.3)] else [])
  }

  function MoodMatches(text: string, phrases: seq<KeywordGroup>, userMoods: seq<MoodSignal>): seq<MoodMatch> {
    if userMoods == [] then []
    else
      var u := userMoods[|userMoods| - 1];
      MoodMatches(text, phrases, userMoods[..|userMoods| - 1])
        + MoodPhraseMatches(text, u.mood, GroupKeywords(phrases, u.mood))
  }

  /** `findMoodMatches`: `userMoods` is the profile's mood list. */
  method FindMoodMatches(text: string, userMoods: seq<MoodSignal>) returns (matches: seq<MoodMatch>)
    ensures matches == MoodMatches(text, ReviewMoodKeywords, userMoods)
  {
    matches := [];
    for i := 0 to |userMoods|
      invariant matches == MoodMatches(text, ReviewMoodKeywords, userMoods[..i])
    {
      var mood := userMoods[i].mood;
      var kws := GroupKeywords(ReviewMoodKeywords, mood);
      var found: seq<MoodMatch> := [];
      for j := 0 to |kws|
        invariant found == MoodPhraseMatches(text, mood, kws[..j])
      {
        if Contains(text, kws[j]) {
          found := found + [MoodMatch(kws[j], mood, 1.3)];
        }
        assert kws[..j + 1][..j] == kws[..j];
      }
      assert kws[..|kws|] == kws;
      matches := matches + found;
      assert userMoods[..i + 1][..i] == userMoods[..i];
    }
    assert userMoods[..|userMoods|] == userMoods;
  }

  lemma {:induction false} MoodPhraseMembership(text: string, mood: string, kws: seq<string>, m: MoodMatch)
    ensures m in MoodPhraseMatches(text, mood, kws) <==>
      exists j :: 0 <= j < |kws| && Contains(text, kws[j]) && m == MoodMatch(kws[j], mood, 1.3)
  {
    if kws != [] {
      var init := kws[..|kws| - 1];
      MoodPhraseMembership(text, mood, init, m);
      assert forall j :: 0 <= j < |init| ==> init[j] == kws[j];
      if exists j :: 0 <= j < |kws| && Contains(text, kws[j]) && m == MoodMatch(kws[j], mood, 1.3) {
        var j :| 0 <= j < |kws| && Contains(text, kws[j]) && m == MoodMatch(kws[j], mood, 1.3);
        if j < |init| {
          assert Contains(text, init[j]) && m == MoodMatch(init[j], mood, 1.3);
        }
      }
    }
  }

  /** m is the match one of the phrases of mood u makes in text. */
  predicate IsMoodMatch(text: string, phrases: seq<KeywordGroup>, u: MoodSignal, m: MoodMatch) {
    var kws := GroupKeywords(phrases, u.mood);
    exists j :: 0 <= j < |kws| && Contains(text, kws[j]) && m == MoodMatch(kws[j], u.mood, 1.3)
  }

  /** A mood match is made exactly for each phrase of one of the user's
      moods that the text includes, and weighs 1.3. */
  lemma {:induction false} MoodMembership(text: string, phrases: seq<KeywordGroup>, userMoods: seq<MoodSignal>, m: MoodMatch)
    ensures m in MoodMatches(text, phrases, userMoods) <==>
      exists i :: 0 <= i < |userMoods| && IsMoodMatch(text, phrases, userMoods[i], m)
  {
    if userMoods != [] {
      var init := userMoods[..|userMoods| - 1];
      var u := userMoods[|userMoods| - 1];
      MoodMembership(text, phrases, init, m);
      MoodPhraseMembership(text, u.mood, GroupKeywords(phrases, u.mood), m);
      assert forall i :: 0 <= i < |init| ==> init[i] == userMoods[i];
      if exists i :: 0 <= i < |userMoods| && IsMoodMatch(text, phrases, userMoods[i], m) {
        var i :| 0 <= i < |userMoods| && IsMoodMatch(text, phrases, userMoods[i], m);
        if i < |init| {
          assert IsMoodMatch(text, phrases, init[i], m);
        } else {
          assert userMoods[i] == u;
        }
      }
    }
  }

  /** Only the three moods the phrase table knows can match, each match
      names a mood the user listed, and every match weighs 1.3. */
  lemma MoodMatchesKnownMoods(text: string, userMoods: seq<MoodSignal>, m: MoodMatch)
    requires m in MoodMatches(text, ReviewMoodKeywords, userMoods)
    ensures m.weight == 1.3
    ensures m.mood == "comfort" || m.mood == "energy" || m.mood == "celebration"
    ensures exists u :: u in userMoods && u.mood == m.mood
  {
    MoodMembership(text, ReviewMoodKeywords, userMoods, m);
    var i :| 0 <= i < |userMoods| && IsMoodMatch(text, ReviewMoodKeywords, userMoods[i], m);
    var u := userMoods[i];
    assert u in userMoods;
    GroupKeywordsFound(ReviewMoodKeywords, u.mood);
    var g :| 0 <= g < |ReviewMoodKeywords| && ReviewMoodKeywords[g].name == u.mood;
    assert g == 0 || g == 1 || g == 2;
  }

  // ---------------------------------------------------------------------
  // Keyword density

  /** The keywords of a table, category by category. */
  function AllKeywords(table: seq<Category>): seq<string> {
    if table == [] then []
    else AllKeywords(table[..|table| - 1]) + table[|table| - 1].keywords
  }

  /** `allKeywords`: the positive keywords, then the negative ones. */
  function DensityKeywords(): seq<string> {
    AllKeywords(PositiveKeywords) + AllKeywords(NegativeKeywords)
  }

  /** The summed `split` counts of a list of keywords. */
  function KeywordCount(text: string, kws: seq<string>): int {
    if kws == [] then 0
    else KeywordCount(text, kws[..|kws| - 1]) + SplitCount(text, kws[|kws| - 1])
  }

  /** Keyword occurrences per 100 characters; 0 for the empty text. */
  function DensityOf(text: string): real {
    if |text| == 0 then 0.0
    else KeywordCount(text, DensityKeywords()) as real / |text| as real * 100.0
  }

  /** `calculateKeywordDensity`. */
  method CalculateKeywordDensity(text: string) returns (d: real)
    ensures d == DensityOf(text)
  {
    if |text| == 0 {
      return 0.0;
    }
    var keywordCount := 0;
    var all := DensityKeywords();
    for i := 0 to |all|
      invariant keywordCount == KeywordCount(text, all[..i])
    {
      keywordCount := keywordCount + SplitCount(text, all[i]);
      assert all[..i + 1][..i] == all[..i];
    }
    assert all[..|all|] == all;
    d := keywordCount as real / |text| as real * 100.0;
  }

  lemma {:induction false} AllKeywordsMembership(table: seq<Category>, k: string)
    ensures k in AllKeywords(table) <==> exists i :: 0 <= i < |table| && k in table[i].keywords
  {
    if table != [] {
      var init := table[..|table| - 1];
      AllKeywordsMembership(init, k);
      assert forall i :: 0 <= i < |init| ==> init[i] == table[i];
      if exists i :: 0 <= i < |table| && k in table[i].keywords {
        var i :| 0 <= i < |table| && k in table[i].keywords;
        if i < |init| {
          assert k in init[i].keywords;
        }
      }
    }
  }

  /** With no empty keyword, the count is zero exactly when no keyword
      occurs, and never negative. */
  lemma {:induction false} KeywordCountMeaning(text: string, kws: seq<string>)
    requires forall j :: 0 <= j < |kws| ==> kws[j] != []
    ensures KeywordCount(text, kws) >= 0
    ensures KeywordCount(text, kws) == 0 <==> forall j :: 0 <= j < |kws| ==> !Contains(text, kws[j])
  {
    if kws != [] {
      var init := kws[..|kws| - 1];
      var k := kws[|kws| - 1];
      KeywordCountMeaning(text, init);
      OccurrencesPositive(text, k);
      assert forall j :: 0 <= j < |init| ==> init[j] == kws[j];
    }
  }

  /** Every positive and negative keyword is non-empty. */
  lemma DensityKeywordsNonEmpty()
    ensures forall j :: 0 <= j < |DensityKeywords()| ==> DensityKeywords()[j] != []
  {
    var all := DensityKeywords();
    forall j | 0 <= j < |all| ensures all[j] != [] {
      var k := all[j];
      assert k in all;
      if k in AllKeywords(PositiveKeywords) {
        AllKeywordsMembership(PositiveKeywords, k);
        var i :| 0 <= i < |PositiveKeywords| && k in PositiveKeywords[i].keywords;
        assert i == 0 || i == 1 || i == 2 || i == 3 || i == 4;
      } else {
        AllKeywordsMembership(NegativeKeywords, k);
        var i :| 0 <= i < |NegativeKeywords| && k in NegativeKeywords[i].keywords;
        assert i == 0 || i == 1 || i == 2 || i == 3 || i == 4;
      }
    }
  }

  /** The density is never negative, and it is zero exactly for the empty
      text or a text with no positive or negative keyword. */
  lemma DensityMeaning(text: string)
    ensures DensityOf(text) >= 0.0
    ensures DensityOf(text) == 0.0 <==>
      |text| == 0 || forall j :: 0 <= j < |DensityKeywords()| ==> !Contains(text, DensityKeywords()[j])
  {
    DensityKeywordsNonEmpty();
    KeywordCountMeaning(text, DensityKeywords());
  }

  // ---------------------------------------------------------------------
  // Total score

  /** `analysis.originalRating || 3`: a zero rating counts as 3. */
  function BaseRating(r: real): real {
    if r == 0.0 then 3.0 else r
  }

  /** The summed weights of the desired texture matches. */
  function DesiredTextureBonus(ms: seq<TextureMatch>): real {
    if ms == [] then 0.0
    else DesiredTextureBonus(ms[..|ms| - 1]) + (if ms[|ms| - 1].isDesired then ms[|ms| - 1].weight else 0.0)
  }

  /** How many texture matches are desired. */
  function DesiredCount(ms: seq<TextureMatch>): nat {
    if ms == [] then 0
    else DesiredCount(ms[..|ms| - 1]) + (if ms[|ms| - 1].isDesired then 1 else 0)
  }

  function MoodBonus(ms: seq<MoodMatch>): real {
    if ms == [] then 0.0 else MoodBonus(ms[..|ms| - 1]) + ms[|ms| - 1].weight
  }

  /** One review's score before weighting. */
  function ReviewScore(a: ReviewAnalysis): real {
    BaseRating(a.originalRating) + a.positive.score * 0.3 + a.negative.score * 0.3
    + (DesiredTextureBonus(a.texture) + MoodBonus(a.moods)) * 0.5
  }

  /** `Math.min(length / 100, 2.0)`: longer reviews count more, up to twice. */
  function LengthWeight(n: nat): real {
    Min(n as real / 100.0, 2.0)
  }

  function WeightedSum(rs: seq<ReviewAnalysis>): real {
    if rs == [] then 0.0
    else WeightedSum(rs[..|rs| - 1]) + ReviewScore(rs[|rs| - 1]) * LengthWeight(rs[|rs| - 1].length)
  }

  function WeightSum(rs: seq<ReviewAnalysis>): real {
    if rs == [] then 0.0 else WeightSum(rs[..|rs| - 1]) + LengthWeight(rs[|rs| - 1].length)
  }

  function TotalScoreOf(rs: seq<ReviewAnalysis>): real {
    if |rs| == 0 then 0.0
    else if WeightSum(rs) > 0.0 then WeightedSum(rs) / WeightSum(rs)
    else 0.0
  }

  /** `calculateTotalScore`. */
  method CalculateTotalScore(rs: seq<ReviewAnalysis>) returns (total: real)
    ensures total == TotalScoreOf(rs)
  {
    if |rs| == 0 {
      return 0.0;
    }
    var totalScore := 0.0;
    var weightSum := 0.0;
    for i := 0 to |rs|
      invariant totalScore == WeightedSum(rs[..i])
      invariant weightSum == WeightSum(rs[..i])
    {
      var a := rs[i];
      var reviewScore := BaseRating(a.originalRating);
      reviewScore := reviewScore + a.positive.score * 0.3;
      reviewScore := reviewScore + a.negative.score * 0.3;
      var textureBonus := DesiredTextureBonus(a.texture);
      var moodBonus := MoodBonus(a.moods);
      reviewScore := reviewScore + (textureBonus + moodBonus) * 0.5;
      var lengthWeight := LengthWeight(a.length);
      assert reviewScore == ReviewScore(a);
      totalScore := totalScore + reviewScore * lengthWeight;
      weightSum := weightSum + lengthWeight;
      assert rs[..i + 1][..i] == rs[..i];
    }
    assert rs[..|rs|] == rs;
    total := if weightSum > 0.0 then totalScore / weightSum else 0.0;
  }

  /** The weights are never negative and vanish together exactly when every
      review is empty. */
  lemma {:induction false} WeightSumMeaning(rs: seq<ReviewAnalysis>)
    ensures WeightSum(rs) >= 0.0
    ensures WeightSum(rs) == 0.0 <==> forall i :: 0 <= i < |rs| ==> rs[i].length == 0
  {
    if rs != [] {
      var init := rs[..|rs| - 1];
      WeightSumMeaning(init);
      assert forall i :: 0 <= i < |init| ==> init[i] == rs[i];
    }
  }

  /** A weighted total `t` over total weight `w` of values in [lo, hi]. */
  predicate WeightedBetween(lo: real, hi: real, w: real, t: real) {
    lo * w <= t <= hi * w
  }

  /** The weighted sum of scores in [lo, hi] lies between lo and hi times
      the total weight. */
  lemma WeightedSumBounds(rs: seq<ReviewAnalysis>, lo: real, hi: real)
    requires forall i :: 0 <= i < |rs| ==> lo <= ReviewScore(rs[i]) <= hi
    ensures WeightedBetween(lo, hi, WeightSum(rs), WeightedSum(rs))
  {
    WeightedSumIsDot(rs);
    DotBounds(Scores(rs), Weights(rs), lo, hi, WeightSum(rs), WeightedSum(rs));
  }

  function Scores(rs: seq<ReviewAnalysis>): (xs: seq<real>)
    ensures |xs| == |rs| && forall i :: 0 <= i < |rs| ==> xs[i] == ReviewScore(rs[i])
  {
    seq(|rs|, i requires 0 <= i < |rs| => ReviewScore(rs[i]))
  }

  function Weights(rs: seq<ReviewAnalysis>): (ws: seq<real>)
    ensures |ws| == |rs| && forall i :: 0 <= i < |rs| ==> ws[i] == LengthWeight(rs[i].length) && ws[i] >= 0.0
  {
    seq(|rs|, i requires 0 <= i < |rs| => LengthWeight(rs[i].length))
  }

  /** The sum of xs[i] * ws[i]. */
  function Dot(xs: seq<real>, ws: seq<real>): real
    requires |xs| == |ws|
  {
    if xs == [] then 0.0 else Dot(xs[..|xs| - 1], ws[..|ws| - 1]) + xs[|xs| - 1] * ws[|ws| - 1]
  }

  /** The weighted sum and the weight sum are a dot product and a sum. */
  lemma {:induction false} WeightedSumIsDot(rs: seq<ReviewAnalysis>)
    ensures WeightedSum(rs) == Dot(Scores(rs), Weights(rs))
    ensures WeightSum(rs) == Sum(Weights(rs))
  {
    if rs != [] {
      var n := |rs| - 1;
      WeightedSumIsDot(rs[..n]);
      assert Scores(rs)[..n] == Scores(rs[..n]);
      assert Weights(rs)[..n] == Weights(rs[..n]);
    }
  }

  /** With non-negative weights, a weighted sum of values in [lo, hi] lies
      between lo and hi times the total weight. */
  lemma {:induction false} DotBounds(xs: seq<real>, ws: seq<real>, lo: real, hi: real, wt: real, st: real)
    requires |xs| == |ws|
    requires forall i :: 0 <= i < |xs| ==> lo <= xs[i] <= hi && ws[i] >= 0.0
    requires wt == Sum(ws) && st == Dot(xs, ws)
    ensures WeightedBetween(lo, hi, wt, st)
  {
    if xs != [] {
      var n := |xs| - 1;
      var wi, si := Sum(ws[..n]), Dot(xs[..n], ws[..n]);
      DotBounds(xs[..n], ws[..n], lo, hi, wi, si);
      WeightedStep(lo, hi, wi, si, ws[n], xs[n], wt, st);
    }
  }

  /** One more value keeps the weighted sum between the bounds: `wt` and `st`
      are the weight and the weighted sum with the new value added. */
  lemma WeightedStep(lo: real, hi: real, wi: real, si: real, w: real, x: real, wt: real, st: real)
    requires WeightedBetween(lo, hi, wi, si) && lo <= x <= hi && w >= 0.0
    requires wt == wi + w && st == si + x * w
    ensures WeightedBetween(lo, hi, wt, st)
  {
    MulMonotone(lo, x, w);
    MulMonotone(x, hi, w);
    Distribute(lo, wi, w);
    Distribute(hi, wi, w);
    StepBounds(lo * wi, si, hi * wi, lo * w, x * w, hi * w);
  }

  lemma StepBounds(a: real, b: real, c: real, d: real, e: real, f: real)
    requires a <= b <= c && d <= e <= f
    ensures a + d <= b + e <= c + f
  {
  }

  lemma Distribute(c: real, a: real, b: real)
    ensures c * (a + b) == c * a + c * b
  {
  }

  lemma MulMonotone(x: real, y: real, w: real)
    requires x <= y && w >= 0.0
    ensures x * w <= y * w
  {
  }

  /** The total is the length-weighted mean of the review scores: it lies
      between the lowest and the highest of them, and it is 0 when every
      review is empty (all weights zero). */
  lemma TotalIsWeightedMean(rs: seq<ReviewAnalysis>, lo: real, hi: real)
    requires forall i :: 0 <= i < |rs| ==> lo <= ReviewScore(rs[i]) <= hi
    ensures (exists i :: 0 <= i < |rs| && rs[i].length > 0) ==> lo <= TotalScoreOf(rs) <= hi
    ensures (forall i :: 0 <= i < |rs| ==> rs[i].length == 0) ==> TotalScoreOf(rs) == 0.0
  {
    WeightSumMeaning(rs);
    if exists i :: 0 <= i < |rs| && rs[i].length > 0 {
      var w := WeightSum(rs);
      var t := WeightedSum(rs);
      assert w > 0.0;
      WeightedSumBounds(rs, lo, hi);
      DivBounds(t, w, lo, hi);
    }
  }

  lemma DivBounds(t: real, w: real, lo: real, hi: real)
    requires w > 0.0 && WeightedBetween(lo, hi, w, t)
    ensures lo <= t / w <= hi
  {
    assert (t / w) * w == t;
  }

  /** Texture matches weigh 1.5 when desired, so the texture bonus is 1.5 per
      desired match: undesired matches add nothing. */
  lemma {:induction false} TextureBonusCountsDesired(ms: seq<TextureMatch>)
    requires forall i :: 0 <= i < |ms| ==> ms[i].weight == if ms[i].isDesired then 1.5 else 0.5
    ensures DesiredTextureBonus(ms) == 1.5 * DesiredCount(ms) as real
  {
    if ms != [] {
      var init := ms[..|ms| - 1];
      assert forall i :: 0 <= i < |init| ==> init[i] == ms[i];
      TextureBonusCountsDesired(init);
    }
  }

  /** A review without rating and without any match scores the neutral 3. */
  lemma UnratedReviewIsNeutral(a: ReviewAnalysis)
    requires a.originalRating == 0.0 && a.positive.score == 0.0 && a.negative.score == 0.0
    requires a.texture == [] && a.moods == []
    ensures ReviewScore(a) == 3.0
  {
  }

  // ---------------------------------------------------------------------
  // Reason

  /** The reasons `generateReason` may give, in the order it checks them. */
  const ReasonPhrases: seq<string> := [
    "高評価の口コミが多い",
    "味や雰囲気の評価が高い",
    "あなたの好みの食感・温度感にマッチ",
    "今の気分にぴったりの雰囲気",
    "一部で気になる評価あり"
  ]

  const DefaultReason: string := "口コミ情報から総合的に判断"

  const NoReviewsReason: string := "口コミ情報が不足しています"

  /** The summed original ratings (`a.originalRating || 0`). */
  function RatingSum(rs: seq<ReviewAnalysis>): real {
    if rs == [] then 0.0 else RatingSum(rs[..|rs| - 1]) + rs[|rs| - 1].originalRating
  }

  function PositiveMatchCount(rs: seq<ReviewAnalysis>): nat {
    if rs == [] then 0 else PositiveMatchCount(rs[..|rs| - 1]) + |rs[|rs| - 1].positive.matches|
  }

  function DesiredTextureCount(rs: seq<ReviewAnalysis>): nat {
    if rs == [] then 0 else DesiredTextureCount(rs[..|rs| - 1]) + DesiredCount(rs[|rs| - 1].texture)
  }

  function MoodMatchCount(rs: seq<ReviewAnalysis>): nat {
    if rs == [] then 0 else MoodMatchCount(rs[..|rs| - 1]) + |rs[|rs| - 1].moods|
  }

  function Abs(x: real): real {
    if x < 0.0 then -x else x
  }

  /** The summed magnitudes of the negative scores. */
  function NegativeMagnitude(rs: seq<ReviewAnalysis>): real {
    if rs == [] then 0.0 else NegativeMagnitude(rs[..|rs| - 1]) + Abs(rs[|rs| - 1].negative.score)
  }

  /** Which of the five reasons apply: a mean rating of at least 4, at least
      three positive matches, a desired texture match, a mood match, and a
      negative magnitude above 2.  An empty list has no mean rating (the
      source divides by zero), so the first reason does not apply to it. */
  function ReasonFlags(rs: seq<ReviewAnalysis>): (flags: seq<bool>)
    ensures |flags| == |ReasonPhrases|
  {
    [ |rs| > 0 && RatingSum(rs) / |rs| as real >= 4.0,
      PositiveMatchCount(rs) >= 3,
      DesiredTextureCount(rs) > 0,
      MoodMatchCount(rs) > 0,
      NegativeMagnitude(rs) > 2.0 ]
  }

  /** The phrases whose flag is set, in their order. */
  function Selected(phrases: seq<string>, flags: seq<bool>): seq<string>
    requires |phrases| == |flags|
  {
    if phrases == [] then []
    else
      var n := |phrases| - 1;
      Selected(phrases[..n], flags[..n]) + (if flags[n] then [phrases[n]] else [])
  }

  /** The positions of the set flags, in increasing order. */
  function SetPositions(flags: seq<bool>): seq<nat> {
    if flags == [] then []
    else
      var n := |flags| - 1;
      SetPositions(flags[..n]) + (if flags[n] then [n] else [])
  }

  function ReasonOf(rs: seq<ReviewAnalysis>): string {
    var reasons := Selected(ReasonPhrases, ReasonFlags(rs));
    if reasons == [] then DefaultReason else Join(reasons, "、")
  }

  /** `generateReason`. */
  method GenerateReason(rs: seq<ReviewAnalysis>) returns (reason: string)
    ensures reason == ReasonOf(rs)
  {
    var flags := ReasonFlags(rs);
    var reasons: seq<string> := [];
    if |rs| > 0 && RatingSum(rs) / |rs| as real >= 4.0 {
      reasons := reasons + [ReasonPhrases[0]];
    }
    assert reasons == Selected(ReasonPhrases[..1], flags[..1]);
    if PositiveMatchCount(rs) >= 3 {
      reasons := reasons + [ReasonPhrases[1]];
    }
    assert reasons == Selected(ReasonPhrases[..2], flags[..2]) by {
      assert ReasonPhrases[..2][..1] == ReasonPhrases[..1] && flags[..2][..1] == flags[..1];
    }
    if DesiredTextureCount(rs) > 0 {
      reasons := reasons + [ReasonPhrases[2]];
    }
    assert reasons == Selected(ReasonPhrases[..3], flags[..3]) by {
      assert ReasonPhrases[..3][..2] == ReasonPhrases[..2] && flags[..3][..2] == flags[..2];
    }
    if MoodMatchCount(rs) > 0 {
      reasons := reasons + [ReasonPhrases[3]];
    }
    assert reasons == Selected(ReasonPhrases[..4], flags[..4]) by {
      assert ReasonPhrases[..4][..3] == ReasonPhrases[..3] && flags[..4][..3] == flags[..3];
    }
    if NegativeMagnitude(rs) > 2.0 {
      reasons := reasons + [ReasonPhrases[4]];
    }
    assert reasons == Selected(ReasonPhrases, flags) by {
      assert ReasonPhrases[..4] == ReasonPhrases[..|ReasonPhrases| - 1];
      assert flags[..4] == flags[..|flags| - 1];
    }
    reason := if |reasons| > 0 then Join(reasons, "、") else DefaultReason;
  }

  /** The selected phrases are exactly the phrases at the set positions,
      which increase, and a position is listed exactly when its flag is set. */
  lemma {:induction false} SelectedIsSetPositions(phrases: seq<string>, flags: seq<bool>)
    requires |phrases| == |flags|
    ensures var r, ps := Selected(phrases, flags), SetPositions(flags);
      && |r| == |ps|
      && (forall x :: 0 <= x < |ps| ==> ps[x] < |phrases| && r[x] == phrases[ps[x]])
  {
    if phrases != [] {
      var n := |phrases| - 1;
      var p0, f0 := phrases[..n], flags[..n];
      SelectedIsSetPositions(p0, f0);
      var r0, ps0 := Selected(p0, f0), SetPositions(f0);
      assert forall x :: 0 <= x < |ps0| ==> ps0[x] < n && r0[x] == phrases[ps0[x]];
      if flags[n] {
        assert Selected(phrases, flags) == r0 + [phrases[n]];
        assert SetPositions(flags) == ps0 + [n];
      } else {
        assert Selected(phrases, flags) == r0;
        assert SetPositions(flags) == ps0;
      }
    }
  }

  /** The set positions increase, and a position is listed exactly when its
      flag is set. */
  lemma {:induction false} SetPositionsMeaning(flags: seq<bool>)
    ensures var ps := SetPositions(flags);
      && (forall x :: 0 <= x < |ps| ==> ps[x] < |flags|)
      && (forall x, y :: 0 <= x < y < |ps| ==> ps[x] < ps[y])
      && (forall i :: 0 <= i < |flags| ==> (flags[i] <==> i in ps))
  {
    if flags != [] {
      var n := |flags| - 1;
      var f0 := flags[..n];
      SetPositionsMeaning(f0);
      var ps0 := SetPositions(f0);
      assert forall i :: 0 <= i < n ==> (flags[i] <==> f0[i]);
      if flags[n] {
        var ps := ps0 + [n];
        assert SetPositions(flags) == ps;
        forall x, y | 0 <= x < y < |ps| ensures ps[x] < ps[y] {
          if y < |ps0| {
            assert ps[x] == ps0[x] && ps[y] == ps0[y];
          } else {
            assert ps[x] == ps0[x] && ps[y] == n;
          }
        }
        assert forall i :: 0 <= i < n ==> (i in ps <==> i in ps0);
      } else {
        assert SetPositions(flags) == ps0;
        assert n !in ps0;
      }
    }
  }

  /** With distinct phrases: none is selected when no flag is set; a phrase
      is selected exactly when its flag is set; and the join of the
      selection names every phrase whose flag is set. */
  lemma SelectedMeaning(phrases: seq<string>, flags: seq<bool>, sep: string)
    requires |phrases| == |flags|
    requires forall i, j :: 0 <= i < j < |phrases| ==> phrases[i] != phrases[j]
    ensures (forall i :: 0 <= i < |flags| ==> !flags[i]) ==> Selected(phrases, flags) == []
    ensures forall i :: 0 <= i < |flags| ==> (flags[i] <==> phrases[i] in Selected(phrases, flags))
    ensures forall i :: 0 <= i < |flags| && flags[i] ==> Contains(Join(Selected(phrases, flags), sep), phrases[i])
  {
    var r := Selected(phrases, flags);
    SelectedIsSetPositions(phrases, flags);
    SetPositionsMeaning(flags);
    var ps := SetPositions(flags);
    forall i | 0 <= i < |flags|
      ensures flags[i] <==> phrases[i] in r
      ensures flags[i] ==> Contains(Join(r, sep), phrases[i])
    {
      if flags[i] {
        var x :| 0 <= x < |ps| && ps[x] == i;
        assert r[x] == phrases[i];
        ContainsAt(r[x], r[x], 0);
        JoinContainsPiece(r, sep, x, r[x]);
      }
      if phrases[i] in r {
        var x :| 0 <= x < |r| && r[x] == phrases[i];
        var j := ps[x];
        assert phrases[j] == phrases[i];
        assert i == j;
        assert j in ps;
      }
    }
    if r != [] {
      assert ps[0] in ps;
      assert flags[ps[0]];
    }
  }

  lemma ReasonPhrasesDistinct()
    ensures forall i, j :: 0 <= i < j < |ReasonPhrases| ==> ReasonPhrases[i] != ReasonPhrases[j]
  {
    var p := ReasonPhrases;
    assert p[0][0] == '高' && p[1][0] == '味' && p[2][0] == 'あ' && p[3][0] == '今' && p[4][0] == '一';
  }

  /** The reason is the default when no reason applies; otherwise it joins
      the applying reasons, in their fixed order, with '、', and names each
      of them; a reason is given exactly when it applies. */
  lemma ReasonMeaning(rs: seq<ReviewAnalysis>)
    ensures var flags := ReasonFlags(rs);
      && ((forall i :: 0 <= i < 5 ==> !flags[i]) ==> ReasonOf(rs) == DefaultReason)
      && (forall i :: 0 <= i < 5 && flags[i] ==> Contains(ReasonOf(rs), ReasonPhrases[i]))
      && (forall i :: 0 <= i < 5 ==> (flags[i] <==> ReasonPhrases[i] in Selected(ReasonPhrases, flags)))
  {
    ReasonPhrasesDistinct();
    var flags := ReasonFlags(rs);
    SelectedMeaning(ReasonPhrases, flags, "、");
    if Selected(ReasonPhrases, flags) == [] {
      assert ReasonOf(rs) == DefaultReason;
    }
  }

  // ---------------------------------------------------------------------
  // Average rating and confidence

  function Sum(xs: seq<real>): real {
    if xs == [] then 0.0 else Sum(xs[..|xs| - 1]) + xs[|xs| - 1]
  }

  /** The arithmetic mean, 0 for no values. */
  function Mean(xs: seq<real>): real {
    if xs == [] then 0.0 else Sum(xs) / |xs| as real
  }

  lemma {:induction false} SumBounds(xs: seq<real>, lo: real, hi: real)
    requires forall i :: 0 <= i < |xs| ==> lo <= xs[i] <= hi
    ensures WeightedBetween(lo, hi, |xs| as real, Sum(xs))
  {
    if xs != [] {
      var init := xs[..|xs| - 1];
      assert forall i :: 0 <= i < |init| ==> init[i] == xs[i];
      SumBounds(init, lo, hi);
      WeightedStep(lo, hi, |init| as real, Sum(init), 1.0, xs[|xs| - 1], |xs| as real, Sum(xs));
    }
  }

  /** A mean lies between the least and the greatest value. */
  lemma MeanBounds(xs: seq<real>, lo: real, hi: real)
    requires xs != []
    requires forall i :: 0 <= i < |xs| ==> lo <= xs[i] <= hi
    ensures lo <= Mean(xs) <= hi
  {
    SumBounds(xs, lo, hi);
    DivBounds(Sum(xs), |xs| as real, lo, hi);
  }

  /** The ratings as `calculateAverageRating` reads them (`r.rating || 0`). */
  function Ratings(reviews: seq<Review>): (xs: seq<real>)
    ensures |xs| == |reviews| && forall i :: 0 <= i < |reviews| ==> xs[i] == ReviewRating(reviews[i])
  {
    if reviews == [] then [] else Ratings(reviews[..|reviews| - 1]) + [ReviewRating(reviews[|reviews| - 1])]
  }

  /** `calculateAverageRating`: the mean rating, a missing rating counting
      as 0; 0 for no reviews. */
  function AverageRating(reviews: seq<Review>): real {
    Mean(Ratings(reviews))
  }

  /** The average rating lies within any bounds every rating keeps (a
      missing rating is 0, so the bounds must then admit 0). */
  lemma AverageRatingBounds(reviews: seq<Review>, lo: real, hi: real)
    requires forall i :: 0 <= i < |reviews| ==> lo <= ReviewRating(reviews[i]) <= hi
    ensures reviews != [] ==> lo <= AverageRating(reviews) <= hi
    ensures reviews == [] ==> AverageRating(reviews) == 0.0
  {
    if reviews != [] {
      MeanBounds(Ratings(reviews), lo, hi);
    }
  }

  function Lengths(rs: seq<ReviewAnalysis>): (xs: seq<real>)
    ensures |xs| == |rs| && forall i :: 0 <= i < |rs| ==> xs[i] == rs[i].length as real
  {
    if rs == [] then [] else Lengths(rs[..|rs| - 1]) + [rs[|rs| - 1].length as real]
  }

  function Densities(rs: seq<ReviewAnalysis>): (xs: seq<real>)
    ensures |xs| == |rs| && forall i :: 0 <= i < |rs| ==> xs[i] == rs[i].density
  {
    if rs == [] then [] else Densities(rs[..|rs| - 1]) + [rs[|rs| - 1].density]
  }

  /** `calculateConfidence`: the mean of three factors, each capped at 1 —
      the number of reviews against 5, their mean length against 50, and
      their mean keyword density against 5. */
  function ConfidenceOf(rs: seq<ReviewAnalysis>): real {
    if |rs| == 0 then 0.0
    else
      var countFactor := Min(|rs| as real / 5.0, 1.0);
      var lengthFactor := Min(Mean(Lengths(rs)) / 50.0, 1.0);
      var densityFactor := Min(Mean(Densities(rs)) / 5.0, 1.0);
      (countFactor + lengthFactor + densityFactor) / 3.0
  }

  /** The confidence never exceeds 1, is never negative when no density is,
      and is 1 exactly when there are at least five reviews whose mean
      length is at least 50 and whose mean density is at least 5. */
  lemma ConfidenceBounds(rs: seq<ReviewAnalysis>)
    ensures ConfidenceOf(rs) <= 1.0
    ensures (forall i :: 0 <= i < |rs| ==> rs[i].density >= 0.0) ==> ConfidenceOf(rs) >= 0.0
    ensures ConfidenceOf(rs) == 1.0 <==>
      |rs| >= 5 && Mean(Lengths(rs)) >= 50.0 && Mean(Densities(rs)) >= 5.0
  {
    if rs != [] {
      var ml, md := Mean(Lengths(rs)), Mean(Densities(rs));
      MeanNonNegative(Lengths(rs));
      if forall i :: 0 <= i < |rs| ==> rs[i].density >= 0.0 {
        MeanNonNegative(Densities(rs));
      }
      Factor(|rs| as real, 5.0);
      Factor(ml, 50.0);
      Factor(md, 5.0);
      ThirdOfSum(Min(|rs| as real / 5.0, 1.0), Min(ml / 50.0, 1.0), Min(md / 5.0, 1.0));
    }
  }

  /** `Math.min(x / d, 1.0)`: at most 1, not negative for a non-negative x,
      and 1 exactly when x reaches d. */
  lemma Factor(x: real, d: real)
    requires d > 0.0
    ensures Min(x / d, 1.0) <= 1.0
    ensures x >= 0.0 ==> Min(x / d, 1.0) >= 0.0
    ensures Min(x / d, 1.0) == 1.0 <==> x >= d
  {
    assert (x / d) * d == x;
    if x >= d {
      assert x / d >= 1.0;
    }
  }

  lemma ThirdOfSum(a: real, b: real, c: real)
    requires a <= 1.0 && b <= 1.0 && c <= 1.0
    ensures (a + b + c) / 3.0 <= 1.0
    ensures (a + b + c) / 3.0 == 1.0 <==> a == 1.0 && b == 1.0 && c == 1.0
  {
  }

  lemma {:induction false} SumNonNegative(xs: seq<real>)
    requires forall i :: 0 <= i < |xs| ==> xs[i] >= 0.0
    ensures Sum(xs) >= 0.0
  {
    if xs != [] {
      var init := xs[..|xs| - 1];
      assert forall i :: 0 <= i < |init| ==> init[i] == xs[i];
      SumNonNegative(init);
    }
  }

  lemma MeanNonNegative(xs: seq<real>)
    requires forall i :: 0 <= i < |xs| ==> xs[i] >= 0.0
    ensures Mean(xs) >= 0.0
  {
    if xs != [] {
      SumNonNegative(xs);
    }
  }

  // ---------------------------------------------------------------------
  // Keyword statistics

  /** `{ positive, negative, texture, mood }`: per keyword, how often it was
      counted across the reviews. */
  datatype KeywordTallies = KeywordTallies(
    positive: map<string, nat>, negative: map<string, nat>, texture: map<string, nat>, mood: map<string, nat>)

  /** `tally[k] = (tally[k] || 0) + n`. */
  function Bump(tally: map<string, nat>, k: string, n: nat): map<string, nat> {
    tally[k := (if k in tally then tally[k] else 0) + n]
  }

  /** Bumps a tally by each (keyword, amount) pair in turn. */
  function AddPairs(tally: map<string, nat>, ps: seq<(string, nat)>): map<string, nat> {
    if ps == [] then tally
    else Bump(AddPairs(tally, ps[..|ps| - 1]), ps[|ps| - 1].0, ps[|ps| - 1].1)
  }

  /** The total amount a list of pairs gives keyword k: the reference the
      tally is checked against. */
  function AmountFor(ps: seq<(string, nat)>, k: string): nat {
    if ps == [] then 0
    else AmountFor(ps[..|ps| - 1], k) + (if ps[|ps| - 1].0 == k then ps[|ps| - 1].1 else 0)
  }

  /** What each review contributes: positive and negative matches by their
      counts, texture and mood matches by one each. */
  function PositivePairs(a: ReviewAnalysis): seq<(string, nat)> {
    seq(|a.positive.matches|, i requires 0 <= i < |a.positive.matches| => (a.positive.matches[i].keyword, a.positive.matches[i].count))
  }

  function NegativePairs(a: ReviewAnalysis): seq<(string, nat)> {
    seq(|a.negative.matches|, i requires 0 <= i < |a.negative.matches| => (a.negative.matches[i].keyword, a.negative.matches[i].count))
  }

  function TexturePairs(a: ReviewAnalysis): seq<(string, nat)> {
    seq(|a.texture|, i requires 0 <= i < |a.texture| => (a.texture[i].keyword, 1))
  }

  function MoodPairs(a: ReviewAnalysis): seq<(string, nat)> {
    seq(|a.moods|, i requires 0 <= i < |a.moods| => (a.moods[i].keyword, 1))
  }

  /** The pairs of all reviews, review by review. */
  function AllPairs(rs: seq<ReviewAnalysis>, pairs: ReviewAnalysis -> seq<(string, nat)>): seq<(string, nat)> {
    if rs == [] then [] else AllPairs(rs[..|rs| - 1], pairs) + pairs(rs[|rs| - 1])
  }

  /** A tally built from nothing. */
  function Tally(ps: seq<(string, nat)>): map<string, nat> {
    AddPairs(map[], ps)
  }

  function TalliesOf(rs: seq<ReviewAnalysis>): KeywordTallies {
    KeywordTallies(
      Tally(AllPairs(rs, PositivePairs)),
      Tally(AllPairs(rs, NegativePairs)),
      Tally(AllPairs(rs, TexturePairs)),
      Tally(AllPairs(rs, MoodPairs)))
  }

  /** Bumps the tally pair by pair, as each `forEach` over matches does. */
  method BumpAll(tally: map<string, nat>, ps: seq<(string, nat)>) returns (r: map<string, nat>)
    ensures r == AddPairs(tally, ps)
  {
    r := tally;
    for j := 0 to |ps|
      invariant r == AddPairs(tally, ps[..j])
    {
      var (k, n) := ps[j];
      r := r[k := (if k in r then r[k] else 0) + n];
      assert ps[..j + 1][..j] == ps[..j];
    }
    assert ps[..|ps|] == ps;
  }

  /** `getKeywordMatches`. */
  method GetKeywordMatches(rs: seq<ReviewAnalysis>) returns (t: KeywordTallies)
    ensures t == TalliesOf(rs)
  {
    var positive: map<string, nat> := map[];
    var negative: map<string, nat> := map[];
    var texture: map<string, nat> := map[];
    var mood: map<string, nat> := map[];
    for i := 0 to |rs|
      invariant positive == AddPairs(map[], AllPairs(rs[..i], PositivePairs))
      invariant negative == AddPairs(map[], AllPairs(rs[..i], NegativePairs))
      invariant texture == AddPairs(map[], AllPairs(rs[..i], TexturePairs))
      invariant mood == AddPairs(map[], AllPairs(rs[..i], MoodPairs))
    {
      var a := rs[i];
      assert rs[..i + 1][..i] == rs[..i];
      AddPairsConcat(map[], AllPairs(rs[..i], PositivePairs), PositivePairs(a));
      AddPairsConcat(map[], AllPairs(rs[..i], NegativePairs), NegativePairs(a));
      AddPairsConcat(map[], AllPairs(rs[..i], TexturePairs), TexturePairs(a));
      AddPairsConcat(map[], AllPairs(rs[..i], MoodPairs), MoodPairs(a));
      positive := BumpAll(positive, PositivePairs(a));
      negative := BumpAll(negative, NegativePairs(a));
      texture := BumpAll(texture, TexturePairs(a));
      mood := BumpAll(mood, MoodPairs(a));
    }
    assert rs[..|rs|] == rs;
    t := KeywordTallies(positive, negative, texture, mood);
  }

  lemma {:induction false} AddPairsConcat(tally: map<string, nat>, a: seq<(string, nat)>, b: seq<(string, nat)>)
    ensures AddPairs(tally, a + b) == AddPairs(AddPairs(tally, a), b)
  {
    if b == [] {
      assert a + b == a;
    } else {
      var init := b[..|b| - 1];
      AddPairsConcat(tally, a, init);
      assert (a + b)[..|a + b| - 1] == a + init;
    }
  }

  /** A tally holds exactly the keywords it started with or that some pair
      names, and holds for each its starting amount plus the total the
      pairs give it. */
  lemma {:induction false} AddPairsMeaning(tally: map<string, nat>, ps: seq<(string, nat)>, k: string)
    ensures k in AddPairs(tally, ps) <==> k in tally || exists i :: 0 <= i < |ps| && ps[i].0 == k
    ensures k in AddPairs(tally, ps) ==>
      AddPairs(tally, ps)[k] == (if k in tally then tally[k] else 0) + AmountFor(ps, k)
  {
    if ps != [] {
      var init := ps[..|ps| - 1];
      AddPairsMeaning(tally, init, k);
      assert forall i :: 0 <= i < |init| ==> init[i] == ps[i];
      if exists i :: 0 <= i < |ps| && ps[i].0 == k {
        var i :| 0 <= i < |ps| && ps[i].0 == k;
        if i < |init| {
          assert init[i].0 == k;
        }
      }
      if k !in AddPairs(tally, init) {
        assert AmountFor(init, k) == 0 by {
          AmountForAbsent(init, k);
        }
      }
    }
  }

  lemma {:induction false} AmountForAbsent(ps: seq<(string, nat)>, k: string)
    ensures (forall i :: 0 <= i < |ps| ==> ps[i].0 != k) ==> AmountFor(ps, k) == 0
  {
    if ps != [] {
      var init := ps[..|ps| - 1];
      assert forall i :: 0 <= i < |init| ==> init[i] == ps[i];
      AmountForAbsent(init, k);
    }
  }

  /** A tally started from nothing holds exactly the keywords some pair
      names, each with the total the pairs give it. */
  lemma TallyMeaning(ps: seq<(string, nat)>, k: string)
    ensures k in Tally(ps) <==> exists i :: 0 <= i < |ps| && ps[i].0 == k
    ensures k in Tally(ps) ==> Tally(ps)[k] == AmountFor(ps, k)
  {
    AddPairsMeaning(map[], ps, k);
  }

  // ---------------------------------------------------------------------
  // Whole analysis

  /** The user preferences the scorer reads: the profile's desired keywords
      and mood list, either possibly absent (`|| []`). */
  datatype Preferences = Preferences(desired: Option<seq<KeywordEntry>>, mood: Option<seq<MoodSignal>>)

  function DesiredOf(p: Preferences): seq<KeywordEntry> {
    match p.desired
    case Some(d) => d
    case None => []
  }

  function MoodsOf(p: Preferences): seq<MoodSignal> {
    match p.mood
    case Some(m) => m
    case None => []
  }

  /** The `details` of a report. */
  datatype Details = Details(
    reviews: seq<ReviewAnalysis>, averageRating: real, keywordMatches: KeywordTallies, confidence: real)

  /** What `analyzeReviews` returns. */
  datatype ReviewReport = ReviewReport(score: real, reason: string, details: Option<Details>)

  function SingleReviewOf(r: Review, p: Preferences): ReviewAnalysis {
    var text := ReviewText(r);
    ReviewAnalysis(
      ReviewRating(r),
      ScoreResultOf(text, PositiveKeywords),
      ScoreResultOf(text, NegativeKeywords),
      TextureMatches(text, TextureKeywords, DesiredOf(p)),
      MoodMatches(text, ReviewMoodKeywords, MoodsOf(p)),
      DensityOf(text),
      |text|)
  }

  /** `analyzeSingleReview`. */
  method AnalyzeSingleReview(r: Review, p: Preferences) returns (a: ReviewAnalysis)
    ensures a == SingleReviewOf(r, p)
  {
    var text := ReviewText(r);
    var positive := CalculatePositiveScore(text);
    var negative := CalculateNegativeScore(text);
    var texture := FindTextureMatches(text, DesiredOf(p));
    var moods := FindMoodMatches(text, MoodsOf(p));
    var density := CalculateKeywordDensity(text);
    a := ReviewAnalysis(ReviewRating(r), positive, negative, texture, moods, density, |text|);
  }

  /** A single review's analysis keeps its rating (0 when missing) and its
      text's length, scores praise non-negatively and complaints
      non-positively, and has a non-negative keyword density. */
  lemma SingleReviewMeaning(r: Review, p: Preferences)
    ensures var a := SingleReviewOf(r, p);
      && a.originalRating == (if r.rating.Some? then r.rating.value else 0.0)
      && a.length == (if r.text.Some? then |r.text.value| else 0)
      && a.positive.score >= 0.0 && a.negative.score <= 0.0
      && a.density >= 0.0
  {
    var text := ReviewText(r);
    assert AllWeights(PositiveKeywords, true) && AllWeights(NegativeKeywords, false);
    ScoreSign(text, PositiveKeywords, true);
    ScoreSign(text, NegativeKeywords, false);
    DensityMeaning(text);
  }

  function AnalysesOf(reviews: seq<Review>, p: Preferences): (rs: seq<ReviewAnalysis>)
    ensures |rs| == |reviews| && forall i :: 0 <= i < |reviews| ==> rs[i] == SingleReviewOf(reviews[i], p)
  {
    if reviews == [] then [] else AnalysesOf(reviews[..|reviews| - 1], p) + [SingleReviewOf(reviews[|reviews| - 1], p)]
  }

  lemma AnalysesOfStep(list: seq<Review>, i: nat, p: Preferences)
    requires i < |list|
    ensures AnalysesOf(list[..i + 1], p) == AnalysesOf(list[..i], p) + [SingleReviewOf(list[i], p)]
  {
    assert list[..i + 1][..i] == list[..i];
  }

  function ReportOf(reviews: Option<seq<Review>>, p: Preferences): ReviewReport {
    if reviews.None? || reviews.value == [] then ReviewReport(0.0, NoReviewsReason, None)
    else
      var rs := AnalysesOf(reviews.value, p);
      ReviewReport(
        Clamp(TotalScoreOf(rs), 0.0, 10.0),
        ReasonOf(rs),
        Some(Details(rs, AverageRating(reviews.value), TalliesOf(rs), ConfidenceOf(rs))))
  }

  /** `analyzeReviews`: `reviews` is None for a missing list. */
  method AnalyzeReviews(reviews: Option<seq<Review>>, p: Preferences) returns (report: ReviewReport)
    ensures report == ReportOf(reviews, p)
  {
    if reviews.None? || |reviews.value| == 0 {
      return ReviewReport(0.0, NoReviewsReason, None);
    }
    var list := reviews.value;
    var rs := AnalyzeEach(list, p);
    var total := CalculateTotalScore(rs);
    var reason := GenerateReason(rs);
    var tallies := GetKeywordMatches(rs);
    report := ReviewReport(Clamp(total, 0.0, 10.0), reason, Some(Details(rs, AverageRating(list), tallies, ConfidenceOf(rs))));
  }

  /** `reviews.map(review => this.analyzeSingleReview(review, userPreferences))`. */
  method AnalyzeEach(list: seq<Review>, p: Preferences) returns (rs: seq<ReviewAnalysis>)
    ensures rs == AnalysesOf(list, p)
  {
    rs := [];
    for i := 0 to |list|
      invariant rs == AnalysesOf(list[..i], p)
    {
      var a := AnalyzeSingleReview(list[i], p);
      AnalysesOfStep(list, i, p);
      rs := rs + [a];
    }
    assert list[..|list|] == list;
  }

  /** With no reviews the report is a zero score, the "not enough reviews"
      reason and no details; otherwise the score lies in [0, 10], the
      details hold one analysis per review and a confidence in [0, 1], and
      the score is the clamped length-weighted mean of the review scores. */
  lemma ReportMeaning(reviews: Option<seq<Review>>, p: Preferences)
    ensures var report := ReportOf(reviews, p);
      && ((reviews.None? || reviews.value == []) ==>
            report.score == 0.0 && report.reason == NoReviewsReason && report.details.None?)
      && (reviews.Some? && reviews.value != [] ==>
            && 0.0 <= report.score <= 10.0
            && report.details.Some?
            && |report.details.value.reviews| == |reviews.value|
            && 0.0 <= report.details.value.confidence <= 1.0
            && (0.0 <= TotalScoreOf(report.details.value.reviews) <= 10.0 ==>
                  report.score == TotalScoreOf(report.details.value.reviews)))
  {
    if reviews.Some? && reviews.value != [] {
      var rs := AnalysesOf(reviews.value, p);
      forall i | 0 <= i < |rs|
        ensures rs[i].density >= 0.0
      {
        SingleReviewMeaning(reviews.value[i], p);
      }
      ConfidenceBounds(rs);
    }
  }
}
