/** The browser page's own logic (public/app.js): the keyword fallback used
    when the analysis endpoint fails, the clock's time of day, the genre
    filter over the listed restaurants, the inline restaurant scorer and
    the summary line.  The page's DOM work, its fetch calls and its mock
    data are outside this model; the hour of the clock is a parameter. */
module BrowserApp {
  import opened Common
  import opened Strings
  import opened StableSort
  import opened Dictionary
  import opened Profile

  // ---------------------------------------------------------------------
  // Keyword fallback

  /** The fallback's own keyword table, in declaration order. */
  const FallbackKeywords: seq<KeywordGroup> := [
    KeywordGroup("hot", ["温かい", "あったかい", "ホット"]),
    KeywordGroup("light", ["軽め", "あっさり", "さっぱり"]),
    KeywordGroup("heavy", ["がっつり", "ボリューム", "たくさん"]),
    KeywordGroup("japanese", ["和食", "寿司", "そば", "うどん"]),
    KeywordGroup("chinese", ["中華", "ラーメン", "餃子"]),
    KeywordGroup("cafe", ["カフェ", "コーヒー", "スイーツ"])
  ]

  /** The categories whose words suggest a genre rather than a desired keyword. */
  predicate IsGenreCategory(category: string) {
    category == "japanese" || category == "chinese" || category == "cafe"
  }

  /** The two lists the fallback fills. */
  datatype Found = Found(desired: seq<KeywordEntry>, genres: seq<GenreSuggestion>)

  /** What one word of a category adds when the text includes it. */
  function WordFound(f: Found, text: string, category: string, word: string): Found {
    if !Contains(text, word) then f
    else if IsGenreCategory(category) then Found(f.desired, f.genres + [GenreSuggestion(category, [], 0.8)])
    else Found(f.desired + [KeywordEntry(word, category, 1.0)], f.genres)
  }

  function GroupFound(f: Found, text: string, category: string, words: seq<string>): Found {
    if words == [] then f
    else WordFound(GroupFound(f, text, category, words[..|words| - 1]), text, category, words[|words| - 1])
  }

  function FallbackFound(text: string, groups: seq<KeywordGroup>): Found {
    if groups == [] then Found([], [])
    else
      var g := groups[|groups| - 1];
      GroupFound(FallbackFound(text, groups[..|groups| - 1]), text, g.name, g.keywords)
  }

  /** '軽め' wins over 'がっつり'; neither gives a normal appetite. */
  function FallbackAppetite(text: string): (a: Appetite)
    ensures a == Light <==> Contains(text, "軽め")
    ensures a == Heavy <==> !Contains(text, "軽め") && Contains(text, "がっつり")
  {
    if Contains(text, "軽め") then Light
    else if Contains(text, "がっつり") then Heavy
    else Normal
  }

  function FallbackAnalysisOf(text: string, hour: int): Analysis {
    var found := FallbackFound(text, FallbackKeywords);
    Analysis(found.desired, [], found.genres, FallbackAppetite(text), TimeOfDayForHour(hour), [], "", 0.6)
  }

  /** `fallbackAnalysis`; `hour` is the clock's hour `getCurrentTimeOfDay` reads. */
  method FallbackAnalysis(text: string, hour: int) returns (a: Analysis)
    ensures a == FallbackAnalysisOf(text, hour)
  {
    var desired: seq<KeywordEntry> := [];
    var genres: seq<GenreSuggestion> := [];
    for i := 0 to |FallbackKeywords|
      invariant Found(desired, genres) == FallbackFound(text, FallbackKeywords[..i])
    {
      var g := FallbackKeywords[i];
      desired, genres := FallbackGroup(desired, genres, text, g.name, g.keywords);
      assert FallbackKeywords[..i + 1][..i] == FallbackKeywords[..i];
    }
    assert FallbackKeywords[..|FallbackKeywords|] == FallbackKeywords;
    var appetite := if Contains(text, "軽め") then Light else if Contains(text, "がっつり") then Heavy else Normal;
    var timeOfDay := GetCurrentTimeOfDay(hour);
    a := Analysis(desired, [], genres, appetite, timeOfDay, [], "", 0.6);
  }

  /** The `words.forEach` of one category. */
  method FallbackGroup(desired0: seq<KeywordEntry>, genres0: seq<GenreSuggestion>, text: string, category: string, words: seq<string>)
    returns (desired: seq<KeywordEntry>, genres: seq<GenreSuggestion>)
    ensures Found(desired, genres) == GroupFound(Found(desired0, genres0), text, category, words)
  {
    desired, genres := desired0, genres0;
    for j := 0 to |words|
      invariant Found(desired, genres) == GroupFound(Found(desired0, genres0), text, category, words[..j])
    {
      var word := words[j];
      if Contains(text, word) {
        if category in ["japanese", "chinese", "cafe"] {
          genres := genres + [GenreSuggestion(category, [], 0.8)];
        } else {
          desired := desired + [KeywordEntry(word, category, 1.0)];
        }
      }
      assert words[..j + 1][..j] == words[..j];
    }
    assert words[..|words|] == words;
  }

  /** `getCurrentTimeOfDay` for the clock's hour. */
  method GetCurrentTimeOfDay(hour: int) returns (t: TimeOfDay)
    ensures t == TimeOfDayForHour(hour)
  {
    if hour >= 6 && hour < 11 { return Morning; }
    if hour >= 11 && hour < 15 { return Lunch; }
    if hour >= 15 && hour < 22 { return Dinner; }
    return Other;
  }

  /** An entry the fallback desires: a word of a non-genre category that the
      text includes, with weight 1. */
  predicate IsFallbackEntry(text: string, g: KeywordGroup, e: KeywordEntry) {
    && !IsGenreCategory(g.name)
    && exists j :: 0 <= j < |g.keywords| && Contains(text, g.keywords[j]) && e == KeywordEntry(g.keywords[j], g.name, 1.0)
  }

  /** How many words of genre categories the text includes: one genre entry
      each, duplicates included. */
  function GenreWordHits(text: string, groups: seq<KeywordGroup>): nat {
    if groups == [] then 0
    else
      var g := groups[|groups| - 1];
      GenreWordHits(text, groups[..|groups| - 1]) + (if IsGenreCategory(g.name) then WordsIncluded(text, g.keywords) else 0)
  }

  /** How many of the words the text includes. */
  function WordsIncluded(text: string, words: seq<string>): nat {
    if words == [] then 0
    else WordsIncluded(text, words[..|words| - 1]) + (if Contains(text, words[|words| - 1]) then 1 else 0)
  }

  lemma {:induction false} GroupFoundMeaning(f: Found, text: string, category: string, words: seq<string>, e: KeywordEntry)
    ensures var r := GroupFound(f, text, category, words);
      && (e in r.desired <==>
            || e in f.desired
            || (!IsGenreCategory(category) && exists j :: 0 <= j < |words| && Contains(text, words[j]) && e == KeywordEntry(words[j], category, 1.0)))
      && |r.genres| == |f.genres| + (if IsGenreCategory(category) then WordsIncluded(text, words) else 0)
      && (forall i :: |f.genres| <= i < |r.genres| ==> r.genres[i] == GenreSuggestion(category, [], 0.8))
      && r.genres[..|f.genres|] == f.genres
  {
    if words != [] {
      var init := words[..|words| - 1];
      GroupFoundMeaning(f, text, category, init, e);
      assert forall j :: 0 <= j < |init| ==> init[j] == words[j];
    }
  }

  /** The fallback desires exactly the words of its non-genre categories
      that the text includes, each with weight 1; it suggests a genre with
      confidence 0.8 for every genre word the text includes, without
      removing repeats. */
  lemma {:induction false} FallbackFoundMeaning(text: string, groups: seq<KeywordGroup>, e: KeywordEntry)
    ensures var r := FallbackFound(text, groups);
      && (e in r.desired <==> exists i :: 0 <= i < |groups| && IsFallbackEntry(text, groups[i], e))
      && |r.genres| == GenreWordHits(text, groups)
      && (forall i :: 0 <= i < |r.genres| ==>
            IsGenreCategory(r.genres[i].category) && r.genres[i].confidence == 0.8 && r.genres[i].genres == [])
  {
    if groups != [] {
      var init := groups[..|groups| - 1];
      var g := groups[|groups| - 1];
      FallbackFoundMeaning(text, init, e);
      GroupFoundMeaning(FallbackFound(text, init), text, g.name, g.keywords, e);
      assert forall i :: 0 <= i < |init| ==> init[i] == groups[i];
      if exists i :: 0 <= i < |groups| && IsFallbackEntry(text, groups[i], e) {
        var i :| 0 <= i < |groups| && IsFallbackEntry(text, groups[i], e);
        if i < |init| {
          assert IsFallbackEntry(text, init[i], e);
        }
      }
      var prev := FallbackFound(text, init);
      var r := FallbackFound(text, groups);
      forall i | 0 <= i < |r.genres|
        ensures IsGenreCategory(r.genres[i].category) && r.genres[i].confidence == 0.8 && r.genres[i].genres == []
      {
        if i < |prev.genres| {
          assert r.genres[i] == prev.genres[i];
        }
      }
    }
  }

  /** The words of a category the text includes, in the category's order. */
  function IncludedWords(text: string, words: seq<string>): (r: seq<string>)
    ensures |r| == WordsIncluded(text, words)
    ensures forall i :: 0 <= i < |r| ==> r[i] in words && Contains(text, r[i])
  {
    if words == [] then []
    else
      var w := words[|words| - 1];
      IncludedWords(text, words[..|words| - 1]) + (if Contains(text, w) then [w] else [])
  }

  /** The desired entries of one category: one weight-1 entry per included
      word, in order, and none for a genre category. */
  function GroupDesired(text: string, category: string, words: seq<string>): seq<KeywordEntry> {
    var inc := IncludedWords(text, words);
    if IsGenreCategory(category) then []
    else seq(|inc|, i requires 0 <= i < |inc| => KeywordEntry(inc[i], category, 1.0))
  }

  /** The genre suggestions of one category: one (category, 0.8) suggestion
      per included word of a genre category, none for the others. */
  function GroupGenres(text: string, category: string, words: seq<string>): seq<GenreSuggestion> {
    var n := WordsIncluded(text, words);
    if IsGenreCategory(category) then seq(n, i requires 0 <= i < n => GenreSuggestion(category, [], 0.8))
    else []
  }

  /** The fallback's desired list: the categories' entries, category after category. */
  function FallbackDesired(text: string, groups: seq<KeywordGroup>): seq<KeywordEntry> {
    if groups == [] then []
    else
      var g := groups[|groups| - 1];
      FallbackDesired(text, groups[..|groups| - 1]) + GroupDesired(text, g.name, g.keywords)
  }

  /** The fallback's genre list: the categories' suggestions, category after category. */
  function FallbackGenres(text: string, groups: seq<KeywordGroup>): seq<GenreSuggestion> {
    if groups == [] then []
    else
      var g := groups[|groups| - 1];
      FallbackGenres(text, groups[..|groups| - 1]) + GroupGenres(text, g.name, g.keywords)
  }

  /** One category's pass appends its entries and its suggestions, in order. */
  lemma {:induction false} GroupFoundInOrder(f: Found, text: string, category: string, words: seq<string>)
    ensures GroupFound(f, text, category, words)
      == Found(f.desired + GroupDesired(text, category, words), f.genres + GroupGenres(text, category, words))
  {
    if words != [] {
      var init := words[..|words| - 1];
      var w := words[|words| - 1];
      GroupFoundInOrder(f, text, category, init);
      var a := IncludedWords(text, init);
      var b := IncludedWords(text, words);
      assert b == a + (if Contains(text, w) then [w] else []);
      if IsGenreCategory(category) {
        var n := WordsIncluded(text, init);
        var m := WordsIncluded(text, words);
        assert GroupGenres(text, category, words)
          == GroupGenres(text, category, init) + (if Contains(text, w) then [GenreSuggestion(category, [], 0.8)] else []);
      } else {
        assert GroupDesired(text, category, words)
          == GroupDesired(text, category, init) + (if Contains(text, w) then [KeywordEntry(w, category, 1.0)] else []);
      }
    }
  }

  /** The fallback's lists are the categories' entries and suggestions,
      category after category and word after word: the first desired
      keyword is the first included word of the first non-genre category,
      and every suggestion carries the category of the word that made it. */
  lemma {:induction false} FallbackFoundInOrder(text: string, groups: seq<KeywordGroup>)
    ensures FallbackFound(text, groups) == Found(FallbackDesired(text, groups), FallbackGenres(text, groups))
  {
    if groups != [] {
      var g := groups[|groups| - 1];
      FallbackFoundInOrder(text, groups[..|groups| - 1]);
      GroupFoundInOrder(FallbackFound(text, groups[..|groups| - 1]), text, g.name, g.keywords);
    }
  }

  /** The fallback profile: desired keywords and genres as above, nothing to
      avoid, no mood, no location hint, confidence 0.6, the appetite from
      '軽め' and 'がっつり', and the time of day from the clock alone. */
  lemma FallbackProfile(text: string, hour: int, e: KeywordEntry)
    ensures var a := FallbackAnalysisOf(text, hour);
      && (e in a.desired <==> exists i :: 0 <= i < |FallbackKeywords| && IsFallbackEntry(text, FallbackKeywords[i], e))
      && a.desired == FallbackDesired(text, FallbackKeywords)
      && a.genres == FallbackGenres(text, FallbackKeywords)
      && |a.genres| == GenreWordHits(text, FallbackKeywords)
      && (forall i :: 0 <= i < |a.genres| ==> IsGenreCategory(a.genres[i].category) && a.genres[i].confidence == 0.8)
      && a.avoid == [] && a.mood == [] && a.locationHint == "" && a.confidence == 0.6
      && (a.appetite == Light <==> Contains(text, "軽め"))
      && (a.appetite == Heavy <==> !Contains(text, "軽め") && Contains(text, "がっつり"))
      && (a.timeOfDay == Morning <==> 6 <= hour < 11)
      && (a.timeOfDay == Lunch <==> 11 <= hour < 15)
      && (a.timeOfDay == Dinner <==> 15 <= hour < 22)
  {
    FallbackFoundMeaning(text, FallbackKeywords, e);
    FallbackFoundInOrder(text, FallbackKeywords);
  }

  // ---------------------------------------------------------------------
  // Genre filter

  /** A listed restaurant as the page scores it: its genre text, its rating
      (None when absent) and the texts of its reviews. */
  datatype Listing = Listing(id: nat, name: string, genre: string, rating: Option<real>, reviews: seq<string>)

  /** The label a suggestion's category is looked for under. */
  function GenreLabel(category: string): string {
    if category == "japanese" then "和食"
    else if category == "chinese" then "中華"
    else if category == "cafe" then "カフェ"
    else category
  }

  /** Some suggestion's label occurs in the listing's genre. */
  predicate GenreMatches(l: Listing, genres: seq<GenreSuggestion>) {
    exists i :: 0 <= i < |genres| && Contains(l.genre, GenreLabel(genres[i].category))
  }

  function Matching(ls: seq<Listing>, genres: seq<GenreSuggestion>): seq<Listing> {
    if ls == [] then []
    else Matching(ls[..|ls| - 1], genres) + (if GenreMatches(ls[|ls| - 1], genres) then [ls[|ls| - 1]] else [])
  }

  /** The filter at the end of `searchRestaurants`. */
  function FilterByGenre(ls: seq<Listing>, genres: seq<GenreSuggestion>): seq<Listing> {
    if |genres| > 0 then Matching(ls, genres) else ls
  }

  /** sub is s with some elements left out, the rest in their order. */
  predicate IsSubsequence<T(==)>(sub: seq<T>, s: seq<T>)
    decreases |s|
  {
    if sub == [] then true
    else if s == [] then false
    else if sub[|sub| - 1] == s[|s| - 1] then IsSubsequence(sub[..|sub| - 1], s[..|s| - 1])
    else IsSubsequence(sub, s[..|s| - 1])
  }

  lemma {:induction false} MatchingMeaning(ls: seq<Listing>, genres: seq<GenreSuggestion>, l: Listing)
    ensures l in Matching(ls, genres) <==> l in ls && GenreMatches(l, genres)
    ensures IsSubsequence(Matching(ls, genres), ls)
  {
    if ls != [] {
      var init := ls[..|ls| - 1];
      MatchingMeaning(init, genres, l);
      assert ls == init + [ls[|ls| - 1]];
      var m := Matching(ls, genres);
      if GenreMatches(ls[|ls| - 1], genres) {
        assert m[..|m| - 1] == Matching(init, genres);
      } else {
        assert m == Matching(init, genres);
        SubsequenceGrows(Matching(init, genres), init, ls[|ls| - 1]);
      }
    }
  }

  /** Appending to s keeps a subsequence one. */
  lemma {:induction false} SubsequenceGrows<T>(sub: seq<T>, s: seq<T>, x: T)
    requires IsSubsequence(sub, s)
    ensures IsSubsequence(sub, s + [x])
    decreases |s|, 1
  {
    assert (s + [x])[..|s|] == s;
    if sub != [] && sub[|sub| - 1] == x {
      SubsequenceDropLast(sub, s);
    }
  }

  /** Dropping the last element of a subsequence keeps it one. */
  lemma {:induction false} SubsequenceDropLast<T>(sub: seq<T>, s: seq<T>)
    requires sub != [] && IsSubsequence(sub, s)
    ensures IsSubsequence(sub[..|sub| - 1], s)
    decreases |s|, 0
  {
    var init := s[..|s| - 1];
    assert s == init + [s[|s| - 1]];
    if sub[|sub| - 1] != s[|s| - 1] {
      SubsequenceDropLast(sub, init);
    }
    SubsequenceGrows(sub[..|sub| - 1], init, s[|s| - 1]);
  }

  /** With no suggested genres every listing stays; otherwise exactly the
      listings whose genre carries some suggestion's label stay, in their
      original order. */
  lemma FilterByGenreMeaning(ls: seq<Listing>, genres: seq<GenreSuggestion>, l: Listing)
    ensures genres == [] ==> FilterByGenre(ls, genres) == ls
    ensures genres != [] ==>
      && (l in FilterByGenre(ls, genres) <==> l in ls && GenreMatches(l, genres))
      && IsSubsequence(FilterByGenre(ls, genres), ls)
  {
    MatchingMeaning(ls, genres, l);
  }

  // ---------------------------------------------------------------------
  // Inline restaurant scorer

  /** The mood words the scorer looks for in reviews. */
  const BrowserMoodKeywords: seq<KeywordGroup> := [
    KeywordGroup("comfort", ["癒し", "ほっこり", "安らぐ", "リラックス"]),
    KeywordGroup("energy", ["元気", "パワー", "活力"]),
    KeywordGroup("celebration", ["特別", "贅沢", "ご褒美"])
  ]

  /** The words counted as praise. */
  const PraiseWords: seq<string> := ["美味しい", "おいしい", "最高", "素晴らしい", "コスパ"]

  const MoodReason: string := "今の気分にぴったり"
  const PraiseReason: string := "高評価の口コミが多い"
  const DefaultReason: string := "総合評価から判断"

  /** The reason a desired keyword found in a review gives. */
  function MatchedReason(keyword: string): string {
    keyword + "にマッチ"
  }

  /** The score and the reasons collected so far. */
  datatype Running = Running(score: real, reasons: seq<string>)

  function Hit(r: Running, gain: real, reason: string): Running {
    Running(r.score + gain, r.reasons + [reason])
  }

  /** One desired keyword against each review in turn. */
  function DesiredRun(r: Running, reviews: seq<string>, d: KeywordEntry): Running {
    if reviews == [] then r
    else
      var p := DesiredRun(r, reviews[..|reviews| - 1], d);
      if Contains(reviews[|reviews| - 1], d.keyword) then Hit(p, 0.5 * d.weight, MatchedReason(d.keyword)) else p
  }

  function DesiredPass(r: Running, reviews: seq<string>, desired: seq<KeywordEntry>): Running {
    if desired == [] then r
    else DesiredRun(DesiredPass(r, reviews, desired[..|desired| - 1]), reviews, desired[|desired| - 1])
  }

  /** The mood words of one mood against one review text. */
  function MoodTextRun(r: Running, text: string, words: seq<string>): Running {
    if words == [] then r
    else
      var p := MoodTextRun(r, text, words[..|words| - 1]);
      if Contains(text, words[|words| - 1]) then Hit(p, 0.3, MoodReason) else p
  }

  function MoodRun(r: Running, reviews: seq<string>, words: seq<string>): Running {
    if reviews == [] then r
    else MoodTextRun(MoodRun(r, reviews[..|reviews| - 1], words), reviews[|reviews| - 1], words)
  }

  /** `moodKeywords[mood.mood] || []` for each of the user's moods. */
  function MoodPass(r: Running, reviews: seq<string>, moods: seq<MoodSignal>): Running {
    if moods == [] then r
    else MoodRun(MoodPass(r, reviews, moods[..|moods| - 1]), reviews, GroupKeywords(BrowserMoodKeywords, moods[|moods| - 1].mood))
  }

  /** How many (review, praise word) pairs have the word in the review. */
  function PraiseCount(reviews: seq<string>): nat {
    if reviews == [] then 0
    else PraiseCount(reviews[..|reviews| - 1]) + WordsIncluded(reviews[|reviews| - 1], PraiseWords)
  }

  /** `restaurant.rating || 3.0`. */
  function BaseScore(rating: Option<real>): real {
    match rating
    case Some(x) => if x == 0.0 then 3.0 else x
    case None => 3.0
  }

  function ListingRun(l: Listing, a: Analysis): Running {
    var r := MoodPass(DesiredPass(Running(BaseScore(l.rating), []), l.reviews, a.desired), l.reviews, a.mood);
    if PraiseCount(l.reviews) >= 2 then Hit(r, 0.5, PraiseReason) else r
  }

  /** `reasons.slice(0, 2).join('、')` after the default is put in. */
  function MatchReason(reasons: seq<string>): string {
    var rs := if reasons == [] then [DefaultReason] else reasons;
    Join(rs[..if |rs| < 2 then |rs| else 2], "、")
  }

  /** A listing with its score, reason and confidence. */
  datatype Scored = Scored(listing: Listing, score: real, matchReason: string, confidence: real)

  function ScoreKey(s: Scored): real { s.score }

  function ScoredOf(l: Listing, a: Analysis): Scored {
    var r := ListingRun(l, a);
    Scored(l, Clamp(r.score, 0.0, 10.0), MatchReason(r.reasons), 0.7)
  }

  function ScoresOf(ls: seq<Listing>, a: Analysis): (ss: seq<Scored>)
    ensures |ss| == |ls| && forall i :: 0 <= i < |ls| ==> ss[i] == ScoredOf(ls[i], a)
  {
    if ls == [] then [] else ScoresOf(ls[..|ls| - 1], a) + [ScoredOf(ls[|ls| - 1], a)]
  }

  /** `analyzeRestaurants`: every listing scored, best first. */
  method AnalyzeRestaurants(ls: seq<Listing>, a: Analysis) returns (ranked: seq<Scored>)
    ensures ranked == SortDesc(ScoresOf(ls, a), ScoreKey)
  {
    var scored: seq<Scored> := [];
    for i := 0 to |ls|
      invariant scored == ScoresOf(ls[..i], a)
    {
      var s := ScoreListing(ls[i], a);
      scored := scored + [s];
      assert ls[..i + 1][..i] == ls[..i];
    }
    assert ls[..|ls|] == ls;
    ranked := SortDesc(scored, ScoreKey);
  }

  /** The body of the `restaurants.map` callback. */
  method ScoreListing(l: Listing, a: Analysis) returns (s: Scored)
    ensures s == ScoredOf(l, a)
  {
    var score := BaseScore(l.rating);
    var reasons: seq<string> := [];
    var start := Running(score, reasons);
    if |a.desired| > 0 {
      for i := 0 to |a.desired|
        invariant Running(score, reasons) == DesiredPass(start, l.reviews, a.desired[..i])
      {
        score, reasons := MatchDesired(score, reasons, l.reviews, a.desired[i]);
        assert a.desired[..i + 1][..i] == a.desired[..i];
      }
    }
    assert a.desired[..|a.desired|] == a.desired;
    var afterDesired := Running(score, reasons);
    if |a.mood| > 0 {
      for i := 0 to |a.mood|
        invariant Running(score, reasons) == MoodPass(afterDesired, l.reviews, a.mood[..i])
      {
        var words := GroupKeywords(BrowserMoodKeywords, a.mood[i].mood);
        score, reasons := MatchMood(score, reasons, l.reviews, words);
        assert a.mood[..i + 1][..i] == a.mood[..i];
      }
    }
    assert a.mood[..|a.mood|] == a.mood;
    var praise := CountPraise(l.reviews);
    if praise >= 2 {
      score := score + 0.5;
      reasons := reasons + [PraiseReason];
    }
    if |reasons| == 0 {
      reasons := reasons + [DefaultReason];
    }
    s := Scored(l, Clamp(score, 0.0, 10.0), Join(reasons[..if |reasons| < 2 then |reasons| else 2], "、"), 0.7);
  }

  /** One desired keyword: `restaurant.reviews.forEach(...)`. */
  method MatchDesired(score0: real, reasons0: seq<string>, reviews: seq<string>, d: KeywordEntry)
    returns (score: real, reasons: seq<string>)
    ensures Running(score, reasons) == DesiredRun(Running(score0, reasons0), reviews, d)
  {
    score, reasons := score0, reasons0;
    for j := 0 to |reviews|
      invariant Running(score, reasons) == DesiredRun(Running(score0, reasons0), reviews[..j], d)
    {
      if Contains(reviews[j], d.keyword) {
        score := score + 0.5 * d.weight;
        reasons := reasons + [d.keyword + "にマッチ"];
      }
      assert reviews[..j + 1][..j] == reviews[..j];
    }
    assert reviews[..|reviews|] == reviews;
  }

  /** One mood: each review, and in it each of the mood's words. */
  method MatchMood(score0: real, reasons0: seq<string>, reviews: seq<string>, words: seq<string>)
    returns (score: real, reasons: seq<string>)
    ensures Running(score, reasons) == MoodRun(Running(score0, reasons0), reviews, words)
  {
    score, reasons := score0, reasons0;
    for j := 0 to |reviews|
      invariant Running(score, reasons) == MoodRun(Running(score0, reasons0), reviews[..j], words)
    {
      var before := Running(score, reasons);
      for k := 0 to |words|
        invariant Running(score, reasons) == MoodTextRun(before, reviews[j], words[..k])
      {
        if Contains(reviews[j], words[k]) {
          score := score + 0.3;
          reasons := reasons + [MoodReason];
        }
        assert words[..k + 1][..k] == words[..k];
      }
      assert words[..|words|] == words;
      assert reviews[..j + 1][..j] == reviews[..j];
    }
    assert reviews[..|reviews|] == reviews;
  }

  /** `positiveCount`. */
  method CountPraise(reviews: seq<string>) returns (n: nat)
    ensures n == PraiseCount(reviews)
  {
    n := 0;
    for j := 0 to |reviews|
      invariant n == PraiseCount(reviews[..j])
    {
      var inReview := 0;
      for k := 0 to |PraiseWords|
        invariant inReview == WordsIncluded(reviews[j], PraiseWords[..k])
      {
        if Contains(reviews[j], PraiseWords[k]) {
          inReview := inReview + 1;
        }
        assert PraiseWords[..k + 1][..k] == PraiseWords[..k];
      }
      assert PraiseWords[..|PraiseWords|] == PraiseWords;
      n := n + inReview;
      assert reviews[..j + 1][..j] == reviews[..j];
    }
    assert reviews[..|reviews|] == reviews;
  }

  // ---------------------------------------------------------------------
  // What the scorer adds up

  /** n copies of x. */
  function Copies<T>(x: T, n: nat): (r: seq<T>)
    ensures |r| == n && forall i :: 0 <= i < n ==> r[i] == x
  {
    if n == 0 then [] else Copies(x, n - 1) + [x]
  }

  lemma {:induction false} CopiesAdd<T>(x: T, m: nat, n: nat)
    ensures Copies(x, m) + Copies(x, n) == Copies(x, m + n)
  {
    if n > 0 {
      CopiesAdd(x, m, n - 1);
    }
  }

  /** How many reviews include k. */
  function ReviewsWith(reviews: seq<string>, k: string): nat {
    if reviews == [] then 0
    else ReviewsWith(reviews[..|reviews| - 1], k) + (if Contains(reviews[|reviews| - 1], k) then 1 else 0)
  }

  /** 0.5 × weight for every (desired keyword, review including it) pair. */
  function DesiredGain(reviews: seq<string>, desired: seq<KeywordEntry>): real {
    if desired == [] then 0.0
    else
      var d := desired[|desired| - 1];
      DesiredGain(reviews, desired[..|desired| - 1]) + MatchGain(d.weight, ReviewsWith(reviews, d.keyword))
  }

  /** 0.5 × weight for each of n reviews including the keyword. */
  function MatchGain(weight: real, n: nat): real {
    0.5 * weight * (n as real)
  }

  /** One "…にマッチ" per (desired keyword, review including it) pair. */
  function DesiredReasons(reviews: seq<string>, desired: seq<KeywordEntry>): seq<string> {
    if desired == [] then []
    else
      var d := desired[|desired| - 1];
      DesiredReasons(reviews, desired[..|desired| - 1]) + Copies(MatchedReason(d.keyword), ReviewsWith(reviews, d.keyword))
  }

  /** How many (review, mood word) pairs have the word in the review. */
  function MoodWordHits(reviews: seq<string>, words: seq<string>): nat {
    if reviews == [] then 0
    else MoodWordHits(reviews[..|reviews| - 1], words) + WordsIncluded(reviews[|reviews| - 1], words)
  }

  /** The mood hits over all of the user's moods; a mood the scorer has no
      words for has none. */
  function MoodHits(reviews: seq<string>, moods: seq<MoodSignal>): nat {
    if moods == [] then 0
    else MoodHits(reviews, moods[..|moods| - 1]) + MoodWordHits(reviews, GroupKeywords(BrowserMoodKeywords, moods[|moods| - 1].mood))
  }

  lemma {:induction false} DesiredRunCounts(r: Running, reviews: seq<string>, d: KeywordEntry)
    ensures var n := ReviewsWith(reviews, d.keyword);
      DesiredRun(r, reviews, d) == Running(r.score + MatchGain(d.weight, n), r.reasons + Copies(MatchedReason(d.keyword), n))
  {
    if reviews != [] {
      var init := reviews[..|reviews| - 1];
      DesiredRunCounts(r, init, d);
      var n := ReviewsWith(init, d.keyword);
      assert MatchGain(d.weight, n + 1) == MatchGain(d.weight, n) + 0.5 * d.weight;
      assert r.reasons + Copies(MatchedReason(d.keyword), n) + [MatchedReason(d.keyword)]
        == r.reasons + Copies(MatchedReason(d.keyword), n + 1);
    }
  }

  lemma {:induction false} DesiredPassCounts(r: Running, reviews: seq<string>, desired: seq<KeywordEntry>)
    ensures DesiredPass(r, reviews, desired)
      == Running(r.score + DesiredGain(reviews, desired), r.reasons + DesiredReasons(reviews, desired))
  {
    if desired != [] {
      var init := desired[..|desired| - 1];
      var d := desired[|desired| - 1];
      var n := ReviewsWith(reviews, d.keyword);
      DesiredPassCounts(r, reviews, init);
      var p := DesiredPass(r, reviews, init);
      DesiredRunCounts(p, reviews, d);
      assert DesiredPass(r, reviews, desired) == DesiredRun(p, reviews, d);
      assert DesiredGain(reviews, desired) == DesiredGain(reviews, init) + MatchGain(d.weight, n);
      assert DesiredReasons(reviews, desired) == DesiredReasons(reviews, init) + Copies(MatchedReason(d.keyword), n);
      assert p.reasons + Copies(MatchedReason(d.keyword), n)
        == r.reasons + (DesiredReasons(reviews, init) + Copies(MatchedReason(d.keyword), n));
    }
  }

  lemma {:induction false} MoodTextRunCounts(r: Running, text: string, words: seq<string>)
    ensures var n := WordsIncluded(text, words);
      MoodTextRun(r, text, words) == Running(r.score + 0.3 * (n as real), r.reasons + Copies(MoodReason, n))
  {
    if words != [] {
      var init := words[..|words| - 1];
      MoodTextRunCounts(r, text, init);
      var n := WordsIncluded(text, init);
      assert r.reasons + Copies(MoodReason, n) + [MoodReason] == r.reasons + Copies(MoodReason, n + 1);
    }
  }

  lemma {:induction false} MoodRunCounts(r: Running, reviews: seq<string>, words: seq<string>)
    ensures var n := MoodWordHits(reviews, words);
      MoodRun(r, reviews, words) == Running(r.score + 0.3 * (n as real), r.reasons + Copies(MoodReason, n))
  {
    if reviews != [] {
      var init := reviews[..|reviews| - 1];
      MoodRunCounts(r, init, words);
      MoodTextRunCounts(MoodRun(r, init, words), reviews[|reviews| - 1], words);
      var m, n := MoodWordHits(init, words), WordsIncluded(reviews[|reviews| - 1], words);
      CopiesAdd(MoodReason, m, n);
      assert r.reasons + Copies(MoodReason, m) + Copies(MoodReason, n) == r.reasons + Copies(MoodReason, m + n);
    }
  }

  lemma {:induction false} MoodPassCounts(r: Running, reviews: seq<string>, moods: seq<MoodSignal>)
    ensures var n := MoodHits(reviews, moods);
      MoodPass(r, reviews, moods) == Running(r.score + 0.3 * (n as real), r.reasons + Copies(MoodReason, n))
  {
    if moods != [] {
      var init := moods[..|moods| - 1];
      var words := GroupKeywords(BrowserMoodKeywords, moods[|moods| - 1].mood);
      MoodPassCounts(r, reviews, init);
      MoodRunCounts(MoodPass(r, reviews, init), reviews, words);
      var m, n := MoodHits(reviews, init), MoodWordHits(reviews, words);
      CopiesAdd(MoodReason, m, n);
      assert r.reasons + Copies(MoodReason, m) + Copies(MoodReason, n) == r.reasons + Copies(MoodReason, m + n);
    }
  }

  /** A listing's score is its rating (3 when missing or 0), plus 0.5 × weight
      for each (desired keyword, review including it) pair, plus 0.3 for each
      mood-word hit, plus 0.5 once when praise words are found at least twice,
      clamped to [0, 10]; its reasons are those pairs' "…にマッチ", then one
      "今の気分にぴったり" per mood hit, then the praise reason. */
  lemma ScoreFormula(l: Listing, a: Analysis)
    ensures var bonus := if PraiseCount(l.reviews) >= 2 then 0.5 else 0.0;
      var raw := BaseScore(l.rating) + DesiredGain(l.reviews, a.desired) + 0.3 * (MoodHits(l.reviews, a.mood) as real) + bonus;
      && ScoredOf(l, a).score == Clamp(raw, 0.0, 10.0)
      && 0.0 <= ScoredOf(l, a).score <= 10.0
      && ScoredOf(l, a).confidence == 0.7
      && ListingRun(l, a).reasons ==
           DesiredReasons(l.reviews, a.desired) + Copies(MoodReason, MoodHits(l.reviews, a.mood))
           + (if PraiseCount(l.reviews) >= 2 then [PraiseReason] else [])
  {
    var start := Running(BaseScore(l.rating), []);
    DesiredPassCounts(start, l.reviews, a.desired);
    MoodPassCounts(DesiredPass(start, l.reviews, a.desired), l.reviews, a.mood);
  }

  /** The reason shown is the default when nothing matched, else the first
      one or two reasons joined by '、'. */
  lemma MatchReasonMeaning(reasons: seq<string>)
    ensures reasons == [] ==> MatchReason(reasons) == DefaultReason
    ensures |reasons| == 1 ==> MatchReason(reasons) == reasons[0]
    ensures |reasons| >= 2 ==> MatchReason(reasons) == reasons[0] + "、" + reasons[1]
  {
    if |reasons| >= 2 {
      var two := reasons[..2];
      assert two == [reasons[0]] + [reasons[1]];
      assert two[1..] == [reasons[1]];
      assert Join(two[1..], "、") == reasons[1];
    }
  }

  /** The ranking holds every listing once, scored in [0, 10] with
      confidence 0.7, highest score first, ties in listing order. */
  lemma RankedMeaning(ls: seq<Listing>, a: Analysis, w: real)
    ensures var ranked := SortDesc(ScoresOf(ls, a), ScoreKey);
      && |ranked| == |ls|
      && multiset(ranked) == multiset(ScoresOf(ls, a))
      && SortedDesc(ranked, ScoreKey)
      && WithKey(ranked, ScoreKey, w) == WithKey(ScoresOf(ls, a), ScoreKey, w)
      && forall i :: 0 <= i < |ranked| ==> 0.0 <= ranked[i].score <= 10.0 && ranked[i].confidence == 0.7
  {
    var ss := ScoresOf(ls, a);
    var ranked := SortDesc(ss, ScoreKey);
    SortDescPermutation(ss, ScoreKey);
    SortDescSorted(ss, ScoreKey);
    SortDescStable(ss, ScoreKey, w);
    forall i | 0 <= i < |ranked|
      ensures 0.0 <= ranked[i].score <= 10.0 && ranked[i].confidence == 0.7
    {
      assert ranked[i] in multiset(ss);
      var j :| 0 <= j < |ss| && ss[j] == ranked[i];
    }
  }

  // ---------------------------------------------------------------------
  // Summary

  /** `generateAnalysisSummary`: the shared summary with the page's longer
      closing, which it always ends with; it opens with the time of day
      unless that is 'other'. */
  method GenerateAnalysisSummary(a: Analysis) returns (summary: string)
    ensures summary == SummaryOf(a, BrowserSuffix)
    ensures |summary| >= |BrowserSuffix| && summary[|summary| - |BrowserSuffix|..] == BrowserSuffix
    ensures a.timeOfDay != Other ==> |summary| >= 2 && summary[..2] == TimePhrase(a.timeOfDay)
    ensures a.timeOfDay == Other ==> summary == AppetitePhrase(a.appetite) + KeywordPart(a) + GenrePart(a) + BrowserSuffix
  {
    summary := GenerateSummary(a, BrowserSuffix);
    SummaryMentions(a, BrowserSuffix);
  }
}
