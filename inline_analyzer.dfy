/** The serverless copy of the analyser (netlify/functions/analyze.js).  It
    declares MOOD_KEYWORDS and GENRE_KEYWORDS itself, does not look for
    negations, never reports keywords to avoid or a location hint, and
    otherwise reads a text exactly as the canonical analyser does. */
module InlineAnalyzer {
  import opened Strings
  import opened StableSort
  import opened Dictionary
  import opened Profile
  import opened TextNormalize
  import opened TextAnalyzer

  /** The profile the serverless `analyze` returns for a text. */
  function InlineAnalysisOf(text: string, hour: int): Analysis {
    MoodKeywordsHaveNamedCategories();
    InlineAnalysisWith(text, MoodKeywords, GenreKeywords, hour)
  }

  /** The same reading with any dictionaries in place of the declared ones. */
  function InlineAnalysisWith(text: string, mood: seq<Category>, genres: seq<GenreCategory>, hour: int): Analysis
    requires HasNamedCategories(mood)
  {
    var t := Normalize(text);
    Analysis(
      SortDesc(DesiredHits(t, mood, false), EntryWeight),
      [],
      SortDesc(GenreHits(t, genres), SuggestionConfidence),
      DetectAppetite(t, mood),
      TimeOfDayOf(t, mood, hour),
      MoodHits(t, MoodCategories(mood)),
      "",
      ConfidenceFor(TableHits(t, mood)))
  }

  /** `analyze`; the clock's hour is the parameter `hour`. */
  method Analyze(text: string, hour: int) returns (a: Analysis)
    ensures a == InlineAnalysisOf(text, hour)
    ensures a.avoid == [] && a.locationHint == ""
  {
    MoodKeywordsHaveNamedCategories();
    var t := Normalize(text);
    var desired := ExtractDesiredKeywords(t, MoodKeywords, false);
    var genres := ExtractGenres(t, GenreKeywords);
    var appetite := DetectAppetite(t, MoodKeywords);
    var timeOfDay := DetectTimeOfDay(t, MoodKeywords, hour);
    var mood := ExtractMoodKeywords(t, MoodKeywords);
    var confidence := CalculateConfidence(t, MoodKeywords);
    a := Analysis(desired, [], genres, appetite, timeOfDay, mood, "", confidence);
  }

  /** Run on the same dictionaries, the two analysers agree on genres,
      appetite, time of day, mood and confidence; every keyword the
      canonical analyser desires the inline one desires too, and where no
      keyword is negated they desire exactly the same list. */
  lemma InlineAgreesWithCanonical(text: string, dicts: Dictionaries, hour: int)
    requires HasNamedCategories(dicts.mood)
    ensures var inline := InlineAnalysisWith(text, dicts.mood, dicts.genres, hour);
      var canonical := AnalysisOf(text, dicts, hour);
      && inline.genres == canonical.genres
      && inline.appetite == canonical.appetite
      && inline.timeOfDay == canonical.timeOfDay
      && inline.mood == canonical.mood
      && inline.confidence == canonical.confidence
      && (forall e :: e in canonical.desired ==> e in inline.desired)
      && ((forall k :: !IsNegated(Normalize(text), k)) ==> inline.desired == canonical.desired)
  {
    var t := Normalize(text);
    DesiredKeywordsSpec(t, dicts.mood, true);
    DesiredKeywordsSpec(t, dicts.mood, false);
    if forall k :: !IsNegated(t, k) {
      SameTestSameHits(t, dicts.mood);
    }
  }

  /** Without negations the two desired-keyword tests coincide. */
  lemma {:induction false} SameTestSameHits(t: string, table: seq<Category>)
    requires forall k :: !IsNegated(t, k)
    ensures DesiredHits(t, table, true) == DesiredHits(t, table, false)
  {
    if table != [] {
      SameTestSameHits(t, table[..|table| - 1]);
      var c := table[|table| - 1];
      SameTestSameCategoryHits(t, c, c.keywords);
    }
  }

  lemma {:induction false} SameTestSameCategoryHits(t: string, c: Category, kws: seq<string>)
    requires forall k :: !IsNegated(t, k)
    ensures CategoryHits(t, c, kws, true) == CategoryHits(t, c, kws, false)
  {
    if kws != [] {
      SameTestSameCategoryHits(t, c, kws[..|kws| - 1]);
    }
  }

  /** The request the serverless function documents, 「朝は軽め、今は温かいも
      のがほしい」, reads as a light appetite in the morning whatever the hour. */
  lemma DocumentedRequest(text: string, hour: int)
    requires text == "朝は軽め、今は温かいものがほしい"
    ensures InlineAnalysisOf(text, hour).appetite == Light
    ensures InlineAnalysisOf(text, hour).timeOfDay == Morning
  {
    InlineAppetiteAndTime(text, hour);
    DocumentedRequestPieces(text, RequestHead, RequestTail);
    DocumentedRequestAppetite(Normalize(text));
    DocumentedRequestTime(Normalize(text), hour);
  }

  /** The documented request once normalised, in two pieces around the
      dropped '、'. */
  const RequestHead: string := "朝は軽め"
  const RequestTail: string := "今は温かいものがほしい"

  lemma InlineAppetiteAndTime(text: string, hour: int)
    ensures HasNamedCategories(MoodKeywords)
    ensures InlineAnalysisOf(text, hour).appetite == DetectAppetite(Normalize(text), MoodKeywords)
    ensures InlineAnalysisOf(text, hour).timeOfDay == TimeOfDayOf(Normalize(text), MoodKeywords, hour)
  {
    MoodKeywordsHaveNamedCategories();
  }

  lemma DocumentedRequestAppetite(t: string)
    requires t == RequestHead + RequestTail
    ensures HasNamedCategories(MoodKeywords)
    ensures DetectAppetite(t, MoodKeywords) == Light
  {
    MoodKeywordsHaveNamedCategories();
    DocumentedRequestLight(t);
    LightWhenFirstEntriesSay(t, MoodKeywords, 4, 5);
  }

  lemma DocumentedRequestTime(t: string, hour: int)
    requires t == RequestHead + RequestTail
    ensures HasNamedCategories(MoodKeywords)
    ensures TimeOfDayOf(t, MoodKeywords, hour) == Morning
  {
    MoodKeywordsHaveNamedCategories();
    DocumentedRequestMorning(t);
    MorningWhenFirstEntrySays(t, MoodKeywords, hour, 6);
  }

  /** The appetite read through the first "light" and "heavy" entries. */
  lemma LightWhenFirstEntriesSay(t: string, table: seq<Category>, i: nat, j: nat)
    requires HasNamedCategories(table)
    requires i < |table| && table[i].name == "light" && forall k :: 0 <= k < i ==> table[k].name != "light"
    requires j < |table| && table[j].name == "heavy" && forall k :: 0 <= k < j ==> table[k].name != "heavy"
    requires HitCount(t, table[i].keywords) > HitCount(t, table[j].keywords)
    ensures DetectAppetite(t, table) == Light
  {
    LookupFirst(table, "light", i);
    LookupFirst(table, "heavy", j);
  }

  /** The time of day read through the first "morning" entry. */
  lemma MorningWhenFirstEntrySays(t: string, table: seq<Category>, hour: int, i: nat)
    requires HasNamedCategories(table)
    requires i < |table| && table[i].name == "morning" && forall k :: 0 <= k < i ==> table[k].name != "morning"
    requires AnyHit(t, table[i].keywords)
    ensures TimeOfDayOf(t, table, hour) == Morning
  {
    LookupFirst(table, "morning", i);
  }

  lemma DocumentedRequestPieces(text: string, a: string, b: string)
    requires text == "朝は軽め、今は温かいものがほしい"
    requires a == "朝は軽め" && b == "今は温かいものがほしい"
    ensures Normalize(text) == a + b
  {
    assert text == a + ['、'] + b;
    assert forall i :: 0 <= i < |a| ==> !IsUpper(a[i]) && !IsPunct(a[i]) && !IsSpace(a[i]);
    assert forall i :: 0 <= i < |b| ==> !IsUpper(b[i]) && !IsPunct(b[i]) && !IsSpace(b[i]);
    NormalizeDropsPunct(a, '、', b);
  }

  lemma DocumentedRequestLight(t: string)
    requires t == RequestHead + RequestTail
    ensures HitCount(t, LightKeywords) > HitCount(t, HeavyKeywords)
  {
    ContainsAt(t, "軽め", 2);
    assert Contains(t, LightKeywords[0]);
    HitCountMeaning(t, LightKeywords);
    DocumentedRequestNotHeavy(t);
    HitCountMeaning(t, HeavyKeywords);
  }

  lemma DocumentedRequestNotHeavy(t: string)
    requires t == RequestHead + RequestTail
    ensures forall j :: 0 <= j < |HeavyKeywords| ==> !Contains(t, HeavyKeywords[j])
  {
    DocumentedRequestLacks(t);
    NotContainsByChar(t, "がっつり", 'っ');
    NotContainsByChar(t, "ボリューム", 'ボ');
    NotContainsByChar(t, "お腹いっぱい", '腹');
    NotContainsByChar(t, "たくさん", 'た');
    NotContainsByChar(t, "満腹", '満');
    NotContainsByChar(t, "ヘビー", 'ヘ');
  }

  /** Characters of the heavy keywords that the sample does not use. */
  lemma DocumentedRequestLacks(t: string)
    requires t == RequestHead + RequestTail
    ensures 'っ' !in t && 'ボ' !in t && '腹' !in t && 'た' !in t && '満' !in t && 'ヘ' !in t
  {
    HeavyCharsMissing(RequestHead);
    HeavyCharsMissing(RequestTail);
    assert forall c :: c in t ==> c in RequestHead || c in RequestTail;
  }

  predicate LacksHeavyChars(s: string) {
    'っ' !in s && 'ボ' !in s && '腹' !in s && 'た' !in s && '満' !in s && 'ヘ' !in s
  }

  lemma HeavyCharsMissing(s: string)
    requires s == RequestHead || s == RequestTail
    ensures LacksHeavyChars(s)
  {
  }

  lemma DocumentedRequestMorning(t: string)
    requires t == RequestHead + RequestTail
    ensures AnyHit(t, MorningKeywords)
  {
    ContainsAt(t, "朝", 0);
    assert Contains(t, MorningKeywords[0]);
  }
}
