/** The rule-based mood interpreter (`TextAnalyzer` of the browser-side
    utilities): it normalises a free-form Japanese request and reads off the
    desired keywords, the keywords to avoid, the suggested genres, the
    appetite, the time of day, the mood signals, a location hint and a
    confidence score.  The dictionaries it reads are parameters: the module
    the source imports them from is not part of this model; the inline copy
    of the analyser declares the same tables (see `Dictionary`). */
module TextAnalyzer {
  import opened Common
  import opened Strings
  import opened StableSort
  import opened Dictionary
  import opened Profile
  import opened TextNormalize

  /** MOOD_KEYWORDS, GENRE_KEYWORDS and AVOID_KEYWORDS. */
  datatype Dictionaries = Dictionaries(mood: seq<Category>, genres: seq<GenreCategory>, avoid: seq<KeywordGroup>)

  // ---------------------------------------------------------------------
  // Desired keywords

  /** The test a dictionary keyword passes to become desired: the text
      includes it and, for the negation-aware analyser, it is not negated. */
  predicate KeepsDesired(text: string, k: string, negationAware: bool) {
    Contains(text, k) && !(negationAware && IsNegated(text, k))
  }

  /** The desired entries one category contributes from its keywords kws, in order. */
  function CategoryHits(text: string, c: Category, kws: seq<string>, negationAware: bool): seq<KeywordEntry> {
    if kws == [] then []
    else
      var k := kws[|kws| - 1];
      CategoryHits(text, c, kws[..|kws| - 1], negationAware)
      + (if KeepsDesired(text, k, negationAware) then [KeywordEntry(k, c.name, c.weight)] else [])
  }

  /** The desired entries of a table, category by category, before sorting. */
  function DesiredHits(text: string, table: seq<Category>, negationAware: bool): seq<KeywordEntry> {
    if table == [] then []
    else
      var c := table[|table| - 1];
      DesiredHits(text, table[..|table| - 1], negationAware) + CategoryHits(text, c, c.keywords, negationAware)
  }

  /** `extractDesiredKeywords`: every dictionary keyword that passes the test,
      tagged with its category and weight, then stably sorted by weight,
      heaviest first.  `negationAware` is false for the inline analyser,
      which does not look for negations. */
  method ExtractDesiredKeywords(text: string, table: seq<Category>, negationAware: bool)
    returns (desired: seq<KeywordEntry>)
    ensures desired == SortDesc(DesiredHits(text, table, negationAware), EntryWeight)
  {
    var found: seq<KeywordEntry> := [];
    for i := 0 to |table|
      invariant found == DesiredHits(text, table[..i], negationAware)
    {
      var hits := CategoryDesired(text, table[i], negationAware);
      found := found + hits;
      assert table[..i + 1][..i] == table[..i];
    }
    assert table[..|table|] == table;
    desired := SortDesc(found, EntryWeight);
  }

  /** The inner loop of `extractDesiredKeywords`: one category's keywords
      that pass the test, in order. */
  method CategoryDesired(text: string, c: Category, negationAware: bool) returns (hits: seq<KeywordEntry>)
    ensures hits == CategoryHits(text, c, c.keywords, negationAware)
  {
    hits := [];
    for j := 0 to |c.keywords|
      invariant hits == CategoryHits(text, c, c.keywords[..j], negationAware)
    {
      var k := c.keywords[j];
      if Contains(text, k) && !(negationAware && IsNegated(text, k)) {
        hits := hits + [KeywordEntry(k, c.name, c.weight)];
      }
      assert c.keywords[..j + 1][..j] == c.keywords[..j];
    }
    assert c.keywords[..|c.keywords|] == c.keywords;
  }

  lemma {:induction false} CategoryHitsMembership(text: string, c: Category, kws: seq<string>, negationAware: bool, e: KeywordEntry)
    ensures e in CategoryHits(text, c, kws, negationAware) <==>
      exists j :: 0 <= j < |kws| && KeepsDesired(text, kws[j], negationAware) && e == KeywordEntry(kws[j], c.name, c.weight)
  {
    if kws != [] {
      var init := kws[..|kws| - 1];
      CategoryHitsMembership(text, c, init, negationAware, e);
      assert forall j :: 0 <= j < |init| ==> init[j] == kws[j];
      if exists j :: 0 <= j < |kws| && KeepsDesired(text, kws[j], negationAware) && e == KeywordEntry(kws[j], c.name, c.weight) {
        var j :| 0 <= j < |kws| && KeepsDesired(text, kws[j], negationAware) && e == KeywordEntry(kws[j], c.name, c.weight);
        if j < |init| {
          assert KeepsDesired(text, init[j], negationAware) && e == KeywordEntry(init[j], c.name, c.weight);
        }
      }
    }
  }

  /** An entry is desired exactly when it is (keyword, category, weight) of
      some table keyword that passes the test. */
  lemma {:induction false} DesiredHitsMembership(text: string, table: seq<Category>, negationAware: bool, e: KeywordEntry)
    ensures e in DesiredHits(text, table, negationAware) <==>
      exists i, j :: 0 <= i < |table| && 0 <= j < |table[i].keywords|
        && KeepsDesired(text, table[i].keywords[j], negationAware)
        && e == KeywordEntry(table[i].keywords[j], table[i].name, table[i].weight)
  {
    if table != [] {
      var init := table[..|table| - 1];
      var c := table[|table| - 1];
      DesiredHitsMembership(text, init, negationAware, e);
      CategoryHitsMembership(text, c, c.keywords, negationAware, e);
      assert forall i :: 0 <= i < |init| ==> init[i] == table[i];
      if exists i, j :: 0 <= i < |table| && 0 <= j < |table[i].keywords|
          && KeepsDesired(text, table[i].keywords[j], negationAware)
          && e == KeywordEntry(table[i].keywords[j], table[i].name, table[i].weight) {
        var i, j :| 0 <= i < |table| && 0 <= j < |table[i].keywords|
          && KeepsDesired(text, table[i].keywords[j], negationAware)
          && e == KeywordEntry(table[i].keywords[j], table[i].name, table[i].weight);
        if i < |init| {
          assert init[i] == table[i];
        } else {
          assert table[i] == c;
        }
      }
    }
  }

  /** The desired keywords: heaviest first, exactly the entries of keywords
      that pass the test, and among equal weights in dictionary order. */
  lemma DesiredKeywordsSpec(text: string, table: seq<Category>, negationAware: bool)
    ensures var r := SortDesc(DesiredHits(text, table, negationAware), EntryWeight);
      && SortedDesc(r, EntryWeight)
      && (forall e :: e in r <==>
            exists i, j :: 0 <= i < |table| && 0 <= j < |table[i].keywords|
              && KeepsDesired(text, table[i].keywords[j], negationAware)
              && e == KeywordEntry(table[i].keywords[j], table[i].name, table[i].weight))
      && (forall w :: WithKey(r, EntryWeight, w) == WithKey(DesiredHits(text, table, negationAware), EntryWeight, w))
  {
    var hits := DesiredHits(text, table, negationAware);
    var r := SortDesc(hits, EntryWeight);
    SortDescSorted(hits, EntryWeight);
    SortDescPermutation(hits, EntryWeight);
    forall e
      ensures e in r <==>
            exists i, j :: 0 <= i < |table| && 0 <= j < |table[i].keywords|
              && KeepsDesired(text, table[i].keywords[j], negationAware)
              && e == KeywordEntry(table[i].keywords[j], table[i].name, table[i].weight)
    {
      assert e in r <==> e in multiset(r);
      assert e in hits <==> e in multiset(hits);
      DesiredHitsMembership(text, table, negationAware, e);
    }
    forall w
      ensures WithKey(r, EntryWeight, w) == WithKey(hits, EntryWeight, w)
    {
      SortDescStable(hits, EntryWeight, w);
    }
  }

  // ---------------------------------------------------------------------
  // Keywords to avoid

  /** The avoid entries one group contributes from its keywords kws. */
  function GroupHits(text: string, g: KeywordGroup, kws: seq<string>): seq<AvoidEntry> {
    if kws == [] then []
    else
      var k := kws[|kws| - 1];
      GroupHits(text, g, kws[..|kws| - 1]) + (if Contains(text, k) then [AvoidEntry(k, g.name)] else [])
  }

  /** Every avoid-table keyword the text includes, group by group. */
  function AvoidHits(text: string, groups: seq<KeywordGroup>): seq<AvoidEntry> {
    if groups == [] then []
    else
      var g := groups[|groups| - 1];
      AvoidHits(text, groups[..|groups| - 1]) + GroupHits(text, g, g.keywords)
  }

  /** `extractAvoidKeywords`.  The source keeps a keyword when the text
      includes it or it is negated; a negated keyword is one the text
      includes, so the second test never adds anything: the result is every
      avoid-table keyword the text includes, in table order. */
  method ExtractAvoidKeywords(text: string, groups: seq<KeywordGroup>) returns (avoid: seq<AvoidEntry>)
    ensures avoid == AvoidHits(text, groups)
  {
    avoid := [];
    for i := 0 to |groups|
      invariant avoid == AvoidHits(text, groups[..i])
    {
      var g := groups[i];
      for j := 0 to |g.keywords|
        invariant avoid == AvoidHits(text, groups[..i]) + GroupHits(text, g, g.keywords[..j])
      {
        var k := g.keywords[j];
        if Contains(text, k) || IsNegated(text, k) {
          avoid := avoid + [AvoidEntry(k, g.name)];
        }
        assert g.keywords[..j + 1][..j] == g.keywords[..j];
      }
      assert g.keywords[..|g.keywords|] == g.keywords;
      assert groups[..i + 1][..i] == groups[..i];
    }
    assert groups[..|groups|] == groups;
  }

  lemma {:induction false} GroupHitsMembership(text: string, g: KeywordGroup, kws: seq<string>, e: AvoidEntry)
    ensures e in GroupHits(text, g, kws) <==>
      exists j :: 0 <= j < |kws| && Contains(text, kws[j]) && e == AvoidEntry(kws[j], g.name)
  {
    if kws != [] {
      var init := kws[..|kws| - 1];
      GroupHitsMembership(text, g, init, e);
      assert forall j :: 0 <= j < |init| ==> init[j] == kws[j];
      if exists j :: 0 <= j < |kws| && Contains(text, kws[j]) && e == AvoidEntry(kws[j], g.name) {
        var j :| 0 <= j < |kws| && Contains(text, kws[j]) && e == AvoidEntry(kws[j], g.name);
        if j < |init| {
          assert Contains(text, init[j]) && e == AvoidEntry(init[j], g.name);
        }
      }
    }
  }

  /** An entry is avoided exactly when it is (keyword, group) of an avoid-table
      keyword the text includes. */
  lemma {:induction false} AvoidHitsMembership(text: string, groups: seq<KeywordGroup>, e: AvoidEntry)
    ensures e in AvoidHits(text, groups) <==>
      exists i, j :: 0 <= i < |groups| && 0 <= j < |groups[i].keywords|
        && Contains(text, groups[i].keywords[j]) && e == AvoidEntry(groups[i].keywords[j], groups[i].name)
  {
    if groups != [] {
      var init := groups[..|groups| - 1];
      var g := groups[|groups| - 1];
      AvoidHitsMembership(text, init, e);
      GroupHitsMembership(text, g, g.keywords, e);
      assert forall i :: 0 <= i < |init| ==> init[i] == groups[i];
      if exists i, j :: 0 <= i < |groups| && 0 <= j < |groups[i].keywords|
          && Contains(text, groups[i].keywords[j]) && e == AvoidEntry(groups[i].keywords[j], groups[i].name) {
        var i, j :| 0 <= i < |groups| && 0 <= j < |groups[i].keywords|
          && Contains(text, groups[i].keywords[j]) && e == AvoidEntry(groups[i].keywords[j], groups[i].name);
        if i < |init| {
          assert init[i] == groups[i];
        } else {
          assert groups[i] == g;
        }
      }
    }
  }

  // ---------------------------------------------------------------------
  // Genres

  /** How many of kws the text includes (the `matchCount` / reduce tallies). */
  function HitCount(text: string, kws: seq<string>): (n: nat)
    ensures n <= |kws|
  {
    if kws == [] then 0
    else HitCount(text, kws[..|kws| - 1]) + (if Contains(text, kws[|kws| - 1]) then 1 else 0)
  }

  /** Some keyword hits exactly when the count is positive; all hit exactly
      when the count is the number of keywords. */
  lemma {:induction false} HitCountMeaning(text: string, kws: seq<string>)
    ensures HitCount(text, kws) > 0 <==> exists j :: 0 <= j < |kws| && Contains(text, kws[j])
    ensures HitCount(text, kws) == |kws| <==> forall j :: 0 <= j < |kws| ==> Contains(text, kws[j])
  {
    if kws != [] {
      var init := kws[..|kws| - 1];
      HitCountMeaning(text, init);
      assert forall j :: 0 <= j < |init| ==> init[j] == kws[j];
      if exists j :: 0 <= j < |kws| && Contains(text, kws[j]) {
        var j :| 0 <= j < |kws| && Contains(text, kws[j]);
        if j < |init| {
          assert Contains(text, init[j]);
        }
      }
    }
  }

  /** The suggestion a genre category makes, if any of its keywords hit:
      its confidence is the fraction of its keywords that hit. */
  function GenreHit(text: string, g: GenreCategory): seq<GenreSuggestion> {
    var n := HitCount(text, g.keywords);
    if n > 0 then [GenreSuggestion(g.name, g.genres, n as real / |g.keywords| as real)] else []
  }

  function GenreHits(text: string, table: seq<GenreCategory>): seq<GenreSuggestion> {
    if table == [] then []
    else GenreHits(text, table[..|table| - 1]) + GenreHit(text, table[|table| - 1])
  }

  /** `extractGenres`: one suggestion per genre category with a hit, stably
      sorted by confidence, most confident first. */
  method ExtractGenres(text: string, table: seq<GenreCategory>) returns (genres: seq<GenreSuggestion>)
    ensures genres == SortDesc(GenreHits(text, table), SuggestionConfidence)
  {
    var found: seq<GenreSuggestion> := [];
    for i := 0 to |table|
      invariant found == GenreHits(text, table[..i])
    {
      var g := table[i];
      var matchCount := 0;
      for j := 0 to |g.keywords|
        invariant matchCount == HitCount(text, g.keywords[..j])
      {
        if Contains(text, g.keywords[j]) {
          matchCount := matchCount + 1;
        }
        assert g.keywords[..j + 1][..j] == g.keywords[..j];
      }
      assert g.keywords[..|g.keywords|] == g.keywords;
      if matchCount > 0 {
        found := found + [GenreSuggestion(g.name, g.genres, matchCount as real / |g.keywords| as real)];
      }
      assert table[..i + 1][..i] == table[..i];
    }
    assert table[..|table|] == table;
    genres := SortDesc(found, SuggestionConfidence);
  }

  /** A suggestion is made for a genre category exactly when one of its
      keywords hits, with the fraction of hits as confidence. */
  lemma {:induction false} GenreHitsMembership(text: string, table: seq<GenreCategory>, s: GenreSuggestion)
    ensures s in GenreHits(text, table) <==>
      exists i :: 0 <= i < |table| && HitCount(text, table[i].keywords) > 0
        && s == GenreSuggestion(table[i].name, table[i].genres,
                                HitCount(text, table[i].keywords) as real / |table[i].keywords| as real)
  {
    if table != [] {
      var init := table[..|table| - 1];
      GenreHitsMembership(text, init, s);
      assert forall i :: 0 <= i < |init| ==> init[i] == table[i];
      if exists i :: 0 <= i < |table| && HitCount(text, table[i].keywords) > 0
          && s == GenreSuggestion(table[i].name, table[i].genres,
                                  HitCount(text, table[i].keywords) as real / |table[i].keywords| as real) {
        var i :| 0 <= i < |table| && HitCount(text, table[i].keywords) > 0
          && s == GenreSuggestion(table[i].name, table[i].genres,
                                  HitCount(text, table[i].keywords) as real / |table[i].keywords| as real);
        if i < |init| {
          assert init[i] == table[i];
        }
      }
    }
  }

  /** The suggested genres: most confident first, exactly one per category
      with a hit, each confidence in (0, 1] and 1 exactly when every keyword
      of its category hits. */
  lemma GenresSpec(text: string, table: seq<GenreCategory>)
    ensures var r := SortDesc(GenreHits(text, table), SuggestionConfidence);
      && SortedDesc(r, SuggestionConfidence)
      && (forall s :: s in r <==>
            exists i :: 0 <= i < |table| && HitCount(text, table[i].keywords) > 0
              && s == GenreSuggestion(table[i].name, table[i].genres,
                                      HitCount(text, table[i].keywords) as real / |table[i].keywords| as real))
      && (forall i :: 0 <= i < |table| ==>
            ((exists s :: s in r && s.category == table[i].name && s.genres == table[i].genres)
             <== (exists j :: 0 <= j < |table[i].keywords| && Contains(text, table[i].keywords[j]))))
      && (forall s :: s in r ==> 0.0 < s.confidence <= 1.0)
  {
    var hits := GenreHits(text, table);
    var r := SortDesc(hits, SuggestionConfidence);
    SortDescSorted(hits, SuggestionConfidence);
    SortDescPermutation(hits, SuggestionConfidence);
    forall s
      ensures s in r <==>
            exists i :: 0 <= i < |table| && HitCount(text, table[i].keywords) > 0
              && s == GenreSuggestion(table[i].name, table[i].genres,
                                      HitCount(text, table[i].keywords) as real / |table[i].keywords| as real)
      ensures s in r ==> 0.0 < s.confidence <= 1.0
    {
      assert s in r <==> s in multiset(r);
      assert s in hits <==> s in multiset(hits);
      GenreHitsMembership(text, table, s);
      if s in r {
        var i :| 0 <= i < |table| && HitCount(text, table[i].keywords) > 0
          && s == GenreSuggestion(table[i].name, table[i].genres,
                                  HitCount(text, table[i].keywords) as real / |table[i].keywords| as real);
        FractionInUnit(HitCount(text, table[i].keywords), |table[i].keywords|);
      }
    }
    forall i | 0 <= i < |table| && exists j :: 0 <= j < |table[i].keywords| && Contains(text, table[i].keywords[j])
      ensures exists s :: s in r && s.category == table[i].name && s.genres == table[i].genres
    {
      HitCountMeaning(text, table[i].keywords);
      var s := GenreSuggestion(table[i].name, table[i].genres,
                               HitCount(text, table[i].keywords) as real / |table[i].keywords| as real);
      GenreHitsMembership(text, table, s);
      assert s in multiset(hits);
      assert s in r;
    }
  }

  /** A suggestion's confidence is 1 exactly when every keyword of its category hits. */
  lemma FullConfidence(text: string, g: GenreCategory)
    requires HitCount(text, g.keywords) > 0
    ensures HitCount(text, g.keywords) as real / |g.keywords| as real == 1.0
            <==> forall j :: 0 <= j < |g.keywords| ==> Contains(text, g.keywords[j])
  {
    HitCountMeaning(text, g.keywords);
    RatioIsOne(HitCount(text, g.keywords), |g.keywords|);
  }

  lemma RatioIsOne(n: nat, d: nat)
    requires 0 < d
    ensures n as real / d as real == 1.0 <==> n == d
  {
    if n as real / d as real == 1.0 {
      assert n as real == d as real;
    }
  }

  lemma FractionInUnit(n: nat, d: nat)
    requires 0 < n <= d
    ensures 0.0 < n as real / d as real <= 1.0
  {
  }

  // ---------------------------------------------------------------------
  // Appetite

  /** Some keyword of kws occurs in the text. */
  predicate AnyHit(text: string, kws: seq<string>) {
    exists j :: 0 <= j < |kws| && Contains(text, kws[j])
  }

  /** `detectAppetiteLevel`: whichever of the light and heavy keyword lists
      has more hits wins; a tie is normal. */
  function DetectAppetite(text: string, table: seq<Category>): Appetite
    requires HasNamedCategories(table)
  {
    var lightScore := HitCount(text, Lookup(table, "light").keywords);
    var heavyScore := HitCount(text, Lookup(table, "heavy").keywords);
    if lightScore > heavyScore then Light
    else if heavyScore > lightScore then Heavy
    else Normal
  }

  /** A light (heavy) appetite is read only from a light (heavy) keyword;
      a text with light keywords and no heavy one reads light, and the
      other way round; without either it reads normal. */
  lemma AppetiteEvidence(text: string, table: seq<Category>)
    requires HasNamedCategories(table)
    ensures var lightHit := AnyHit(text, Lookup(table, "light").keywords);
            var heavyHit := AnyHit(text, Lookup(table, "heavy").keywords);
      && (DetectAppetite(text, table) == Light ==> lightHit)
      && (DetectAppetite(text, table) == Heavy ==> heavyHit)
      && (lightHit && !heavyHit ==> DetectAppetite(text, table) == Light)
      && (heavyHit && !lightHit ==> DetectAppetite(text, table) == Heavy)
      && (!lightHit && !heavyHit ==> DetectAppetite(text, table) == Normal)
  {
    HitCountMeaning(text, Lookup(table, "light").keywords);
    HitCountMeaning(text, Lookup(table, "heavy").keywords);
  }

  // ---------------------------------------------------------------------
  // Time of day

  /** The categories `detectTimeOfDay` scans, in order, and what each yields. */
  const TimeCategoryNames: seq<string> := ["morning", "lunch", "dinner"]
  const TimeCategoryValues: seq<TimeOfDay> := [Morning, Lunch, Dinner]

  /** The time of day a text names, scanning morning, lunch then dinner
      keywords; a text naming none falls back to the clock's hour. */
  function TimeOfDayOf(text: string, table: seq<Category>, hour: int): TimeOfDay
    requires HasNamedCategories(table)
  {
    if AnyHit(text, Lookup(table, "morning").keywords) then Morning
    else if AnyHit(text, Lookup(table, "lunch").keywords) then Lunch
    else if AnyHit(text, Lookup(table, "dinner").keywords) then Dinner
    else TimeOfDayForHour(hour)
  }

  /** `detectTimeOfDay`; `new Date().getHours()` is the parameter `hour`. */
  method DetectTimeOfDay(text: string, table: seq<Category>, hour: int) returns (t: TimeOfDay)
    requires HasNamedCategories(table)
    ensures t == TimeOfDayOf(text, table, hour)
  {
    for ci := 0 to |TimeCategoryNames|
      invariant forall c :: 0 <= c < ci ==> !AnyHit(text, Lookup(table, TimeCategoryNames[c]).keywords)
    {
      var keywords := Lookup(table, TimeCategoryNames[ci]).keywords;
      for j := 0 to |keywords|
        invariant forall m :: 0 <= m < j ==> !Contains(text, keywords[m])
      {
        if Contains(text, keywords[j]) {
          assert AnyHit(text, keywords);
          t := TimeCategoryValues[ci];
          if ci == 1 {
            assert !AnyHit(text, Lookup(table, TimeCategoryNames[0]).keywords);
          } else if ci == 2 {
            assert !AnyHit(text, Lookup(table, TimeCategoryNames[0]).keywords);
            assert !AnyHit(text, Lookup(table, TimeCategoryNames[1]).keywords);
          }
          return;
        }
      }
    }
    assert TimeCategoryNames == ["morning", "lunch", "dinner"];
    assert !AnyHit(text, Lookup(table, TimeCategoryNames[0]).keywords);
    assert !AnyHit(text, Lookup(table, TimeCategoryNames[1]).keywords);
    assert !AnyHit(text, Lookup(table, TimeCategoryNames[2]).keywords);
    t := TimeOfDayForHour(hour);
  }

  /** A time keyword overrides the clock; without one the clock decides; and
      a morning reading means a morning keyword or a morning hour. */
  lemma TimeOfDayPrecedence(text: string, table: seq<Category>, hour: int)
    requires HasNamedCategories(table)
    ensures AnyHit(text, Lookup(table, "morning").keywords) ==> TimeOfDayOf(text, table, hour) == Morning
    ensures (!AnyHit(text, Lookup(table, "morning").keywords) && !AnyHit(text, Lookup(table, "lunch").keywords)
             && !AnyHit(text, Lookup(table, "dinner").keywords))
            ==> TimeOfDayOf(text, table, hour) == TimeOfDayForHour(hour)
    ensures TimeOfDayOf(text, table, hour) == Morning
            ==> AnyHit(text, Lookup(table, "morning").keywords) || 6 <= hour < 11
    ensures TimeOfDayOf(text, table, hour) == Other ==> hour < 6 || hour >= 22
  {
  }

  // ---------------------------------------------------------------------
  // Mood

  /** The categories `extractMoodKeywords` scans, in order. */
  const MoodCategoryNames: seq<string> := ["comfort", "energy", "celebration"]

  /** The mood categories the analyser scans, looked up in the table. */
  function MoodCategories(table: seq<Category>): (cats: seq<Category>)
    requires HasNamedCategories(table)
    ensures |cats| == 3
    ensures forall i :: 0 <= i < 3 ==> cats[i] in table && cats[i].name == MoodCategoryNames[i]
  {
    [Lookup(table, "comfort"), Lookup(table, "energy"), Lookup(table, "celebration")]
  }

  function MoodCategoryHits(text: string, c: Category, kws: seq<string>): seq<MoodSignal> {
    if kws == [] then []
    else
      var k := kws[|kws| - 1];
      MoodCategoryHits(text, c, kws[..|kws| - 1])
      + (if Contains(text, k) then [MoodSignal(c.name, k, c.weight)] else [])
  }

  /** One signal per keyword of the given mood categories that the text includes. */
  function MoodHits(text: string, cats: seq<Category>): seq<MoodSignal> {
    if cats == [] then []
    else
      var c := cats[|cats| - 1];
      MoodHits(text, cats[..|cats| - 1]) + MoodCategoryHits(text, c, c.keywords)
  }

  /** `extractMoodKeywords`. */
  method ExtractMoodKeywords(text: string, table: seq<Category>) returns (moods: seq<MoodSignal>)
    requires HasNamedCategories(table)
    ensures moods == MoodHits(text, MoodCategories(table))
  {
    ghost var cats := MoodCategories(table);
    moods := [];
    for ci := 0 to |MoodCategoryNames|
      invariant moods == MoodHits(text, cats[..ci])
    {
      var c := Lookup(table, MoodCategoryNames[ci]);
      assert c == cats[ci];
      var hits := CategoryMoods(text, c);
      moods := moods + hits;
      assert cats[..ci + 1][..ci] == cats[..ci];
    }
    assert cats[..3] == cats;
  }

  /** The inner loop of `extractMoodKeywords`: one signal per keyword of
      the category that the text includes, in order. */
  method CategoryMoods(text: string, c: Category) returns (hits: seq<MoodSignal>)
    ensures hits == MoodCategoryHits(text, c, c.keywords)
  {
    hits := [];
    for j := 0 to |c.keywords|
      invariant hits == MoodCategoryHits(text, c, c.keywords[..j])
    {
      var k := c.keywords[j];
      if Contains(text, k) {
        hits := hits + [MoodSignal(c.name, k, c.weight)];
      }
      assert c.keywords[..j + 1][..j] == c.keywords[..j];
    }
    assert c.keywords[..|c.keywords|] == c.keywords;
  }

  lemma {:induction false} MoodCategoryHitsMembership(text: string, c: Category, kws: seq<string>, m: MoodSignal)
    ensures m in MoodCategoryHits(text, c, kws) <==>
      exists j :: 0 <= j < |kws| && Contains(text, kws[j]) && m == MoodSignal(c.name, kws[j], c.weight)
  {
    if kws != [] {
      var init := kws[..|kws| - 1];
      MoodCategoryHitsMembership(text, c, init, m);
      assert forall j :: 0 <= j < |init| ==> init[j] == kws[j];
      if exists j :: 0 <= j < |kws| && Contains(text, kws[j]) && m == MoodSignal(c.name, kws[j], c.weight) {
        var j :| 0 <= j < |kws| && Contains(text, kws[j]) && m == MoodSignal(c.name, kws[j], c.weight);
        if j < |init| {
          assert Contains(text, init[j]) && m == MoodSignal(c.name, init[j], c.weight);
        }
      }
    }
  }

  lemma {:induction false} MoodHitsMembership(text: string, cats: seq<Category>, m: MoodSignal)
    ensures m in MoodHits(text, cats) <==>
      exists i, j :: 0 <= i < |cats| && 0 <= j < |cats[i].keywords|
        && Contains(text, cats[i].keywords[j]) && m == MoodSignal(cats[i].name, cats[i].keywords[j], cats[i].weight)
  {
    if cats != [] {
      var init := cats[..|cats| - 1];
      var c := cats[|cats| - 1];
      MoodHitsMembership(text, init, m);
      MoodCategoryHitsMembership(text, c, c.keywords, m);
      assert forall i :: 0 <= i < |init| ==> init[i] == cats[i];
      if exists i, j :: 0 <= i < |cats| && 0 <= j < |cats[i].keywords|
          && Contains(text, cats[i].keywords[j]) && m == MoodSignal(cats[i].name, cats[i].keywords[j], cats[i].weight) {
        var i, j :| 0 <= i < |cats| && 0 <= j < |cats[i].keywords|
          && Contains(text, cats[i].keywords[j]) && m == MoodSignal(cats[i].name, cats[i].keywords[j], cats[i].weight);
        if i < |init| {
          assert init[i] == cats[i];
        } else {
          assert cats[i] == c;
        }
      }
    }
  }

  // ---------------------------------------------------------------------
  // Location hint

  /** The patterns of `extractLocationHint` as the source writes them: each
      alternation is wrapped in square brackets, which makes it a character
      class.  Each string here is the set of characters of one class. */
  const LocationClassesAsWritten: seq<string> := ["駅周辺|駅前|駅ちか|駅から", "近く|近い|そば|付近", "歩いて|徒歩|車で"]

  /** The first character of text that belongs to the class cls: what
      `text.match(/[...]/g)[0]` returns. */
  function FirstInClass(text: string, cls: string): (r: Option<char>)
    ensures r.Some? ==> r.value in text && r.value in cls
    ensures r.None? ==> forall i :: 0 <= i < |text| ==> text[i] !in cls
  {
    if text == [] then None
    else if text[0] in cls then Some(text[0])
    else FirstInClass(text[1..], cls)
  }

  /** The hint the source computes: the first class with a character in the
      text yields that single character. */
  function LocationHintAsWrittenOf(text: string): string {
    var r0 := FirstInClass(text, LocationClassesAsWritten[0]);
    var r1 := FirstInClass(text, LocationClassesAsWritten[1]);
    var r2 := FirstInClass(text, LocationClassesAsWritten[2]);
    if r0.Some? then [r0.value]
    else if r1.Some? then [r1.value]
    else if r2.Some? then [r2.value]
    else ""
  }

  /** `extractLocationHint` as written: at most one character comes back. */
  method ExtractLocationHintAsWritten(text: string) returns (hint: string)
    ensures hint == LocationHintAsWrittenOf(text)
    ensures |hint| <= 1
  {
    for p := 0 to |LocationClassesAsWritten|
      invariant forall q :: 0 <= q < p ==> FirstInClass(text, LocationClassesAsWritten[q]).None?
    {
      var m := FirstInClass(text, LocationClassesAsWritten[p]);
      if m.Some? {
        hint := [m.value];
        return;
      }
    }
    hint := "";
  }

  /** The hint as written is one character of the text that lies in one of
      the three classes, the first class with such a character winning, and
      it is empty exactly when no character of the text is in any class. */
  lemma LocationHintAsWrittenSpec(text: string)
    ensures var h := LocationHintAsWrittenOf(text);
      && |h| <= 1
      && (h != "" ==> h[0] in text && exists q :: 0 <= q < |LocationClassesAsWritten| && h[0] in LocationClassesAsWritten[q])
      && (h == "" <==> forall q, i :: 0 <= q < |LocationClassesAsWritten| && 0 <= i < |text| ==> text[i] !in LocationClassesAsWritten[q])
  {
    var h := LocationHintAsWrittenOf(text);
    if h == "" {
      forall q, i | 0 <= q < |LocationClassesAsWritten| && 0 <= i < |text|
        ensures text[i] !in LocationClassesAsWritten[q]
      {
        assert FirstInClass(text, LocationClassesAsWritten[q]).None?;
      }
    }
  }

  /** The defect: a text with no place word at all gets a hint ('か' from
      'あったかい'), and a real place word comes back cut to one character. */
  lemma LocationHintAsWrittenMisreads()
    ensures LocationHintAsWrittenOf("あったかいもの") == "か"
    ensures LocationHintAsWrittenOf("駅前で") == "駅"
  {
    FirstInClassAt("あったかいもの", LocationClassesAsWritten[0], 3);
    FirstInClassAt("駅前で", LocationClassesAsWritten[0], 0);
  }

  /** The class match is the character at i when no earlier character is in the class. */
  lemma {:induction false} FirstInClassAt(text: string, cls: string, i: nat)
    requires i < |text| && text[i] in cls
    requires forall j :: 0 <= j < i ==> text[j] !in cls
    ensures FirstInClass(text, cls) == Some(text[i])
  {
    if i > 0 {
      FirstInClassAt(text[1..], cls, i - 1);
    }
  }

  /** The place words the patterns were evidently meant to find, as three
      alternations in the source's order. */
  const LocationPatterns: seq<seq<string>> := [
    ["駅周辺", "駅前", "駅ちか", "駅から"],
    ["近く", "近い", "そば", "付近"],
    ["歩いて", "徒歩", "車で"]
  ]

  /** The first alternative that is a prefix of s, if any. */
  function FirstAltAt(s: string, alts: seq<string>): (r: Option<string>)
    ensures r.Some? ==> r.value in alts && r.value <= s
    ensures r.None? ==> forall j :: 0 <= j < |alts| ==> !(alts[j] <= s)
  {
    if alts == [] then None
    else if alts[0] <= s then Some(alts[0])
    else
      var r := FirstAltAt(s, alts[1..]);
      assert forall j :: 1 <= j < |alts| ==> alts[j] == alts[1..][j - 1];
      r
  }

  /** The match of an alternation regular expression scanning from position
      i: the leftmost position where an alternative matches, and there the
      first alternative in order. */
  function FirstMatchFrom(text: string, alts: seq<string>, i: nat): (r: Option<string>)
    requires i <= |text|
    ensures r.Some? ==> r.value in alts && Contains(text, r.value)
    ensures r.None? ==> forall p, j :: i <= p <= |text| && 0 <= j < |alts| ==> !(alts[j] <= text[p..])
    decreases |text| - i
  {
    var here := FirstAltAt(text[i..], alts);
    if here.Some? then
      ContainsAt(text, here.value, i);
      here
    else if i == |text| then None
    else FirstMatchFrom(text, alts, i + 1)
  }

  /** The hint the patterns were meant to give: the first place word found,
      trying the station words, then the nearness words, then the
      travel words. */
  function LocationHintOf(text: string): string {
    var r0 := FirstMatchFrom(text, LocationPatterns[0], 0);
    var r1 := FirstMatchFrom(text, LocationPatterns[1], 0);
    var r2 := FirstMatchFrom(text, LocationPatterns[2], 0);
    if r0.Some? then r0.value
    else if r1.Some? then r1.value
    else if r2.Some? then r2.value
    else ""
  }

  /** `extractLocationHint` with the patterns as alternations. */
  method ExtractLocationHint(text: string) returns (hint: string)
    ensures hint == LocationHintOf(text)
  {
    for p := 0 to |LocationPatterns|
      invariant forall q :: 0 <= q < p ==> FirstMatchFrom(text, LocationPatterns[q], 0).None?
    {
      var m := FirstMatchFrom(text, LocationPatterns[p], 0);
      if m.Some? {
        hint := m.value;
        return;
      }
    }
    hint := "";
  }

  /** The hint is a whole place word the text includes, and it is empty
      exactly when the text includes no place word. */
  lemma LocationHintSpec(text: string)
    ensures var h := LocationHintOf(text);
      && (h != "" ==> Contains(text, h) && exists p :: 0 <= p < |LocationPatterns| && h in LocationPatterns[p])
      && (h == "" <==> forall p, j :: 0 <= p < |LocationPatterns| && 0 <= j < |LocationPatterns[p]|
                                      ==> !Contains(text, LocationPatterns[p][j]))
  {
    var h := LocationHintOf(text);
    forall p, j | 0 <= p < |LocationPatterns| && 0 <= j < |LocationPatterns[p]| && Contains(text, LocationPatterns[p][j])
      ensures h != ""
    {
      var i :| 0 <= i <= |text| && LocationPatterns[p][j] <= text[i..];
      assert FirstMatchFrom(text, LocationPatterns[p], 0).Some?;
    }
    if h != "" {
      if FirstMatchFrom(text, LocationPatterns[0], 0).Some? {
        assert h in LocationPatterns[0];
      } else if FirstMatchFrom(text, LocationPatterns[1], 0).Some? {
        assert h in LocationPatterns[1];
      } else {
        assert h in LocationPatterns[2];
      }
    }
  }

  // ---------------------------------------------------------------------
  // Confidence

  /** How many keyword occurrences of the whole table the text includes,
      counting a keyword once per category listing it. */
  function TableHits(text: string, table: seq<Category>): nat {
    if table == [] then 0
    else TableHits(text, table[..|table| - 1]) + HitCount(text, table[|table| - 1].keywords)
  }

  /** The confidence of n keyword hits: a fifth per hit, at most one. */
  function ConfidenceFor(n: nat): real {
    Min(n as real / 5.0, 1.0)
  }

  /** `calculateConfidence`: the number of dictionary keywords the text
      includes, over five, capped at one.  The source also totals the size
      of the dictionaries and never uses the total; that is left out. */
  method CalculateConfidence(text: string, table: seq<Category>) returns (confidence: real)
    ensures confidence == ConfidenceFor(TableHits(text, table))
  {
    var matched := 0;
    for i := 0 to |table|
      invariant matched == TableHits(text, table[..i])
    {
      var kws := table[i].keywords;
      for j := 0 to |kws|
        invariant matched == TableHits(text, table[..i]) + HitCount(text, kws[..j])
      {
        if Contains(text, kws[j]) {
          matched := matched + 1;
        }
        assert kws[..j + 1][..j] == kws[..j];
      }
      assert kws[..|kws|] == kws;
      assert table[..i + 1][..i] == table[..i];
    }
    assert table[..|table|] == table;
    confidence := Min(matched as real / 5.0, 1.0);
    assert confidence == ConfidenceFor(matched);
  }

  /** No keyword of any category hits exactly when the table count is zero. */
  lemma {:induction false} TableHitsZero(text: string, table: seq<Category>)
    ensures TableHits(text, table) == 0 <==>
      forall i, j :: 0 <= i < |table| && 0 <= j < |table[i].keywords| ==> !Contains(text, table[i].keywords[j])
  {
    if table != [] {
      var init := table[..|table| - 1];
      TableHitsZero(text, init);
      HitCountMeaning(text, table[|table| - 1].keywords);
      assert forall i :: 0 <= i < |init| ==> init[i] == table[i];
    }
  }

  /** The confidence lies in [0, 1]; it is 1 from five hits on, and 0
      exactly when no dictionary keyword occurs in the text. */
  lemma ConfidenceSpec(text: string, table: seq<Category>)
    ensures var c := ConfidenceFor(TableHits(text, table));
      && 0.0 <= c <= 1.0
      && (c == 1.0 <==> TableHits(text, table) >= 5)
      && (c == 0.0 <==> forall i, j :: 0 <= i < |table| && 0 <= j < |table[i].keywords| ==> !Contains(text, table[i].keywords[j]))
  {
    TableHitsZero(text, table);
  }

  // ---------------------------------------------------------------------
  // The whole analysis

  /** The profile `analyze` returns for a text: every reading is taken on
      the normalised text. */
  function AnalysisOf(text: string, dicts: Dictionaries, hour: int): Analysis
    requires HasNamedCategories(dicts.mood)
  {
    ProfileOf(Normalize(text), dicts, hour)
  }

  /** The readings of an already normalised text t. */
  function ProfileOf(t: string, dicts: Dictionaries, hour: int): Analysis
    requires HasNamedCategories(dicts.mood)
  {
    Analysis(
      SortDesc(DesiredHits(t, dicts.mood, true), EntryWeight),
      AvoidHits(t, dicts.avoid),
      SortDesc(GenreHits(t, dicts.genres), SuggestionConfidence),
      DetectAppetite(t, dicts.mood),
      TimeOfDayOf(t, dicts.mood, hour),
      MoodHits(t, MoodCategories(dicts.mood)),
      LocationHintAsWrittenOf(t),
      ConfidenceFor(TableHits(t, dicts.mood)))
  }

  /** `analyze`. */
  method Analyze(text: string, dicts: Dictionaries, hour: int) returns (a: Analysis)
    requires HasNamedCategories(dicts.mood)
    ensures a == AnalysisOf(text, dicts, hour)
  {
    var t := Normalize(text);
    var desired := ExtractDesiredKeywords(t, dicts.mood, true);
    var avoid := ExtractAvoidKeywords(t, dicts.avoid);
    var genres := ExtractGenres(t, dicts.genres);
    var appetite := DetectAppetite(t, dicts.mood);
    var timeOfDay := DetectTimeOfDay(t, dicts.mood, hour);
    var mood := ExtractMoodKeywords(t, dicts.mood);
    var hint := ExtractLocationHintAsWritten(t);
    var confidence := CalculateConfidence(t, dicts.mood);
    a := Analysis(desired, avoid, genres, appetite, timeOfDay, mood, hint, confidence);
    assert a == ProfileOf(t, dicts, hour);
  }

  /** Analysing a text and analysing its normalised form give the same profile. */
  lemma AnalysisIgnoresNormalization(text: string, dicts: Dictionaries, hour: int)
    requires HasNamedCategories(dicts.mood)
    ensures AnalysisOf(Normalize(text), dicts, hour) == AnalysisOf(text, dicts, hour)
  {
    NormalizeIdempotent(text);
  }

  /** Text that is only whitespace and punctuation yields an empty profile: no
      keyword, no genre, normal appetite, the clock's time of day, no hint
      and zero confidence (for dictionaries without empty keywords). */
  lemma BlankTextProfile(text: string, dicts: Dictionaries, hour: int)
    requires HasNamedCategories(dicts.mood) && NoEmptyKeyword(dicts.mood)
    requires forall i, j :: 0 <= i < |dicts.genres| && 0 <= j < |dicts.genres[i].keywords| ==> dicts.genres[i].keywords[j] != []
    requires forall i, j :: 0 <= i < |dicts.avoid| && 0 <= j < |dicts.avoid[i].keywords| ==> dicts.avoid[i].keywords[j] != []
    requires Letters(Lower(text)) == []
    ensures var a := AnalysisOf(text, dicts, hour);
      && a.desired == [] && a.avoid == [] && a.genres == [] && a.appetite == Normal
      && a.timeOfDay == TimeOfDayForHour(hour) && a.mood == [] && a.locationHint == "" && a.confidence == 0.0
  {
    NormalizeKeepsLetters(text);
    NormalizeIsNormalized(text);
    BlankNormalizedIsEmpty(Normalize(text));
    EmptyTextProfile(dicts, hour);
  }

  lemma EmptyContainsNothing()
    ensures forall k: string :: k != [] ==> !Contains("", k)
  {
  }

  lemma EmptyTextProfile(dicts: Dictionaries, hour: int)
    requires HasNamedCategories(dicts.mood) && NoEmptyKeyword(dicts.mood)
    requires forall i, j :: 0 <= i < |dicts.genres| && 0 <= j < |dicts.genres[i].keywords| ==> dicts.genres[i].keywords[j] != []
    requires forall i, j :: 0 <= i < |dicts.avoid| && 0 <= j < |dicts.avoid[i].keywords| ==> dicts.avoid[i].keywords[j] != []
    ensures var a := ProfileOf("", dicts, hour);
      && a.desired == [] && a.avoid == [] && a.genres == [] && a.appetite == Normal
      && a.timeOfDay == TimeOfDayForHour(hour) && a.mood == [] && a.locationHint == "" && a.confidence == 0.0
  {
    EmptyTextLists(dicts);
    EmptyTextScalars(dicts, hour);
  }

  lemma EmptyTextLists(dicts: Dictionaries)
    requires NoEmptyKeyword(dicts.mood)
    requires forall i, j :: 0 <= i < |dicts.genres| && 0 <= j < |dicts.genres[i].keywords| ==> dicts.genres[i].keywords[j] != []
    requires forall i, j :: 0 <= i < |dicts.avoid| && 0 <= j < |dicts.avoid[i].keywords| ==> dicts.avoid[i].keywords[j] != []
    ensures SortDesc(DesiredHits("", dicts.mood, true), EntryWeight) == []
    ensures AvoidHits("", dicts.avoid) == []
    ensures SortDesc(GenreHits("", dicts.genres), SuggestionConfidence) == []
  {
    EmptyTextNoDesired(dicts.mood);
    EmptyTextNoAvoid(dicts.avoid);
    EmptyTextNoGenre(dicts.genres);
  }

  lemma EmptyTextScalars(dicts: Dictionaries, hour: int)
    requires HasNamedCategories(dicts.mood) && NoEmptyKeyword(dicts.mood)
    ensures DetectAppetite("", dicts.mood) == Normal
    ensures TimeOfDayOf("", dicts.mood, hour) == TimeOfDayForHour(hour)
    ensures MoodHits("", MoodCategories(dicts.mood)) == []
    ensures LocationHintAsWrittenOf("") == ""
    ensures ConfidenceFor(TableHits("", dicts.mood)) == 0.0
  {
    EmptyTextAppetite(dicts.mood);
    EmptyTextTime(dicts.mood, hour);
    MoodKeywordsOfTable(dicts.mood);
    EmptyTextNoMood(MoodCategories(dicts.mood));
    EmptyTextConfidence(dicts.mood);
  }

  lemma EmptyTextAppetite(table: seq<Category>)
    requires HasNamedCategories(table) && NoEmptyKeyword(table)
    ensures DetectAppetite("", table) == Normal
  {
    EmptyContainsNothing();
    AppetiteEvidence("", table);
  }

  lemma EmptyTextTime(table: seq<Category>, hour: int)
    requires HasNamedCategories(table) && NoEmptyKeyword(table)
    ensures TimeOfDayOf("", table, hour) == TimeOfDayForHour(hour)
  {
    EmptyContainsNothing();
  }

  lemma EmptyTextConfidence(table: seq<Category>)
    requires NoEmptyKeyword(table)
    ensures ConfidenceFor(TableHits("", table)) == 0.0
  {
    EmptyContainsNothing();
    ConfidenceSpec("", table);
  }

  lemma NoMemberEmpty<T>(s: seq<T>)
    ensures (forall e :: e !in s) ==> s == []
  {
    if s != [] {
      assert s[0] in s;
    }
  }

  lemma EmptyTextNoDesired(table: seq<Category>)
    requires NoEmptyKeyword(table)
    ensures DesiredHits("", table, true) == []
  {
    EmptyContainsNothing();
    forall e ensures e !in DesiredHits("", table, true) {
      DesiredHitsMembership("", table, true, e);
    }
    NoMemberEmpty(DesiredHits("", table, true));
  }

  lemma EmptyTextNoAvoid(groups: seq<KeywordGroup>)
    requires forall i, j :: 0 <= i < |groups| && 0 <= j < |groups[i].keywords| ==> groups[i].keywords[j] != []
    ensures AvoidHits("", groups) == []
  {
    EmptyContainsNothing();
    forall e ensures e !in AvoidHits("", groups) {
      AvoidHitsMembership("", groups, e);
    }
    NoMemberEmpty(AvoidHits("", groups));
  }

  lemma EmptyTextNoGenre(table: seq<GenreCategory>)
    requires forall i, j :: 0 <= i < |table| && 0 <= j < |table[i].keywords| ==> table[i].keywords[j] != []
    ensures GenreHits("", table) == []
  {
    EmptyContainsNothing();
    forall i | 0 <= i < |table| ensures HitCount("", table[i].keywords) == 0 {
      HitCountMeaning("", table[i].keywords);
    }
    forall e ensures e !in GenreHits("", table) {
      GenreHitsMembership("", table, e);
    }
    NoMemberEmpty(GenreHits("", table));
  }

  lemma EmptyTextNoMood(cats: seq<Category>)
    requires forall i, j :: 0 <= i < |cats| && 0 <= j < |cats[i].keywords| ==> cats[i].keywords[j] != []
    ensures MoodHits("", cats) == []
  {
    EmptyContainsNothing();
    forall m ensures m !in MoodHits("", cats) {
      MoodHitsMembership("", cats, m);
    }
    NoMemberEmpty(MoodHits("", cats));
  }

  /** The categories the analyser looks up are table entries, so their
      keywords are table keywords. */
  lemma MoodKeywordsOfTable(table: seq<Category>)
    requires HasNamedCategories(table) && NoEmptyKeyword(table)
    ensures var cats := MoodCategories(table);
      forall i, j :: 0 <= i < |cats| && 0 <= j < |cats[i].keywords| ==> cats[i].keywords[j] != []
  {
    var cats := MoodCategories(table);
    forall i | 0 <= i < |cats|
      ensures forall j :: 0 <= j < |cats[i].keywords| ==> cats[i].keywords[j] != []
    {
      var k :| 0 <= k < |table| && table[k] == cats[i];
    }
  }

  /** A normalised text without letters is empty. */
  lemma BlankNormalizedIsEmpty(t: string)
    requires IsNormalized(t)
    ensures t != [] ==> Letters(t) != []
  {
    if t != [] {
      assert Letters(t) == [t[0]] + Letters(t[1..]);
    }
  }
}
