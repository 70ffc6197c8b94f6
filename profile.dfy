/** The mood profile every analyser produces (the `analysis` object), the
    clock-based time-of-day fallback, and the one-line summary built from a
    profile.  The three analysers and the browser fallback share these. */
module Profile {
  import opened Strings

  /** An entry of `desired_keywords`. */
  datatype KeywordEntry = KeywordEntry(keyword: string, category: string, weight: real)

  /** An entry of `avoid_keywords`. */
  datatype AvoidEntry = AvoidEntry(keyword: string, category: string)

  /** An entry of `suggested_genres`; the browser fallback leaves `genres` empty. */
  datatype GenreSuggestion = GenreSuggestion(category: string, genres: seq<string>, confidence: real)

  /** An entry of `mood`. */
  datatype MoodSignal = MoodSignal(mood: string, keyword: string, weight: real)

  /** `appetite_level`: 'light' | 'heavy' | 'normal'. */
  datatype Appetite = Light | Heavy | Normal

  /** `time_of_day`: 'morning' | 'lunch' | 'dinner' | 'other'. */
  datatype TimeOfDay = Morning | Lunch | Dinner | Other

  datatype Analysis = Analysis(
    desired: seq<KeywordEntry>,
    avoid: seq<AvoidEntry>,
    genres: seq<GenreSuggestion>,
    appetite: Appetite,
    timeOfDay: TimeOfDay,
    mood: seq<MoodSignal>,
    locationHint: string,
    confidence: real)

  function EntryWeight(e: KeywordEntry): real { e.weight }

  function SuggestionConfidence(g: GenreSuggestion): real { g.confidence }

  /** The time of day read off the local clock's hour (0-23): morning from 6
      up to 11, lunch up to 15, dinner up to 22, other at night. */
  function TimeOfDayForHour(hour: int): (t: TimeOfDay)
    ensures t == Morning <==> 6 <= hour < 11
    ensures t == Lunch <==> 11 <= hour < 15
    ensures t == Dinner <==> 15 <= hour < 22
    ensures t == Other <==> hour < 6 || hour >= 22
  {
    if 6 <= hour < 11 then Morning
    else if 11 <= hour < 15 then Lunch
    else if 15 <= hour < 22 then Dinner
    else Other
  }

  /** The summary's opening: '朝の', '昼の', '夜の', or nothing at night. */
  function TimePhrase(t: TimeOfDay): string {
    match t
    case Morning => "朝の"
    case Lunch => "昼の"
    case Dinner => "夜の"
    case Other => ""
  }

  function AppetitePhrase(a: Appetite): string {
    match a
    case Light => "軽めの"
    case Heavy => "がっつりとした"
    case Normal => ""
  }

  /** The label the summary gives a genre category: the three known ones in
      Japanese, any other under its own name. */
  function SummaryGenreLabel(category: string): string {
    if category == "japanese" then "和食"
    else if category == "chinese" then "中華"
    else if category == "western" then "洋食"
    else category
  }

  /** The closing of the analysers' summary. */
  const AnalyzerSuffix: string := "のお店をお探しですね。"

  /** The closing of the browser page's summary. */
  const BrowserSuffix: string := "のお店をお探しですね。あなたの気分にぴったりのお店を見つけました！"

  /** The summary: the time phrase, the appetite phrase, the top desired
      keyword, the top genre label followed by '系', then the closing, each
      part present only when the profile has it. */
  function SummaryOf(a: Analysis, suffix: string): string {
    TimePhrase(a.timeOfDay) + AppetitePhrase(a.appetite) + KeywordPart(a) + GenrePart(a) + suffix
  }

  /** The summary's keyword part: the top desired keyword, if any. */
  function KeywordPart(a: Analysis): string {
    if a.desired == [] then "" else a.desired[0].keyword
  }

  /** The summary's genre part: the top genre's label and '系', if any. */
  function GenrePart(a: Analysis): string {
    if a.genres == [] then "" else SummaryGenreLabel(a.genres[0].category) + "系"
  }

  method GenerateSummary(a: Analysis, suffix: string) returns (summary: string)
    ensures summary == SummaryOf(a, suffix)
  {
    summary := "";
    if a.timeOfDay != Other {
      summary := summary + TimePhrase(a.timeOfDay);
    }
    assert summary == TimePhrase(a.timeOfDay);
    if a.appetite == Light {
      summary := summary + "軽めの";
    } else if a.appetite == Heavy {
      summary := summary + "がっつりとした";
    }
    var opening := TimePhrase(a.timeOfDay) + AppetitePhrase(a.appetite);
    assert summary == opening;
    if |a.desired| > 0 {
      summary := summary + a.desired[0].keyword;
    }
    var withKeyword := opening + KeywordPart(a);
    assert summary == withKeyword;
    if |a.genres| > 0 {
      summary := summary + SummaryGenreLabel(a.genres[0].category) + "系";
    }
    assert summary == withKeyword + GenrePart(a);
    summary := summary + suffix;
  }

  /** What a reader of the summary can rely on: it opens with the time of day
      when there is one and has no time phrase at all when the time is
      'other', closes with the given closing, mentions the top desired
      keyword and the top genre, and is the bare closing for an empty
      profile at night. */
  lemma SummaryMentions(a: Analysis, suffix: string)
    ensures var s := SummaryOf(a, suffix);
      && (a.timeOfDay != Other ==> |s| >= 2 && s[..2] == TimePhrase(a.timeOfDay))
      && (a.timeOfDay == Other ==> s == AppetitePhrase(a.appetite) + KeywordPart(a) + GenrePart(a) + suffix)
      && |s| >= |suffix| && s[|s| - |suffix|..] == suffix
      && (a.desired != [] ==> Contains(s, a.desired[0].keyword))
      && (a.genres != [] ==> Contains(s, SummaryGenreLabel(a.genres[0].category) + "系"))
      && (a.timeOfDay == Other && a.appetite == Normal && a.desired == [] && a.genres == [] ==> s == suffix)
  {
    SummaryParts(TimePhrase(a.timeOfDay), AppetitePhrase(a.appetite), KeywordPart(a), GenrePart(a), suffix);
    if a.timeOfDay == Other {
      NoTimePhrase(AppetitePhrase(a.appetite), KeywordPart(a), GenrePart(a), suffix);
    }
  }

  /** An empty time phrase leaves the other four parts as they are. */
  lemma NoTimePhrase(appetite: string, kw: string, genre: string, suffix: string)
    ensures TimePhrase(Other) + appetite + kw + genre + suffix == appetite + kw + genre + suffix
  {
    assert TimePhrase(Other) == [];
  }

  /** Where each part of a five-part concatenation sits in it. */
  lemma SummaryParts(time: string, appetite: string, kw: string, genre: string, suffix: string)
    ensures var s := time + appetite + kw + genre + suffix;
      && s[..|time|] == time
      && s[|s| - |suffix|..] == suffix
      && Contains(s, kw) && Contains(s, genre)
  {
    var s := time + appetite + kw + genre + suffix;
    var k := |time| + |appetite|;
    assert kw <= s[k..];
    ContainsAt(s, kw, k);
    assert genre <= s[k + |kw|..];
    ContainsAt(s, genre, k + |kw|);
  }
}
