# shibu-meshi in Dafny

This project models the deterministic core of shibu-meshi, a restaurant
finder for Shibuya. The user describes their mood in Japanese; the app turns
that into a profile and ranks restaurants against it. The modelled parts are:

- **The rule-based mood interpreter** (`TextAnalyzer` in
  `src/utils/textAnalyzer.js`). It normalises the text and reads off the
  following, all from keyword tables:
  - desired keywords, with negation detection;
  - keywords to avoid;
  - genre suggestions;
  - an appetite level and a time of day;
  - moods, a location hint and a confidence score.
- **The serverless copy of that interpreter** (`netlify/functions/analyze.js`),
  with its own keyword tables.
- **The review scorer** (`ReviewAnalyzer` in `src/utils/reviewAnalyzer.js`).
  It reports per-review keyword scores, texture and mood matches, keyword
  density, a length-weighted total, a reason, tallies and a confidence.
- **The browser page's own logic** (`public/app.js`): the keyword fallback,
  the clock bucket, the genre filter, the inline restaurant scorer and the
  summary line.
- **The OpenStreetMap search** (`lib/overpass.ts`): cuisine expansion, the
  query's cuisine filter, element parsing, the score, and the
  filter/sort/top-20 pipeline.
- **The Google Places route** (`pages/api/search-restaurants.ts`): search
  keywords, genre extraction, atmosphere, match reason, match score and the
  top-10 ranking.
- **The local-LLM client** (`lib/qwen3.ts`):
  - the reply cleanup: think blocks, trim, the ```json fence, the brace cut;
  - the fallback analysis and chat-history formatting;
  - the prompt placeholders.
- **The result list helpers** (`components/RestaurantResults.tsx`): the
  favourite toggle, the price glyphs and the distance label.

Modelling conventions:

- **Strings** are `seq<char>`, one element per Unicode scalar value. Every
  character of the keyword tables is in the Basic Multilingual Plane and so
  one UTF-16 unit. For text made only of such characters, lengths agree with
  JavaScript's.
- **Keyword tables** are sequences of records in declaration order, which is
  the order `Object.entries` yields them in.
- **`Array.prototype.sort`** with a numeric comparator is one stable
  insertion sort, `StableSort.SortDesc`. It is proved sorted, a permutation
  and stable.
- **Loops become methods.** Where the source mutates an accumulator, the
  model has a method with loop invariants. Its `ensures` ties the result to a
  specification function, and lemmas state what that function means.
- **Outside inputs become parameters.** The clock hour, the unseen
  `genreMapping`/`moodKeywordMapping` tables and `JSON.parse` are all passed
  in.

## Model

| member | source | states |
|---|---|---|
| TextNormalize.RemovePunct | src/utils/textAnalyzer.js:35-41 | no ！？。，、 survives and every kept character comes from the input |
| TextNormalize.CollapseFrom | src/utils/textAnalyzer.js:35-41 | whitespace runs become one space: no two adjacent spaces, only spaces and non-space input characters |
| TextNormalize.Normalize | src/utils/textAnalyzer.js:35-41 | lower case, the five marks removed, whitespace runs collapsed, trimmed (NormalizeIsNormalized, NormalizeIdempotent, NormalizeKeepsLetters) |
| TextNormalize.IsNegated | src/utils/textAnalyzer.js:199-210 | the keyword occurs and a negation word lies in the window before its first occurrence (IsNegatedIffWordBefore) |
| TextNormalize.NormalizeIsNormalized | src/utils/textAnalyzer.js:35-41 | `normalizeText` yields text with no upper case, no removed punctuation, single spaces and trimmed ends |
| TextNormalize.NormalizeFixpoint | src/utils/textAnalyzer.js:35-41 | normalising a normalised text changes nothing |
| TextNormalize.NormalizeIdempotent | src/utils/textAnalyzer.js:35-41 | `normalizeText` is idempotent |
| TextNormalize.NormalizeDropsPunct | src/utils/textAnalyzer.js:37 | two plain words joined by one punctuation mark come out joined without it |
| TextNormalize.RemovePunctNoop | src/utils/textAnalyzer.js:37 | text without the five marks is left alone |
| TextNormalize.RemovePunctAppend | src/utils/textAnalyzer.js:37 | punctuation removal distributes over concatenation |
| TextNormalize.RemovePunctDropsOne | src/utils/textAnalyzer.js:37 | exactly the one mark between clean stretches is dropped |
| TextNormalize.CollapseNoop | src/utils/textAnalyzer.js:38 | already single-spaced text is unchanged by the collapse |
| TextNormalize.TrimIsNormalized | src/utils/textAnalyzer.js:39 | trimming clean single-spaced text gives normal form |
| TextNormalize.NormalizeKeepsLetters | src/utils/textAnalyzer.js:35-41 | normalisation loses only whitespace and punctuation: the other characters of the lower-cased text survive in order |
| TextNormalize.LettersRemovePunct | src/utils/textAnalyzer.js:37 | punctuation removal keeps every other non-space character |
| TextNormalize.LettersCollapse | src/utils/textAnalyzer.js:38 | the collapse keeps every non-space character |
| TextNormalize.LettersTrim | src/utils/textAnalyzer.js:39 | the trim keeps every non-space character |
| TextNormalize.IsNegatedIffWordBefore | src/utils/textAnalyzer.js:199-210 | `isNegated` holds iff the keyword occurs and a negation word lies in the last three whitespace pieces before its first occurrence |
| TextNormalize.NegationNeedsWordBefore | src/utils/textAnalyzer.js:199-210 | a negated keyword has a negation word somewhere before its first occurrence |
| TextNormalize.NegatedWordInPiece | src/utils/textAnalyzer.js:204-208 | a negation word found in the space-joined window lies inside one piece (negation words hold no space) |
| TextAnalyzer.ExtractDesiredKeywords | src/utils/textAnalyzer.js:46-62 | the result is the stable descending-weight sort of the per-category hits |
| TextAnalyzer.CategoryDesired | src/utils/textAnalyzer.js:50-58 | one category's keywords that are included and not negated, in dictionary order |
| TextAnalyzer.DesiredHitsMembership | src/utils/textAnalyzer.js:46-59 | an entry is collected iff it is (keyword, category, weight) of a table keyword the text includes and that is not negated |
| TextAnalyzer.DesiredKeywordsSpec | src/utils/textAnalyzer.js:46-62 | the desired list is sorted by weight, holds exactly the unnegated included keywords, and keeps table order among equal weights |
| TextAnalyzer.CategoryHitsMembership | src/utils/textAnalyzer.js:50-58 | one category's hits are exactly its included, unnegated keywords |
| TextAnalyzer.ExtractAvoidKeywords | src/utils/textAnalyzer.js:67-82 | the result is the group-by-group list of avoid-table keywords the text includes |
| TextAnalyzer.AvoidHitsMembership | src/utils/textAnalyzer.js:67-82 | an avoid entry is listed iff its keyword is in the table and included in the text; the `|| isNegated` branch adds nothing |
| TextAnalyzer.GroupHitsMembership | src/utils/textAnalyzer.js:70-79 | one group's avoid entries are exactly its included keywords |
| TextAnalyzer.HitCount | src/utils/textAnalyzer.js:91-96 | the tally of included keywords never exceeds the list's length |
| TextAnalyzer.HitCountMeaning | src/utils/textAnalyzer.js:91-96 | the tally is positive iff some keyword is included, and full iff all are |
| TextAnalyzer.ExtractGenres | src/utils/textAnalyzer.js:87-108 | the result is the stable descending-confidence sort of one suggestion per hit category |
| TextAnalyzer.GenreHitsMembership | src/utils/textAnalyzer.js:87-106 | a suggestion is made iff its category has a hit, with confidence hits / keywords |
| TextAnalyzer.GenresSpec | src/utils/textAnalyzer.js:87-108 | suggestions are sorted by confidence, one per hit category, each with confidence in (0, 1] |
| TextAnalyzer.FullConfidence | src/utils/textAnalyzer.js:102 | confidence is 1 exactly when every keyword of the category hits |
| TextAnalyzer.DetectAppetite | src/utils/textAnalyzer.js:113-128 | the list with strictly more hits wins, a tie is normal (AppetiteEvidence) |
| TextAnalyzer.AppetiteEvidence | src/utils/textAnalyzer.js:113-128 | light or heavy comes only from a light or heavy hit; a hit on one side alone decides; no hit gives normal |
| TextAnalyzer.DetectTimeOfDay | src/utils/textAnalyzer.js:133-151 | the loop returns the first of morning, lunch, dinner with a keyword hit, else the clock bucket |
| TextAnalyzer.TimeOfDayPrecedence | src/utils/textAnalyzer.js:133-151 | a morning keyword wins; with no time keyword the clock decides; 'other' only at night hours |
| TextAnalyzer.MoodCategories | src/utils/textAnalyzer.js:157 | the scanned categories are comfort, energy and celebration from the table, in that order |
| TextAnalyzer.ExtractMoodKeywords | src/utils/textAnalyzer.js:156-174 | the result is one signal per included keyword of the three mood categories, in order |
| TextAnalyzer.CategoryMoods | src/utils/textAnalyzer.js:162-170 | one signal per included keyword of one category, in dictionary order |
| TextAnalyzer.MoodHitsMembership | src/utils/textAnalyzer.js:156-174 | a mood signal is listed iff its keyword is included, with its category's weight |
| TextAnalyzer.FirstInClass | src/utils/textAnalyzer.js:186-190 | a bracket class matches the first character of the text that is in the class |
| TextAnalyzer.ExtractLocationHintAsWritten | src/utils/textAnalyzer.js:179-194 | the patterns as written yield at most one character |
| TextAnalyzer.LocationHintAsWrittenSpec | src/utils/textAnalyzer.js:179-194 | the hint is at most one character: a character of the text in one of the three classes, the first class with one winning; empty iff no character of the text is in any class |
| TextAnalyzer.LocationHintAsWrittenMisreads | src/utils/textAnalyzer.js:181 | 「あったかいもの」 gets hint 'か' and 「駅前で」 gets '駅' |
| TextAnalyzer.FirstAltAt | src/utils/textAnalyzer.js:181-183 | the alternative chosen is a prefix at that position, and none is when nothing is chosen |
| TextAnalyzer.FirstMatchFrom | src/utils/textAnalyzer.js:187 | leftmost-match semantics of an alternation: the match is an alternative the text contains, and none occurs when none is found |
| TextAnalyzer.ExtractLocationHint | src/utils/textAnalyzer.js:179-194 | with the patterns read as the alternations they were evidently meant to be (the corrected half of the first finding), the hint is the first place word found, pattern by pattern |
| TextAnalyzer.LocationHintSpec | src/utils/textAnalyzer.js:179-194 | a non-empty hint is a whole place word the text contains; the hint is empty iff the text contains none |
| TextAnalyzer.CalculateConfidence | src/utils/textAnalyzer.js:215-230 | the result is min(hits / 5, 1) over every mood-table keyword occurrence |
| TextAnalyzer.ConfidenceSpec | src/utils/textAnalyzer.js:215-230 | confidence lies in [0, 1]; it is 1 iff at least five hits, and 0 iff no keyword is included |
| TextAnalyzer.Analyze | src/utils/textAnalyzer.js:17-30 | `analyze` reads every field off the normalised text, the location hint with the patterns as written (one character at most) |
| TextAnalyzer.ProfileOf | src/utils/textAnalyzer.js:20-29 | the profile of a normalised text, field by field: the extractors' readings, described by DesiredKeywordsSpec, AvoidHitsMembership, GenresSpec, AppetiteEvidence, TimeOfDayPrecedence, MoodHitsMembership, LocationHintAsWrittenSpec and ConfidenceSpec |
| TextAnalyzer.AnalysisOf | src/utils/textAnalyzer.js:17-19 | `analyze` reads the normalised text only (AnalysisIgnoresNormalization) |
| TextAnalyzer.AnalysisIgnoresNormalization | src/utils/textAnalyzer.js:17-30 | analysing a text and its normalised form give the same profile |
| TextAnalyzer.BlankTextProfile | src/utils/textAnalyzer.js:17-30 | whitespace/punctuation-only text yields an empty profile with the clock's time of day and confidence 0 |
| TextAnalyzer.EmptyTextProfile | src/utils/textAnalyzer.js:17-30 | the empty text gives empty lists, normal appetite, the clock bucket, no hint and confidence 0 |
| TextAnalyzer.MoodKeywordsOfTable | src/utils/textAnalyzer.js:157-161 | the scanned mood categories come from the table and so have no empty keyword |
| TextAnalyzer.BlankNormalizedIsEmpty | src/utils/textAnalyzer.js:35-41 | a normalised text with no letters is empty |
| Profile.TimeOfDayForHour | src/utils/textAnalyzer.js:146-150 | morning iff 6 ≤ h < 11, lunch iff 11 ≤ h < 15, dinner iff 15 ≤ h < 22, other otherwise |
| Profile.GenerateSummary | src/utils/textAnalyzer.js:235-271 | the summary built step by step equals the specified concatenation |
| Profile.SummaryMentions | src/utils/textAnalyzer.js:235-271 | the summary opens with the time phrase when the time is not 'other' and has none when it is (then it is the appetite phrase, the keyword part, the genre part and the closing), ends with the closing, mentions the top keyword and the top genre label with 系, and is the bare closing for an empty night profile |
| Dictionary.Lookup | netlify/functions/analyze.js:137 | `table[name]` is an entry of the table carrying that name |
| Dictionary.LookupFirst | netlify/functions/analyze.js:137 | the lookup returns the first entry of that name |
| Dictionary.GroupKeywordsFound | src/utils/textAnalyzer.js:70 | `(groups[name] \|\| [])` is non-empty only for a name some group carries, and then it is that group's list |
| Dictionary.MoodKeywordsHaveNamedCategories | netlify/functions/analyze.js:2-54 | the shipped MOOD_KEYWORDS holds every category the analysers look up |
| InlineAnalyzer.Analyze | netlify/functions/analyze.js:86-99 | the serverless `analyze` gives the inline profile, always with no avoid keywords and an empty hint |
| InlineAnalyzer.InlineAgreesWithCanonical | netlify/functions/analyze.js:86-212 | on the same tables the two analysers agree on genres, appetite, time, mood and confidence; the inline desired list contains the canonical one, and equals it when nothing is negated |
| InlineAnalyzer.SameTestSameHits | netlify/functions/analyze.js:105-121 | without negation the negation-blind and negation-aware tests collect the same entries |
| InlineAnalyzer.SameTestSameCategoryHits | netlify/functions/analyze.js:108-117 | the same, for one category |
| InlineAnalyzer.DocumentedRequest | netlify/functions/analyze.js:331-351 | the documented request 「朝は軽め、今は温かいものがほしい」 reads as a light appetite in the morning |
| InlineAnalyzer.InlineAppetiteAndTime | netlify/functions/analyze.js:86-99 | the inline appetite and time of day are those of the normalised text on MOOD_KEYWORDS |
| InlineAnalyzer.DocumentedRequestAppetite | netlify/functions/analyze.js:146-161 | the normalised sample reads as a light appetite |
| InlineAnalyzer.DocumentedRequestTime | netlify/functions/analyze.js:163-180 | the normalised sample reads as morning at any hour |
| InlineAnalyzer.LightWhenFirstEntriesSay | netlify/functions/analyze.js:146-161 | more light hits than heavy hits give a light appetite |
| InlineAnalyzer.MorningWhenFirstEntrySays | netlify/functions/analyze.js:163-173 | a morning keyword hit gives morning |
| InlineAnalyzer.DocumentedRequestPieces | netlify/functions/analyze.js:101-103 | normalising the sample drops only its '、': the two clauses joined |
| InlineAnalyzer.DocumentedRequestLight | netlify/functions/analyze.js:21-28 | the sample hits more light than heavy keywords |
| InlineAnalyzer.DocumentedRequestNotHeavy | netlify/functions/analyze.js:25-28 | the sample hits no heavy keyword |
| InlineAnalyzer.DocumentedRequestMorning | netlify/functions/analyze.js:30-33 | the sample hits a morning keyword |
| ReviewAnalyzer.CalculateScore | src/utils/reviewAnalyzer.js:122-157 | the shared scorer returns the table's matches and the sum of count × weight |
| ReviewAnalyzer.ScoreCategory | src/utils/reviewAnalyzer.js:126-134 | one category's pass returns its matches and their total |
| ReviewAnalyzer.CalculatePositiveScore | src/utils/reviewAnalyzer.js:122-137 | the positive score uses the positive table and is never negative |
| ReviewAnalyzer.CalculateNegativeScore | src/utils/reviewAnalyzer.js:142-157 | the negative score uses the negative table and is never positive |
| ReviewAnalyzer.MatchTotalAppend | src/utils/reviewAnalyzer.js:130 | one more match adds its count × weight |
| ReviewAnalyzer.MatchTotalConcat | src/utils/reviewAnalyzer.js:126-134 | the total of two match lists is the sum of their totals |
| ReviewAnalyzer.ScoreMatchesMembership | src/utils/reviewAnalyzer.js:122-137 | a match is recorded iff a table keyword occurs, with its `split` count and its category's weight |
| ReviewAnalyzer.CategoryMatchesMembership | src/utils/reviewAnalyzer.js:127-133 | one category's matches are exactly its occurring keywords |
| ReviewAnalyzer.MatchesCarryWeights | src/utils/reviewAnalyzer.js:8-54 | every recorded match has a positive count and a weight of its table's sign |
| ReviewAnalyzer.MatchTotalSign | src/utils/reviewAnalyzer.js:126-134 | matches of one sign sum to that sign, and to zero iff there are none |
| ReviewAnalyzer.ScoreSign | src/utils/reviewAnalyzer.js:122-157 | positive scores are ≥ 0 and negative scores ≤ 0, and a score is zero iff nothing matched |
| ReviewAnalyzer.NoMatchesIffNoKeyword | src/utils/reviewAnalyzer.js:122-157 | there are no matches iff no table keyword occurs |
| ReviewAnalyzer.SomeDesired | src/utils/reviewAnalyzer.js:170-172 | `isDesired` holds iff some desired entry shares the category or the keyword |
| ReviewAnalyzer.FindTextureMatches | src/utils/reviewAnalyzer.js:162-185 | the result is one match per included texture keyword, group by group |
| ReviewAnalyzer.FindGroupTextures | src/utils/reviewAnalyzer.js:166-182 | one group's pass gives that group's matches |
| ReviewAnalyzer.TextureMembership | src/utils/reviewAnalyzer.js:162-185 | a texture match is made iff the keyword is included, weighted 1.5 when desired and 0.5 otherwise |
| ReviewAnalyzer.GroupTextureMembership | src/utils/reviewAnalyzer.js:166-182 | the same, for one group |
| ReviewAnalyzer.FindMoodMatches | src/utils/reviewAnalyzer.js:190-215 | the result is one match per included phrase of each of the user's moods |
| ReviewAnalyzer.MoodMembership | src/utils/reviewAnalyzer.js:190-215 | a mood match is made iff a phrase of one of the user's moods is included |
| ReviewAnalyzer.MoodPhraseMembership | src/utils/reviewAnalyzer.js:200-210 | one mood's matches are exactly its included phrases |
| ReviewAnalyzer.MoodMatchesKnownMoods | src/utils/reviewAnalyzer.js:190-215 | only comfort, energy and celebration can match, with weight 1.3, and only for a mood the user has |
| ReviewAnalyzer.CalculateKeywordDensity | src/utils/reviewAnalyzer.js:220-234 | the loop computes occurrences per 100 characters |
| ReviewAnalyzer.AllKeywordsMembership | src/utils/reviewAnalyzer.js:221-224 | the flattened keyword list holds exactly the table's keywords |
| ReviewAnalyzer.KeywordCountMeaning | src/utils/reviewAnalyzer.js:226-230 | the summed `split` counts are ≥ 0, and 0 iff no keyword occurs |
| ReviewAnalyzer.DensityKeywordsNonEmpty | src/utils/reviewAnalyzer.js:8-54 | no positive or negative keyword is empty |
| ReviewAnalyzer.DensityMeaning | src/utils/reviewAnalyzer.js:220-234 | density is ≥ 0, and 0 iff the text is empty or holds no keyword |
| ReviewAnalyzer.CalculateTotalScore | src/utils/reviewAnalyzer.js:239-271 | the loop computes the length-weighted mean of review scores (0 with no weight) |
| ReviewAnalyzer.WeightSumMeaning | src/utils/reviewAnalyzer.js:263 | weights are ≥ 0, and all vanish iff every review is empty |
| ReviewAnalyzer.WeightedSumBounds | src/utils/reviewAnalyzer.js:243-266 | bounds on each review score bound the weighted sum |
| ReviewAnalyzer.TotalIsWeightedMean | src/utils/reviewAnalyzer.js:239-271 | the total lies within any bounds every review score keeps, and is 0 when all reviews are empty |
| ReviewAnalyzer.TextureBonusCountsDesired | src/utils/reviewAnalyzer.js:252-254 | the texture bonus is 1.5 per desired texture match |
| ReviewAnalyzer.UnratedReviewIsNeutral | src/utils/reviewAnalyzer.js:244-248 | a review with no rating and no match scores 3 |
| ReviewAnalyzer.ReasonFlags | src/utils/reviewAnalyzer.js:276-319 | there is one flag per possible reason |
| ReviewAnalyzer.GenerateReason | src/utils/reviewAnalyzer.js:276-319 | the method's reason equals the specified one |
| ReviewAnalyzer.SelectedIsSetPositions | src/utils/reviewAnalyzer.js:316-318 | the selected phrases are the phrases at the set positions, in order |
| ReviewAnalyzer.SetPositionsMeaning | src/utils/reviewAnalyzer.js:316-318 | set positions increase, and a position is listed iff its flag is set |
| ReviewAnalyzer.SelectedMeaning | src/utils/reviewAnalyzer.js:316-318 | with distinct phrases, a phrase is selected iff its flag is set, and each selected one shows in the join |
| ReviewAnalyzer.ReasonPhrasesDistinct | src/utils/reviewAnalyzer.js:280-312 | the five reasons are different texts |
| ReviewAnalyzer.ReasonMeaning | src/utils/reviewAnalyzer.js:276-319 | with no reason applying the default is given; each applying reason is named; a reason is selected iff it applies |
| ReviewAnalyzer.SumBounds | src/utils/reviewAnalyzer.js:325-328 | bounds on values bound their sum |
| ReviewAnalyzer.MeanBounds | src/utils/reviewAnalyzer.js:325-328 | a mean lies between bounds all values keep |
| ReviewAnalyzer.Ratings | src/utils/reviewAnalyzer.js:327 | one rating per review, in order (`r.rating \|\| 0`) |
| ReviewAnalyzer.AverageRatingBounds | src/utils/reviewAnalyzer.js:324-329 | the average lies within bounds every rating keeps, and is 0 for no reviews |
| ReviewAnalyzer.Lengths | src/utils/reviewAnalyzer.js:381-382 | one length per analysis |
| ReviewAnalyzer.Densities | src/utils/reviewAnalyzer.js:386-387 | one density per analysis |
| ReviewAnalyzer.ConfidenceBounds | src/utils/reviewAnalyzer.js:374-391 | confidence ≤ 1, ≥ 0 when densities are, and 1 iff ≥ 5 reviews with mean length ≥ 50 and mean density ≥ 5 |
| ReviewAnalyzer.Factor | src/utils/reviewAnalyzer.js:377-388 | each `Math.min(x / d, 1.0)` factor is ≤ 1, ≥ 0 for x ≥ 0, and 1 iff x ≥ d |
| ReviewAnalyzer.ThirdOfSum | src/utils/reviewAnalyzer.js:390 | the mean of three factors ≤ 1 is ≤ 1, and 1 iff all are |
| ReviewAnalyzer.SumNonNegative | src/utils/reviewAnalyzer.js:381-387 | non-negative values have a non-negative sum |
| ReviewAnalyzer.MeanNonNegative | src/utils/reviewAnalyzer.js:381-387 | non-negative values have a non-negative mean |
| ReviewAnalyzer.BumpAll | src/utils/reviewAnalyzer.js:334-369 | the loop bumps the tally pair by pair |
| ReviewAnalyzer.GetKeywordMatches | src/utils/reviewAnalyzer.js:334-369 | the four tallies equal the specified ones |
| ReviewAnalyzer.AddPairsConcat | src/utils/reviewAnalyzer.js:334-369 | bumping by two lists is bumping by one, then the other |
| ReviewAnalyzer.AddPairsMeaning | src/utils/reviewAnalyzer.js:340-366 | a keyword is tallied iff it was there or some pair names it, with its old count plus its pairs' amounts |
| ReviewAnalyzer.AmountForAbsent | src/utils/reviewAnalyzer.js:340-366 | a keyword no pair names gets nothing |
| ReviewAnalyzer.TallyMeaning | src/utils/reviewAnalyzer.js:334-369 | a fresh tally holds exactly the named keywords, each with its total amount |
| ReviewAnalyzer.AnalyzeSingleReview | src/utils/reviewAnalyzer.js:104-117 | one review's analysis equals the specified record |
| ReviewAnalyzer.SingleReviewMeaning | src/utils/reviewAnalyzer.js:104-117 | the analysis keeps the rating (0 if missing) and the text's length, positive ≥ 0, negative ≤ 0, density ≥ 0 |
| ReviewAnalyzer.AnalysesOf | src/utils/reviewAnalyzer.js:80-82 | one analysis per review, in order |
| ReviewAnalyzer.AnalyzeReviews | src/utils/reviewAnalyzer.js:71-99 | the report equals the specified one |
| ReviewAnalyzer.AnalyzeEach | src/utils/reviewAnalyzer.js:80-82 | the `map` gives one analysis per review |
| ReviewAnalyzer.ReportMeaning | src/utils/reviewAnalyzer.js:71-99 | no reviews: score 0, the not-enough-reviews reason, no details; otherwise score in [0, 10], one analysis per review, confidence in [0, 1], and the weighted mean itself as score whenever it lies in [0, 10] |
| BrowserApp.FallbackAppetite | public/app.js:148-149 | light iff '軽め' is included; heavy iff not that and 'がっつり' is |
| BrowserApp.FallbackAnalysis | public/app.js:118-155 | the method's profile equals the specified fallback profile |
| BrowserApp.FallbackGroup | public/app.js:133-141 | one category's words add their desired entries or genre suggestions |
| BrowserApp.GetCurrentTimeOfDay | public/app.js:157-163 | the clock bucket of the hour |
| BrowserApp.GroupFoundMeaning | public/app.js:133-141 | within one category, an entry is added iff the word is included and the category is not a genre one |
| BrowserApp.FallbackFoundMeaning | public/app.js:132-142 | the fallback desires exactly the included words of non-genre categories; it adds one 0.8 genre entry per included genre word |
| BrowserApp.FallbackProfile | public/app.js:118-155 | the whole fallback profile: desired and genres in order as FallbackDesired and FallbackGenres give them, nothing avoided, no mood or hint, confidence 0.6, appetite from 軽め/がっつり, time from the clock |
| BrowserApp.IncludedWords | public/app.js:133-134 | the words of a category the text includes, in the category's order, as many as WordsIncluded counts |
| BrowserApp.GroupFoundInOrder | public/app.js:133-141 | one category's pass appends, in word order, one weight-1 entry per included word of a non-genre category, or one (category, 0.8) suggestion per included word of a genre category |
| BrowserApp.FallbackFoundInOrder | public/app.js:132-142 | the fallback's desired list and genre list are the categories' entries and suggestions, category after category in table order, each suggestion carrying the category of the word that made it |
| BrowserApp.MatchingMeaning | public/app.js:219-230 | a listing survives the filter iff it is listed and some suggestion's label occurs in its genre; the order is kept |
| BrowserApp.FilterByGenre | public/app.js:219-230 | the listings some suggested genre label matches, in order, or all with no suggestion (FilterByGenreMeaning) |
| BrowserApp.FilterByGenreMeaning | public/app.js:219-230 | with no suggestions every listing stays; otherwise exactly the matching ones, in order |
| BrowserApp.SubsequenceGrows | public/app.js:219-230 | appending to the source keeps the filtered list a subsequence |
| BrowserApp.SubsequenceDropLast | public/app.js:219-230 | dropping the last kept listing keeps a subsequence |
| BrowserApp.ScoresOf | public/app.js:235-298 | one scored record per listing, in order |
| BrowserApp.AnalyzeRestaurants | public/app.js:233-299 | every listing scored, then stably sorted best first |
| BrowserApp.ScoreListing | public/app.js:235-298 | the map callback's result equals the specified scored record |
| BrowserApp.MatchDesired | public/app.js:242-248 | one desired keyword's pass over the reviews |
| BrowserApp.MatchMood | public/app.js:260-267 | one mood's pass over reviews and words |
| BrowserApp.CountPraise | public/app.js:273-281 | the praise count is the number of (review, praise word) hits |
| BrowserApp.Copies | public/app.js:263-264 | n copies of one reason |
| BrowserApp.CopiesAdd | public/app.js:263-264 | copies concatenate |
| BrowserApp.DesiredRunCounts | public/app.js:243-247 | a keyword adds 0.5 × weight and one reason per review including it |
| BrowserApp.DesiredPassCounts | public/app.js:241-249 | the desired pass adds the summed gains and reasons |
| BrowserApp.MoodTextRunCounts | public/app.js:262-266 | one review adds 0.3 per mood word it includes |
| BrowserApp.MoodRunCounts | public/app.js:260-267 | one mood adds 0.3 per (review, word) hit |
| BrowserApp.MoodPassCounts | public/app.js:252-269 | the mood pass adds 0.3 per hit over all moods, none for an unknown mood |
| BrowserApp.ScoreFormula | public/app.js:233-298 | score = clamp(rating‖3 + 0.5·Σweights + 0.3·mood hits + 0.5 if ≥ 2 praise hits, 0, 10), confidence 0.7, and the reason list in push order |
| BrowserApp.MatchReasonMeaning | public/app.js:289-296 | the default reason when none, else the first one or two joined by '、' |
| BrowserApp.RankedMeaning | public/app.js:233-299 | the ranking is a permutation, sorted by score, stable, with every score in [0, 10] and confidence 0.7 |
| BrowserApp.GenerateAnalysisSummary | public/app.js:353-387 | the page's summary is the shared one with its longer closing, opening with the time phrase unless the time is 'other', when no time phrase is written at all |
| Overpass.ExpandCuisines | lib/overpass.ts:214 | the mapped tags of the requested cuisines, none without a request (ExpandAllMeaning) |
| Overpass.ExpandAllMeaning | lib/overpass.ts:214 | a tag is in the expansion iff it is mapped from some requested cuisine; unknown cuisines add nothing |
| Overpass.LowerAll | lib/overpass.ts:72-74 | each type lower-cased, in order |
| Overpass.CuisineFilter | lib/overpass.ts:70-76 | the cuisine clause of the query (CuisineFilterMeaning) |
| Overpass.CuisineFilterMeaning | lib/overpass.ts:70-76 | the filter is empty iff there are no types; otherwise it is `[cuisine~"…",i]` holding each lower-cased type |
| Overpass.PlaceName | lib/overpass.ts:144 | name, else name:ja, else 'unknown'; never empty |
| Overpass.Coordinate | lib/overpass.ts:141-142 | the element's own non-zero coordinate, else the centre's, else 0 |
| Overpass.ParsePlace | lib/overpass.ts:140-157 | id is type_id, a non-empty name, empty tags and 'unknown' for an untagged element, the element's distance, no score yet |
| Overpass.DistancePenalty | lib/overpass.ts:164-166 | the penalty lies in [0, 50] and is 0 at distance 0 |
| Overpass.AnyIncluded | lib/overpass.ts:171-174 | some mapped tag occurs in the lower-cased text |
| Overpass.CuisineMatch | lib/overpass.ts:170-175 | some requested cuisine maps to a tag the place's cuisine includes |
| Overpass.CuisineBonus | lib/overpass.ts:169-177 | +30 iff types are requested, the place has a cuisine and they match; else 0 |
| Overpass.AtmosphereBonus | lib/overpass.ts:180-191 | lies in [0, 65], and is 0 without an atmosphere |
| Overpass.PriceMatch | lib/overpass.ts:202 | some expected token occurs in the price tag |
| Overpass.PriceBonus | lib/overpass.ts:194-205 | +15 iff a range is asked, the place has a price tag and a token of that range occurs in it; else 0 |
| Overpass.ScoreOf | lib/overpass.ts:160-208 | the score lies in [50, 100], and is 100 at distance 0 |
| Overpass.ScoreRestaurant | lib/overpass.ts:160-208 | the step-by-step score equals the specified one |
| Overpass.PenaltyOnly | lib/overpass.ts:164-166 | with no bonus the score is 100 − min(distance / 50, 50) |
| Overpass.CheapMatchesAnyDollarTag | lib/overpass.ts:196 | under '安い', any price tag containing '$', '$$$$' included, earns +15 |
| Overpass.Scored | lib/overpass.ts:233-235 | each place gets its score |
| Overpass.Top20 | lib/overpass.ts:244 | at most 20, fewer only when fewer were given |
| Overpass.SearchResultOf | lib/overpass.ts:224-244 | candidates ranked and cut to 20: exactly min(20, candidates), the best ones, ties in the order sorted; nothing without elements (SearchResultMeaning, SearchResultKeepsBest, SearchResultKeepsTieOrder) |
| Overpass.SearchResults | lib/overpass.ts:221-244 | the pipeline after the answer equals the specified result |
| Overpass.CollectCandidates | lib/overpass.ts:226-229 | the filter/map/filter chain gives the named, parsed places within reach |
| Overpass.ScoreAll | lib/overpass.ts:233-235 | `forEach` sets each place's score |
| Overpass.CandidatesMeaning | lib/overpass.ts:226-229 | a place is a candidate iff it is parsed from a named element with distance in (0, radius] |
| Overpass.PreSortProduced | lib/overpass.ts:226-235 | every place before sorting comes from a named element within reach |
| Overpass.SearchResultMeaning | lib/overpass.ts:211-249 | at most 20, none without elements, each from a named element in reach, sorted by score with a mood and by distance without; with elements, exactly min(20, candidates) places, a sub-multiset of the sorted places, all of them when ≤ 20 qualify, none ranked below a place cut off |
| Overpass.SearchResultKeepsBest | lib/overpass.ts:236-244 | the places returned are min(20, n) of the n places sorted, a sub-multiset of them, equal to them when ≤ 20 qualify, and each ranks at least as high as every place cut off |
| Overpass.SearchResultKeepsTieOrder | lib/overpass.ts:236-244 | for each key value, the places kept with it are the first ones the sort received with it, in that order; all of them when ≤ 20 qualify |
| Overpass.TopKeepsBest | lib/overpass.ts:244 | `slice(0, 20)` of a sorted list keeps min(20, n) of its n places, a sub-multiset, all of it when ≤ 20, and nothing it drops ranks above anything it keeps |
| Overpass.TopProduced | lib/overpass.ts:238-244 | the first 20 of a sorted list of produced places are produced and sorted |
| Overpass.TopOfSorted | lib/overpass.ts:244 | the first 20 of a sorted list are sorted and are its prefix |
| Overpass.ProducedKeepsName | lib/overpass.ts:144-148 | a named element's place keeps its name and type_id id |
| PlacesSearch.GenerateSearchKeywords | pages/api/search-restaurants.ts:92-116 | the pushes and the cut give the specified keyword list |
| PlacesSearch.SearchKeywordsMeaning | pages/api/search-restaurants.ts:92-116 | at most 5; genres first, then mood words in order, then atmosphere, then temperature when they fit; every keyword from one of these; all of them when ≤ 5 |
| PlacesSearch.ExtractGenres | pages/api/search-restaurants.ts:159-169 | the loop's genres equal the specified ones |
| PlacesSearch.GenresFoundMeaning | pages/api/search-restaurants.ts:162-166 | a genre is found iff some entry of that name shares a Google type with the place; at most one per entry |
| PlacesSearch.GenresMeaning | pages/api/search-restaurants.ts:159-169 | never empty: the found genres, or ['レストラン'] alone when none |
| PlacesSearch.PriceLevel | pages/api/search-restaurants.ts:174 | a missing or 0 price level reads as 2 |
| PlacesSearch.AtmosphereOf | pages/api/search-restaurants.ts:172-182 | 高級 for level ≥ 4; カジュアル iff level 1 (for non-negative levels); 評判の良い/人気の/アットホーム by rating for levels 2-3; always one of the five labels |
| PlacesSearch.RatingText | pages/api/search-restaurants.ts:214 | `${rating}`: whole ratings print without decimals, others with one |
| PlacesSearch.Reasons | pages/api/search-restaurants.ts:185-216 | one reason per applicable clause, all non-empty, the mood reason first, the temperature and genre reasons present when they apply, the rating reason last for ratings ≥ 4 |
| PlacesSearch.MatchReasonOf | pages/api/search-restaurants.ts:218 | never empty: the default when no reason applies, else the reasons joined by '、' |
| PlacesSearch.PushReasons | pages/api/search-restaurants.ts:190-216 | the mood, temperature, genre and rating pushes build exactly the specified reason list |
| PlacesSearch.GenerateMatchReason | pages/api/search-restaurants.ts:185-219 | the pushes and the join give the specified reason |
| PlacesSearch.JoinNonEmpty | pages/api/search-restaurants.ts:218 | a join whose first piece is non-empty is non-empty |
| PlacesSearch.ReasonShown | pages/api/search-restaurants.ts:185-219 | every applicable reason can be read in the joined text |
| PlacesSearch.MapPlace | pages/api/search-restaurants.ts:119-156 | every field: id, name, distance, rating (0 if missing), price level (2 if missing), genres (never empty), atmosphere, description ('' if missing), a non-empty match reason |
| PlacesSearch.GenreBonus | pages/api/search-restaurants.ts:229-234 | +20 iff genres are asked and one is the restaurant's; else 0 |
| PlacesSearch.MoodBonus | pages/api/search-restaurants.ts:237-244 | +15 iff a mood word occurs in the name or description; 0 without a mood |
| PlacesSearch.DistanceBonus | pages/api/search-restaurants.ts:247-249 | in [0, 10]; 0 at distance 0 or ≥ 2000; 10 − d/200 in between |
| PlacesSearch.PriceBonus | pages/api/search-restaurants.ts:252-256 | +10 iff a celebration at level ≥ 3; +5 iff not that, a light appetite and level ≤ 2; else 0 |
| PlacesSearch.MatchScoreOf | pages/api/search-restaurants.ts:222-259 | the score lies between rating × 10 and rating × 10 + 55 |
| PlacesSearch.CalculateMatchScore | pages/api/search-restaurants.ts:222-259 | the accumulated score equals the specified one |
| PlacesSearch.MatchScoreParts | pages/api/search-restaurants.ts:222-259 | without asked genres at most rating × 10 + 35; a celebration at a pricey place gains 10; a light meal at a modest place gains 5 |
| PlacesSearch.SearchKeywordsOf | pages/api/search-restaurants.ts:92-116 | genres, mood words, atmosphere and temperature cut to five (SearchKeywordsMeaning) |
| PlacesSearch.Ranked | pages/api/search-restaurants.ts:70-77 | the restaurants by match score, best first, cut to ten: the best ten, ties in input order (RankedMeaning, RankedKeepsBest, RankedKeepsTieOrder) |
| PlacesSearch.RankedMeaning | pages/api/search-restaurants.ts:70-77 | exactly min(10, n) of the n restaurants, drawn from the input, all of them when ≤ 10, best match score first |
| PlacesSearch.RankedKeepsBest | pages/api/search-restaurants.ts:70-77 | no restaurant kept has a lower match score than one cut off |
| PlacesSearch.RankedKeepsTieOrder | pages/api/search-restaurants.ts:70-77 | for each match score, the restaurants kept with that score are the first ones of the input with it, in input order; all of them when ≤ 10 |
| Qwen3Cleanup.FindTag | lib/qwen3.ts:89 | the first position at or after `from` where the tag matches case-insensitively, or -1 when none does |
| Qwen3Cleanup.StripThink | lib/qwen3.ts:89 | removing think blocks never lengthens the reply |
| Qwen3Cleanup.StripThinkNoop | lib/qwen3.ts:89 | a reply without an opening tag, or without a closing one, is unchanged |
| Qwen3Cleanup.TagInTail | lib/qwen3.ts:89 | a tag in the tail is a tag in the whole |
| Qwen3Cleanup.SkipSpace | lib/qwen3.ts:95 | `\s*` consumes exactly the whitespace run |
| Qwen3Cleanup.CloseFrom | lib/qwen3.ts:95 | the lazy group ends at the least position where `\s*` and the closing fence follow |
| Qwen3Cleanup.Fence | lib/qwen3.ts:95 | the group of the first fence match (FenceMeaning) |
| Qwen3Cleanup.FenceMeaning | lib/qwen3.ts:95-98 | a found group is the leftmost match of the fence pattern; none is found iff the pattern does not match |
| Qwen3Cleanup.FirstOf | lib/qwen3.ts:101 | `indexOf('{')`: the first such index, or -1 when none |
| Qwen3Cleanup.LastOf | lib/qwen3.ts:102 | `lastIndexOf('}')`: the last such index, or -1 when none |
| Qwen3Cleanup.BraceCut | lib/qwen3.ts:101-106 | with a '{' before a '}' the result runs from the first '{' to the last '}'; otherwise the text is unchanged |
| Qwen3Cleanup.BraceCutKeepsObject | lib/qwen3.ts:101-106 | a text already from '{' to '}' is kept whole |
| Qwen3Cleanup.Cleaned | lib/qwen3.ts:84-106 | think blocks removed, trimmed, unfenced, cut to the braces (PlainReplyOnlyTrimmed, ObjectReplyKept) |
| Qwen3Cleanup.CleanResponse | lib/qwen3.ts:84-106 | the successive reassignments of `cleanResponse` give the specified cleaned text |
| Qwen3Cleanup.Unfence | lib/qwen3.ts:95-98 | the trimmed fenced block replaces the text, which is unchanged without a fence |
| Qwen3Cleanup.CutObject | lib/qwen3.ts:101-106 | the substring from the first '{' to the last '}', or the text unchanged |
| Qwen3Cleanup.SliceKeepsPlain | lib/qwen3.ts:92-106 | a piece of text without a fence or brace pair has none |
| Qwen3Cleanup.TrimKeepsPlain | lib/qwen3.ts:92 | trimming creates no fence and no brace pair |
| Qwen3Cleanup.ContainsInSlice | lib/qwen3.ts:92-95 | what a slice contains, the text contains |
| Qwen3Cleanup.PlainReplyOnlyTrimmed | lib/qwen3.ts:84-106 | a reply without think tag, fence or brace pair is only trimmed |
| Qwen3Cleanup.ObjectReplyKept | lib/qwen3.ts:84-106 | a reply that is one object once stripped and trimmed, with no fence, is passed on whole |
| Qwen3Cleanup.AnalysisFrom | lib/qwen3.ts:109-128 | a parse failure or a missing `cuisine_types` array gives the fixed fallback; otherwise the parsed fields |
| Qwen3Cleanup.AnalyzeReply | lib/qwen3.ts:84-128 | the parsed cleaned reply's cuisine types come back, or the fallback with 和食/洋食/アジア料理 |
| Qwen3Cleanup.HistoryLine | lib/qwen3.ts:135 | 'ユーザー: ' for user messages, 'AI: ' for any other role, then the content |
| Qwen3Cleanup.HistoryLines | lib/qwen3.ts:134-135 | one line per message, in order |
| Qwen3Cleanup.JoinAppend | lib/qwen3.ts:136 | joining one more piece adds the separator and the piece |
| Qwen3Cleanup.HistoryText | lib/qwen3.ts:134-136 | the history lines joined by newlines (HistoryTextMeaning) |
| Qwen3Cleanup.HistoryTextMeaning | lib/qwen3.ts:134-136 | one message gives its line; each further message adds a newline and its line; empty iff no messages |
| Qwen3Cleanup.MoodPrompt | lib/qwen3.ts:78 | the input at the first "{user_input}" of the template (ReplaceFirstMeaning) |
| Qwen3Cleanup.ReplaceFirst | lib/qwen3.ts:78 | `String.prototype.replace` with a string pattern (ReplaceFirstMeaning) |
| Qwen3Cleanup.Expand | lib/qwen3.ts:78 | the replacement text with its '$' patterns expanded (ExpandLiteral) |
| Qwen3Cleanup.ExpandLiteral | lib/qwen3.ts:78 | a replacement without '$' is inserted as it is |
| Qwen3Cleanup.ReplaceFirstMeaning | lib/qwen3.ts:78 | with no occurrence nothing changes; otherwise only the first occurrence is replaced |
| Qwen3Cleanup.IndexAfterPrefix | lib/qwen3.ts:145-147 | the first occurrence lies where the pattern begins when the text before lacks its first character |
| Qwen3Cleanup.ReplaceAt | lib/qwen3.ts:145-147 | a placeholder not preceded by '{' is replaced in place |
| Qwen3Cleanup.ChatTemplateBraceFree | lib/qwen3.ts:38-45 | CHAT_PROMPT has no '{' before its placeholders |
| Qwen3Cleanup.ChatPrompt | lib/qwen3.ts:38-45 | the intended prompt: head, history, middle, message, tail |
| Qwen3Cleanup.HistoryFilled | lib/qwen3.ts:146 | the history replaces the history placeholder and nothing else |
| Qwen3Cleanup.ChatPromptAgrees | lib/qwen3.ts:145-147 | with no '$' in either text and no '{' in the history, the chained replaces build the intended prompt |
| Qwen3Cleanup.MessageFilledEarly | lib/qwen3.ts:145-147 | a history reading "{user_message}" receives the message, and the template's placeholder stays |
| Qwen3Cleanup.ChatPromptAsWritten | lib/qwen3.ts:145-147 | the two chained first-occurrence replaces, as written (ChatPromptAgrees, MessageFilledEarly, ChatPromptAsWrittenMisplaces) |
| Qwen3Cleanup.ChatPromptAsWrittenMisplaces | lib/qwen3.ts:145-147 | for such a history the built prompt differs from the intended one at the history's placeholder |
| ResultHelpers.Toggled | components/RestaurantResults.tsx:16-24 | the toggled id flips membership and every other id keeps its own |
| ResultHelpers.ToggleFavorite | components/RestaurantResults.tsx:16-24 | copy, then delete or add, gives the toggled set |
| ResultHelpers.ToggleTwice | components/RestaurantResults.tsx:16-24 | toggling the same id twice restores the set |
| ResultHelpers.ToggleCommutes | components/RestaurantResults.tsx:16-24 | toggles of two ids commute |
| ResultHelpers.PriceDisplay | components/RestaurantResults.tsx:26-28 | four glyphs: p half-width yen signs, then full-width ones |
| ResultHelpers.PriceDisplayDistinguishes | components/RestaurantResults.tsx:26-28 | different levels show different strings |
| ResultHelpers.Round | components/RestaurantResults.tsx:33 | `Math.round`: the result is within half a unit, halves rounding up |
| ResultHelpers.IntToString | components/RestaurantResults.tsx:33 | a non-empty numeral ending in a digit |
| ResultHelpers.Fixed1 | components/RestaurantResults.tsx:35 | `toFixed(1)`: digits, '.', one digit |
| ResultHelpers.FormatDistance | components/RestaurantResults.tsx:30-36 | '' iff missing or 0; ends in a digit then 'm' below 1000; ends in '.d' then 'km' from 1000 |
| ResultHelpers.MetresShown | components/RestaurantResults.tsx:32-33 | whole metres below 1000 show as their digits and 'm' |
| ResultHelpers.KilometresShown | components/RestaurantResults.tsx:35 | whole hundreds of metres from 1000 on show exactly as km with one decimal: the whole kilometres, '.', the tenth digit, then "km" |
| ResultHelpers.TenthsText | components/RestaurantResults.tsx:35 | a count of tenths written with one decimal: the whole part, '.', one digit |
| StableSort.SortDescSorted | src/utils/textAnalyzer.js:61 | the comparator sort orders by key, largest first |
| StableSort.SortDescPermutation | src/utils/textAnalyzer.js:61 | the sort keeps exactly the elements |
| StableSort.SortDescStable | src/utils/textAnalyzer.js:61 | elements sharing a key keep their order |
| StableSort.InsertDescPermutation | src/utils/textAnalyzer.js:61 | one insertion adds exactly the element |
| StableSort.InsertDescSorted | src/utils/textAnalyzer.js:61 | one insertion keeps the order |
| StableSort.InsertDescWithKey | src/utils/textAnalyzer.js:61 | one insertion leaves other keys' elements in order |
| StableSort.TakeSorted | pages/api/search-restaurants.ts:75-76 | a prefix of a sorted list is sorted |
| StableSort.TakeKeepsBest | pages/api/search-restaurants.ts:75-76 | a prefix of a sorted list holds nothing ranked below an element cut off |
| StableSort.TakeWithKey | pages/api/search-restaurants.ts:75-76 | a prefix keeps, for each key, the first elements with that key in their order |
| Strings.Trim | lib/qwen3.ts:92 | `trim()` never lengthens and leaves no whitespace at either end |
| Strings.TrimMeaning | lib/qwen3.ts:92 | the text is whitespace, then the trimmed text, then whitespace |
| Strings.IndexOf | src/utils/textAnalyzer.js:200 | `indexOf`: the first occurrence, or -1 iff none |
| Strings.LastIndexOf | src/utils/textAnalyzer.js:203 | the last occurrence, or -1 iff none |
| Strings.JoinContainsPiece | src/utils/textAnalyzer.js:205 | every piece can be read in the join |
| Strings.Lower | src/utils/textAnalyzer.js:37 | `toLowerCase` keeps length and leaves no upper-case letter |
| Strings.NatToString | pages/api/search-restaurants.ts:214 | decimal digits only |
| Strings.Repeat | components/RestaurantResults.tsx:27 | `repeat(n)`: n copies of the glyph |
| Common.Min | src/utils/reviewAnalyzer.js:264 | `Math.min`: no larger than either argument and equal to one of them |
| Common.Max | src/utils/reviewAnalyzer.js:90 | `Math.max`: no smaller than either argument and equal to one of them |
| Strings.TrimStart | src/utils/textAnalyzer.js:40 | drops exactly the leading whitespace: a suffix starting with a non-space, preceded only by whitespace |
| Strings.TrimEnd | src/utils/textAnalyzer.js:40 | drops exactly the trailing whitespace: a prefix ending with a non-space, followed only by whitespace |
| Strings.SplitWs | src/utils/textAnalyzer.js:204 | `split(/\s+/)` always yields at least one piece |
| Strings.SplitWsPiecesContained | src/utils/textAnalyzer.js:204 | whatever a piece of the split includes, the text includes |
| Strings.LastN | src/utils/textAnalyzer.js:205 | `slice(-3)`: the last three pieces, or all of them when there are fewer |
| Strings.JoinContainsOnlyPieces | src/utils/textAnalyzer.js:205 | a word without the separator found in the join lies inside one piece |
| Strings.OccurrencesPositive | src/utils/reviewAnalyzer.js:128 | `split(keyword).length - 1` is positive iff the text includes the keyword |
| TextNormalize.NegationWordsHaveNoSpace | src/utils/textAnalyzer.js:9 | no negation word contains a space |
| TextAnalyzer.MoodCategoryHitsMembership | src/utils/textAnalyzer.js:161-170 | one mood category's signals are exactly its included keywords, with the category's weight |
| TextAnalyzer.TableHitsZero | src/utils/textAnalyzer.js:224-228 | the matched count is 0 iff no mood-table keyword is included |
| TextAnalyzer.EmptyTextNoDesired | src/utils/textAnalyzer.js:46-62 | the empty text desires nothing |
| TextAnalyzer.EmptyTextNoAvoid | src/utils/textAnalyzer.js:67-82 | the empty text avoids nothing |
| TextAnalyzer.EmptyTextNoGenre | src/utils/textAnalyzer.js:87-108 | the empty text suggests no genre |
| TextAnalyzer.EmptyTextNoMood | src/utils/textAnalyzer.js:156-174 | the empty text carries no mood signal |
| Common.Clamp | public/app.js:295 | `Math.max(lo, Math.min(hi, x))` lies in [lo, hi], and equals x inside it |

## Left out

- HTTP handlers, the network and the UI are not part of this model:
  - `exports.handler`, the `pages/api` handlers and `callQwen3`;
  - `queryOverpass`, `geocodeAddress` and the Place Details fetch loop;
  - React state and the DOM methods of the browser page.
- The Places route's per-place fetch of the first twenty results, where
  failures are skipped, is not modelled. The ranking starts from the
  restaurants it produced.
- The bounding box in `buildRestaurantQuery` is left out, as is the rest of
  the query text; only the cuisine filter is modelled. The haversine
  `calculateDistance` is left out too. Distances come in as already-rounded
  whole metres, because they are floating-point geometry.
- Numbers are modelled as `real` (exact), not IEEE doubles.
  - `Math.round` and `toFixed(1)` are exact rounding on reals, halves
    rounding up.
  - `ResultHelpers.FormatDistance` does not model NaN, which `!distance`
    also treats as missing.
- Places ratings are whole tenths (`nat`), so that `${rating}` can be
  printed exactly. Coarser or finer ratings are not modelled.
- `toLowerCase` covers ASCII and full-width Latin letters only; other
  scripts are unchanged, and the Japanese keywords are unaffected.
- The clock, `JSON.parse`, the unseen `genreMapping`/`moodKeywordMapping`
  tables and the unseen `src/dictionaries/mood_keywords.js` tables are
  parameters.
  - `analyze.js`'s own tables are modelled as constants.
  - Keyword tables that are JavaScript objects become sequences.
  - Object keys such as `constructor` or `__proto__` that would hit
    `Object.prototype` are not modelled.
- `Qwen3Cleanup.AnalysisFrom` keeps only the five fields the route names. A
  parsed object's other fields, which the source returns untouched, are not
  modelled.
- `Qwen3Cleanup.MoodPrompt` takes the mood template as a parameter. The
  MOOD_ANALYSIS_PROMPT text itself is not reproduced.
- `Qwen3Cleanup.StripThink` reads `[\s\S]*?` as the shortest span up to the
  first later closing tag. Matching resumes after it.
- `Qwen3Cleanup.FenceMeaning` relates `Fence` to a direct description of
  the match. That description encodes the regular-expression semantics as
  stated in its comments.
- `PlacesSearch.Request` treats an absent analysis field as `""` or `[]`,
  which the source treats alike.
- `PlacesSearch.AtmosphereOf` states the カジュアル case only for
  non-negative price levels. Negative levels, which Places never sends, also
  give カジュアル in the source.
- Qwen3Cleanup.ChatPromptAgrees: stated only for a history and message free of '$'. `String.replace` expands `$&`, `` $` `` and `$'` in a replacement text. `Qwen3Cleanup.Expand` models that expansion, but no property of it is proved.
- Qwen3Cleanup.ReplaceFirstMeaning: the position statement is proved only for replacements without '$', for the same reason.
- `calculateConfidence`'s `totalKeywords` is computed and never used, so it
  is left out.
- The browser page's mock restaurant list is not modelled. Listings are
  parameters, and each review is its text.
- The example response in the comment at the end of
  `netlify/functions/analyze.js` disagrees with the code and is not encoded.
  Only its input, with its appetite and time of day, is used.
- Lengths are counted in Unicode scalar values, not UTF-16 units. A
  character outside the Basic Multilingual Plane, such as an emoji, counts 2
  in JavaScript and 1 here. This affects the review length
  (`src/utils/reviewAnalyzer.js:115`), the length weight (:264) and the
  keyword-density divisor (:233), and through them the total score and the
  confidence of reviews that contain such characters.
- ResultHelpers.PriceDisplay: requires a price level in 0..4. `'￥'.repeat(4 - priceLevel)`
  throws a RangeError for a level above 4 (`components/RestaurantResults.tsx:27`),
  and that path is not modelled. The Places route sends `price_level || 2`,
  which Places gives in 0..4.
- The analysers require a keyword table to have the eight named categories
  (`Dictionary.HasNamedCategories`). A table that lacks one makes the source
  throw a TypeError, and that path is not modelled. For the table that
  `netlify/functions/analyze.js` defines, the requirement is proved
  (`Dictionary.MoodKeywordsHaveNamedCategories`).
- The following lemmas need no proof text: Dafny proves them from the
  definitions alone. Each states a property listed above or is called by a
  lemma that does:
  BrowserApp.CopiesAdd, InlineAnalyzer.DocumentedRequestLacks,
  InlineAnalyzer.HeavyCharsMissing, Overpass.ExpectedOf, Overpass.PenaltyOnly,
  Overpass.ProducedKeepsName, Overpass.TopOfSorted, PlacesSearch.JoinNonEmpty,
  PlacesSearch.MatchScoreParts, PlacesSearch.SearchKeywordsMeaning,
  Profile.NoTimePhrase, Qwen3Cleanup.BraceCutKeepsObject,
  Qwen3Cleanup.ObjectReplyKept, Qwen3Cleanup.PlainTextKept,
  Qwen3Cleanup.Regroup, ResultHelpers.Fixed1Exact,
  ResultHelpers.KilometresShown, ResultHelpers.RealOfHundreds,
  ResultHelpers.TenthsOfKilometreShown, ResultHelpers.ToggleCommutes,
  ResultHelpers.ToggleTwice, ReviewAnalyzer.AnalysesOfStep,
  ReviewAnalyzer.Distribute, ReviewAnalyzer.DivBounds,
  ReviewAnalyzer.MatchTotalAppend, ReviewAnalyzer.MulMonotone,
  ReviewAnalyzer.ReasonPhrasesDistinct, ReviewAnalyzer.StepBounds,
  ReviewAnalyzer.ThirdOfSum, ReviewAnalyzer.UnratedReviewIsNeutral,
  ReviewAnalyzer.WeightedStep, StableSort.TakeSorted, Strings.ContainsAt,
  Strings.ContainsSuffix, Strings.ContainsSuffixOfSuffix,
  Strings.NotContainsByChar, Strings.PrefixAt, Strings.TrimEndNoop,
  Strings.TrimStartNoop, TextAnalyzer.BlankNormalizedIsEmpty,
  TextAnalyzer.EmptyContainsNothing, TextAnalyzer.EmptyTextTime,
  TextAnalyzer.FractionInUnit, TextAnalyzer.LocationHintAsWrittenMisreads,
  TextAnalyzer.LocationHintAsWrittenSpec, TextAnalyzer.LocationHintSpec,
  TextAnalyzer.MoodKeywordsOfTable, TextAnalyzer.RatioIsOne,
  TextAnalyzer.TimeOfDayPrecedence, TextNormalize.CollapsedIsClean,
  TextNormalize.NegationWordsHaveNoSpace, TextNormalize.SliceIsClean,
  TextNormalize.TrimIsNormalized.

## Findings

| source | as written | input that shows it | evidently intended | confidence | as-written member | corrected member |
|---|---|---|---|---|---|---|
| src/utils/textAnalyzer.js:181-183 | the location patterns are written `[駅周辺\|駅前\|…]`, which are character classes, so a single character matches | 「あったかいもの」 yields hint 'か'; 「駅前で」 yields '駅' | alternations `(駅周辺\|駅前\|…)` returning a whole place word | high, not executed | TextAnalyzer.LocationHintAsWrittenMisreads | TextAnalyzer.LocationHintSpec |
| lib/qwen3.ts:145-147 | the message replaces the first "{user_message}" of the prompt after the history is inserted | a history line 'ユーザー: {user_message}' with message 'はい' puts 'はい' inside the history and leaves the template's placeholder in place | the message at the template's own placeholder | medium, not executed | Qwen3Cleanup.ChatPromptAsWrittenMisplaces | Qwen3Cleanup.ChatPromptAgrees |
