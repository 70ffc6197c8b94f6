/** The keyword dictionaries: weighted categories (MOOD_KEYWORDS, the review
    scorer's positive and negative tables), genre categories (GENRE_KEYWORDS)
    and plain named keyword lists (AVOID_KEYWORDS, texture and mood-phrase
    tables).  A JavaScript object literal is an ordered list of entries here:
    `Object.entries` walks it in declaration order, and `TABLE[name]` finds the
    entry with that name. */
module Dictionary {
  import opened Strings

  /** One entry of a weighted table: its keywords and the weight each hit carries. */
  datatype Category = Category(name: string, keywords: seq<string>, weight: real)

  /** One entry of GENRE_KEYWORDS: trigger keywords and the genre labels suggested. */
  datatype GenreCategory = GenreCategory(name: string, keywords: seq<string>, genres: seq<string>)

  /** A named keyword list. */
  datatype KeywordGroup = KeywordGroup(name: string, keywords: seq<string>)

  predicate HasCategory(table: seq<Category>, name: string) {
    exists i :: 0 <= i < |table| && table[i].name == name
  }

  /** `table[name]`, for a name the table holds. */
  function Lookup(table: seq<Category>, name: string): (c: Category)
    requires HasCategory(table, name)
    ensures c in table && c.name == name
  {
    if table[0].name == name then table[0]
    else
      assert HasCategory(table[1..], name) by {
        var i :| 0 <= i < |table| && table[i].name == name;
        assert table[1..][i - 1] == table[i];
      }
      Lookup(table[1..], name)
  }

  /** `table[name]` is the first entry carrying that name. */
  lemma {:induction false} LookupFirst(table: seq<Category>, name: string, i: nat)
    requires i < |table| && table[i].name == name
    requires forall j :: 0 <= j < i ==> table[j].name != name
    ensures HasCategory(table, name) && Lookup(table, name) == table[i]
  {
    if i > 0 {
      assert table[1..][i - 1] == table[i];
      LookupFirst(table[1..], name, i - 1);
    }
  }

  /** The categories the analysers look up by name.  The source reads
      `MOOD_KEYWORDS[name].keywords` for each of them, which throws when the
      entry is missing, so every analyser that reads them requires this. */
  predicate HasNamedCategories(table: seq<Category>) {
    && HasCategory(table, "light") && HasCategory(table, "heavy")
    && HasCategory(table, "morning") && HasCategory(table, "lunch") && HasCategory(table, "dinner")
    && HasCategory(table, "comfort") && HasCategory(table, "energy") && HasCategory(table, "celebration")
  }

  /** `(groups[name] || [])`: the keywords of the first group with that name, none if absent. */
  function GroupKeywords(groups: seq<KeywordGroup>, name: string): seq<string> {
    if groups == [] then []
    else if groups[0].name == name then groups[0].keywords
    else GroupKeywords(groups[1..], name)
  }

  /** Only a name some group carries has keywords, and they are the first
      such group's. */
  lemma {:induction false} GroupKeywordsFound(groups: seq<KeywordGroup>, name: string)
    ensures GroupKeywords(groups, name) != [] ==>
      exists i :: 0 <= i < |groups| && groups[i].name == name && GroupKeywords(groups, name) == groups[i].keywords
  {
    if groups != [] && groups[0].name != name {
      GroupKeywordsFound(groups[1..], name);
      if GroupKeywords(groups, name) != [] {
        var i :| 0 <= i < |groups[1..]| && groups[1..][i].name == name && GroupKeywords(groups[1..], name) == groups[1..][i].keywords;
        assert groups[i + 1] == groups[1..][i];
      }
    }
  }

  /** No table entry has an empty keyword (every text includes the empty string). */
  predicate NoEmptyKeyword(table: seq<Category>) {
    forall i, j :: 0 <= i < |table| && 0 <= j < |table[i].keywords| ==> table[i].keywords[j] != []
  }

  /** MOOD_KEYWORDS as netlify/functions/analyze.js declares it: temperature and
      texture, appetite, time of day, and mood categories with their weights. */
  const MoodKeywords: seq<Category> := [
    Category("hot", HotKeywords, 1.0),
    Category("cold", ColdKeywords, 1.0),
    Category("crispy", CrispyKeywords, 0.8),
    Category("soft", SoftKeywords, 0.8),
    Category("light", LightKeywords, 1.2),
    Category("heavy", HeavyKeywords, 1.2),
    Category("morning", MorningKeywords, 1.0),
    Category("lunch", LunchKeywords, 1.0),
    Category("dinner", DinnerKeywords, 1.0),
    Category("comfort", ComfortKeywords, 0.9),
    Category("energy", EnergyKeywords, 0.9),
    Category("celebration", CelebrationKeywords, 0.8)
  ]

  const HotKeywords: seq<string> := ["温かい", "あったかい", "ホット", "熱い", "温まる", "湯気", "アツアツ"]
  const ColdKeywords: seq<string> := ["冷たい", "つめたい", "クール", "ひんやり", "冷える", "アイス"]
  const CrispyKeywords: seq<string> := ["サクサク", "カリカリ", "パリパリ", "クリスピー", "揚げ物", "フライ"]
  const SoftKeywords: seq<string> := ["柔らかい", "やわらか", "ふわふわ", "とろとろ", "なめらか"]
  const LightKeywords: seq<string> := ["軽め", "あっさり", "さっぱり", "ヘルシー", "少し", "ちょっと", "小腹"]
  const HeavyKeywords: seq<string> := ["がっつり", "ボリューム", "お腹いっぱい", "たくさん", "満腹", "ヘビー"]
  const MorningKeywords: seq<string> := ["朝", "モーニング", "午前", "朝食", "朝ごはん", "朝から"]
  const LunchKeywords: seq<string> := ["昼", "ランチ", "昼食", "昼ごはん", "お昼", "正午"]
  const DinnerKeywords: seq<string> := ["夜", "夕", "晩", "ディナー", "夕食", "夕飯", "晩飯", "夜ご飯"]
  const ComfortKeywords: seq<string> := ["癒し", "ほっこり", "安らぐ", "リラックス", "懐かしい", "ほっと"]
  const EnergyKeywords: seq<string> := ["元気", "パワー", "エネルギー", "活力", "スタミナ", "疲れた"]
  const CelebrationKeywords: seq<string> := ["お祝い", "記念", "特別", "贅沢", "ご褒美", "スペシャル"]

  /** GENRE_KEYWORDS as netlify/functions/analyze.js declares it. */
  const GenreKeywords: seq<GenreCategory> := [
    GenreCategory("japanese", ["和食", "日本料理", "寿司", "そば", "うどん", "天ぷら", "焼き鳥", "定食"],
                  ["和食", "寿司", "そば・うどん", "天ぷら", "焼鳥"]),
    GenreCategory("chinese", ["中華", "中国料理", "ラーメン", "餃子", "炒飯", "麻婆豆腐", "北京ダック"],
                  ["中華料理", "中国料理", "ラーメン"]),
    GenreCategory("western", ["洋食", "パスタ", "ピザ", "ハンバーグ", "ステーキ", "オムライス"],
                  ["洋食", "イタリアン", "フレンチ", "ステーキ"]),
    GenreCategory("korean", ["韓国", "キムチ", "ビビンバ", "焼肉", "チヂミ", "サムギョプサル"],
                  ["韓国料理", "焼肉"]),
    GenreCategory("cafe", ["カフェ", "コーヒー", "スイーツ", "ケーキ", "パン", "サンドイッチ"],
                  ["カフェ", "ベーカリー", "スイーツ"])
  ]

  /** The shipped MOOD_KEYWORDS has every category the analysers look up. */
  lemma MoodKeywordsHaveNamedCategories()
    ensures HasNamedCategories(MoodKeywords)
  {
    assert MoodKeywords[4].name == "light" && MoodKeywords[5].name == "heavy";
    assert MoodKeywords[6].name == "morning" && MoodKeywords[7].name == "lunch";
    assert MoodKeywords[8].name == "dinner" && MoodKeywords[9].name == "comfort";
    assert MoodKeywords[10].name == "energy" && MoodKeywords[11].name == "celebration";
  }
}
