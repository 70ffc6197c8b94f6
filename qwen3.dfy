/** The local-LLM client (lib/qwen3.ts): the cleanup that turns the model's
    reply into the text handed to `JSON.parse`, the fixed analysis returned
    when that fails, the chat-history text, and the prompts filled by
    `String.prototype.replace` with a string pattern.  The reply itself and
    `JSON.parse` are parameters. */
module Qwen3Cleanup {
  import opened Common
  import opened Strings

  // --------------------------------------------------------- <think> blocks

  const ThinkOpen: string := "<think>"
  const ThinkClose: string := "</think>"

  /** s holds tag at i, letters compared as the `i` flag compares them.  The
      tags are ASCII, and a non-ASCII character never folds onto an ASCII
      one under that flag, so folding ASCII capitals is exact here. */
  predicate TagAt(s: string, i: nat, tag: string) {
    i + |tag| <= |s| && Lower(s[i..i + |tag|]) == tag
  }

  predicate HasTag(s: string, tag: string) {
    exists i :: 0 <= i <= |s| && TagAt(s, i, tag)
  }

  /** The first position at or after `from` holding the tag, or -1. */
  function FindTag(s: string, tag: string, from: nat): (r: int)
    requires from <= |s|
    ensures r == -1 || (from <= r <= |s| && TagAt(s, r, tag))
    ensures r == -1 ==> forall j :: from <= j <= |s| ==> !TagAt(s, j, tag)
    ensures r != -1 ==> forall j :: from <= j < r ==> !TagAt(s, j, tag)
    decreases |s| - from
  {
    if TagAt(s, from, tag) then from
    else if from == |s| then -1
    else FindTag(s, tag, from + 1)
  }

  /** `s.replace(/<think>[\s\S]*?<\/think>/gi, '')`: from left to right, an
      opening tag with a closing tag after it is removed up to the first such
      closing tag; scanning resumes after it.  An opening tag with no closing
      tag after it stays. */
  function StripThink(s: string): (r: string)
    ensures |r| <= |s|
    decreases |s|
  {
    if s == [] then []
    else if TagAt(s, 0, ThinkOpen) && FindTag(s, ThinkClose, |ThinkOpen|) >= 0 then
      StripThink(s[FindTag(s, ThinkClose, |ThinkOpen|) + |ThinkClose|..])
    else [s[0]] + StripThink(s[1..])
  }

  lemma TagInTail(s: string, tag: string)
    requires s != [] && HasTag(s[1..], tag)
    ensures HasTag(s, tag)
  {
    var i :| 0 <= i <= |s[1..]| && TagAt(s[1..], i, tag);
    assert s[1..][i..i + |tag|] == s[i + 1..i + 1 + |tag|];
    assert TagAt(s, i + 1, tag);
  }

  /** A reply without an opening tag, or without a closing one, is unchanged. */
  lemma {:induction false} StripThinkNoop(s: string)
    ensures !HasTag(s, ThinkOpen) ==> StripThink(s) == s
    ensures !HasTag(s, ThinkClose) ==> StripThink(s) == s
    decreases |s|
  {
    if s != [] {
      if TagAt(s, 0, ThinkOpen) && FindTag(s, ThinkClose, |ThinkOpen|) >= 0 {
        var j := FindTag(s, ThinkClose, |ThinkOpen|);
        assert TagAt(s, j, ThinkClose);
        assert HasTag(s, ThinkOpen) && HasTag(s, ThinkClose);
      } else {
        StripThinkNoop(s[1..]);
        if HasTag(s[1..], ThinkOpen) {
          TagInTail(s, ThinkOpen);
        }
        if HasTag(s[1..], ThinkClose) {
          TagInTail(s, ThinkClose);
        }
      }
    }
  }

  // ------------------------------------------------------------ ```json fence

  const OpenFence: string := "```json"
  const CloseFence: string := "```"

  /** The first position at or after q that is not whitespace, or |s|. */
  function SkipSpace(s: string, q: nat): (r: nat)
    requires q <= |s|
    ensures q <= r <= |s|
    ensures forall j :: q <= j < r ==> IsSpace(s[j])
    ensures r < |s| ==> !IsSpace(s[r])
    decreases |s| - q
  {
    if q < |s| && IsSpace(s[q]) then SkipSpace(s, q + 1) else q
  }

  /** `\s*```` matches at q. */
  predicate ClosesAt(s: string, q: nat)
    requires q <= |s|
  {
    CloseFence <= s[SkipSpace(s, q)..]
  }

  /** The least q at or after `from` where the fence closes, or -1. */
  function CloseFrom(s: string, from: nat): (r: int)
    requires from <= |s|
    ensures r == -1 || (from <= r <= |s| && ClosesAt(s, r))
    ensures r == -1 ==> forall j :: from <= j <= |s| ==> !ClosesAt(s, j)
    ensures r != -1 ==> forall j :: from <= j < r ==> !ClosesAt(s, j)
    decreases |s| - from
  {
    if ClosesAt(s, from) then from
    else if from == |s| then -1
    else CloseFrom(s, from + 1)
  }

  /** The group of `s.match(/```json\s*([\s\S]*?)\s*```/)`: at the first
      "```json", past the whitespace the greedy `\s*` takes, up to the
      nearest point from which whitespace and "```" follow. */
  function Fence(s: string): Option<string> {
    var i := IndexOf(s, OpenFence);
    if i < 0 then None
    else
      var start := SkipSpace(s, i + |OpenFence|);
      var q := CloseFrom(s, start);
      if q < 0 then None else Some(s[start..q])
  }

  /** A match of the fence pattern at i whose group is s[start..q], as the
      regular expression defines one: "```json", whitespace up to the first
      non-space, a group that ends at the nearest place where whitespace
      and "```" follow. */
  predicate FencedAt(s: string, i: nat, start: nat, q: nat) {
    && i + |OpenFence| <= start <= q <= |s|
    && OpenFence <= s[i..]
    && (forall j :: i + |OpenFence| <= j < start ==> IsSpace(s[j]))
    && (start < |s| ==> !IsSpace(s[start]))
    && ClosesAt(s, q)
    && (forall p :: start <= p < q ==> !ClosesAt(s, p))
  }

  /** `Fence` finds the leftmost match of the pattern and nothing else: when
      it finds none, the pattern matches nowhere, because a later "```json"
      with a closing fence would have given the first one a closing too. */
  lemma FenceMeaning(s: string)
    ensures Fence(s).Some? ==>
      exists i: nat, start: nat, q: nat ::
        && FencedAt(s, i, start, q)
        && Fence(s).value == s[start..q]
        && (forall j :: 0 <= j < i ==> !(OpenFence <= s[j..]))
    ensures Fence(s).None? ==> forall i: nat, start: nat, q: nat :: !FencedAt(s, i, start, q)
  {
    var i := IndexOf(s, OpenFence);
    if i >= 0 {
      var start := SkipSpace(s, i + |OpenFence|);
      var q := CloseFrom(s, start);
      if q >= 0 {
        assert FencedAt(s, i, start, q);
      } else {
        forall i': nat, start': nat, q': nat | FencedAt(s, i', start', q')
          ensures false
        {
        }
      }
    } else {
      forall i': nat, start': nat, q': nat | FencedAt(s, i', start', q')
        ensures false
      {
        ContainsAt(s, OpenFence, i');
      }
    }
  }

  /** `if (jsonMatch) cleanResponse = jsonMatch[1].trim()`. */
  function FenceStep(t: string): string {
    if Fence(t).Some? then Trim(Fence(t).value) else t
  }

  // -------------------------------------------------------------- brace cut

  /** Some '{' comes before some '}'. */
  predicate BracePair(s: string) {
    exists i, j :: 0 <= i < j < |s| && s[i] == '{' && s[j] == '}'
  }

  /** r is s[lead..lead + |r|], with no '{' before it and no '}' after it. */
  predicate CutAt(s: string, r: string, lead: nat) {
    && lead + |r| <= |s|
    && r == s[lead..lead + |r|]
    && (forall j :: 0 <= j < lead ==> s[j] != '{')
    && (forall j :: lead + |r| <= j < |s| ==> s[j] != '}')
  }

  /** `s.indexOf(c)` for a one-character c. */
  function FirstOf(s: string, c: char): (r: int)
    ensures -1 <= r < |s|
    ensures r >= 0 ==> s[r] == c && forall j :: 0 <= j < r ==> s[j] != c
    ensures r == -1 ==> forall j :: 0 <= j < |s| ==> s[j] != c
  {
    if s == [] then -1
    else if s[0] == c then 0
    else
      var r := FirstOf(s[1..], c);
      if r < 0 then -1 else r + 1
  }

  /** `s.lastIndexOf(c)` for a one-character c. */
  function LastOf(s: string, c: char): (r: int)
    ensures -1 <= r < |s|
    ensures r >= 0 ==> s[r] == c && forall j :: r < j < |s| ==> s[j] != c
    ensures r == -1 ==> forall j :: 0 <= j < |s| ==> s[j] != c
  {
    if s == [] then -1
    else if s[|s| - 1] == c then |s| - 1
    else LastOf(s[..|s| - 1], c)
  }

  /** The cut from `indexOf('{')` to `lastIndexOf('}')` inclusive, when the
      first '{' comes before the last '}'; otherwise the text as it is. */
  function BraceCut(s: string): (r: string)
    ensures BracePair(s) ==> |r| >= 2 && r[0] == '{' && r[|r| - 1] == '}' && exists lead: nat :: CutAt(s, r, lead)
    ensures !BracePair(s) ==> r == s
  {
    var i := FirstOf(s, '{');
    var j := LastOf(s, '}');
    if i != -1 && j != -1 && j > i then
      assert CutAt(s, s[i..j + 1], i);
      s[i..j + 1]
    else
      s
  }

  /** The text opens with '{' and closes with '}'. */
  predicate IsObject(s: string) {
    |s| >= 2 && s[0] == '{' && s[|s| - 1] == '}'
  }

  /** A text that already is one object, from '{' to '}', is kept whole. */
  lemma BraceCutKeepsObject(s: string)
    requires IsObject(s)
    ensures BraceCut(s) == s
  {
    assert BracePair(s);
    var r := BraceCut(s);
    var lead: nat :| CutAt(s, r, lead);
    assert lead == 0;
    assert lead + |r| == |s|;
  }

  // ------------------------------------------------------------- the cleanup

  /** The text `analyzeMoodWithQwen3` hands to `JSON.parse`. */
  function Cleaned(response: string): string {
    BraceCut(FenceStep(Trim(StripThink(response))))
  }

  /** The cleanup as the source writes it, one reassignment of
      `cleanResponse` after another. */
  method CleanResponse(response: string) returns (clean: string)
    ensures clean == Cleaned(response)
  {
    clean := response;
    clean := StripThink(clean);
    clean := Trim(clean);
    clean := Unfence(clean);
    clean := CutObject(clean);
  }

  /** The fenced block, trimmed, replaces the text when there is one. */
  method Unfence(t: string) returns (u: string)
    ensures u == FenceStep(t)
    ensures Fence(t).None? ==> u == t
  {
    u := t;
    var fenced := Fence(t);
    if fenced.Some? {
      u := Trim(fenced.value);
    }
  }

  /** The text from the first '{' to the last '}', when they come in that order. */
  method CutObject(t: string) returns (u: string)
    ensures u == BraceCut(t)
  {
    u := t;
    var jsonStart := FirstOf(t, '{');
    var jsonEnd := LastOf(t, '}');
    if jsonStart != -1 && jsonEnd != -1 && jsonEnd > jsonStart {
      u := t[jsonStart..jsonEnd + 1];
    }
  }

  lemma ContainsInSlice(s: string, lead: nat, n: nat, k: string)
    requires lead + n <= |s| && Contains(s[lead..lead + n], k)
    ensures Contains(s, k)
  {
    var i :| 0 <= i <= n && k <= s[lead..lead + n][i..];
    assert k <= s[lead + i..];
  }

  /** A piece of a text with no "```json" and no '{' before a '}' has none. */
  lemma SliceKeepsPlain(s: string, t: string, lead: nat)
    requires lead + |t| <= |s| && t == s[lead..lead + |t|]
    requires !Contains(s, OpenFence) && !BracePair(s)
    ensures !Contains(t, OpenFence) && !BracePair(t)
  {
    if Contains(t, OpenFence) {
      ContainsInSlice(s, lead, |t|, OpenFence);
    }
  }

  /** Trimming a text with no "```json" and no '{' before a '}' leaves none. */
  lemma TrimKeepsPlain(s: string)
    requires !Contains(s, OpenFence) && !BracePair(s)
    ensures !Contains(Trim(s), OpenFence) && !BracePair(Trim(s))
  {
    TrimMeaning(s);
    var lead: nat :| Padded(s, Trim(s), lead);
    SliceKeepsPlain(s, Trim(s), lead);
  }

  /** A reply with no think tag, no "```json" and no '{' before a '}' is
      only trimmed. */
  lemma PlainReplyOnlyTrimmed(response: string)
    requires !HasTag(response, ThinkOpen) && !Contains(response, OpenFence) && !BracePair(response)
    ensures Cleaned(response) == Trim(response)
  {
    StripThinkNoop(response);
    TrimKeepsPlain(response);
    PlainTextKept(Trim(response));
  }

  /** A text with no "```json" and no '{' before a '}' passes the fence and
      brace steps unchanged. */
  lemma PlainTextKept(t: string)
    requires !Contains(t, OpenFence) && !BracePair(t)
    ensures BraceCut(FenceStep(t)) == t
  {
    assert Fence(t).None?;
  }

  /** A reply that is one object once the think blocks are gone and the ends
      trimmed, with no fence, is passed on whole. */
  lemma ObjectReplyKept(response: string)
    requires IsObject(Trim(StripThink(response))) && Fence(Trim(StripThink(response))).None?
    ensures Cleaned(response) == Trim(StripThink(response))
  {
    BraceCutKeepsObject(Trim(StripThink(response)));
  }

  // ----------------------------------------------------------- the analysis

  /** The mood analysis the route returns. */
  datatype MoodAnalysis = MoodAnalysis(cuisineTypes: seq<string>, atmosphere: string, priceRange: string,
                                       diningStyle: string, additionalQuestions: seq<string>)

  /** What `JSON.parse` produced, as far as the route looks at it:
      `cuisineTypes` is None when the field is missing or not an array. */
  datatype Parsed = Parsed(cuisineTypes: Option<seq<string>>, atmosphere: string, priceRange: string,
                           diningStyle: string, additionalQuestions: seq<string>)

  /** The analysis returned when the reply cannot be used. */
  const Fallback: MoodAnalysis := MoodAnalysis(
    ["和食", "洋食", "アジア料理"], "リラックスできる", "普通", "友達と",
    ["どのような料理が特に食べたいですか？"])

  /** The parsed object when it has a `cuisine_types` array, else the fallback.
      `parsed` is None when `JSON.parse` throws or yields null. */
  function AnalysisFrom(parsed: Option<Parsed>): (r: MoodAnalysis)
    ensures parsed.None? || parsed.value.cuisineTypes.None? ==> r == Fallback
    ensures parsed.Some? && parsed.value.cuisineTypes.Some? ==>
      r.cuisineTypes == parsed.value.cuisineTypes.value && r.atmosphere == parsed.value.atmosphere
      && r.priceRange == parsed.value.priceRange && r.diningStyle == parsed.value.diningStyle
      && r.additionalQuestions == parsed.value.additionalQuestions
    ensures |r.cuisineTypes| == 3 || parsed.Some?
  {
    if parsed.None? || parsed.value.cuisineTypes.None? then Fallback
    else
      var p := parsed.value;
      MoodAnalysis(p.cuisineTypes.value, p.atmosphere, p.priceRange, p.diningStyle, p.additionalQuestions)
  }

  /** `analyzeMoodWithQwen3` once the model has replied, with `JSON.parse`
      as the parameter `parse`. */
  function AnalyzeReply(reply: string, parse: string -> Option<Parsed>): (r: MoodAnalysis)
    ensures parse(Cleaned(reply)).None? ==> r == Fallback && r.cuisineTypes == ["和食", "洋食", "アジア料理"]
    ensures parse(Cleaned(reply)).Some? && parse(Cleaned(reply)).value.cuisineTypes.Some? ==>
      r.cuisineTypes == parse(Cleaned(reply)).value.cuisineTypes.value
  {
    AnalysisFrom(parse(Cleaned(reply)))
  }

  // ---------------------------------------------------------------- history

  datatype ChatMessage = ChatMessage(role: string, content: string)

  /** `${role === 'user' ? 'ユーザー' : 'AI'}: ${content}`. */
  function HistoryLine(m: ChatMessage): (line: string)
    ensures m.role == "user" ==> line == "ユーザー: " + m.content
    ensures m.role != "user" ==> line == "AI: " + m.content
    ensures line != []
  {
    (if m.role == "user" then "ユーザー" else "AI") + ": " + m.content
  }

  function HistoryLines(ms: seq<ChatMessage>): (ls: seq<string>)
    ensures |ls| == |ms| && forall i :: 0 <= i < |ms| ==> ls[i] == HistoryLine(ms[i])
  {
    if ms == [] then [] else [HistoryLine(ms[0])] + HistoryLines(ms[1..])
  }

  /** The `historyText` of `processChatWithQwen3`. */
  function HistoryText(ms: seq<ChatMessage>): string {
    Join(HistoryLines(ms), "\n")
  }

  lemma {:induction false} JoinAppend(ps: seq<string>, x: string, sep: string)
    requires ps != []
    ensures Join(ps + [x], sep) == Join(ps, sep) + sep + x
  {
    if |ps| > 1 {
      assert (ps + [x])[1..] == ps[1..] + [x];
      JoinAppend(ps[1..], x, sep);
    }
  }

  /** One line per message, in order: each message after the first adds a
      newline and its own line at the end, a single message is its line, and
      the text is empty only for an empty history. */
  lemma HistoryTextMeaning(ms: seq<ChatMessage>, m: ChatMessage)
    ensures HistoryText([m]) == HistoryLine(m)
    ensures ms != [] ==> HistoryText(ms + [m]) == HistoryText(ms) + "\n" + HistoryLine(m)
    ensures HistoryText(ms) == "" <==> ms == []
  {
    assert HistoryLines([m]) == [HistoryLine(m)];
    if ms != [] {
      assert HistoryLines(ms + [m]) == HistoryLines(ms) + [HistoryLine(m)];
      JoinAppend(HistoryLines(ms), HistoryLine(m), "\n");
      var ls := HistoryLines(ms);
      if |ls| > 1 {
        assert Join(ls, "\n") == ls[0] + "\n" + Join(ls[1..], "\n");
      }
    }
  }

  // --------------------------------------------------------------- prompts

  /** The replacement text of `String.prototype.replace` for a string
      pattern: "$$" is "$", "$&" the match, "$`" the text before it, "$'"
      the text after it; any other "$" stays as it is. */
  function Expand(rep: string, matched: string, before: string, after: string): string
    decreases |rep|
  {
    if rep == [] then []
    else if rep[0] == '$' && |rep| >= 2 && rep[1] == '$' then "$" + Expand(rep[2..], matched, before, after)
    else if rep[0] == '$' && |rep| >= 2 && rep[1] == '&' then matched + Expand(rep[2..], matched, before, after)
    else if rep[0] == '$' && |rep| >= 2 && rep[1] == '`' then before + Expand(rep[2..], matched, before, after)
    else if rep[0] == '$' && |rep| >= 2 && rep[1] == '\'' then after + Expand(rep[2..], matched, before, after)
    else [rep[0]] + Expand(rep[1..], matched, before, after)
  }

  /** Without a '$' the replacement is inserted as it is. */
  lemma {:induction false} ExpandLiteral(rep: string, matched: string, before: string, after: string)
    requires '$' !in rep
    ensures Expand(rep, matched, before, after) == rep
    decreases |rep|
  {
    if rep != [] {
      assert '$' !in rep[1..];
      ExpandLiteral(rep[1..], matched, before, after);
    }
  }

  /** `s.replace(pat, rep)` with a string pattern: only the first occurrence. */
  function ReplaceFirst(s: string, pat: string, rep: string): string {
    var i := IndexOf(s, pat);
    if i < 0 then s
    else
      assert |pat| <= |s[i..]|;
      s[..i] + Expand(rep, pat, s[..i], s[i + |pat|..]) + s[i + |pat|..]
  }

  /** Without the pattern nothing changes; with it, and a replacement free of
      '$', the first occurrence is replaced and the rest, later occurrences
      included, is kept. */
  lemma ReplaceFirstMeaning(s: string, pat: string, rep: string)
    ensures !Contains(s, pat) ==> ReplaceFirst(s, pat, rep) == s
    ensures Contains(s, pat) && '$' !in rep ==>
      exists i :: 0 <= i && i + |pat| <= |s| && pat <= s[i..]
        && (forall j :: 0 <= j < i ==> !(pat <= s[j..]))
        && ReplaceFirst(s, pat, rep) == s[..i] + rep + s[i + |pat|..]
  {
    if Contains(s, pat) && '$' !in rep {
      var i := IndexOf(s, pat);
      ReplaceFirstAt(s, pat, rep, i);
    }
  }

  /** The found case, at the index of the first occurrence. */
  lemma ReplaceFirstAt(s: string, pat: string, rep: string, i: int)
    requires i == IndexOf(s, pat) && 0 <= i && i + |pat| <= |s| && '$' !in rep
    ensures ReplaceFirst(s, pat, rep) == s[..i] + rep + s[i + |pat|..]
  {
    ExpandLiteral(rep, pat, s[..i], s[i + |pat|..]);
  }

  /** When the pattern starts with a character a lacks and b starts with the
      pattern, the first occurrence in a + b is where b begins. */
  lemma IndexAfterPrefix(a: string, b: string, pat: string)
    requires pat != [] && pat[0] !in a && pat <= b
    ensures IndexOf(a + b, pat) == |a|
  {
    var s := a + b;
    assert s[|a|..] == b;
    ContainsAt(s, pat, |a|);
  }

  const UserInputPlaceholder: string := "{user_input}"
  const HistoryPlaceholder: string := "{chat_history}"
  const MessagePlaceholder: string := "{user_message}"

  /** A prompt template with the history and message placeholders: the
      text before, between and after them. */
  datatype Template = Template(head: string, middle: string, tail: string)

  /** The template's text, as the source declares it. */
  function TemplateText(t: Template): string {
    t.head + HistoryPlaceholder + t.middle + MessagePlaceholder + t.tail
  }

  /** No placeholder can begin in the head or between the placeholders. */
  predicate BraceFree(t: Template) {
    '{' !in t.head && '{' !in t.middle
  }

  const ChatRole: string := "あなたは親しみやすい食事アドバイザーです。"
  const ChatTask: string := "ユーザーとの会話を通じて、より詳細な好みを把握してください。"
  const ChatHistoryLabel: string := "\n\n会話履歴:\n"

  /** CHAT_PROMPT. */
  const ChatTemplate: Template := Template(ChatRole + ChatTask + ChatHistoryLabel, "\n\nユーザー: ",
    "\n\n自然な日本語で親しみやすく返答してください。必要に応じて追加の質問をして、ユーザーの好みをより深く理解してください。")

  lemma ChatTemplateBraceFree()
    ensures BraceFree(ChatTemplate)
  {
    assert '{' !in ChatRole;
    assert '{' !in ChatTask;
    assert '{' !in ChatHistoryLabel;
  }

  /** The mood prompt: `MOOD_ANALYSIS_PROMPT.replace('{user_input}', userInput)`. */
  function MoodPrompt(template: string, userInput: string): string {
    ReplaceFirst(template, UserInputPlaceholder, userInput)
  }

  /** The chat prompt as `processChatWithQwen3` builds it: the history
      replaces the first "{chat_history}", then the message replaces the
      first "{user_message}" of that result. */
  function ChatPromptAsWritten(t: Template, history: string, message: string): string {
    ReplaceFirst(ReplaceFirst(TemplateText(t), HistoryPlaceholder, history), MessagePlaceholder, message)
  }

  /** The chat prompt the template describes: the history and the message
      each at the template's own placeholder, taken literally. */
  function ChatPrompt(t: Template, history: string, message: string): (r: string)
    ensures |r| == |t.head| + |history| + |t.middle| + |message| + |t.tail|
    ensures r[..|t.head|] == t.head
    ensures r[|t.head|..|t.head| + |history|] == history
    ensures r[|t.head| + |history| + |t.middle|..|t.head| + |history| + |t.middle| + |message|] == message
  {
    t.head + history + t.middle + message + t.tail
  }

  /** The history replaced first: the template's head, the history, and the
      rest of the template untouched. */
  lemma HistoryFilled(t: Template, history: string)
    requires BraceFree(t) && '$' !in history
    ensures ReplaceFirst(TemplateText(t), HistoryPlaceholder, history)
      == t.head + history + t.middle + MessagePlaceholder + t.tail
  {
    var rest := t.middle + MessagePlaceholder + t.tail;
    assert HistoryPlaceholder[0] == '{';
    assert TemplateText(t) == t.head + HistoryPlaceholder + rest;
    ReplaceAt(t.head, HistoryPlaceholder, rest, history);
  }

  /** When neither text holds a '$' and the history holds no '{', the
      chained replaces build exactly the intended prompt. */
  lemma ChatPromptAgrees(t: Template, history: string, message: string)
    requires BraceFree(t) && '$' !in history && '$' !in message && '{' !in history
    ensures ChatPromptAsWritten(t, history, message) == ChatPrompt(t, history, message)
  {
    HistoryFilled(t, history);
    var a := t.head + history + t.middle;
    assert '{' !in a;
    assert MessagePlaceholder[0] == '{';
    ReplaceAt(a, MessagePlaceholder, t.tail, message);
  }

  /** Replacing a pattern whose first character the text before it lacks,
      with a replacement free of '$', puts the replacement in its place. */
  lemma ReplaceAt(a: string, pat: string, b: string, rep: string)
    requires pat != [] && pat[0] !in a && '$' !in rep
    ensures ReplaceFirst(a + pat + b, pat, rep) == a + rep + b
  {
    var s := a + pat + b;
    assert s == a + (pat + b);
    IndexAfterPrefix(a, pat + b, pat);
    assert s[..|a|] == a;
    assert s[|a| + |pat|..] == b;
    ExpandLiteral(rep, pat, a, b);
  }

  lemma Regroup(h: string, pre: string, p: string, post: string, m: string, q: string, tl: string)
    ensures h + (pre + p + post) + m + q + tl == (h + pre) + p + (post + m + q + tl)
  {
  }

  /** With a history that reads "{user_message}" after a brace-free start,
      the message lands inside the history and the template's own
      placeholder stays in the prompt. */
  lemma MessageFilledEarly(t: Template, history: string, message: string, pre: string, post: string)
    requires BraceFree(t) && history == pre + MessagePlaceholder + post && '{' !in pre
    requires '$' !in history && '$' !in message
    ensures ChatPromptAsWritten(t, history, message)
      == t.head + pre + message + (post + t.middle + MessagePlaceholder + t.tail)
  {
    HistoryFilled(t, history);
    Regroup(t.head, pre, MessagePlaceholder, post, t.middle, MessagePlaceholder, t.tail);
    ReplaceAt(t.head + pre, MessagePlaceholder, post + t.middle + MessagePlaceholder + t.tail, message);
  }

  /** A history that itself reads "{user_message}" after a brace-free start
      (the history of a user who typed that text is "ユーザー: {user_message}")
      receives the message, and the template's own placeholder is left
      unfilled: the prompt differs from the intended one right where the
      history begins to differ. */
  lemma ChatPromptAsWrittenMisplaces(t: Template, history: string, message: string, pre: string, post: string)
    requires BraceFree(t) && history == pre + MessagePlaceholder + post && '{' !in pre
    requires '$' !in history && '$' !in message && message != [] && message[0] != '{'
    ensures |t.head| + |pre| < |ChatPromptAsWritten(t, history, message)|
    ensures ChatPromptAsWritten(t, history, message)[|t.head| + |pre|] == message[0]
    ensures ChatPrompt(t, history, message)[|t.head| + |pre|] == '{'
    ensures ChatPromptAsWritten(t, history, message) != ChatPrompt(t, history, message)
  {
    MessageFilledEarly(t, history, message, pre, post);
    var a := t.head + pre;
    var tail := post + t.middle + MessagePlaceholder + t.tail;
    assert (a + message + tail)[|a|] == message[0];
    assert ChatPrompt(t, history, message)[|t.head| + |pre|] == history[|pre|];
  }
}
