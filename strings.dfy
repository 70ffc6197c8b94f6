/** The JavaScript string primitives the analysers are built from, over
    `seq<char>`: substring containment (`includes`), first and last index,
    the occurrence count `split(k).length - 1`, whitespace splitting,
    joining, trimming, lower-casing and decimal rendering.  A `char` is one
    Unicode scalar value.  Every character of the keyword tables is in the
    Basic Multilingual Plane and so one UTF-16 code unit; lengths agree with
    the source for text made only of such characters.  Review and request
    texts may hold characters outside that plane, such as emoji, which count
    2 in JavaScript and 1 here (see "Left out" in the README). */
module Strings {

  /** The characters JavaScript's `\s` matches; `trim` removes the same set. */
  predicate IsSpace(c: char) {
    c == '\t' || c == '\n' || c == '\U{000B}' || c == '\U{000C}' || c == '\r' || c == ' '
    || c == '\U{00A0}' || c == '\U{1680}' || ('\U{2000}' <= c <= '\U{200A}')
    || c == '\U{2028}' || c == '\U{2029}' || c == '\U{202F}' || c == '\U{205F}'
    || c == '\U{3000}' || c == '\U{FEFF}'
  }

  /** ASCII and full-width Latin capitals, the letters `toLowerCase` changes in this model. */
  predicate IsUpper(c: char) {
    ('A' <= c <= 'Z') || ('\U{FF21}' <= c <= '\U{FF3A}')
  }

  function LowerChar(c: char): (d: char)
    ensures !IsUpper(d)
    ensures !IsUpper(c) ==> d == c
    ensures IsSpace(d) <==> IsSpace(c)
  {
    if IsUpper(c) then (c as int + 32) as char else c
  }

  /** `s.toLowerCase()`. */
  function Lower(s: string): (r: string)
    ensures |r| == |s|
    ensures forall i :: 0 <= i < |s| ==> r[i] == LowerChar(s[i])
  {
    if s == [] then [] else [LowerChar(s[0])] + Lower(s[1..])
  }

  /** `text.includes(k)`; every text includes the empty string. */
  predicate Contains(text: string, k: string) {
    exists i :: 0 <= i <= |text| && k <= text[i..]
  }

  lemma ContainsAt(text: string, k: string, i: nat)
    requires i <= |text| && k <= text[i..]
    ensures Contains(text, k)
  {
  }

  /** A text that lacks one character of k cannot include k. */
  lemma NotContainsByChar(text: string, k: string, c: char)
    requires c in k && c !in text
    ensures !Contains(text, k)
  {
    forall i | 0 <= i <= |text| ensures !(k <= text[i..]) {
      var j :| 0 <= j < |k| && k[j] == c;
      assert j >= |text[i..]| || text[i..][j] != k[j];
    }
  }

  lemma ContainsLeft(a: string, b: string, w: string)
    requires Contains(a, w)
    ensures Contains(a + b, w)
  {
    var i :| 0 <= i <= |a| && w <= a[i..];
    assert w <= (a + b)[i..] by {
      assert forall j :: 0 <= j < |w| ==> (a + b)[i..][j] == a[i..][j];
    }
  }

  lemma ContainsRight(a: string, b: string, w: string)
    requires Contains(b, w)
    ensures Contains(a + b, w)
  {
    var i :| 0 <= i <= |b| && w <= b[i..];
    assert (a + b)[|a| + i..] == b[i..];
  }

  /** An occurrence in a + [c] + b that does not use the character c lies in a or in b. */
  lemma ContainsAcross(a: string, c: char, b: string, w: string)
    requires Contains(a + [c] + b, w) && c !in w
    ensures Contains(a, w) || Contains(b, w)
  {
    var t := a + [c] + b;
    var i :| 0 <= i <= |t| && w <= t[i..];
    PrefixAt(w, t[i..], |a| - i);
    assert t[|a|] == c;
    assert 0 <= |a| - i < |t[i..]| ==> t[i..][|a| - i] == c;
    if i + |w| <= |a| {
      assert w <= a[i..] by {
        assert forall j :: 0 <= j < |w| ==> w[j] == t[i + j] == a[i + j];
      }
    } else if i > |a| {
      assert w <= b[i - |a| - 1..] by {
        assert forall j :: 0 <= j < |w| ==> w[j] == t[i + j] == b[i - |a| - 1 + j];
      }
    }
  }

  lemma PrefixAt(w: string, s: string, j: int)
    ensures w <= s && 0 <= j < |w| ==> w[j] == s[j]
  {
  }

  /** Index of the first occurrence of k at or after `from`, or -1. */
  function IndexFrom(text: string, k: string, from: nat): (r: int)
    requires from <= |text|
    ensures r == -1 || (from <= r <= |text| && k <= text[r..])
    ensures r == -1 ==> forall j :: from <= j <= |text| ==> !(k <= text[j..])
    ensures r != -1 ==> forall j :: from <= j < r ==> !(k <= text[j..])
    decreases |text| - from
  {
    if k <= text[from..] then from
    else if from == |text| then -1
    else IndexFrom(text, k, from + 1)
  }

  /** `text.indexOf(k)`. */
  function IndexOf(text: string, k: string): (r: int)
    ensures -1 <= r <= |text|
    ensures r >= 0 <==> Contains(text, k)
    ensures r >= 0 ==> k <= text[r..] && forall j :: 0 <= j < r ==> !(k <= text[j..])
  {
    var r := IndexFrom(text, k, 0);
    assert r == -1 ==> !Contains(text, k);
    r
  }

  /** Index of the last occurrence of k at or before `upto`, or -1. */
  function LastIndexUpto(text: string, k: string, upto: nat): (r: int)
    requires upto <= |text|
    ensures r == -1 || (0 <= r <= upto && k <= text[r..])
    ensures r == -1 ==> forall j :: 0 <= j <= upto ==> !(k <= text[j..])
    ensures r != -1 ==> forall j :: r < j <= upto ==> !(k <= text[j..])
    decreases upto
  {
    if k <= text[upto..] then upto
    else if upto == 0 then -1
    else LastIndexUpto(text, k, upto - 1)
  }

  /** `text.lastIndexOf(k)`. */
  function LastIndexOf(text: string, k: string): (r: int)
    ensures -1 <= r <= |text|
    ensures r >= 0 <==> Contains(text, k)
    ensures r >= 0 ==> k <= text[r..] && forall j :: r < j <= |text| ==> !(k <= text[j..])
  {
    var r := LastIndexUpto(text, k, |text|);
    assert r == -1 ==> !Contains(text, k);
    r
  }

  /** Non-overlapping occurrences of a non-empty k, scanning from the left. */
  function Occurrences(text: string, k: string): nat
    requires k != []
    decreases |text|
  {
    if |text| < |k| then 0
    else if k <= text then 1 + Occurrences(text[|k|..], k)
    else Occurrences(text[1..], k)
  }

  /** `text.split(k).length - 1`: an empty separator splits text into its
      characters, so the count is then |text| - 1 (and -1 for the empty text). */
  function SplitCount(text: string, k: string): int {
    if k == [] then |text| - 1 else Occurrences(text, k)
  }

  /** A non-empty keyword is counted at least once exactly when the text includes it. */
  lemma {:induction false} OccurrencesPositive(text: string, k: string)
    requires k != []
    ensures Occurrences(text, k) > 0 <==> Contains(text, k)
    decreases |text|
  {
    if |text| < |k| {
    } else if k <= text {
      ContainsAt(text, k, 0);
    } else {
      OccurrencesPositive(text[1..], k);
      if Contains(text, k) {
        var i :| 0 <= i <= |text| && k <= text[i..];
        assert i > 0;
        assert text[1..][i - 1..] == text[i..];
        ContainsAt(text[1..], k, i - 1);
      }
      if Contains(text[1..], k) {
        var i :| 0 <= i <= |text[1..]| && k <= text[1..][i..];
        assert text[1..][i..] == text[i + 1..];
        ContainsAt(text, k, i + 1);
      }
    }
  }

  /** Index of the first whitespace character of s, or |s|. */
  function FirstSpace(s: string): (i: nat)
    ensures i <= |s|
    ensures forall j :: 0 <= j < i ==> !IsSpace(s[j])
    ensures i < |s| ==> IsSpace(s[i])
  {
    if s == [] then 0
    else if IsSpace(s[0]) then 0
    else 1 + FirstSpace(s[1..])
  }

  /** s without its leading whitespace. */
  function TrimStart(s: string): (r: string)
    ensures |r| <= |s| && r == s[|s| - |r|..]
    ensures r == [] || !IsSpace(r[0])
    ensures forall j :: 0 <= j < |s| - |r| ==> IsSpace(s[j])
  {
    if s != [] && IsSpace(s[0]) then TrimStart(s[1..]) else s
  }

  /** s without its trailing whitespace. */
  function TrimEnd(s: string): (r: string)
    ensures |r| <= |s| && r == s[..|r|]
    ensures r == [] || !IsSpace(r[|r| - 1])
    ensures forall j :: |r| <= j < |s| ==> IsSpace(s[j])
  {
    if s != [] && IsSpace(s[|s| - 1]) then TrimEnd(s[..|s| - 1]) else s
  }

  /** `s.trim()`: s without its leading and trailing whitespace. */
  function Trim(s: string): (r: string)
    ensures |r| <= |s|
    ensures r == [] || (!IsSpace(r[0]) && !IsSpace(r[|r| - 1]))
  {
    TrimEnd(TrimStart(s))
  }

  /** s is some whitespace, then r, then some whitespace, r starting at lead. */
  predicate Padded(s: string, r: string, lead: nat) {
    && lead + |r| <= |s|
    && r == s[lead..lead + |r|]
    && (forall j :: 0 <= j < lead ==> IsSpace(s[j]))
    && (forall j :: lead + |r| <= j < |s| ==> IsSpace(s[j]))
  }

  /** s = lead + Trim(s) + trail with only whitespace in lead and trail. */
  lemma TrimMeaning(s: string)
    ensures exists lead: nat :: Padded(s, Trim(s), lead)
  {
    var t := TrimStart(s);
    var r := TrimEnd(t);
    var lead := |s| - |t|;
    assert r <= s[lead..];
    assert forall j :: lead + |r| <= j < |s| ==> s[j] == t[j - lead];
    assert r == Trim(s);
    assert Padded(s, Trim(s), lead);
  }

  lemma TrimStartNoop(s: string)
    requires s == [] || !IsSpace(s[0])
    ensures TrimStart(s) == s
  {
  }

  lemma TrimEndNoop(s: string)
    requires s == [] || !IsSpace(s[|s| - 1])
    ensures TrimEnd(s) == s
  {
  }

  /** `s.split(/\s+/)`: the pieces between maximal whitespace runs, with an
      empty first (last) piece when s starts (ends) with whitespace. */
  function SplitWs(s: string): (ps: seq<string>)
    ensures |ps| >= 1
    decreases |s|
  {
    var i := FirstSpace(s);
    if i == |s| then [s] else [s[..i]] + SplitWs(TrimStart(s[i..]))
  }

  /** A text includes whatever one of its suffixes includes. */
  lemma ContainsSuffix(s: string, m: nat, w: string)
    requires m <= |s| && Contains(s[m..], w)
    ensures Contains(s, w)
  {
    var j :| 0 <= j <= |s[m..]| && w <= s[m..][j..];
    assert s[m..][j..] == s[m + j..];
    ContainsAt(s, w, m + j);
  }

  /** What a piece of `s.split(/\s+/)` includes, s includes. */
  lemma {:induction false} SplitWsPiecesContained(s: string, p: string, w: string)
    requires p in SplitWs(s) && Contains(p, w)
    ensures Contains(s, w)
    decreases |s|
  {
    var i := FirstSpace(s);
    if i == |s| {
    } else if p == s[..i] {
      ContainsPrefix(s, i, w);
    } else {
      var t := TrimStart(s[i..]);
      assert p in SplitWs(t);
      SplitWsPiecesContained(t, p, w);
      ContainsSuffixOfSuffix(s, i, t, w);
    }
  }

  /** A text includes whatever one of its prefixes includes. */
  lemma ContainsPrefix(s: string, m: nat, w: string)
    requires m <= |s| && Contains(s[..m], w)
    ensures Contains(s, w)
  {
    var j :| 0 <= j <= m && w <= s[..m][j..];
    assert s[..m][j..] <= s[j..];
    ContainsAt(s, w, j);
  }

  /** A text includes whatever a suffix of one of its suffixes includes. */
  lemma ContainsSuffixOfSuffix(s: string, i: nat, t: string, w: string)
    requires i <= |s| && |t| <= |s| - i && t == s[i..][|s| - i - |t|..] && Contains(t, w)
    ensures Contains(s, w)
  {
    assert t == s[|s| - |t|..];
    ContainsSuffix(s, |s| - |t|, w);
  }

  /** `ps.join(sep)`. */
  function Join(ps: seq<string>, sep: string): string {
    if |ps| == 0 then ""
    else if |ps| == 1 then ps[0]
    else ps[0] + sep + Join(ps[1..], sep)
  }

  /** Each piece of a join is included in the joined text. */
  lemma {:induction false} JoinContainsPiece(ps: seq<string>, sep: string, j: nat, w: string)
    requires j < |ps| && Contains(ps[j], w)
    ensures Contains(Join(ps, sep), w)
  {
    if |ps| > 1 {
      if j == 0 {
        ContainsLeft(ps[0], sep + Join(ps[1..], sep), w);
        assert ps[0] + sep + Join(ps[1..], sep) == ps[0] + (sep + Join(ps[1..], sep));
      } else {
        JoinContainsPiece(ps[1..], sep, j - 1, w);
        ContainsRight(ps[0] + sep, Join(ps[1..], sep), w);
      }
    }
  }

  /** With a one-character separator that w does not contain, an occurrence of w
      in the joined text lies inside a single piece. */
  lemma {:induction false} JoinContainsOnlyPieces(ps: seq<string>, sep: char, w: string)
    requires |ps| >= 1 && sep !in w
    requires Contains(Join(ps, [sep]), w)
    ensures exists j :: 0 <= j < |ps| && Contains(ps[j], w)
  {
    if |ps| > 1 {
      ContainsAcross(ps[0], sep, Join(ps[1..], [sep]), w);
      if Contains(ps[0], w) {
        assert Contains(ps[0], w);
      } else {
        JoinContainsOnlyPieces(ps[1..], sep, w);
        var j :| 0 <= j < |ps[1..]| && Contains(ps[1..][j], w);
        assert ps[j + 1] == ps[1..][j];
      }
    }
  }

  /** The last n elements of s (`s.slice(-n)`), or all of s when it is shorter. */
  function LastN<T>(s: seq<T>, n: nat): (r: seq<T>)
    ensures |r| == if |s| <= n then |s| else n
    ensures r == s[|s| - |r|..]
  {
    if |s| <= n then s else s[|s| - n..]
  }

  function DigitChar(d: nat): (c: char)
    requires d < 10
    ensures '0' <= c <= '9'
  {
    ('0' as int + d) as char
  }

  /** `String(n)` for a non-negative integer: its decimal digits without leading zeros. */
  function NatToString(n: nat): (s: string)
    ensures |s| >= 1
    ensures forall i :: 0 <= i < |s| ==> '0' <= s[i] <= '9'
    decreases n
  {
    if n < 10 then [DigitChar(n)] else NatToString(n / 10) + [DigitChar(n % 10)]
  }

  /** `String(c).repeat(n)`. */
  function Repeat(c: char, n: nat): (r: string)
    ensures |r| == n
    ensures forall i :: 0 <= i < n ==> r[i] == c
  {
    if n == 0 then [] else [c] + Repeat(c, n - 1)
  }
}
