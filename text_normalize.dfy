/** The text analyser's preprocessing: `normalizeText` (lower-case, drop
    Japanese punctuation, collapse whitespace, trim) and `isNegated` (does a
    negation word sit among the few words before a keyword).  Both analysers
    normalise their input the same way; only the canonical one reads
    negation. */
module TextNormalize {
  import opened Strings

  /** The characters `/[！？。，、]/g` removes. */
  predicate IsPunct(c: char) {
    c == '！' || c == '？' || c == '。' || c == '，' || c == '、'
  }

  /** `s.replace(/[！？。，、]/g, '')`. */
  function RemovePunct(s: string): (r: string)
    ensures |r| <= |s|
    ensures forall i :: 0 <= i < |r| ==> !IsPunct(r[i]) && r[i] in s
  {
    if s == [] then []
    else
      var rest := RemovePunct(s[1..]);
      assert forall c :: c in rest ==> c in s;
      (if IsPunct(s[0]) then [] else [s[0]]) + rest
  }

  /** `s.replace(/\s+/g, ' ')`, with `inRun` telling whether a whitespace run
      has just been replaced: every maximal whitespace run becomes one space. */
  function CollapseFrom(s: string, inRun: bool): (r: string)
    ensures forall i :: 0 <= i < |r| ==> r[i] == ' ' || (r[i] in s && !IsSpace(r[i]))
    ensures NoDoubleSpace(r)
    ensures inRun ==> r == [] || !IsSpace(r[0])
  {
    if s == [] then []
    else
      var rest := CollapseFrom(s[1..], IsSpace(s[0]));
      assert forall c :: c in s[1..] ==> c in s;
      if IsSpace(s[0]) then (if inRun then rest else [' '] + rest)
      else [s[0]] + rest
  }

  function Collapse(s: string): string {
    CollapseFrom(s, false)
  }

  ghost predicate NoDoubleSpace(s: string) {
    forall i :: 0 <= i < |s| - 1 ==> !(IsSpace(s[i]) && IsSpace(s[i + 1]))
  }

  /** A normalised text: no upper-case letter, no removed punctuation, single
      ASCII spaces between words, and no whitespace at either end. */
  ghost predicate IsNormalized(s: string) {
    && (forall i :: 0 <= i < |s| ==> !IsUpper(s[i]) && !IsPunct(s[i]) && (IsSpace(s[i]) ==> s[i] == ' '))
    && NoDoubleSpace(s)
    && (s == [] || (!IsSpace(s[0]) && !IsSpace(s[|s| - 1])))
  }

  /** `normalizeText`. */
  function Normalize(text: string): string {
    Trim(Collapse(RemovePunct(Lower(text))))
  }

  /** A character normalisation may leave behind. */
  predicate IsCleanChar(c: char) {
    !IsUpper(c) && !IsPunct(c) && (IsSpace(c) ==> c == ' ')
  }

  lemma CollapsedIsClean(text: string)
    ensures forall i :: 0 <= i < |Collapse(RemovePunct(Lower(text)))| ==>
              IsCleanChar(Collapse(RemovePunct(Lower(text)))[i])
  {
    var l := Lower(text);
    var p := RemovePunct(l);
    forall ch | ch in p
      ensures !IsUpper(ch) && !IsPunct(ch)
    {
      assert ch in l;
    }
  }

  lemma TrimIsNormalized(c: string)
    requires forall i :: 0 <= i < |c| ==> IsCleanChar(c[i])
    requires NoDoubleSpace(c)
    ensures IsNormalized(Trim(c))
  {
    var t := TrimStart(c);
    var lead := |c| - |t|;
    var n := TrimEnd(t);
    assert n == c[lead..lead + |n|];
    SliceIsClean(c, lead, lead + |n|);
  }

  lemma SliceIsClean(c: string, lo: nat, hi: nat)
    requires lo <= hi <= |c|
    requires forall i :: 0 <= i < |c| ==> IsCleanChar(c[i])
    requires NoDoubleSpace(c)
    ensures forall i :: 0 <= i < hi - lo ==> IsCleanChar(c[lo..hi][i])
    ensures NoDoubleSpace(c[lo..hi])
  {
    assert forall i :: 0 <= i < hi - lo ==> c[lo..hi][i] == c[lo + i];
  }

  /** The result of normalisation is in normal form. */
  lemma NormalizeIsNormalized(text: string)
    ensures IsNormalized(Normalize(text))
  {
    CollapsedIsClean(text);
    TrimIsNormalized(Collapse(RemovePunct(Lower(text))));
  }

  lemma {:induction false} RemovePunctNoop(s: string)
    requires forall i :: 0 <= i < |s| ==> !IsPunct(s[i])
    ensures RemovePunct(s) == s
  {
    if s != [] {
      RemovePunctNoop(s[1..]);
      assert s == [s[0]] + s[1..];
    }
  }

  lemma {:induction false} RemovePunctAppend(a: string, b: string)
    ensures RemovePunct(a + b) == RemovePunct(a) + RemovePunct(b)
  {
    if a == [] {
      assert a + b == b;
    } else {
      assert (a + b)[0] == a[0];
      assert (a + b)[1..] == a[1..] + b;
      RemovePunctAppend(a[1..], b);
    }
  }

  /** Dropping one punctuation mark between two clean stretches. */
  lemma RemovePunctDropsOne(a: string, p: char, b: string)
    requires forall i :: 0 <= i < |a| ==> !IsPunct(a[i])
    requires forall i :: 0 <= i < |b| ==> !IsPunct(b[i])
    requires IsPunct(p)
    ensures RemovePunct(a + [p] + b) == a + b
  {
    assert [p][1..] == [];
    assert RemovePunct([p]) == [];
    RemovePunctNoop(a);
    RemovePunctNoop(b);
    RemovePunctAppend(a, [p]);
    assert RemovePunct(a + [p]) == a;
    RemovePunctAppend(a + [p], b);
  }

  lemma {:induction false} CollapseNoop(s: string, inRun: bool)
    requires forall i :: 0 <= i < |s| ==> IsSpace(s[i]) ==> s[i] == ' '
    requires NoDoubleSpace(s)
    requires inRun ==> s == [] || !IsSpace(s[0])
    ensures CollapseFrom(s, inRun) == s
  {
    if s != [] {
      CollapseNoop(s[1..], IsSpace(s[0]));
      assert s == [s[0]] + s[1..];
    }
  }

  /** Normalising a normalised text changes nothing. */
  lemma NormalizeFixpoint(s: string)
    requires IsNormalized(s)
    ensures Normalize(s) == s
  {
    assert Lower(s) == s;
    RemovePunctNoop(s);
    CollapseNoop(s, false);
    TrimStartNoop(s);
    TrimEndNoop(s);
  }

  /** Normalising two plain words joined by one punctuation mark drops the mark. */
  lemma NormalizeDropsPunct(a: string, p: char, b: string)
    requires forall i :: 0 <= i < |a| ==> !IsUpper(a[i]) && !IsPunct(a[i]) && !IsSpace(a[i])
    requires forall i :: 0 <= i < |b| ==> !IsUpper(b[i]) && !IsPunct(b[i]) && !IsSpace(b[i])
    requires IsPunct(p)
    ensures Normalize(a + [p] + b) == a + b
  {
    var s := a + [p] + b;
    assert !IsUpper(p);
    assert forall i :: 0 <= i < |s| ==> !IsUpper(s[i]) by {
      forall i | 0 <= i < |s| ensures !IsUpper(s[i]) {
        if i < |a| { assert s[i] == a[i]; }
        else if i > |a| { assert s[i] == b[i - |a| - 1]; }
      }
    }
    assert Lower(s) == s;
    RemovePunctDropsOne(a, p, b);
    var t := a + b;
    assert forall i :: 0 <= i < |t| ==> !IsSpace(t[i]) by {
      forall i | 0 <= i < |t| ensures !IsSpace(t[i]) {
        if i < |a| { assert t[i] == a[i]; } else { assert t[i] == b[i - |a|]; }
      }
    }
    CollapseNoop(t, false);
    TrimStartNoop(t);
    TrimEndNoop(t);
  }

  /** `normalizeText` is idempotent. */
  lemma NormalizeIdempotent(text: string)
    ensures Normalize(Normalize(text)) == Normalize(text)
  {
    NormalizeIsNormalized(text);
    NormalizeFixpoint(Normalize(text));
  }

  /** The characters normalisation keeps: all but whitespace and punctuation. */
  function Letters(s: string): (r: string)
    ensures |r| <= |s|
  {
    if s == [] then []
    else (if IsSpace(s[0]) || IsPunct(s[0]) then [] else [s[0]]) + Letters(s[1..])
  }

  lemma {:induction false} LettersAppend(a: string, b: string)
    ensures Letters(a + b) == Letters(a) + Letters(b)
  {
    if a == [] {
      assert a + b == b;
    } else {
      assert (a + b)[0] == a[0];
      assert (a + b)[1..] == a[1..] + b;
      LettersAppend(a[1..], b);
    }
  }

  lemma {:induction false} LettersOfBlank(s: string)
    requires forall i :: 0 <= i < |s| ==> IsSpace(s[i])
    ensures Letters(s) == []
  {
    if s != [] {
      LettersOfBlank(s[1..]);
    }
  }

  lemma {:induction false} LettersRemovePunct(s: string)
    ensures Letters(RemovePunct(s)) == Letters(s)
  {
    if s != [] {
      LettersRemovePunct(s[1..]);
      LettersAppend(if IsPunct(s[0]) then [] else [s[0]], RemovePunct(s[1..]));
    }
  }

  lemma {:induction false} LettersCollapse(s: string, inRun: bool)
    ensures Letters(CollapseFrom(s, inRun)) == Letters(s)
  {
    if s != [] {
      var rest := CollapseFrom(s[1..], IsSpace(s[0]));
      LettersCollapse(s[1..], IsSpace(s[0]));
      if IsSpace(s[0]) {
        LettersAppend([' '], rest);
      } else {
        LettersAppend([s[0]], rest);
      }
    }
  }

  lemma {:induction false} LettersTrimStart(s: string)
    ensures Letters(TrimStart(s)) == Letters(s)
  {
    if s != [] && IsSpace(s[0]) {
      LettersTrimStart(s[1..]);
    }
  }

  lemma {:induction false} LettersTrimEnd(s: string)
    ensures Letters(TrimEnd(s)) == Letters(s)
  {
    if s != [] && IsSpace(s[|s| - 1]) {
      var init := s[..|s| - 1];
      LettersTrimEnd(init);
      assert s == init + [s[|s| - 1]];
      LettersAppend(init, [s[|s| - 1]]);
    }
  }

  lemma LettersTrim(s: string)
    ensures Letters(Trim(s)) == Letters(s)
  {
    LettersTrimStart(s);
    LettersTrimEnd(TrimStart(s));
  }

  /** Normalisation loses nothing but whitespace and punctuation: the other
      characters survive, lower-cased and in order. */
  lemma NormalizeKeepsLetters(text: string)
    ensures Letters(Normalize(text)) == Letters(Lower(text))
  {
    LettersTrim(Collapse(RemovePunct(Lower(text))));
    LettersCollapse(RemovePunct(Lower(text)), false);
    LettersRemovePunct(Lower(text));
  }

  /** The negation words of the canonical analyser. */
  const NegationWords: seq<string> := ["ない", "なし", "いらない", "嫌", "だめ", "避けたい"]

  /** What `isNegated` inspects: the words before the keyword's first
      occurrence, split at whitespace runs, of which the last three are
      joined with single spaces. */
  function NegationWindow(text: string, k: string): string
    requires Contains(text, k)
  {
    Join(LastN(SplitWs(text[..IndexOf(text, k)]), 3), " ")
  }

  /** `isNegated(text, keyword)`. */
  predicate IsNegated(text: string, k: string) {
    Contains(text, k) && exists n :: n in NegationWords && Contains(NegationWindow(text, k), n)
  }

  lemma NegationWordsHaveNoSpace()
    ensures forall n :: n in NegationWords ==> ' ' !in n
  {
  }

  /** A keyword is negated exactly when it occurs and one of the (at most
      three) words right before its first occurrence includes a negation
      word; a negation word cannot straddle two words. */
  lemma IsNegatedIffWordBefore(text: string, k: string)
    ensures IsNegated(text, k) <==>
      Contains(text, k) &&
      exists n, w :: n in NegationWords && w in LastN(SplitWs(text[..IndexOf(text, k)]), 3) && Contains(w, n)
  {
    if Contains(text, k) {
      var ws := LastN(SplitWs(text[..IndexOf(text, k)]), 3);
      if IsNegated(text, k) {
        NegatedWordInPiece(ws, k, NegationWindow(text, k));
      }
      if exists n, w :: n in NegationWords && w in ws && Contains(w, n) {
        var n, w :| n in NegationWords && w in ws && Contains(w, n);
        var j :| 0 <= j < |ws| && ws[j] == w;
        JoinContainsPiece(ws, " ", j, n);
      }
    }
  }

  lemma NegatedWordInPiece(ws: seq<string>, k: string, window: string)
    requires window == Join(ws, " ") && |ws| >= 1
    requires exists n :: n in NegationWords && Contains(window, n)
    ensures exists n, w :: n in NegationWords && w in ws && Contains(w, n)
  {
    var n :| n in NegationWords && Contains(window, n);
    NegationWordsHaveNoSpace();
    JoinContainsOnlyPieces(ws, ' ', n);
    var j :| 0 <= j < |ws| && Contains(ws[j], n);
    assert ws[j] in ws;
  }

  /** Negation only fires when a negation word appears before the keyword. */
  lemma NegationNeedsWordBefore(text: string, k: string)
    requires IsNegated(text, k)
    ensures exists n :: n in NegationWords && Contains(text[..IndexOf(text, k)], n)
  {
    IsNegatedIffWordBefore(text, k);
    var before := text[..IndexOf(text, k)];
    var ps := SplitWs(before);
    var n, w :| n in NegationWords && w in LastN(ps, 3) && Contains(w, n);
    assert w in ps;
    SplitWsPiecesContained(before, w, n);
  }
}
