/** `Array.prototype.sort` with a numeric comparator, which JavaScript engines
    must implement as a STABLE sort: `xs.sort((a, b) => key(b) - key(a))`
    orders by key descending and keeps equal keys in their original order.
    The ascending sorts of the source (`key(a) - key(b)`) are this sort on
    the negated key.  The sort is specified here once, by insertion, and
    three lemmas state what makes it the sort the source relies on: the
    result is ordered, it is a permutation, and for every key value the
    elements with that key appear in their original relative order. */
module StableSort {

  /** Puts x before the first element whose key is not greater than x's:
      where a stable descending sort places an element that came first. */
  function InsertDesc<T>(x: T, s: seq<T>, key: T -> real): seq<T> {
    if s == [] || key(s[0]) <= key(x) then [x] + s
    else [s[0]] + InsertDesc(x, s[1..], key)
  }

  function SortDesc<T>(s: seq<T>, key: T -> real): seq<T> {
    if s == [] then [] else InsertDesc(s[0], SortDesc(s[1..], key), key)
  }

  ghost predicate SortedDesc<T>(s: seq<T>, key: T -> real) {
    forall i, j :: 0 <= i < j < |s| ==> key(s[i]) >= key(s[j])
  }

  /** The elements of s whose key is w, in their order in s. */
  function WithKey<T>(s: seq<T>, key: T -> real, w: real): seq<T> {
    if s == [] then [] else (if key(s[0]) == w then [s[0]] else []) + WithKey(s[1..], key, w)
  }

  lemma {:induction false} InsertDescPermutation<T>(x: T, s: seq<T>, key: T -> real)
    ensures |InsertDesc(x, s, key)| == |s| + 1
    ensures multiset(InsertDesc(x, s, key)) == multiset(s) + multiset{x}
  {
    if s != [] && key(s[0]) > key(x) {
      InsertDescPermutation(x, s[1..], key);
      assert s == [s[0]] + s[1..];
    }
  }

  lemma {:induction false} InsertDescSorted<T>(x: T, s: seq<T>, key: T -> real)
    requires SortedDesc(s, key)
    ensures SortedDesc(InsertDesc(x, s, key), key)
    ensures forall y :: y in InsertDesc(x, s, key) ==> y == x || y in s
  {
    if s != [] && key(s[0]) > key(x) {
      InsertDescSorted(x, s[1..], key);
      var r := InsertDesc(x, s[1..], key);
      assert forall j :: 0 <= j < |r| ==> key(r[j]) <= key(s[0]) by {
        forall j | 0 <= j < |r| ensures key(r[j]) <= key(s[0]) {
          assert r[j] in r;
          if r[j] != x {
            var k :| 0 <= k < |s[1..]| && s[1..][k] == r[j];
            assert s[k + 1] == r[j];
          }
        }
      }
    }
  }

  /** With x known not to carry key w, inserting x leaves the w-elements alone;
      with x carrying key w, x comes before every w-element of s. */
  lemma {:induction false} InsertDescWithKey<T>(x: T, s: seq<T>, key: T -> real, w: real)
    ensures WithKey(InsertDesc(x, s, key), key, w)
         == (if key(x) == w then [x] else []) + WithKey(s, key, w)
  {
    if s == [] || key(s[0]) <= key(x) {
      assert ([x] + s)[1..] == s;
    } else {
      var r := InsertDesc(x, s[1..], key);
      InsertDescWithKey(x, s[1..], key, w);
      assert ([s[0]] + r)[1..] == r;
      var head := if key(s[0]) == w then [s[0]] else [];
      assert WithKey(InsertDesc(x, s, key), key, w) == head + WithKey(r, key, w);
      assert WithKey(s, key, w) == head + WithKey(s[1..], key, w);
      if key(x) == w {
        assert head == [];
      }
    }
  }

  /** The result is ordered by key, largest first. */
  lemma {:induction false} SortDescSorted<T>(s: seq<T>, key: T -> real)
    ensures SortedDesc(SortDesc(s, key), key)
  {
    if s != [] {
      SortDescSorted(s[1..], key);
      InsertDescSorted(s[0], SortDesc(s[1..], key), key);
    }
  }

  /** The result holds exactly the elements of s. */
  lemma {:induction false} SortDescPermutation<T>(s: seq<T>, key: T -> real)
    ensures |SortDesc(s, key)| == |s|
    ensures multiset(SortDesc(s, key)) == multiset(s)
  {
    if s != [] {
      SortDescPermutation(s[1..], key);
      InsertDescPermutation(s[0], SortDesc(s[1..], key), key);
      assert s == [s[0]] + s[1..];
    }
  }

  /** Stability: the elements sharing any one key keep their original order. */
  lemma {:induction false} SortDescStable<T>(s: seq<T>, key: T -> real, w: real)
    ensures WithKey(SortDesc(s, key), key, w) == WithKey(s, key, w)
  {
    if s != [] {
      SortDescStable(s[1..], key, w);
      InsertDescWithKey(s[0], SortDesc(s[1..], key), key, w);
    }
  }

  /** Cutting a sequence short cuts each key's elements short: those kept
      are the first ones of that key, in the same order. */
  lemma {:induction false} TakeWithKey<T>(s: seq<T>, key: T -> real, w: real, n: nat)
    requires n <= |s|
    ensures WithKey(s[..n], key, w) <= WithKey(s, key, w)
  {
    if n > 0 {
      assert s[..n][1..] == s[1..][..n - 1];
      TakeWithKey(s[1..], key, w, n - 1);
    }
  }

  /** Keeping the first n of an ordered sequence keeps the best: no element
      kept has a lower key than an element cut off. */
  lemma TakeKeepsBest<T>(s: seq<T>, key: T -> real, n: nat)
    requires SortedDesc(s, key) && n <= |s|
    ensures forall x, y :: x in s[..n] && y in multiset(s) - multiset(s[..n]) ==> key(x) >= key(y)
  {
    var kept, dropped := s[..n], s[n..];
    assert s == kept + dropped;
    assert multiset(s) == multiset(kept) + multiset(dropped);
    forall x, y | x in kept && y in multiset(s) - multiset(kept)
      ensures key(x) >= key(y)
    {
      assert y in multiset(dropped);
      var j :| 0 <= j < |dropped| && dropped[j] == y;
      var i :| 0 <= i < |kept| && kept[i] == x;
      assert s[i] == x && s[n + j] == y;
    }
  }

  /** A prefix of an ordered sequence is ordered (the `slice(0, n)` after a sort). */
  lemma TakeSorted<T>(s: seq<T>, key: T -> real, n: nat)
    requires SortedDesc(s, key) && n <= |s|
    ensures SortedDesc(s[..n], key)
  {
  }
}
