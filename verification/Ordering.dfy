/**
 Sorting by a key, as list.sort and sorted do it: stable, with ties left in place.
 The order is a parameter: before(a, b) says that a's key is strictly smaller.

 SortBy is a permutation of its argument, Sorted, and leaves ties in place (SortIsStable).
 When the order tells the elements apart, the sorted list is the only sorted permutation,
 so sorting forgets the order in which they came (SortForgetsOrder), and sorting what a
 suffix of a sorted list holds gives that suffix (SortOfSuffix). With ties the head of the
 sorted list is still the first of the least elements (SortHead), which is what min and
 sorted(...)[0] return.
 */
module Ordering {
  import opened Sequences

  /** A comparison of keys: irreflexive, transitive, and so is "not before". */
  ghost predicate StrictWeak<T(!new)>(before: (T, T) -> bool) {
    && (forall a :: !before(a, a))
    && (forall a, b, c :: before(a, b) && before(b, c) ==> before(a, c))
    && (forall a, b, c :: !before(a, b) && !before(b, c) ==> !before(a, c))
  }

  function Insert<T>(before: (T, T) -> bool, s: seq<T>, x: T): seq<T> {
    if s == [] || !before(x, s[|s| - 1]) then s + [x]
    else Insert(before, s[..|s| - 1], x) + [s[|s| - 1]]
  }

  function SortBy<T>(before: (T, T) -> bool, s: seq<T>): seq<T> {
    if s == [] then [] else Insert(before, SortBy(before, s[..|s| - 1]), s[|s| - 1])
  }

  /** Nothing in s has to come after x. */
  ghost predicate NoneAfter<T>(before: (T, T) -> bool, s: seq<T>, x: T) {
    forall y :: y in s ==> !before(x, y)
  }

  /** No element is preceded by a larger one. */
  ghost predicate Sorted<T>(before: (T, T) -> bool, s: seq<T>) {
    s == [] || (Sorted(before, s[..|s| - 1]) && NoneAfter(before, s[..|s| - 1], s[|s| - 1]))
  }

  lemma {:induction false} InsertElements<T>(before: (T, T) -> bool, s: seq<T>, x: T)
    ensures multiset(Insert(before, s, x)) == multiset(s) + multiset{x}
    ensures |Insert(before, s, x)| == |s| + 1
    ensures forall y :: y in Insert(before, s, x) <==> y in s || y == x
  {
    if s != [] && before(x, s[|s| - 1]) {
      InsertElements(before, s[..|s| - 1], x);
      assert s == s[..|s| - 1] + [s[|s| - 1]];
    }
  }

  lemma {:induction false} NotBeforeLast<T(!new)>(before: (T, T) -> bool, s: seq<T>, x: T)
    requires StrictWeak(before) && Sorted(before, s) && s != [] && !before(x, s[|s| - 1])
    ensures NoneAfter(before, s, x)
  {
    var rest, last := s[..|s| - 1], s[|s| - 1];
    forall y | y in s
      ensures !before(x, y)
    {
      assert y in rest || y == last;
      assert !before(last, y);
    }
  }

  lemma {:induction false} SortedPush<T(!new)>(before: (T, T) -> bool, s: seq<T>, x: T)
    requires Sorted(before, s) && NoneAfter(before, s, x)
    ensures Sorted(before, s + [x])
  {
    assert (s + [x])[..|s|] == s;
  }

  lemma {:induction false} InsertSorted<T(!new)>(before: (T, T) -> bool, s: seq<T>, x: T)
    requires StrictWeak(before) && Sorted(before, s)
    ensures Sorted(before, Insert(before, s, x))
  {
    if s != [] && before(x, s[|s| - 1]) {
      var rest, last := s[..|s| - 1], s[|s| - 1];
      InsertSorted(before, rest, x);
      InsertElements(before, rest, x);
      SortedPush(before, Insert(before, rest, x), last);
    } else {
      if s != [] {
        NotBeforeLast(before, s, x);
      }
      SortedPush(before, s, x);
    }
  }

  lemma {:induction false} SortElements<T>(before: (T, T) -> bool, s: seq<T>)
    ensures multiset(SortBy(before, s)) == multiset(s)
    ensures |SortBy(before, s)| == |s|
    ensures forall y :: y in SortBy(before, s) <==> y in s
  {
    if s != [] {
      var rest, last := s[..|s| - 1], s[|s| - 1];
      SortElements(before, rest);
      InsertElements(before, SortBy(before, rest), last);
      assert s == rest + [last];
    }
  }

  lemma {:induction false} SortSorted<T(!new)>(before: (T, T) -> bool, s: seq<T>)
    requires StrictWeak(before)
    ensures Sorted(before, SortBy(before, s))
  {
    if s != [] {
      SortSorted(before, s[..|s| - 1]);
      InsertSorted(before, SortBy(before, s[..|s| - 1]), s[|s| - 1]);
    }
  }

  lemma {:induction false} SortedPair<T>(before: (T, T) -> bool, s: seq<T>, i: nat, j: nat)
    requires Sorted(before, s) && i < j < |s|
    ensures !before(s[j], s[i])
  {
    var rest := s[..|s| - 1];
    if j < |rest| {
      SortedPair(before, rest, i, j);
    } else {
      assert rest[i] in rest;
    }
  }

  /** The key of x is the key of y. */
  function Tied<T>(before: (T, T) -> bool, y: T): T -> bool {
    x => !before(x, y) && !before(y, x)
  }

  lemma {:induction false} InsertIsStable<T(!new)>(before: (T, T) -> bool, s: seq<T>, x: T, y: T)
    requires StrictWeak(before)
    ensures Filter(Insert(before, s, x), Tied(before, y)) == Filter(s + [x], Tied(before, y))
  {
    assert (s + [x])[..|s|] == s;
    if s != [] && before(x, s[|s| - 1]) {
      var rest, last := s[..|s| - 1], s[|s| - 1];
      InsertIsStable(before, rest, x, y);
      assert (rest + [x])[..|rest|] == rest;
      assert (Insert(before, rest, x) + [last])[..|Insert(before, rest, x)|] == Insert(before, rest, x);
    }
  }

  /** Elements with one key keep the order they came in. */
  lemma {:induction false} SortIsStable<T(!new)>(before: (T, T) -> bool, s: seq<T>, y: T)
    requires StrictWeak(before)
    ensures Filter(SortBy(before, s), Tied(before, y)) == Filter(s, Tied(before, y))
  {
    if s != [] {
      var rest, last := s[..|s| - 1], s[|s| - 1];
      SortIsStable(before, rest, y);
      InsertIsStable(before, SortBy(before, rest), last, y);
      assert (SortBy(before, rest) + [last])[..|SortBy(before, rest)|] == SortBy(before, rest);
    }
  }

  /** No two elements of s have the same key. */
  ghost predicate Distinguishes<T>(before: (T, T) -> bool, s: seq<T>) {
    forall a, b :: a in s && b in s && a != b ==> before(a, b) || before(b, a)
  }

  /** The head of a sorted sequence precedes everything in it. */
  lemma {:induction false} HeadIsLeast<T>(before: (T, T) -> bool, s: seq<T>, y: T)
    requires Sorted(before, s) && y in s
    ensures s[0] == y || !before(y, s[0])
  {
    var j :| 0 <= j < |s| && s[j] == y;
    if j > 0 {
      SortedPair(before, s, 0, j);
    }
  }

  lemma {:induction false} LastOf<T>(before: (T, T) -> bool, s: seq<T>, a: T, t: seq<T>, b: T)
    requires NoneAfter(before, s, a) && NoneAfter(before, t, b)
    requires multiset(s + [a]) == multiset(t + [b]) && Distinguishes(before, s + [a])
    ensures a == b
  {
    assert a in multiset(t + [b]) && b in multiset(s + [a]);
    assert a in t + [b] && b in s + [a];
    assert a in s + [a];
  }

  lemma {:induction false} DropLast<T>(before: (T, T) -> bool, s: seq<T>, a: T, t: seq<T>)
    requires multiset(s + [a]) == multiset(t + [a]) && Distinguishes(before, s + [a])
    ensures multiset(s) == multiset(t) && Distinguishes(before, s)
  {
    assert multiset(s + [a]) == multiset(s) + multiset{a};
    assert multiset(t + [a]) == multiset(t) + multiset{a};
    assert multiset(s) == multiset(s + [a]) - multiset{a};
    forall x, y | x in s && y in s && x != y
      ensures before(x, y) || before(y, x)
    {
      assert x in s + [a] && y in s + [a];
    }
  }

  /** With distinct keys, the elements alone determine the sorted order. */
  lemma {:induction false} SortedUnique<T>(before: (T, T) -> bool, s: seq<T>, t: seq<T>)
    requires Sorted(before, s) && Sorted(before, t)
    requires multiset(s) == multiset(t) && Distinguishes(before, s)
    ensures s == t
    decreases |s|
  {
    assert |multiset(s)| == |s| && |multiset(t)| == |t|;
    if s != [] {
      var s', a := s[..|s| - 1], s[|s| - 1];
      var t', b := t[..|t| - 1], t[|t| - 1];
      assert s == s' + [a] && t == t' + [b];
      LastOf(before, s', a, t', b);
      DropLast(before, s', a, t');
      SortedUnique(before, s', t');
    }
  }

  /** Sorting forgets the order of its input when all keys differ. */
  lemma {:induction false} SortForgetsOrder<T(!new)>(before: (T, T) -> bool, s: seq<T>, t: seq<T>)
    requires StrictWeak(before) && multiset(s) == multiset(t) && Distinguishes(before, s)
    ensures SortBy(before, s) == SortBy(before, t)
  {
    SortSorted(before, s);
    SortSorted(before, t);
    SortElements(before, s);
    SortElements(before, t);
    SortedUnique(before, SortBy(before, s), SortBy(before, t));
  }

  /** The first of the elements that no other precedes: what sorting puts first. */
  function First<T>(before: (T, T) -> bool, s: seq<T>): (i: nat)
    requires s != []
    ensures i < |s|
  {
    if |s| == 1 then 0
    else
      var i := First(before, s[..|s| - 1]);
      if before(s[|s| - 1], s[i]) then |s| - 1 else i
  }

  lemma {:induction false} InsertHead<T(!new)>(before: (T, T) -> bool, s: seq<T>, x: T)
    requires StrictWeak(before) && Sorted(before, s) && s != []
    ensures Insert(before, s, x) != []
    ensures Insert(before, s, x)[0] == if before(x, s[0]) then x else s[0]
  {
    var rest, last := s[..|s| - 1], s[|s| - 1];
    if before(x, last) {
      if rest != [] {
        InsertHead(before, rest, x);
        assert rest[0] == s[0];
      }
    } else {
      NotBeforeLast(before, s, x);
      assert s[0] in s;
    }
  }

  lemma {:induction false} SortHead<T(!new)>(before: (T, T) -> bool, s: seq<T>)
    requires StrictWeak(before) && s != []
    ensures SortBy(before, s) != [] && SortBy(before, s)[0] == s[First(before, s)]
  {
    SortElements(before, s);
    if |s| > 1 {
      var rest, last := s[..|s| - 1], s[|s| - 1];
      SortHead(before, rest);
      SortSorted(before, rest);
      InsertHead(before, SortBy(before, rest), last);
    }
  }

  /** It precedes everything in front of it, and nothing precedes it. */
  lemma {:induction false} FirstIsLeast<T(!new)>(before: (T, T) -> bool, s: seq<T>, j: nat)
    requires StrictWeak(before) && j < |s|
    ensures !before(s[j], s[First(before, s)])
    ensures j < First(before, s) ==> before(s[First(before, s)], s[j])
  {
    if |s| > 1 {
      var rest, last := s[..|s| - 1], s[|s| - 1];
      var i := First(before, rest);
      if j < |rest| {
        FirstIsLeast(before, rest, j);
      }
      assert before(last, s[i]) && !before(s[j], s[i]) ==> before(last, s[j]);
    }
  }

  /** With distinct keys and no repetition a sorted sequence is strictly ordered. */
  lemma {:induction false} StrictPair<T(!new)>(before: (T, T) -> bool, s: seq<T>, i: nat, j: nat)
    requires Sorted(before, s) && Distinguishes(before, s) && NoRepeats(s) && i < j < |s|
    ensures before(s[i], s[j])
  {
    SortedPair(before, s, i, j);
    NoTwins(s, i, j);
    assert s[i] in s && s[j] in s;
  }

  lemma {:induction false} SuffixSorted<T>(before: (T, T) -> bool, s: seq<T>, p: nat)
    requires Sorted(before, s) && p <= |s|
    ensures Sorted(before, s[p..])
  {
    if p < |s| {
      var t := s[p..];
      var front, last := t[..|t| - 1], t[|t| - 1];
      SuffixSorted(before, s[..|s| - 1], p);
      assert front == s[..|s| - 1][p..];
      forall y | y in front
        ensures !before(last, y)
      {
        assert y in s[..|s| - 1];
      }
    }
  }

  /** Sorting the elements of a suffix of a sorted sequence gives that suffix. */
  lemma {:induction false} SortOfSuffix<T(!new)>(before: (T, T) -> bool, s: seq<T>, p: nat, w: seq<T>)
    requires StrictWeak(before) && Sorted(before, s) && Distinguishes(before, s) && p <= |s|
    requires multiset(w) == multiset(s[p..])
    ensures SortBy(before, w) == s[p..]
  {
    SuffixSorted(before, s, p);
    SortSorted(before, w);
    SortElements(before, w);
    forall a, b | a in s[p..] && b in s[p..] && a != b
      ensures before(a, b) || before(b, a)
    {
      assert a in s && b in s;
    }
    SortedUnique(before, s[p..], SortBy(before, w));
  }
}
