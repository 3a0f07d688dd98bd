/**
 Facts about sequences that several modules need, none of them about this program.

 Slices and concatenations: a slice of a slice, regrouping, an element put in front.
 NoRepeats and ToSet: a sequence repeats nothing exactly when it is as long as its set,
 and then its multiset counts each element once.
 SameElements, Without: two sequences with the same elements, less one on either side.
 Filter, CountWhere and Take: comprehensions with a condition, sums over one, and s[:n].
 Collected: per-key parts put together in some order, which holds the same elements in
 every order of the keys; this is how results of concurrent workers are gathered.

 Recursion goes from the end, as the loops that append to a list do.
 */
module Sequences {
  lemma {:induction false} SliceOfSlice<T>(s: seq<T>, a: nat, b: nat, i: nat, j: nat)
    requires a <= b <= |s| && i <= j <= b - a
    ensures s[a..b][i..j] == s[a + i..a + j]
  {
    var whole, part := s[a..b][i..j], s[a + i..a + j];
    assert |whole| == |part|;
    assert forall k :: 0 <= k < |whole| ==> whole[k] == part[k];
  }

  lemma {:induction false} PrefixOfSlice<T>(s: seq<T>, a: nat, b: nat, n: nat)
    requires a <= b <= |s| && n <= b - a
    ensures s[a..b][..n] == s[a..a + n]
  {
    SliceOfSlice(s, a, b, 0, n);
    assert s[a..b][..n] == s[a..b][0..n];
  }

  function CountWhere<T>(s: seq<T>, p: T -> bool): (n: nat)
    ensures n <= |s|
  {
    if s == [] then 0
    else CountWhere(s[..|s| - 1], p) + if p(s[|s| - 1]) then 1 else 0
  }

  lemma {:induction false} CountsNone<T>(s: seq<T>, p: T -> bool)
    ensures CountWhere(s, p) == 0 <==> forall x :: x in s ==> !p(x)
  {
    if s != [] {
      var before, last := s[..|s| - 1], s[|s| - 1];
      CountsNone(before, p);
      assert forall x :: x in s <==> x in before || x == last;
    }
  }

  lemma {:induction false} ConsLast<T>(p: T, s: seq<T>)
    requires s != []
    ensures [p] + s == ([p] + s[..|s| - 1]) + [s[|s| - 1]]
    ensures ([p] + s)[..|s|] == [p] + s[..|s| - 1]
  {
  }

  lemma {:induction false} Regroup<T>(x: seq<T>, y: seq<T>, z: seq<T>)
    ensures (x + y) + z == x + (y + z)
  {
  }

  lemma {:induction false} NothingAdded<T>(s: seq<T>)
    ensures [] + s == s && s + [] == s
  {
  }

  /** The sequence without its element at i. */
  function Without<T>(s: seq<T>, i: nat): seq<T>
    requires i < |s|
  {
    s[..i] + s[i + 1..]
  }

  lemma {:induction false} WithoutElements<T>(s: seq<T>, i: nat)
    requires i < |s|
    ensures multiset(s) == multiset(Without(s, i)) + multiset{s[i]}
    ensures forall y :: y in Without(s, i) <==> exists j :: 0 <= j < |s| && j != i && s[j] == y
  {
    assert s == s[..i] + [s[i]] + s[i + 1..];
    forall y | exists j :: 0 <= j < |s| && j != i && s[j] == y
      ensures y in Without(s, i)
    {
      var j :| 0 <= j < |s| && j != i && s[j] == y;
      assert if j < i then s[..i][j] == y else s[i + 1..][j - i - 1] == y;
    }
  }

  /** Two orders of the same elements: the last of one can be taken out of the other. */
  lemma {:induction false} SameElements<T>(a: seq<T>, b: seq<T>) returns (i: nat)
    requires multiset(a) == multiset(b) && a != []
    ensures i < |b| && b[i] == a[|a| - 1]
    ensures multiset(a[..|a| - 1]) == multiset(Without(b, i))
  {
    var before, last := a[..|a| - 1], a[|a| - 1];
    assert a == before + [last];
    assert last in multiset(a);
    assert last in b;
    i :| i < |b| && b[i] == last;
    WithoutElements(b, i);
    assert multiset(a) == multiset(before) + multiset{last};
    assert multiset(before) == multiset(a) - multiset{last} == multiset(Without(b, i));
  }

  predicate NoRepeats<T(==)>(s: seq<T>) {
    s == [] || (NoRepeats(s[..|s| - 1]) && s[|s| - 1] !in s[..|s| - 1])
  }

  function ToSet<T(==)>(s: seq<T>): set<T> {
    set x | x in s
  }

  lemma {:induction false} ToSetGrows<T>(s: seq<T>)
    requires s != []
    ensures ToSet(s) == ToSet(s[..|s| - 1]) + {s[|s| - 1]}
  {
    assert s == s[..|s| - 1] + [s[|s| - 1]];
  }

  /** len(set(s)) == len(s) is how the source asks for distinct elements. */
  lemma {:induction false} NoRepeatsIff<T>(s: seq<T>)
    ensures |ToSet(s)| <= |s|
    ensures NoRepeats(s) <==> |ToSet(s)| == |s|
  {
    if s != [] {
      NoRepeatsIff(s[..|s| - 1]);
      ToSetGrows(s);
    } else {
      assert ToSet(s) == {};
    }
  }

  lemma {:induction false} NoRepeatsCount<T>(s: seq<T>)
    ensures NoRepeats(s) <==> forall x :: x in s ==> multiset(s)[x] <= 1
  {
    if s != [] {
      var before, last := s[..|s| - 1], s[|s| - 1];
      assert s == before + [last];
      NoRepeatsCount(before);
      if last in before {
        assert multiset(s)[last] >= 2;
      }
      forall x | x in before
        ensures multiset(s)[x] == multiset(before)[x] + if x == last then 1 else 0
      {
      }
    }
  }

  lemma {:induction false} NoTwins<T>(s: seq<T>, i: nat, j: nat)
    requires NoRepeats(s) && i < j < |s|
    ensures s[i] != s[j]
  {
    if j < |s| - 1 {
      NoTwins(s[..|s| - 1], i, j);
    } else {
      assert s[..|s| - 1][i] == s[i];
    }
  }

  lemma {:induction false} CountsAll<T>(s: seq<T>, p: T -> bool)
    ensures CountWhere(s, p) == |s| <==> forall x :: x in s ==> p(x)
  {
    if s != [] {
      var before, last := s[..|s| - 1], s[|s| - 1];
      CountsAll(before, p);
      assert forall x :: x in s <==> x in before || x == last;
    }
  }

  function Take<T>(s: seq<T>, n: nat): seq<T> {
    if n < |s| then s[..n] else s
  }

  lemma {:induction false} MultiplicityPush<T>(s: seq<T>, y: T, x: T)
    ensures multiset(s + [y])[x] == multiset(s)[x] + if x == y then 1 else 0
  {
  }

  function Filter<T>(s: seq<T>, p: T -> bool): seq<T> {
    if s == [] then []
    else Filter(s[..|s| - 1], p) + if p(s[|s| - 1]) then [s[|s| - 1]] else []
  }

  lemma {:induction false} FilterElements<T>(s: seq<T>, p: T -> bool, x: T)
    ensures multiset(Filter(s, p))[x] == if p(x) then multiset(s)[x] else 0
  {
    if s != [] {
      FilterElements(s[..|s| - 1], p, x);
      assert s == s[..|s| - 1] + [s[|s| - 1]];
    }
  }

  lemma {:induction false} CountAppend<T>(s: seq<T>, t: seq<T>, p: T -> bool)
    ensures CountWhere(s + t, p) == CountWhere(s, p) + CountWhere(t, p)
  {
    if t == [] {
      NothingAdded(s);
    } else {
      CountAppend(s, t[..|t| - 1], p);
      assert (s + t)[..|s + t| - 1] == s + t[..|t| - 1];
    }
  }

  /** The elements that satisfy q are those that satisfy p. */
  lemma {:induction false} SameCount<T(!new)>(s: seq<T>, p: T -> bool, q: T -> bool)
    requires forall x :: p(x) == q(x)
    ensures CountWhere(s, p) == CountWhere(s, q)
  {
    if s != [] {
      SameCount(s[..|s| - 1], p, q);
    }
  }

  /** The elements that satisfy q are those that do not satisfy p. */
  lemma {:induction false} OthersCount<T(!new)>(s: seq<T>, p: T -> bool, q: T -> bool)
    requires forall x :: p(x) == !q(x)
    ensures CountWhere(s, p) + CountWhere(s, q) == |s|
  {
    if s != [] {
      OthersCount(s[..|s| - 1], p, q);
    }
  }

  lemma {:induction false} FilterLength<T>(s: seq<T>, p: T -> bool)
    ensures |Filter(s, p)| == CountWhere(s, p)
  {
    if s != [] {
      FilterLength(s[..|s| - 1], p);
    }
  }

  lemma {:induction false} FilterPrefix<T>(s: seq<T>, n: nat, p: T -> bool)
    requires n <= |s|
    ensures Filter(s[..n], p) <= Filter(s, p)
  {
    if n < |s| {
      FilterPrefix(s[..|s| - 1], n, p);
      assert s[..|s| - 1][..n] == s[..n];
    } else {
      assert s[..n] == s;
    }
  }

  lemma {:induction false} SameFilter<T(!new)>(s: seq<T>, p: T -> bool, q: T -> bool)
    requires forall x :: p(x) == q(x)
    ensures Filter(s, p) == Filter(s, q)
  {
    if s != [] {
      SameFilter(s[..|s| - 1], p, q);
    }
  }

  /** The parts of these numbers, one after the other. */
  function Collected<T>(part: nat -> seq<T>, order: seq<nat>): seq<T> {
    if order == [] then [] else Collected(part, order[..|order| - 1]) + part(order[|order| - 1])
  }

  lemma {:induction false} CollectedAdds<T>(part: nat -> seq<T>, a: seq<nat>, b: seq<nat>)
    ensures Collected(part, a + b) == Collected(part, a) + Collected(part, b)
  {
    if b == [] {
      assert a + b == a;
    } else {
      CollectedAdds(part, a, b[..|b| - 1]);
      assert (a + b)[..|a + b| - 1] == a + b[..|b| - 1];
    }
  }

  lemma {:induction false} CollectedWithout<T>(part: nat -> seq<T>, order: seq<nat>, i: nat)
    requires i < |order|
    ensures multiset(Collected(part, order)) == multiset(Collected(part, Without(order, i))) + multiset(part(order[i]))
  {
    var front, back := order[..i], order[i + 1..];
    assert order == (front + [order[i]]) + back;
    CollectedAdds(part, front + [order[i]], back);
    CollectedAdds(part, front, [order[i]]);
    CollectedAdds(part, front, back);
  }

  /** The parts hold the same elements in whatever order they are collected. */
  lemma {:induction false} CollectedElements<T>(part: nat -> seq<T>, a: seq<nat>, b: seq<nat>)
    requires multiset(a) == multiset(b)
    ensures multiset(Collected(part, a)) == multiset(Collected(part, b))
    decreases |a|
  {
    if a == [] {
      assert multiset(b) == multiset{};
      assert b == [];
    } else {
      var i := SameElements(a, b);
      CollectedElements(part, a[..|a| - 1], Without(b, i));
      CollectedWithout(part, b, i);
    }
  }

  lemma {:induction false} SubsetSize<T>(a: set<T>, b: set<T>)
    requires a <= b
    ensures |a| <= |b| && (|a| == |b| ==> a == b)
    decreases |a|
  {
    if a != {} {
      var x :| x in a;
      SubsetSize(a - {x}, b - {x});
      assert a == a - {x} + {x} && b == b - {x} + {x};
    }
  }
}
