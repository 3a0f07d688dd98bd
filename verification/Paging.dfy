/**
 Following next_cursor through a user's research history (api/routers/public/research.py,
 repositories/research.py). Times and ids are numbers in their order; the cursor's text
 form decodes to what it was made from.

 A page is a query for one row more than the limit, newest first, after the cursor. The
 table may change between two pages: requests of this user that are newer than all those
 there were when the first page was read may be added, and anything of other users, and
 the pages still show exactly the requests of the first moment.
 */
module Paging {
  import opened Wrappers
  import opened Sequences
  import opened Ordering

  datatype Request = Request(created: nat, id: nat, user: nat)

  datatype Cursor = Cursor(created: nat, id: nat)

  /** ORDER BY created_at DESC, id DESC */
  predicate Newer(a: Request, b: Request) {
    a.created > b.created || (a.created == b.created && a.id > b.id)
  }

  function CursorOf(r: Request): Cursor {
    Cursor(r.created, r.id)
  }

  /** (created_at, id) < cursor */
  predicate Below(r: Request, cursor: Option<Cursor>) {
    match cursor
    case None => true
    case Some(c) => r.created < c.created || (r.created == c.created && r.id < c.id)
  }

  function Wanted(user: nat, cursor: Option<Cursor>): Request -> bool {
    (r: Request) => r.user == user && Below(r, cursor)
  }

  /** ResearchRepository.history */
  function History(rows: seq<Request>, user: nat, cursor: Option<Cursor>, limit: nat): seq<Request> {
    Take(SortBy(Newer, Filter(rows, Wanted(user, cursor))), limit)
  }

  /** All of a user's requests, newest first. */
  function All(rows: seq<Request>, user: nat): seq<Request> {
    SortBy(Newer, Filter(rows, Wanted(user, None)))
  }

  method ResearchHistory(rows: seq<Request>, user: nat, limit: nat, cursor: Option<Cursor>)
    returns (items: seq<Request>, next: Option<Cursor>)
    requires 0 < limit
    ensures items == History(rows, user, cursor, limit)
    ensures var found := History(rows, user, cursor, limit + 1);
      next == if |found| > limit then Some(CursorOf(found[limit - 1])) else None
  {
    items := History(rows, user, cursor, limit + 1);
    next := None;
    if |items| > limit {
      next := Some(CursorOf(items[limit - 1]));
      items := items[..limit];
    }
  }

  /** Ids are primary keys. */
  ghost predicate DistinctIds(rows: seq<Request>) {
    NoRepeats(rows) && forall a, b :: a in rows && b in rows && a.id == b.id ==> a == b
  }

  lemma {:induction false} NewerIsWeak()
    ensures StrictWeak(Newer)
  {
  }

  lemma {:induction false} AllMembers(rows: seq<Request>, user: nat, x: Request)
    ensures multiset(All(rows, user))[x] == if x.user == user then multiset(rows)[x] else 0
    ensures x in All(rows, user) <==> x in rows && x.user == user
  {
    SortElements(Newer, Filter(rows, Wanted(user, None)));
    FilterElements(rows, Wanted(user, None), x);
    assert x in All(rows, user) <==> multiset(All(rows, user))[x] > 0;
    assert x in rows <==> multiset(rows)[x] > 0;
  }

  lemma {:induction false} FilteredKeysDiffer(rows: seq<Request>, wanted: Request -> bool)
    requires DistinctIds(rows)
    ensures Distinguishes(Newer, Filter(rows, wanted)) && NoRepeats(Filter(rows, wanted))
  {
    var found := Filter(rows, wanted);
    forall x | x in found
      ensures x in rows && multiset(found)[x] <= 1
    {
      FilterElements(rows, wanted, x);
      NoRepeatsCount(rows);
      assert multiset(found)[x] > 0;
      assert multiset(rows)[x] > 0;
    }
    NoRepeatsCount(found);
  }

  lemma {:induction false} AllIsOrdered(rows: seq<Request>, user: nat)
    requires DistinctIds(rows)
    ensures Sorted(Newer, All(rows, user)) && Distinguishes(Newer, All(rows, user)) && NoRepeats(All(rows, user))
  {
    var own := Filter(rows, Wanted(user, None));
    NewerIsWeak();
    FilteredKeysDiffer(rows, Wanted(user, None));
    SortSorted(Newer, own);
    SortElements(Newer, own);
    NoRepeatsCount(own);
    NoRepeatsCount(All(rows, user));
  }

  lemma {:induction false} AllIsStrict(rows: seq<Request>, user: nat, i: nat, j: nat)
    requires DistinctIds(rows) && i < j < |All(rows, user)|
    ensures Newer(All(rows, user)[i], All(rows, user)[j])
  {
    AllIsOrdered(rows, user);
    StrictPair(Newer, All(rows, user), i, j);
  }

  /** The cursor after p of these requests. */
  predicate After(all: seq<Request>, cursor: Option<Cursor>, p: nat) {
    p <= |all| && cursor == if p == 0 then None else Some(CursorOf(all[p - 1]))
  }

  predicate Standing(rows: seq<Request>, user: nat, cursor: Option<Cursor>, p: nat) {
    After(All(rows, user), cursor, p)
  }

  lemma {:induction false} CursorSplits(rows: seq<Request>, user: nat, cursor: Option<Cursor>, p: nat, i: nat)
    requires DistinctIds(rows) && Standing(rows, user, cursor, p) && i < |All(rows, user)|
    ensures Below(All(rows, user)[i], cursor) <==> i >= p
  {
    if 0 < p {
      if i < p - 1 {
        AllIsStrict(rows, user, i, p - 1);
      } else if i >= p {
        AllIsStrict(rows, user, p - 1, i);
      }
    }
  }

  lemma {:induction false} SidesOfCursor(rows: seq<Request>, user: nat, cursor: Option<Cursor>, p: nat, x: Request)
    requires DistinctIds(rows) && Standing(rows, user, cursor, p)
    ensures x in All(rows, user)[..p] ==> !Below(x, cursor)
    ensures x in All(rows, user)[p..] ==> Below(x, cursor)
  {
    var all := All(rows, user);
    if x in all[..p] {
      var i :| 0 <= i < p && all[..p][i] == x;
      CursorSplits(rows, user, cursor, p, i);
    }
    if x in all[p..] {
      var i :| 0 <= i < |all| - p && all[p..][i] == x;
      CursorSplits(rows, user, cursor, p, p + i);
    }
  }

  lemma {:induction false} SplitCount<T>(s: seq<T>, p: nat, x: T)
    requires p <= |s|
    ensures multiset(s)[x] == multiset(s[..p])[x] + multiset(s[p..])[x]
    ensures x !in s[..p] ==> multiset(s[..p])[x] == 0
    ensures x !in s[p..] ==> multiset(s[p..])[x] == 0
  {
    assert s == s[..p] + s[p..];
  }

  lemma {:induction false} BelowCount(rows: seq<Request>, user: nat, cursor: Option<Cursor>, p: nat, x: Request)
    requires DistinctIds(rows) && Standing(rows, user, cursor, p)
    ensures multiset(All(rows, user)[p..])[x] == multiset(Filter(rows, Wanted(user, cursor)))[x]
  {
    AllMembers(rows, user, x);
    FilterElements(rows, Wanted(user, cursor), x);
    SidesOfCursor(rows, user, cursor, p, x);
    SplitCount(All(rows, user), p, x);
  }

  /** The rows below the cursor are the ones not visited yet, in order. */
  lemma {:induction false} RestIsBelow(rows: seq<Request>, user: nat, cursor: Option<Cursor>, p: nat)
    requires DistinctIds(rows) && Standing(rows, user, cursor, p)
    ensures SortBy(Newer, Filter(rows, Wanted(user, cursor))) == All(rows, user)[p..]
  {
    var all, wanted := All(rows, user), Filter(rows, Wanted(user, cursor));
    forall x
      ensures multiset(all[p..])[x] == multiset(wanted)[x]
    {
      BelowCount(rows, user, cursor, p, x);
    }
    assert multiset(all[p..]) == multiset(wanted);
    NewerIsWeak();
    AllIsOrdered(rows, user);
    SortOfSuffix(Newer, all, p, wanted);
  }

  /** The next n of s after the first p, with one more looked up to see whether more remain. */
  ghost predicate IsPage<T(!new)>(s: seq<T>, p: nat, n: nat, items: seq<T>, found: seq<T>)
    requires p <= |s| && 0 < n
  {
    var q := if p + n < |s| then p + n else |s|;
    && items == s[p..q]
    && (|found| > n <==> q < |s|)
    && (q < |s| ==> found[n - 1] == s[q - 1])
  }

  lemma {:induction false} TakeIsPage<T(!new)>(s: seq<T>, p: nat, n: nat)
    requires p <= |s| && 0 < n
    ensures IsPage(s, p, n, Take(s[p..], n), Take(s[p..], n + 1))
  {
  }

  /** One page: the next requests in order, and a cursor exactly when more remain. */
  lemma {:induction false} PageIsNext(rows: seq<Request>, user: nat, cursor: Option<Cursor>, p: nat, limit: nat)
    requires DistinctIds(rows) && Standing(rows, user, cursor, p) && 0 < limit
    ensures IsPage(
              All(rows, user), p, limit, History(rows, user, cursor, limit), History(rows, user, cursor, limit + 1))
  {
    RestIsBelow(rows, user, cursor, p);
    TakeIsPage(All(rows, user), p, limit);
  }

  /**
   Between pages the table may have gained requests of this user, all newer than the ones
   there were at the start, and anything of other users.
   */
  ghost predicate Grown(rows: seq<Request>, later: seq<Request>, user: nat) {
    && DistinctIds(later)
    && (forall r :: r in rows && r.user == user ==> r in later)
    && (forall r, s :: r in later && r.user == user && r !in rows && s in rows && s.user == user ==> Newer(r, s))
  }

  lemma {:induction false} OnlyOnce(rows: seq<Request>, x: Request)
    requires DistinctIds(rows)
    ensures multiset(rows)[x] == if x in rows then 1 else 0
  {
    NoRepeatsCount(rows);
    assert x in rows <==> multiset(rows)[x] > 0;
  }

  lemma {:induction false} BelowWasThere(
    rows: seq<Request>, later: seq<Request>, user: nat, cursor: Option<Cursor>, p: nat, x: Request)
    requires DistinctIds(rows) && Grown(rows, later, user) && 0 < p && Standing(rows, user, cursor, p)
    requires x.user == user && Below(x, cursor)
    ensures x in later <==> x in rows
  {
    var last := All(rows, user)[p - 1];
    assert last in All(rows, user);
    AllMembers(rows, user, last);
  }

  /** Past the first page the new requests are above the cursor, so a page shows what it would have shown. */
  lemma {:induction false} NewRequestsStayOut(
    rows: seq<Request>, later: seq<Request>, user: nat, cursor: Option<Cursor>, p: nat, limit: nat)
    requires DistinctIds(rows) && Grown(rows, later, user) && 0 < p && Standing(rows, user, cursor, p)
    ensures History(later, user, cursor, limit) == History(rows, user, cursor, limit)
  {
    var a, b := Filter(rows, Wanted(user, cursor)), Filter(later, Wanted(user, cursor));
    forall x
      ensures multiset(a)[x] == multiset(b)[x]
    {
      FilterElements(rows, Wanted(user, cursor), x);
      FilterElements(later, Wanted(user, cursor), x);
      OnlyOnce(rows, x);
      OnlyOnce(later, x);
      if x.user == user && Below(x, cursor) {
        BelowWasThere(rows, later, user, cursor, p, x);
      }
    }
    assert multiset(a) == multiset(b);
    NewerIsWeak();
    FilteredKeysDiffer(rows, Wanted(user, cursor));
    SortForgetsOrder(Newer, a, b);
  }

  /** What a page adds to the p requests in front of it. */
  ghost predicate Continues(all: seq<Request>, p: nat, limit: nat, items: seq<Request>, found: seq<Request>)
    requires p <= |all| && 0 < limit
  {
    && all[..p] + items <= all
    && (|found| <= limit ==> all[..p] + items == all)
    && (|found| > limit ==> items != [] && After(all, Some(CursorOf(found[limit - 1])), p + |items|))
  }

  lemma {:induction false} PageContinues(rows: seq<Request>, user: nat, cursor: Option<Cursor>, p: nat, limit: nat)
    requires DistinctIds(rows) && Standing(rows, user, cursor, p) && 0 < limit
    ensures Continues(
              All(rows, user), p, limit, History(rows, user, cursor, limit), History(rows, user, cursor, limit + 1))
  {
    PageIsNext(rows, user, cursor, p, limit);
    var all := All(rows, user);
    var q := if p + limit < |all| then p + limit else |all|;
    assert all[..p] + all[p..q] == all[..q];
    assert all[..|all|] == all;
  }

  /** The page a client reads after p requests, the first from the table itself and later ones from a grown one. */
  lemma {:induction false} NextPage(
    rows: seq<Request>, table: seq<Request>, user: nat, cursor: Option<Cursor>, p: nat, limit: nat)
    requires DistinctIds(rows) && Standing(rows, user, cursor, p) && 0 < limit
    requires if p == 0 then table == rows else Grown(rows, table, user)
    ensures Continues(
              All(rows, user), p, limit, History(table, user, cursor, limit), History(table, user, cursor, limit + 1))
  {
    PageContinues(rows, user, cursor, p, limit);
    if p > 0 {
      NewRequestsStayOut(rows, table, user, cursor, p, limit);
      NewRequestsStayOut(rows, table, user, cursor, p, limit + 1);
    }
  }

  /**
   A client that follows next_cursor: it sees every request there was at the start once,
   newest first, and stops, for every page size and whatever newer requests arrive between
   two pages; tables(k) is the table when page k is read.
   */
  method FollowCursors(ghost rows: seq<Request>, tables: nat -> seq<Request>, user: nat, limit: nat)
    returns (visited: seq<Request>)
    requires 0 < limit && DistinctIds(rows) && tables(0) == rows
    requires forall k: nat :: k > 0 ==> Grown(rows, tables(k), user)
    ensures visited == All(rows, user)
  {
    visited := [];
    var cursor: Option<Cursor> := None;
    var k: nat := 0;
    ghost var all := All(rows, user);
    while true
      invariant visited <= all && After(all, cursor, |visited|)
      invariant k > 0 <==> visited != []
      decreases |all| - |visited|
    {
      var items, next := ResearchHistory(tables(k), user, limit, cursor);
      NextPage(rows, tables(k), user, cursor, |visited|, limit);
      assert visited == all[..|visited|];
      visited := visited + items;
      if next.None? {
        break;
      }
      cursor := next;
      k := k + 1;
    }
  }

  /** The requests come out in strictly descending (created_at, id), none twice. */
  lemma {:induction false} VisitIsStrict(rows: seq<Request>, user: nat)
    requires DistinctIds(rows)
    ensures var all := All(rows, user);
      && (forall i, j :: 0 <= i < j < |all| ==> Newer(all[i], all[j]))
      && (forall r :: r in all <==> r in rows && r.user == user)
  {
    var all := All(rows, user);
    forall i, j | 0 <= i < j < |all|
      ensures Newer(all[i], all[j])
    {
      AllIsStrict(rows, user, i, j);
    }
    forall r
      ensures r in all <==> r in rows && r.user == user
    {
      AllMembers(rows, user, r);
    }
  }
}
