/** Packing evidence blocks into the prompt: build_context (generation/service.py). */
module Context {
  import opened Ordering
  import opened Sequences

  /** A retrieval result with its rendered evidence block. */
  datatype Result = Result(rank: nat, block: string)

  const SEPARATOR: string := "\n\n"

  predicate RankBefore(a: Result, b: Result) {
    a.rank < b.rank
  }

  /** "\n\n".join(block of every result) */
  function Joined(results: seq<Result>): string {
    if results == [] then ""
    else if |results| == 1 then results[0].block
    else Joined(results[..|results| - 1]) + SEPARATOR + results[|results| - 1].block
  }

  /** What a result adds to the context after these. */
  function Added(selected: seq<Result>, r: Result): nat {
    (if selected == [] then 0 else |SEPARATOR|) + |r.block|
  }

  predicate Fits(selected: seq<Result>, r: Result, maxChars: nat) {
    |Joined(selected)| + Added(selected, r) <= maxChars
  }

  /** The results the loop has selected from the first ones. */
  function Selected(results: seq<Result>, maxChars: nat): seq<Result> {
    if results == [] then []
    else
      var before, last := Selected(results[..|results| - 1], maxChars), results[|results| - 1];
      if Fits(before, last, maxChars) then before + [last] else before
  }

  method BuildContext(results: seq<Result>, maxChars: nat) returns (context: string, selected: seq<Result>)
    ensures selected == Selected(SortBy(RankBefore, results), maxChars)
    ensures context == Joined(selected)
  {
    var sorted := SortBy(RankBefore, results);
    var used := 0;
    selected, context := [], "";
    for i := 0 to |sorted|
      invariant selected == Selected(sorted[..i], maxChars)
      invariant context == Joined(selected) && used == |context|
    {
      assert sorted[..i + 1][..i] == sorted[..i];
      var separator := if selected != [] then SEPARATOR else "";
      if used + |separator| + |sorted[i].block| <= maxChars {
        JoinedPush(selected, sorted[i]);
        context := context + separator + sorted[i].block;
        selected := selected + [sorted[i]];
        used := used + |separator| + |sorted[i].block|;
      }
    }
    assert sorted[..|sorted|] == sorted;
  }

  lemma {:induction false} JoinedPush(selected: seq<Result>, r: Result)
    ensures Joined(selected + [r])
         == Joined(selected) + (if selected == [] then "" else SEPARATOR) + r.block
    ensures |Joined(selected + [r])| == |Joined(selected)| + Added(selected, r)
  {
    assert (selected + [r])[..|selected|] == selected;
  }

  /** The results in the order in which they are considered: by rank, equal ranks as they came. */
  lemma {:induction false} ConsideredByRank(results: seq<Result>, i: nat, j: nat, rank: nat)
    ensures var sorted := SortBy(RankBefore, results);
      && multiset(sorted) == multiset(results)
      && (i < j < |sorted| ==> sorted[i].rank <= sorted[j].rank)
      && Filter(sorted, (r: Result) => r.rank == rank) == Filter(results, (r: Result) => r.rank == rank)
  {
    var sorted := SortBy(RankBefore, results);
    SortElements(RankBefore, results);
    SortSorted(RankBefore, results);
    if i < j < |sorted| {
      SortedPair(RankBefore, sorted, i, j);
    }
    SortIsStable(RankBefore, results, Result(rank, ""));
    SameFilter(sorted, Tied(RankBefore, Result(rank, "")), (r: Result) => r.rank == rank);
    SameFilter(results, Tied(RankBefore, Result(rank, "")), (r: Result) => r.rank == rank);
  }

  function Characters(blocks: seq<Result>): nat {
    if blocks == [] then 0 else Characters(blocks[..|blocks| - 1]) + |blocks[|blocks| - 1].block|
  }

  /** The blocks' characters and a blank line between any two. */
  lemma {:induction false} JoinedLength(results: seq<Result>)
    ensures |Joined(results)| == Characters(results) + if results == [] then 0 else 2 * (|results| - 1)
  {
    if results != [] {
      JoinedLength(results[..|results| - 1]);
      assert results == results[..|results| - 1] + [results[|results| - 1]];
      JoinedPush(results[..|results| - 1], results[|results| - 1]);
    }
  }

  lemma {:induction false} JoinedIs(results: seq<Result>, r: Result)
    ensures Joined([]) == ""
    ensures Joined(results + [r]) == if results == [] then r.block else Joined(results) + "\n\n" + r.block
  {
    assert (results + [r])[..|results|] == results;
  }

  /** A result is packed behind those packed before it exactly when they fit together, blank lines included. */
  lemma {:induction false} PackedIff(results: seq<Result>, maxChars: nat, i: nat)
    requires i < |results|
    ensures var packed := Selected(results[..i], maxChars);
      Selected(results[..i + 1], maxChars)
      == if Characters(packed + [results[i]]) + 2 * |packed| <= maxChars then packed + [results[i]] else packed
  {
    var packed := Selected(results[..i], maxChars);
    assert results[..i + 1][..i] == results[..i];
    JoinedLength(packed + [results[i]]);
    JoinedPush(packed, results[i]);
  }

  /** The context never exceeds its limit. */
  lemma {:induction false} ContextFits(results: seq<Result>, maxChars: nat)
    ensures |Joined(Selected(results, maxChars))| <= maxChars
  {
    if results != [] {
      ContextFits(results[..|results| - 1], maxChars);
      var before, last := Selected(results[..|results| - 1], maxChars), results[|results| - 1];
      JoinedPush(before, last);
    }
  }

  /** A block skipped where it stood would not fit behind the finished context either: nothing more can be packed. */
  lemma {:induction false} NothingMoreFits(results: seq<Result>, maxChars: nat, r: Result)
    requires r in results && r !in Selected(results, maxChars)
    ensures !Fits(Selected(results, maxChars), r, maxChars)
  {
    var before, last := Selected(results[..|results| - 1], maxChars), results[|results| - 1];
    JoinedPush(before, last);
    if r in results[..|results| - 1] {
      assert Fits(before, last, maxChars) ==> forall x :: x in before ==> x in before + [last];
      NothingMoreFits(results[..|results| - 1], maxChars, r);
    } else {
      assert r == last;
    }
  }
}
