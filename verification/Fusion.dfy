/**
 Fusing a keyword and a vector ranking (_fuse, normalize_scores, retrieve in
 retrieval/service.py). Chunk ids are numbers in the order of their fixed-length
 hexadecimal strings; scores are exact.
 */
module Fusion {
  import opened Wrappers
  import opened Sequences
  import opened Ordering

  datatype Candidate = Candidate(id: nat, rank: nat, score: real)

  datatype Sources = Sources(keyword: seq<Candidate>, vector: seq<Candidate>)

  datatype Strategy = WeightedHybrid(alpha: real) | Rrf(k: nat)

  datatype Scored = Scored(score: real, best: nat, id: nat)

  datatype Result = Result(id: nat, rank: nat, score: real)

  const NO_RANK: nat := 1000000000

  // ----- scores -----------------------------------------------------------

  /** A dictionary built from the list keeps the last candidate of an id. */
  function Find(list: seq<Candidate>, id: nat): (r: Option<Candidate>)
    ensures r.Some? ==> r.value in list && r.value.id == id
    ensures r.None? ==> forall c :: c in list ==> c.id != id
  {
    if list == [] then None
    else if list[|list| - 1].id == id then Some(list[|list| - 1])
    else Find(list[..|list| - 1], id)
  }

  function Low(list: seq<Candidate>): real
    requires list != []
  {
    var last := list[|list| - 1].score;
    if |list| == 1 then last
    else
      var low := Low(list[..|list| - 1]);
      if last < low then last else low
  }

  function High(list: seq<Candidate>): real
    requires list != []
  {
    var last := list[|list| - 1].score;
    if |list| == 1 then last
    else
      var high := High(list[..|list| - 1]);
      if last > high then last else high
  }

  lemma {:induction false} WithinBounds(list: seq<Candidate>, c: Candidate)
    requires c in list
    ensures Low(list) <= c.score <= High(list)
  {
    var before, last := list[..|list| - 1], list[|list| - 1];
    if before != [] && c != last {
      WithinBounds(before, c);
    }
  }

  function Share(low: real, high: real, score: real): real {
    if high == low then 1.0 else (score - low) / (high - low)
  }

  /** normalize_scores(list).get(id, 0.0) */
  function Normalized(list: seq<Candidate>, id: nat): real {
    match Find(list, id)
    case None => 0.0
    case Some(c) => Share(Low(list), High(list), c.score)
  }

  function Reciprocal(k: nat, list: seq<Candidate>, id: nat): real {
    match Find(list, id)
    case None => 0.0
    case Some(c) => 1.0 / (k + c.rank + 1) as real
  }

  function RankOr(list: seq<Candidate>, id: nat): nat {
    match Find(list, id)
    case None => NO_RANK
    case Some(c) => c.rank
  }

  function Min(a: nat, b: nat): nat {
    if a < b then a else b
  }

  function Blend(alpha: real, vector: real, keyword: real): real {
    alpha * vector + (1.0 - alpha) * keyword
  }

  function Score(s: Sources, strategy: Strategy, id: nat): real {
    match strategy
    case WeightedHybrid(alpha) => Blend(alpha, Normalized(s.vector, id), Normalized(s.keyword, id))
    case Rrf(k) => Reciprocal(k, s.keyword, id) + Reciprocal(k, s.vector, id)
  }

  function ScoredAt(s: Sources, strategy: Strategy, id: nat): Scored {
    Scored(Score(s, strategy, id), Min(RankOr(s.keyword, id), RankOr(s.vector, id)), id)
  }

  // ----- the fused ranking ------------------------------------------------

  /** The keys of a dictionary built from the list, in insertion order. */
  function Ids(list: seq<Candidate>): (r: seq<nat>)
    ensures forall id :: id in r <==> exists c :: c in list && c.id == id
  {
    if list == [] then []
    else
      var before, last := Ids(list[..|list| - 1]), list[|list| - 1];
      assert forall c :: c in list <==> c in list[..|list| - 1] || c == last;
      if last.id in before then before else before + [last.id]
  }

  /** A higher score first, then a better source rank, then the smaller id. */
  predicate Before(a: Scored, b: Scored) {
    a.score > b.score
    || (a.score == b.score && (a.best < b.best || (a.best == b.best && a.id < b.id)))
  }

  function ScoredOf(s: Sources, strategy: Strategy, ids: seq<nat>): (r: seq<Scored>)
    ensures |r| == |ids|
  {
    if ids == [] then []
    else ScoredOf(s, strategy, ids[..|ids| - 1]) + [ScoredAt(s, strategy, ids[|ids| - 1])]
  }

  function Numbered(scored: seq<Scored>): (r: seq<Result>)
    ensures |r| == |scored|
    ensures forall i :: 0 <= i < |r| ==> r[i] == Result(scored[i].id, i + 1, scored[i].score)
  {
    if scored == [] then []
    else
      var last := scored[|scored| - 1];
      Numbered(scored[..|scored| - 1]) + [Result(last.id, |scored|, last.score)]
  }

  function Order(s: Sources, strategy: Strategy): seq<Scored> {
    SortBy(Before, ScoredOf(s, strategy, Ids(s.keyword + s.vector)))
  }

  function Fused(s: Sources, strategy: Strategy): seq<Result> {
    Numbered(Order(s, strategy))
  }

  // ----- what the fused list is -------------------------------------------

  lemma {:induction false} IdsDoNotRepeat(list: seq<Candidate>)
    ensures NoRepeats(Ids(list))
  {
    if list != [] {
      IdsDoNotRepeat(list[..|list| - 1]);
      var before := Ids(list[..|list| - 1]);
      assert (before + [list[|list| - 1].id])[..|before|] == before;
    }
  }

  lemma {:induction false} ScoredElements(s: Sources, strategy: Strategy, ids: seq<nat>, x: Scored)
    requires NoRepeats(ids)
    ensures multiset(ScoredOf(s, strategy, ids))[x] == if x.id in ids && x == ScoredAt(s, strategy, x.id) then 1 else 0
  {
    if ids != [] {
      var before, last := ids[..|ids| - 1], ids[|ids| - 1];
      ScoredElements(s, strategy, before, x);
      ScoredPush(s, strategy, ids, x);
      CountedOnce(ids, x.id, x == ScoredAt(s, strategy, x.id));
    }
  }

  lemma {:induction false} CountedOnce(ids: seq<nat>, id: nat, counts: bool)
    requires ids != [] && NoRepeats(ids)
    ensures var before, last := ids[..|ids| - 1], ids[|ids| - 1];
      (if id in before && counts then 1 else 0) + (if id == last && counts then 1 else 0)
      == if id in ids && counts then 1 else 0
  {
    assert ids == ids[..|ids| - 1] + [ids[|ids| - 1]];
  }

  lemma {:induction false} ScoredPush(s: Sources, strategy: Strategy, ids: seq<nat>, x: Scored)
    requires ids != []
    ensures var before, last := ids[..|ids| - 1], ids[|ids| - 1];
      multiset(ScoredOf(s, strategy, ids))[x]
      == multiset(ScoredOf(s, strategy, before))[x]
         + if x.id == last && x == ScoredAt(s, strategy, x.id) then 1 else 0
  {
    var before, last := ids[..|ids| - 1], ids[|ids| - 1];
    MultiplicityPush(ScoredOf(s, strategy, before), ScoredAt(s, strategy, last), x);
  }

  lemma {:induction false} ScoredMembers(s: Sources, strategy: Strategy, x: Scored)
    ensures x in ScoredOf(s, strategy, Ids(s.keyword + s.vector))
       <==> x.id in Ids(s.keyword + s.vector) && x == ScoredAt(s, strategy, x.id)
  {
    IdsDoNotRepeat(s.keyword + s.vector);
    ScoredElements(s, strategy, Ids(s.keyword + s.vector), x);
    assert x in ScoredOf(s, strategy, Ids(s.keyword + s.vector))
      <==> multiset(ScoredOf(s, strategy, Ids(s.keyword + s.vector)))[x] > 0;
  }

  predicate Retrieved(s: Sources, id: nat) {
    Find(s.keyword, id).Some? || Find(s.vector, id).Some?
  }

  lemma {:induction false} RetrievedIff(s: Sources, id: nat)
    ensures id in Ids(s.keyword + s.vector) <==> Retrieved(s, id)
  {
    if Retrieved(s, id) {
      var c := if Find(s.keyword, id).Some? then Find(s.keyword, id).value else Find(s.vector, id).value;
      assert c in s.keyword + s.vector;
    }
  }

  lemma {:induction false} OrderMembers(s: Sources, strategy: Strategy, x: Scored)
    ensures x in Order(s, strategy) <==> Retrieved(s, x.id) && x == ScoredAt(s, strategy, x.id)
  {
    SortElements(Before, ScoredOf(s, strategy, Ids(s.keyword + s.vector)));
    ScoredMembers(s, strategy, x);
    RetrievedIff(s, x.id);
  }

  lemma {:induction false} OrderIsStrict(s: Sources, strategy: Strategy, i: nat, j: nat)
    requires i < j < |Order(s, strategy)|
    ensures Before(Order(s, strategy)[i], Order(s, strategy)[j])
  {
    var ids := Ids(s.keyword + s.vector);
    var scored := ScoredOf(s, strategy, ids);
    SortSorted(Before, scored);
    SortElements(Before, scored);
    IdsDoNotRepeat(s.keyword + s.vector);
    forall x | x in Order(s, strategy)
      ensures multiset(Order(s, strategy))[x] <= 1
    {
      ScoredElements(s, strategy, ids, x);
    }
    NoRepeatsCount(Order(s, strategy));
    StrictPair(Before, Order(s, strategy), i, j);
  }

  /**
   The fused list holds every retrieved id once, with ranks 1 to n, strictly ordered by
   descending score, then best source rank, then id.
   */
  lemma {:induction false} FusedIsARanking(s: Sources, strategy: Strategy)
    ensures var out := Fused(s, strategy);
      && (forall i :: 0 <= i < |out| ==>
            out[i].rank == i + 1 && Retrieved(s, out[i].id) && out[i].score == Score(s, strategy, out[i].id))
      && (forall i, j :: 0 <= i < j < |out| ==>
            Before(ScoredAt(s, strategy, out[i].id), ScoredAt(s, strategy, out[j].id)))
      && (forall id :: Retrieved(s, id) ==> exists i :: 0 <= i < |out| && out[i].id == id)
  {
    var order, out := Order(s, strategy), Fused(s, strategy);
    forall i | 0 <= i < |out|
      ensures order[i] == ScoredAt(s, strategy, out[i].id) && Retrieved(s, out[i].id)
    {
      assert order[i] in order;
      OrderMembers(s, strategy, order[i]);
    }
    forall i, j | 0 <= i < j < |out|
      ensures Before(ScoredAt(s, strategy, out[i].id), ScoredAt(s, strategy, out[j].id))
    {
      OrderIsStrict(s, strategy, i, j);
    }
    forall id | Retrieved(s, id)
      ensures exists i :: 0 <= i < |out| && out[i].id == id
    {
      OrderMembers(s, strategy, ScoredAt(s, strategy, id));
      var i :| 0 <= i < |order| && order[i] == ScoredAt(s, strategy, id);
      assert out[i].id == id;
    }
  }

  // ----- dominance --------------------------------------------------------

  /** A list as the repository returns it: ranked from 1, scores not increasing, ids once. */
  ghost predicate WellRanked(list: seq<Candidate>) {
    && |list| < NO_RANK
    && (forall i :: 0 <= i < |list| ==> list[i].rank == i + 1)
    && (forall c, d :: c in list && d in list && c.rank <= d.rank ==> c.score >= d.score)
    && (forall c, d :: c in list && d in list && c.id == d.id ==> c == d)
  }

  /** Where b is present, a is present with a better rank. */
  predicate Beats(list: seq<Candidate>, a: nat, b: nat) {
    Find(list, b).Some? ==> Find(list, a).Some? && Find(list, a).value.rank < Find(list, b).value.rank
  }

  lemma {:induction false} InverseFalls(x: nat, y: nat)
    requires 0 < x < y
    ensures 1.0 / x as real > 1.0 / y as real > 0.0
  {
  }

  lemma {:induction false} ReciprocalDominates(k: nat, list: seq<Candidate>, a: nat, b: nat)
    requires Beats(list, a, b)
    ensures Reciprocal(k, list, a) >= Reciprocal(k, list, b)
    ensures Find(list, b).Some? ==> Reciprocal(k, list, a) > Reciprocal(k, list, b)
  {
    if Find(list, b).Some? {
      InverseFalls(k + Find(list, a).value.rank + 1, k + Find(list, b).value.rank + 1);
    }
  }

  lemma {:induction false} ShareGrows(low: real, high: real, x: real, y: real)
    requires low <= y <= x <= high
    ensures 0.0 <= Share(low, high, y) <= Share(low, high, x) <= 1.0
  {
    if high != low {
      var width := high - low;
      assert (x - low) / width - (y - low) / width == (x - y) / width;
    }
  }

  lemma {:induction false} NormalizedDominates(list: seq<Candidate>, a: nat, b: nat)
    requires WellRanked(list) && Beats(list, a, b)
    ensures Normalized(list, a) >= Normalized(list, b) >= 0.0
  {
    var x, y := Find(list, a), Find(list, b);
    if x.Some? {
      WithinBounds(list, x.value);
      if y.Some? {
        WithinBounds(list, y.value);
      }
      ShareGrows(Low(list), High(list), x.value.score, if y.Some? then y.value.score else x.value.score);
    }
  }

  lemma {:induction false} BlendGrows(alpha: real, v: real, w: real, k: real, l: real)
    requires 0.0 <= alpha <= 1.0 && v >= w && k >= l
    ensures Blend(alpha, v, k) >= Blend(alpha, w, l)
  {
    assert alpha * (v - w) >= 0.0;
    assert (1.0 - alpha) * (k - l) >= 0.0;
  }

  lemma {:induction false} ScoreDominates(s: Sources, strategy: Strategy, a: nat, b: nat)
    requires WellRanked(s.keyword) && WellRanked(s.vector)
    requires strategy.WeightedHybrid? ==> 0.0 <= strategy.alpha <= 1.0
    requires Beats(s.keyword, a, b) && Beats(s.vector, a, b)
    ensures Score(s, strategy, a) >= Score(s, strategy, b)
  {
    match strategy
    case WeightedHybrid(alpha) =>
      NormalizedDominates(s.keyword, a, b);
      NormalizedDominates(s.vector, a, b);
      BlendGrows(
        alpha, Normalized(s.vector, a), Normalized(s.vector, b), Normalized(s.keyword, a), Normalized(s.keyword, b));
    case Rrf(k) =>
      ReciprocalDominates(k, s.keyword, a, b);
      ReciprocalDominates(k, s.vector, a, b);
  }

  /** Each id occurs once in the fused list, so this fixes the order of the two. */
  ghost predicate Precedes(out: seq<Result>, a: nat, b: nat) {
    exists i, j :: 0 <= i < j < |out| && out[i].id == a && out[j].id == b
  }

  lemma {:induction false} BeforeMeansPrecedes(s: Sources, strategy: Strategy, a: nat, b: nat)
    requires Retrieved(s, a) && Retrieved(s, b)
    requires Before(ScoredAt(s, strategy, a), ScoredAt(s, strategy, b))
    ensures Precedes(Fused(s, strategy), a, b)
  {
    var order, out := Order(s, strategy), Fused(s, strategy);
    var x, y := ScoredAt(s, strategy, a), ScoredAt(s, strategy, b);
    OrderMembers(s, strategy, x);
    OrderMembers(s, strategy, y);
    var i :| 0 <= i < |order| && order[i] == x;
    var j :| 0 <= j < |order| && order[j] == y;
    if j < i {
      OrderIsStrict(s, strategy, j, i);
    }
    assert i < j;
    assert out[i].id == a && out[j].id == b;
  }

  /**
   Fusion respects dominance, for reciprocal ranks with any constant and for every weight
   in [0, 1]: an id that is ranked better in every list that holds the other comes first.
   */
  lemma {:induction false} FusionRespectsDominance(s: Sources, strategy: Strategy, a: nat, b: nat)
    requires WellRanked(s.keyword) && WellRanked(s.vector)
    requires strategy.WeightedHybrid? ==> 0.0 <= strategy.alpha <= 1.0
    requires Retrieved(s, b) && Beats(s.keyword, a, b) && Beats(s.vector, a, b)
    ensures Precedes(Fused(s, strategy), a, b)
  {
    ScoreDominates(s, strategy, a, b);
    BeforeMeansPrecedes(s, strategy, a, b);
  }

  // ----- what the scores are ----------------------------------------------

  predicate IsLow(list: seq<Candidate>, c: Candidate) {
    c in list && forall d :: d in list ==> c.score <= d.score
  }

  predicate IsHigh(list: seq<Candidate>, c: Candidate) {
    c in list && forall d :: d in list ==> d.score <= c.score
  }

  /** x is how far the score lies on the way from low to high; 1 when there is no way. */
  predicate Places(low: real, high: real, score: real, x: real) {
    if high == low then x == 1.0 else x * (high - low) == score - low
  }

  lemma {:induction false} SharePlaces(low: real, high: real, score: real)
    ensures Places(low, high, score, Share(low, high, score))
  {
  }

  /** x places the id's score between the lowest and the highest of its list; an absent id has 0. */
  ghost predicate IsShare(list: seq<Candidate>, id: nat, x: real) {
    match Find(list, id)
    case None => x == 0.0
    case Some(c) =>
      exists low, high :: IsLow(list, low) && IsHigh(list, high) && Places(low.score, high.score, c.score, x)
  }

  lemma {:induction false} Extremes(list: seq<Candidate>) returns (low: Candidate, high: Candidate)
    requires list != []
    ensures IsLow(list, low) && low.score == Low(list)
    ensures IsHigh(list, high) && high.score == High(list)
  {
    var before, last := list[..|list| - 1], list[|list| - 1];
    assert list == before + [last];
    if before == [] {
      low, high := last, last;
    } else {
      low, high := Extremes(before);
      low := if last.score < low.score then last else low;
      high := if last.score > high.score then last else high;
    }
  }

  lemma {:induction false} NormalizedIsShare(list: seq<Candidate>, id: nat)
    ensures IsShare(list, id, Normalized(list, id))
  {
    if Find(list, id).Some? {
      var low, high := Extremes(list);
      var c := Find(list, id).value;
      SharePlaces(Low(list), High(list), c.score);
      assert Places(low.score, high.score, c.score, Normalized(list, id));
    }
  }

  /** alpha parts of the vector share and the rest of the keyword share. */
  predicate Mixes(alpha: real, vector: real, keyword: real, score: real) {
    score == alpha * vector + (1.0 - alpha) * keyword
  }

  /** The score of a fused result, from the candidates it was made of. */
  ghost predicate IsFusedScore(s: Sources, strategy: Strategy, id: nat, score: real) {
    match strategy
    case WeightedHybrid(alpha) =>
      exists v, k :: IsShare(s.vector, id, v) && IsShare(s.keyword, id, k) && Mixes(alpha, v, k, score)
    case Rrf(k) =>
      score == (match Find(s.keyword, id) case None => 0.0 case Some(c) => 1.0 / (k + c.rank + 1) as real)
             + (match Find(s.vector, id) case None => 0.0 case Some(c) => 1.0 / (k + c.rank + 1) as real)
  }

  /** The better of the id's ranks. */
  predicate IsBestRank(s: Sources, id: nat, best: nat) {
    var k, v := Find(s.keyword, id), Find(s.vector, id);
    && (k.Some? ==> best <= k.value.rank) && (v.Some? ==> best <= v.value.rank)
    && ((k.Some? && best == k.value.rank) || (v.Some? && best == v.value.rank))
  }

  predicate ComesFirst(x: Result, p: nat, y: Result, q: nat) {
    x.score > y.score || (x.score == y.score && (p < q || (p == q && x.id < y.id)))
  }

  lemma {:induction false} ScoreIsFused(s: Sources, strategy: Strategy, id: nat)
    ensures IsFusedScore(s, strategy, id, Score(s, strategy, id))
  {
    match strategy
    case WeightedHybrid(alpha) => HybridIsFused(s, alpha, id);
    case Rrf(k) =>
  }

  lemma {:induction false} HybridIsFused(s: Sources, alpha: real, id: nat)
    ensures IsFusedScore(s, WeightedHybrid(alpha), id, Score(s, WeightedHybrid(alpha), id))
  {
    NormalizedIsShare(s.vector, id);
    NormalizedIsShare(s.keyword, id);
    assert Mixes(alpha, Normalized(s.vector, id), Normalized(s.keyword, id), Score(s, WeightedHybrid(alpha), id));
  }

  lemma {:induction false} RankIsSmall(list: seq<Candidate>, id: nat)
    requires WellRanked(list) && Find(list, id).Some?
    ensures Find(list, id).value.rank < NO_RANK
  {
    var c := Find(list, id).value;
    var i :| 0 <= i < |list| && list[i] == c;
  }

  lemma {:induction false} BestIsBest(s: Sources, id: nat)
    requires WellRanked(s.keyword) && WellRanked(s.vector) && Retrieved(s, id)
    ensures IsBestRank(s, id, Min(RankOr(s.keyword, id), RankOr(s.vector, id)))
  {
    if Find(s.keyword, id).Some? {
      RankIsSmall(s.keyword, id);
    }
    if Find(s.vector, id).Some? {
      RankIsSmall(s.vector, id);
    }
  }

  /**
   The fused results, result by result: each carries the blend of its two shares, or the sum
   of its reciprocal ranks; and of any two the first has the higher score, at equal scores the
   better source rank, and at equal ranks the smaller id.
   */
  lemma {:induction false} FusedScores(s: Sources, strategy: Strategy, i: nat, j: nat)
    requires WellRanked(s.keyword) && WellRanked(s.vector)
    requires i < j < |Fused(s, strategy)|
    ensures var x, y := Fused(s, strategy)[i], Fused(s, strategy)[j];
      && IsFusedScore(s, strategy, x.id, x.score) && IsFusedScore(s, strategy, y.id, y.score)
      && (exists p, q :: IsBestRank(s, x.id, p) && IsBestRank(s, y.id, q) && ComesFirst(x, p, y, q))
  {
    ResultAt(s, strategy, i);
    ResultAt(s, strategy, j);
    var x, y := Order(s, strategy)[i], Order(s, strategy)[j];
    OrderIsStrict(s, strategy, i, j);
    assert ComesFirst(Fused(s, strategy)[i], x.best, Fused(s, strategy)[j], y.best);
  }

  lemma {:induction false} ResultAt(s: Sources, strategy: Strategy, i: nat)
    requires WellRanked(s.keyword) && WellRanked(s.vector) && i < |Order(s, strategy)|
    ensures var x := Order(s, strategy)[i];
      && i < |Fused(s, strategy)| && Fused(s, strategy)[i] == Result(x.id, i + 1, x.score)
      && IsFusedScore(s, strategy, x.id, x.score) && IsBestRank(s, x.id, x.best)
  {
    var x := Order(s, strategy)[i];
    assert x in Order(s, strategy);
    OrderMembers(s, strategy, x);
    ScoreIsFused(s, strategy, x.id);
    BestIsBest(s, x.id);
  }

  lemma {:induction false} ShareRises(list: seq<Candidate>, a: nat, b: nat)
    requires Find(list, a).Some? && Find(list, b).Some?
    requires Find(list, a).value.score > Find(list, b).value.score
    ensures Normalized(list, a) > Normalized(list, b)
  {
    var x, y := Find(list, a).value, Find(list, b).value;
    WithinBounds(list, x);
    WithinBounds(list, y);
    SharePlaces(Low(list), High(list), x.score);
    SharePlaces(Low(list), High(list), y.score);
    PlacesRise(Low(list), High(list), x.score, y.score, Normalized(list, a), Normalized(list, b));
  }

  lemma {:induction false} PlacesRise(low: real, high: real, score: real, other: real, x: real, y: real)
    requires low <= other < score <= high && Places(low, high, score, x) && Places(low, high, other, y)
    ensures x > y
  {
    assert (x - y) * (high - low) == score - other;
    PositiveFactor(x - y, high - low);
  }

  lemma {:induction false} PositiveFactor(x: real, width: real)
    requires 0.0 < width && 0.0 < x * width
    ensures 0.0 < x
  {
    assert x <= 0.0 ==> x * width <= 0.0;
  }

  /** With the whole weight on one list, its order decides, whatever the other list holds. */
  lemma {:induction false} FullWeightDecides(s: Sources, a: nat, b: nat)
    ensures Find(s.vector, a).Some? && Find(s.vector, b).Some?
            && Find(s.vector, a).value.score > Find(s.vector, b).value.score
        ==> Precedes(Fused(s, WeightedHybrid(1.0)), a, b)
    ensures Find(s.keyword, a).Some? && Find(s.keyword, b).Some?
            && Find(s.keyword, a).value.score > Find(s.keyword, b).value.score
        ==> Precedes(Fused(s, WeightedHybrid(0.0)), a, b)
  {
    if Find(s.vector, a).Some? && Find(s.vector, b).Some?
       && Find(s.vector, a).value.score > Find(s.vector, b).value.score {
      ShareRises(s.vector, a, b);
      BeforeMeansPrecedes(s, WeightedHybrid(1.0), a, b);
    }
    if Find(s.keyword, a).Some? && Find(s.keyword, b).Some?
       && Find(s.keyword, a).value.score > Find(s.keyword, b).value.score {
      ShareRises(s.keyword, a, b);
      BeforeMeansPrecedes(s, WeightedHybrid(0.0), a, b);
    }
  }

  /** The score of one id, as the loop body of _fuse computes it. */
  method ScoreOne(s: Sources, strategy: Strategy, id: nat) returns (score: real)
    ensures score == Score(s, strategy, id)
  {
    match strategy
    case WeightedHybrid(alpha) =>
      score := alpha * Normalized(s.vector, id) + (1.0 - alpha) * Normalized(s.keyword, id);
    case Rrf(k) =>
      score := 0.0;
      var keyword, vector := Find(s.keyword, id), Find(s.vector, id);
      if keyword.Some? {
        score := score + 1.0 / (k + keyword.value.rank + 1) as real;
      }
      if vector.Some? {
        score := score + 1.0 / (k + vector.value.rank + 1) as real;
      }
  }

  lemma {:induction false} ScoredUpTo(s: Sources, strategy: Strategy, ids: seq<nat>, i: nat)
    requires i < |ids|
    ensures ScoredOf(s, strategy, ids[..i + 1]) == ScoredOf(s, strategy, ids[..i]) + [ScoredAt(s, strategy, ids[i])]
  {
    assert ids[..i + 1][..i] == ids[..i];
  }

  lemma {:induction false} AllScoresAreFused(s: Sources, strategy: Strategy)
    ensures forall i :: 0 <= i < |Fused(s, strategy)| ==>
      IsFusedScore(s, strategy, Fused(s, strategy)[i].id, Fused(s, strategy)[i].score)
  {
    forall i | 0 <= i < |Fused(s, strategy)|
      ensures IsFusedScore(s, strategy, Fused(s, strategy)[i].id, Fused(s, strategy)[i].score)
    {
      var x := Order(s, strategy)[i];
      assert x in Order(s, strategy);
      OrderMembers(s, strategy, x);
      ScoreIsFused(s, strategy, x.id);
    }
  }

  method Fuse(s: Sources, strategy: Strategy) returns (results: seq<Result>)
    ensures results == Fused(s, strategy)
    ensures forall i :: 0 <= i < |results| ==> IsFusedScore(s, strategy, results[i].id, results[i].score)
  {
    var byId := Ids(s.keyword + s.vector);
    var scored: seq<Scored> := [];
    for i := 0 to |byId|
      invariant scored == ScoredOf(s, strategy, byId[..i])
    {
      ScoredUpTo(s, strategy, byId, i);
      var score := ScoreOne(s, strategy, byId[i]);
      scored := scored + [Scored(score, Min(RankOr(s.keyword, byId[i]), RankOr(s.vector, byId[i])), byId[i])];
    }
    assert byId[..|byId|] == byId;
    scored := SortBy(Before, scored);
    results := [];
    for i := 0 to |scored|
      invariant results == Numbered(scored[..i])
    {
      results := results + [Result(scored[i].id, i + 1, scored[i].score)];
    }
    assert scored[..|scored|] == scored;
    AllScoresAreFused(s, strategy);
  }

  // ----- invariances ------------------------------------------------------

  lemma {:induction false} SameScoredSame(s: Sources, p: Strategy, t: Sources, q: Strategy)
    requires forall id :: Retrieved(s, id) == Retrieved(t, id)
    requires forall id :: Retrieved(s, id) ==> ScoredAt(s, p, id) == ScoredAt(t, q, id)
    ensures Fused(s, p) == Fused(t, q)
  {
    var a, b := ScoredOf(s, p, Ids(s.keyword + s.vector)), ScoredOf(t, q, Ids(t.keyword + t.vector));
    IdsDoNotRepeat(s.keyword + s.vector);
    IdsDoNotRepeat(t.keyword + t.vector);
    forall x
      ensures multiset(a)[x] == multiset(b)[x]
    {
      ScoredElements(s, p, Ids(s.keyword + s.vector), x);
      ScoredElements(t, q, Ids(t.keyword + t.vector), x);
      RetrievedIff(s, x.id);
      RetrievedIff(t, x.id);
    }
    assert multiset(a) == multiset(b);
    SortForgetsOrder(Before, a, b);
  }

  /** Exchanging the two lists, with the complementary weight, changes nothing. */
  lemma {:induction false} SwappingTheLists(s: Sources, strategy: Strategy)
    ensures var swapped := Sources(s.vector, s.keyword);
      match strategy
      case WeightedHybrid(alpha) => Fused(swapped, WeightedHybrid(1.0 - alpha)) == Fused(s, strategy)
      case Rrf(_) => Fused(swapped, strategy) == Fused(s, strategy)
  {
    var swapped := Sources(s.vector, s.keyword);
    SameScoredSame(
      s, strategy, swapped, if strategy.WeightedHybrid? then WeightedHybrid(1.0 - strategy.alpha) else strategy);
  }

  /** The lists hold the same ids at the same ranks. */
  predicate SameRanks(a: seq<Candidate>, b: seq<Candidate>) {
    |a| == |b| && forall i :: 0 <= i < |a| ==> a[i].id == b[i].id && a[i].rank == b[i].rank
  }

  lemma {:induction false} SameRanksFound(a: seq<Candidate>, b: seq<Candidate>, id: nat)
    requires SameRanks(a, b)
    ensures Find(a, id).Some? == Find(b, id).Some?
    ensures Find(a, id).Some? ==> Find(a, id).value.rank == Find(b, id).value.rank
  {
    if a != [] && a[|a| - 1].id != id {
      SameRanksFound(a[..|a| - 1], b[..|b| - 1], id);
    }
  }

  /** Reciprocal rank fusion never looks at a score. */
  lemma {:induction false} RrfUsesOnlyRanks(s: Sources, t: Sources, k: nat)
    requires SameRanks(s.keyword, t.keyword) && SameRanks(s.vector, t.vector)
    ensures Fused(s, Rrf(k)) == Fused(t, Rrf(k))
  {
    forall id
      ensures Retrieved(s, id) == Retrieved(t, id) && ScoredAt(s, Rrf(k), id) == ScoredAt(t, Rrf(k), id)
    {
      SameRanksFound(s.keyword, t.keyword, id);
      SameRanksFound(s.vector, t.vector, id);
    }
    SameScoredSame(s, Rrf(k), t, Rrf(k));
  }

  function Rescaled(list: seq<Candidate>, f: real -> real): (r: seq<Candidate>)
    ensures |r| == |list|
  {
    if list == [] then []
    else
      var last := list[|list| - 1];
      Rescaled(list[..|list| - 1], f) + [last.(score := f(last.score))]
  }

  lemma {:induction false} RescaledFound(list: seq<Candidate>, f: real -> real, id: nat)
    ensures Find(Rescaled(list, f), id).Some? == Find(list, id).Some?
    ensures Find(list, id).Some? ==>
      Find(Rescaled(list, f), id).value == Find(list, id).value.(score := f(Find(list, id).value.score))
  {
    if list != [] {
      RescaledFound(list[..|list| - 1], f, id);
    }
  }

  ghost predicate Increasing(f: real -> real) {
    forall x, y :: x < y ==> f(x) < f(y)
  }

  lemma {:induction false} RescaledBounds(list: seq<Candidate>, f: real -> real)
    requires list != [] && Increasing(f)
    ensures Low(Rescaled(list, f)) == f(Low(list))
    ensures High(Rescaled(list, f)) == f(High(list))
  {
    if |list| > 1 {
      var before, x := list[..|list| - 1], list[|list| - 1].score;
      RescaledBounds(before, f);
      assert Rescaled(list, f)[..|list| - 1] == Rescaled(before, f);
      KeepsOrder(f, x, Low(before));
      KeepsOrder(f, x, High(before));
    }
  }

  lemma {:induction false} KeepsOrder(f: real -> real, x: real, y: real)
    requires Increasing(f)
    ensures x < y <==> f(x) < f(y)
    ensures x > y <==> f(x) > f(y)
  {
    if x < y {
      assert f(x) < f(y);
    } else if x > y {
      assert f(x) > f(y);
    }
  }

  ghost predicate Affine(f: real -> real, m: real, c: real) {
    m > 0.0 && forall x :: f(x) == m * x + c
  }

  lemma {:induction false} NormalizedRescaled(list: seq<Candidate>, f: real -> real, id: nat)
    requires Increasing(f)
    ensures Find(Rescaled(list, f), id).Some? == Find(list, id).Some?
    ensures RankOr(Rescaled(list, f), id) == RankOr(list, id)
    ensures Find(list, id).Some? ==>
      var x := Find(list, id).value.score;
      Normalized(Rescaled(list, f), id) == Share(f(Low(list)), f(High(list)), f(x))
  {
    RescaledFound(list, f, id);
    if Find(list, id).Some? {
      RescaledBounds(list, f);
    }
  }

  lemma {:induction false} ShareOfAffine(low: real, high: real, x: real, f: real -> real, m: real, c: real)
    requires Affine(f, m, c) && low <= high
    ensures Share(f(low), f(high), f(x)) == Share(low, high, x)
  {
    assert f(low) == m * low + c && f(high) == m * high + c && f(x) == m * x + c;
  }

  lemma {:induction false} NormalizedIsAffine(list: seq<Candidate>, f: real -> real, m: real, c: real, id: nat)
    requires Affine(f, m, c)
    ensures Find(Rescaled(list, f), id).Some? == Find(list, id).Some?
    ensures RankOr(Rescaled(list, f), id) == RankOr(list, id)
    ensures Normalized(Rescaled(list, f), id) == Normalized(list, id)
  {
    NormalizedRescaled(list, f, id);
    if Find(list, id).Some? {
      var x := Find(list, id).value;
      WithinBounds(list, x);
      ShareOfAffine(Low(list), High(list), x.score, f, m, c);
    }
  }

  /** Hybrid fusion does not depend on the scale or origin of a source's scores. */
  lemma {:induction false} HybridIgnoresScale(s: Sources, alpha: real, f: real -> real, m: real, c: real)
    requires Affine(f, m, c)
    ensures Fused(Sources(Rescaled(s.keyword, f), s.vector), WeightedHybrid(alpha)) == Fused(s, WeightedHybrid(alpha))
    ensures Fused(Sources(s.keyword, Rescaled(s.vector, f)), WeightedHybrid(alpha)) == Fused(s, WeightedHybrid(alpha))
  {
    var keyword := Sources(Rescaled(s.keyword, f), s.vector);
    var vector := Sources(s.keyword, Rescaled(s.vector, f));
    forall id
      ensures Retrieved(keyword, id) == Retrieved(s, id) && Retrieved(vector, id) == Retrieved(s, id)
      ensures ScoredAt(keyword, WeightedHybrid(alpha), id) == ScoredAt(s, WeightedHybrid(alpha), id)
      ensures ScoredAt(vector, WeightedHybrid(alpha), id) == ScoredAt(s, WeightedHybrid(alpha), id)
    {
      NormalizedIsAffine(s.keyword, f, m, c, id);
      NormalizedIsAffine(s.vector, f, m, c, id);
    }
    SameScoredSame(keyword, WeightedHybrid(alpha), s, WeightedHybrid(alpha));
    SameScoredSame(vector, WeightedHybrid(alpha), s, WeightedHybrid(alpha));
  }
}
