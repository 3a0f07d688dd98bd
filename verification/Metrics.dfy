/**
 Retrieval and its evaluation (retrieval/service.py, evaluation/service.py): the strategies
 over two ranked sources, hit rate and reciprocal rank, the grid of configurations and the
 selection of a winner. Means are exact and latencies are what the clock measured.

 A smaller top_k cuts the same ranking shorter, so both metrics grow with top_k; and for
 every case set the mean reciprocal rank lies between the hit rate over top_k and the hit
 rate. The winner is the first row of the grid that no other row precedes in the key of
 quality, latency and simplicity.
 */
module Metrics {
  import opened Fusion
  import opened Ordering
  import opened Sequences

  datatype Approach =
    | Keyword(candidateCount: nat, topK: nat)
    | Vector(candidateCount: nat, topK: nat)
    | Hybrid(candidateCount: nat, topK: nat, alpha: real)
    | ReciprocalRanks(candidateCount: nat, topK: nat, k: nat)

  datatype Case = Case(sources: Sources, relevant: set<nat>)

  // ----- retrieve ---------------------------------------------------------

  function CandidateIds(list: seq<Candidate>): seq<nat> {
    seq(|list|, i requires 0 <= i < |list| => list[i].id)
  }

  function ResultIds(results: seq<Result>): seq<nat> {
    seq(|results|, i requires 0 <= i < |results| => results[i].id)
  }

  /** The chunk ids retrieve returns. */
  function Retrieve(s: Sources, a: Approach): seq<nat> {
    match a
    case Keyword(_, topK) => Take(CandidateIds(s.keyword), topK)
    case Vector(_, topK) => Take(CandidateIds(s.vector), topK)
    case Hybrid(_, topK, alpha) => Take(ResultIds(Fused(s, WeightedHybrid(alpha))), topK)
    case ReciprocalRanks(_, topK, k) => Take(ResultIds(Fused(s, Rrf(k))), topK)
  }

  /** The chunk a strategy ranks at position i before the cut; the length bounds the positions. */
  lemma {:induction false} RetrievedAt(s: Sources, a: Approach, i: nat)
    ensures var results := Retrieve(s, a);
      && |results| <= a.topK
      && (a.Keyword? ==> |results| == a.topK || |results| == |s.keyword|)
      && (a.Vector? ==> |results| == a.topK || |results| == |s.vector|)
      && (i < |results| ==>
            match a
            case Keyword(_, _) => i < |s.keyword| && results[i] == s.keyword[i].id
            case Vector(_, _) => i < |s.vector| && results[i] == s.vector[i].id
            case Hybrid(_, _, alpha) =>
              i < |Fused(s, WeightedHybrid(alpha))| && results[i] == Fused(s, WeightedHybrid(alpha))[i].id
            case ReciprocalRanks(_, _, k) => i < |Fused(s, Rrf(k))| && results[i] == Fused(s, Rrf(k))[i].id)
  {
  }

  // ----- hit rate and reciprocal rank -------------------------------------

  /** The position of the first relevant result, or the length. */
  function FirstHit(results: seq<nat>, relevant: set<nat>): (n: nat)
    ensures n <= |results|
    ensures n < |results| ==> results[n] in relevant
    ensures forall i :: 0 <= i < n ==> results[i] !in relevant
  {
    if results == [] then 0
    else
      var n := FirstHit(results[..|results| - 1], relevant);
      if n < |results| - 1 || results[|results| - 1] in relevant then n else |results|
  }

  function Hit(results: seq<nat>, relevant: set<nat>): real {
    if exists id :: id in results && id in relevant then 1.0 else 0.0
  }

  function Reciprocal(results: seq<nat>, relevant: set<nat>): real {
    var n := FirstHit(results, relevant);
    if n < |results| then 1.0 / (n + 1) as real else 0.0
  }

  method ReciprocalRank(results: seq<nat>, relevant: set<nat>) returns (r: real)
    ensures r == Reciprocal(results, relevant)
  {
    for i := 0 to |results|
      invariant forall j :: 0 <= j < i ==> results[j] !in relevant
    {
      if results[i] in relevant {
        return 1.0 / (i + 1) as real;
      }
    }
    return 0.0;
  }

  lemma {:induction false} LongerCutIsBetter(results: seq<nat>, relevant: set<nat>, n: nat, m: nat)
    requires n <= m
    ensures Hit(Take(results, n), relevant) <= Hit(Take(results, m), relevant)
    ensures Reciprocal(Take(results, n), relevant) <= Reciprocal(Take(results, m), relevant)
  {
  }

  lemma {:induction false} InverseOrder(x: nat, y: nat)
    requires 0 < x <= y
    ensures 1.0 / y as real <= 1.0 / x as real <= 1.0
  {
  }

  lemma {:induction false} ReciprocalWithinHit(results: seq<nat>, relevant: set<nat>, n: nat)
    requires 0 < n
    ensures var cut := Take(results, n);
      Hit(cut, relevant) / n as real <= Reciprocal(cut, relevant) <= Hit(cut, relevant)
  {
    var cut := Take(results, n);
    var p := FirstHit(cut, relevant);
    if p < |cut| {
      InverseOrder(p + 1, n);
      InverseOrder(1, p + 1);
    }
  }

  // ----- the means of a grid row ------------------------------------------

  function Sum(xs: seq<real>): real {
    if xs == [] then 0.0 else Sum(xs[..|xs| - 1]) + xs[|xs| - 1]
  }

  function Mean(xs: seq<real>): real
    requires xs != []
  {
    Sum(xs) / |xs| as real
  }

  /** RetrievalService.retrieve, as the evaluator is given it. */
  type Service = (Sources, Approach) -> seq<nat>

  function Hits(retrieve: Service, cases: seq<Case>, a: Approach): (r: seq<real>)
    ensures |r| == |cases|
  {
    if cases == [] then []
    else
      var last := cases[|cases| - 1];
      Hits(retrieve, cases[..|cases| - 1], a) + [Hit(retrieve(last.sources, a), last.relevant)]
  }

  function Reciprocals(retrieve: Service, cases: seq<Case>, a: Approach): (r: seq<real>)
    ensures |r| == |cases|
  {
    if cases == [] then []
    else
      var last := cases[|cases| - 1];
      Reciprocals(retrieve, cases[..|cases| - 1], a) + [Reciprocal(retrieve(last.sources, a), last.relevant)]
  }

  function HitRate(retrieve: Service, cases: seq<Case>, a: Approach): real
    requires cases != []
  {
    Mean(Hits(retrieve, cases, a))
  }

  function Mrr(retrieve: Service, cases: seq<Case>, a: Approach): real
    requires cases != []
  {
    Mean(Reciprocals(retrieve, cases, a))
  }

  lemma {:induction false} Undivided(x: real, n: nat)
    requires 0 < n
    ensures x / n as real * n as real == x
  {
  }

  /** The mean of n + 1 values, when the mean of the first n is before and the last is share. */
  predicate Adds(before: real, n: nat, after: real, share: real) {
    after * (n + 1) as real == before * n as real + share
  }

  function MeanOr(xs: seq<real>): real {
    if xs == [] then 0.0 else Mean(xs)
  }

  lemma {:induction false} MeanAdds(xs: seq<real>, x: real)
    ensures Adds(MeanOr(xs), |xs|, Mean(xs + [x]), x)
  {
    assert (xs + [x])[..|xs|] == xs;
    Undivided(Sum(xs + [x]), |xs| + 1);
    if xs != [] {
      Undivided(Sum(xs), |xs|);
    }
  }

  /** Position p holds the first relevant result, or is the end when there is none. */
  ghost predicate FirstAt(results: seq<nat>, relevant: set<nat>, p: nat) {
    && p <= |results| && (p < |results| ==> results[p] in relevant)
    && forall j :: 0 <= j < p ==> results[j] !in relevant
  }

  lemma {:induction false} SharesOf(results: seq<nat>, relevant: set<nat>, p: nat)
    requires FirstAt(results, relevant, p)
    ensures Hit(results, relevant) == if p < |results| then 1.0 else 0.0
    ensures Reciprocal(results, relevant) == if p < |results| then 1.0 / (p + 1) as real else 0.0
  {
    assert FirstHit(results, relevant) == p;
    assert p < |results| ==> results[p] in results;
  }

  lemma {:induction false} CasePushed(retrieve: Service, cases: seq<Case>, c: Case, a: Approach)
    ensures Hits(retrieve, cases + [c], a)
         == Hits(retrieve, cases, a) + [Hit(retrieve(c.sources, a), c.relevant)]
    ensures Reciprocals(retrieve, cases + [c], a)
         == Reciprocals(retrieve, cases, a) + [Reciprocal(retrieve(c.sources, a), c.relevant)]
  {
    assert (cases + [c])[..|cases|] == cases;
  }

  /**
   One more case adds 1 to the hits when any of its results is relevant, and the inverse of
   the position, counted from 1, of its first relevant result to the reciprocal ranks.
   */
  lemma {:induction false} OneMoreCase(retrieve: Service, cases: seq<Case>, c: Case, a: Approach, p: nat)
    requires FirstAt(retrieve(c.sources, a), c.relevant, p)
    ensures var found, n := p < |retrieve(c.sources, a)|, |cases|;
      && Adds(if cases == [] then 0.0 else HitRate(retrieve, cases, a), n, HitRate(retrieve, cases + [c], a),
              if found then 1.0 else 0.0)
      && Adds(if cases == [] then 0.0 else Mrr(retrieve, cases, a), n, Mrr(retrieve, cases + [c], a),
              if found then 1.0 / (p + 1) as real else 0.0)
  {
    var results := retrieve(c.sources, a);
    CasePushed(retrieve, cases, c, a);
    SharesOf(results, c.relevant, p);
    MeanAdds(Hits(retrieve, cases, a), Hit(results, c.relevant));
    MeanAdds(Reciprocals(retrieve, cases, a), Reciprocal(results, c.relevant));
  }

  /** The same approach with another cut. */
  function Cut(a: Approach, topK: nat): Approach {
    a.(topK := topK)
  }

  lemma {:induction false} CutOfRetrieve(s: Sources, a: Approach, n: nat, m: nat)
    requires n <= m
    ensures Retrieve(s, Cut(a, n)) == Take(Retrieve(s, Cut(a, m)), n)
    ensures Retrieve(s, Cut(a, m)) == Take(Retrieve(s, Cut(a, m)), m)
  {
  }

  lemma {:induction false} SumsGrow(cases: seq<Case>, a: Approach, n: nat, m: nat)
    requires n <= m
    ensures Sum(Hits(Retrieve, cases, Cut(a, n))) <= Sum(Hits(Retrieve, cases, Cut(a, m)))
    ensures Sum(Reciprocals(Retrieve, cases, Cut(a, n))) <= Sum(Reciprocals(Retrieve, cases, Cut(a, m)))
  {
    if cases != [] {
      var last := cases[|cases| - 1];
      SumsGrow(cases[..|cases| - 1], a, n, m);
      CutOfRetrieve(last.sources, a, n, m);
      LongerCutIsBetter(Retrieve(last.sources, Cut(a, m)), last.relevant, n, m);
    }
  }

  lemma {:induction false} DivideOrder(x: real, y: real, n: nat)
    requires x <= y && 0 < n
    ensures x / n as real <= y / n as real
  {
    assert (y - x) / n as real >= 0.0;
  }

  /** At one candidate count, a larger top_k never lowers the hit rate or the mean reciprocal rank. */
  lemma {:induction false} LargerTopKIsNotWorse(cases: seq<Case>, a: Approach, n: nat, m: nat)
    requires cases != [] && n <= m
    ensures HitRate(Retrieve, cases, Cut(a, n)) <= HitRate(Retrieve, cases, Cut(a, m))
    ensures Mrr(Retrieve, cases, Cut(a, n)) <= Mrr(Retrieve, cases, Cut(a, m))
  {
    SumsGrow(cases, a, n, m);
    DivideOrder(Sum(Hits(Retrieve, cases, Cut(a, n))), Sum(Hits(Retrieve, cases, Cut(a, m))), |cases|);
    DivideOrder(Sum(Reciprocals(Retrieve, cases, Cut(a, n))), Sum(Reciprocals(Retrieve, cases, Cut(a, m))), |cases|);
  }

  lemma {:induction false} AddDivided(x: real, y: real, n: nat, r: real, s: real)
    requires 0 < n && x / n as real <= r <= x && y / n as real <= s <= y
    ensures (x + y) / n as real <= r + s <= x + y
  {
    assert (x + y) / n as real == x / n as real + y / n as real;
  }

  lemma {:induction false} CaseWithin(c: Case, a: Approach)
    requires 0 < a.topK
    ensures var results := Retrieve(c.sources, a);
      Hit(results, c.relevant) / a.topK as real <= Reciprocal(results, c.relevant) <= Hit(results, c.relevant)
  {
    CutOfRetrieve(c.sources, a, a.topK, a.topK);
    assert Cut(a, a.topK) == a;
    ReciprocalWithinHit(Retrieve(c.sources, a), c.relevant, a.topK);
  }

  /** What the bound says of two columns of values. */
  predicate Within(hits: seq<real>, ranks: seq<real>, n: nat)
    requires 0 < n
  {
    Sum(hits) / n as real <= Sum(ranks) <= Sum(hits)
  }

  lemma {:induction false} WithinPush(hits: seq<real>, ranks: seq<real>, n: nat, hit: real, rank: real)
    requires 0 < n && Within(hits, ranks, n) && hit / n as real <= rank <= hit
    ensures Within(hits + [hit], ranks + [rank], n)
  {
    AddDivided(Sum(hits), hit, n, Sum(ranks), rank);
  }

  lemma {:induction false} SumsWithin(cases: seq<Case>, a: Approach)
    requires 0 < a.topK
    ensures Within(Hits(Retrieve, cases, a), Reciprocals(Retrieve, cases, a), a.topK)
  {
    if cases != [] {
      var before, last := cases[..|cases| - 1], cases[|cases| - 1];
      SumsWithin(before, a);
      CaseWithin(last, a);
      WithinPush(Hits(Retrieve, before, a), Reciprocals(Retrieve, before, a), a.topK,
                 Hit(Retrieve(last.sources, a), last.relevant), Reciprocal(Retrieve(last.sources, a), last.relevant));
    }
  }

  lemma {:induction false} MeansWithin(hits: seq<real>, ranks: seq<real>, n: nat)
    requires 0 < n && Within(hits, ranks, n) && hits != [] && |hits| == |ranks|
    ensures Mean(hits) / n as real <= Mean(ranks) <= Mean(hits)
  {
    DivideOrder(Sum(ranks), Sum(hits), |hits|);
    DivideOrder(Sum(hits) / n as real, Sum(ranks), |hits|);
    SwapDivisors(Sum(hits), n, |hits|);
  }

  /** For every case set the mean reciprocal rank lies between the hit rate over top_k and the hit rate. */
  lemma {:induction false} MrrWithinHitRate(cases: seq<Case>, a: Approach)
    requires cases != [] && 0 < a.topK
    ensures HitRate(Retrieve, cases, a) / a.topK as real <= Mrr(Retrieve, cases, a) <= HitRate(Retrieve, cases, a)
  {
    SumsWithin(cases, a);
    MeansWithin(Hits(Retrieve, cases, a), Reciprocals(Retrieve, cases, a), a.topK);
  }

  lemma {:induction false} SwapDivisors(x: real, n: nat, m: nat)
    requires 0 < n && 0 < m
    ensures (x / n as real) / m as real == (x / m as real) / n as real
  {
    var q := (x / n as real) / m as real;
    assert x == (q * m as real) * n as real;
    assert x == (q * n as real) * m as real;
  }

  // ----- the grid ---------------------------------------------------------

  datatype Row = Row(approach: Approach, hitRate: real, mrr: real, latency: real)

  function Simplicity(a: Approach): nat {
    match a
    case Keyword(_, _) => 0
    case Vector(_, _) => 1
    case Hybrid(_, _, _) => 2
    case ReciprocalRanks(_, _, _) => 3
  }

  /** The key of select_winner: mrr and hit rate descending, then latency, then simplicity. */
  predicate Preferred(a: Row, b: Row) {
    a.mrr > b.mrr
    || (a.mrr == b.mrr
        && (a.hitRate > b.hitRate
            || (a.hitRate == b.hitRate
                && (a.latency < b.latency
                    || (a.latency == b.latency && Simplicity(a.approach) < Simplicity(b.approach))))))
  }

  /** Row i is preferred to every row in front of it, and no row is preferred to it. */
  ghost predicate WinsAt(rows: seq<Row>, i: nat)
    requires i < |rows|
  {
    && (forall j :: 0 <= j < |rows| ==> !Preferred(rows[j], rows[i]))
    && (forall j :: 0 <= j < i ==> Preferred(rows[i], rows[j]))
  }

  method SelectWinner(rows: seq<Row>) returns (winner: Row)
    requires rows != []
    ensures exists i :: 0 <= i < |rows| && rows[i] == winner && WinsAt(rows, i)
  {
    var sorted := SortBy(Preferred, rows);
    SortHead(Preferred, rows);
    winner := sorted[0];
    WinnerIsFirst(rows);
  }

  lemma {:induction false} WinnerIsFirst(rows: seq<Row>)
    requires rows != []
    ensures WinsAt(rows, First(Preferred, rows))
  {
    forall j | 0 <= j < |rows|
      ensures !Preferred(rows[j], rows[First(Preferred, rows)])
      ensures j < First(Preferred, rows) ==> Preferred(rows[First(Preferred, rows)], rows[j])
    {
      FirstIsLeast(Preferred, rows, j);
    }
  }

  /** The strategies from the simplest on. */
  predicate NotSimpler(a: Approach, b: Approach) {
    match b
    case Keyword(_, _) => true
    case Vector(_, _) => !a.Keyword?
    case Hybrid(_, _, _) => a.Hybrid? || a.ReciprocalRanks?
    case ReciprocalRanks(_, _, _) => a.ReciprocalRanks?
  }

  /** The winner has the best reciprocal rank; of those the best hit rate; then it is the fastest, and the simplest. */
  lemma {:induction false} WinnerIsBest(rows: seq<Row>, i: nat, j: nat)
    requires i < |rows| && j < |rows| && WinsAt(rows, i)
    ensures rows[j].mrr <= rows[i].mrr
    ensures rows[j].mrr == rows[i].mrr ==> rows[j].hitRate <= rows[i].hitRate
    ensures rows[j].mrr == rows[i].mrr && rows[j].hitRate == rows[i].hitRate ==> rows[i].latency <= rows[j].latency
    ensures rows[j].mrr == rows[i].mrr && rows[j].hitRate == rows[i].hitRate && rows[j].latency == rows[i].latency
        ==> NotSimpler(rows[j].approach, rows[i].approach)
            && (NotSimpler(rows[i].approach, rows[j].approach) ==> i <= j)
  {
    assert !Preferred(rows[j], rows[i]);
    assert j < i ==> Preferred(rows[i], rows[j]);
  }

  /** The configurations that the grid is to cover. */
  predicate InGrid(a: Approach, counts: seq<nat>, topKs: seq<nat>, alphas: seq<real>, ks: seq<nat>) {
    && a.candidateCount in counts && a.topK in topKs && a.topK <= a.candidateCount
    && (a.Hybrid? ==> a.alpha in alphas)
    && (a.ReciprocalRanks? ==> a.k in ks)
  }

  function Hybrids(count: nat, topK: nat, alphas: seq<real>): seq<Approach> {
    if alphas == [] then []
    else Hybrids(count, topK, alphas[..|alphas| - 1]) + [Hybrid(count, topK, alphas[|alphas| - 1])]
  }

  function Rrfs(count: nat, topK: nat, ks: seq<nat>): seq<Approach> {
    if ks == [] then []
    else Rrfs(count, topK, ks[..|ks| - 1]) + [ReciprocalRanks(count, topK, ks[|ks| - 1])]
  }

  /** The approaches of one (candidate_count, top_k) pair, simplest strategy first. */
  function PairOf(count: nat, topK: nat, alphas: seq<real>, ks: seq<nat>): seq<Approach> {
    [Keyword(count, topK), Vector(count, topK)] + Hybrids(count, topK, alphas) + Rrfs(count, topK, ks)
  }

  function PairsOf(count: nat, topKs: seq<nat>, alphas: seq<real>, ks: seq<nat>): seq<Approach> {
    if topKs == [] then []
    else
      var last := topKs[|topKs| - 1];
      PairsOf(count, topKs[..|topKs| - 1], alphas, ks) + if last <= count then PairOf(count, last, alphas, ks) else []
  }

  /** The grid in its order: by candidate_count, top_k and strategy, each as configured. */
  function Grid(counts: seq<nat>, topKs: seq<nat>, alphas: seq<real>, ks: seq<nat>): seq<Approach> {
    if counts == [] then []
    else
      Grid(counts[..|counts| - 1], topKs, alphas, ks) + PairsOf(counts[|counts| - 1], topKs, alphas, ks)
  }

  lemma {:induction false} HybridsIff(count: nat, topK: nat, alphas: seq<real>, a: Approach)
    ensures a in Hybrids(count, topK, alphas)
       <==> a.Hybrid? && a.candidateCount == count && a.topK == topK && a.alpha in alphas
  {
    if alphas != [] {
      HybridsIff(count, topK, alphas[..|alphas| - 1], a);
      assert alphas == alphas[..|alphas| - 1] + [alphas[|alphas| - 1]];
    }
  }

  lemma {:induction false} RrfsIff(count: nat, topK: nat, ks: seq<nat>, a: Approach)
    ensures a in Rrfs(count, topK, ks)
       <==> a.ReciprocalRanks? && a.candidateCount == count && a.topK == topK && a.k in ks
  {
    if ks != [] {
      RrfsIff(count, topK, ks[..|ks| - 1], a);
      assert ks == ks[..|ks| - 1] + [ks[|ks| - 1]];
    }
  }

  lemma {:induction false} PairsIff(count: nat, topKs: seq<nat>, alphas: seq<real>, ks: seq<nat>, a: Approach)
    ensures a in PairsOf(count, topKs, alphas, ks) <==> InGrid(a, [count], topKs, alphas, ks)
  {
    if topKs != [] {
      var rest, last := topKs[..|topKs| - 1], topKs[|topKs| - 1];
      PairsIff(count, rest, alphas, ks, a);
      HybridsIff(count, last, alphas, a);
      RrfsIff(count, last, ks, a);
      assert topKs == rest + [last];
    }
  }

  /** The grid holds exactly the configured approaches whose top_k does not exceed the candidate count. */
  lemma {:induction false} GridIff(counts: seq<nat>, topKs: seq<nat>, alphas: seq<real>, ks: seq<nat>, a: Approach)
    ensures a in Grid(counts, topKs, alphas, ks) <==> InGrid(a, counts, topKs, alphas, ks)
  {
    if counts != [] {
      GridIff(counts[..|counts| - 1], topKs, alphas, ks, a);
      PairsIff(counts[|counts| - 1], topKs, alphas, ks, a);
      assert counts == counts[..|counts| - 1] + [counts[|counts| - 1]];
    }
  }

  /** The position of the last x, or the length. */
  function Place(xs: seq<nat>, x: nat): (n: nat)
    ensures n < |xs| <==> x in xs
    ensures n < |xs| ==> xs[n] == x
    ensures n <= |xs|
  {
    if xs == [] then 0
    else if xs[|xs| - 1] == x then |xs| - 1
    else
      var n := Place(xs[..|xs| - 1], x);
      if n < |xs| - 1 then n else |xs|
  }

  /** The order of the grid: by candidate_count and top_k as configured, then simplest strategy first. */
  predicate NotAfter(a: Approach, b: Approach, counts: seq<nat>, topKs: seq<nat>) {
    var (c, d) := (Place(counts, a.candidateCount), Place(counts, b.candidateCount));
    var (m, n) := (Place(topKs, a.topK), Place(topKs, b.topK));
    c < d || (c == d && (m < n || (m == n && NotSimpler(b, a))))
  }

  lemma {:induction false} PairInOrder(count: nat, topK: nat, alphas: seq<real>, ks: seq<nat>, p: nat, q: nat)
    requires p < q < |PairOf(count, topK, alphas, ks)|
    ensures NotSimpler(PairOf(count, topK, alphas, ks)[q], PairOf(count, topK, alphas, ks)[p])
  {
    var pair := PairOf(count, topK, alphas, ks);
    HybridsIff(count, topK, alphas, pair[p]);
    HybridsIff(count, topK, alphas, pair[q]);
    RrfsIff(count, topK, ks, pair[p]);
    RrfsIff(count, topK, ks, pair[q]);
  }

  lemma {:induction false} PairIs(count: nat, topK: nat, alphas: seq<real>, ks: seq<nat>, p: nat)
    requires p < |PairOf(count, topK, alphas, ks)|
    ensures PairOf(count, topK, alphas, ks)[p].candidateCount == count
    ensures PairOf(count, topK, alphas, ks)[p].topK == topK
  {
    var pair := PairOf(count, topK, alphas, ks);
    HybridsIff(count, topK, alphas, pair[p]);
    RrfsIff(count, topK, ks, pair[p]);
  }

  lemma {:induction false} PairsInOrder(
    count: nat, topKs: seq<nat>, alphas: seq<real>, ks: seq<nat>, p: nat, q: nat)
    requires NoRepeats(topKs) && p < q < |PairsOf(count, topKs, alphas, ks)|
    ensures NotAfter(PairsOf(count, topKs, alphas, ks)[p], PairsOf(count, topKs, alphas, ks)[q], [count], topKs)
  {
    var rest, last := topKs[..|topKs| - 1], topKs[|topKs| - 1];
    var before := PairsOf(count, rest, alphas, ks);
    var all := PairsOf(count, topKs, alphas, ks);
    PairsIff(count, topKs, alphas, ks, all[p]);
    PairsIff(count, topKs, alphas, ks, all[q]);
    if q < |before| {
      PairsInOrder(count, rest, alphas, ks, p, q);
      PairsIff(count, rest, alphas, ks, before[p]);
      PairsIff(count, rest, alphas, ks, before[q]);
    } else {
      PairIs(count, last, alphas, ks, q - |before|);
      if p < |before| {
        PairsIff(count, rest, alphas, ks, before[p]);
      } else {
        PairInOrder(count, last, alphas, ks, p - |before|, q - |before|);
        PairIs(count, last, alphas, ks, p - |before|);
      }
    }
  }

  /** Over distinct counts and cuts, an approach never comes after one that follows it in the configured order. */
  lemma {:induction false} GridInOrder(
    counts: seq<nat>, topKs: seq<nat>, alphas: seq<real>, ks: seq<nat>, p: nat, q: nat)
    requires NoRepeats(counts) && NoRepeats(topKs) && p < q < |Grid(counts, topKs, alphas, ks)|
    ensures NotAfter(Grid(counts, topKs, alphas, ks)[p], Grid(counts, topKs, alphas, ks)[q], counts, topKs)
  {
    var rest, last := counts[..|counts| - 1], counts[|counts| - 1];
    var before, all := Grid(rest, topKs, alphas, ks), Grid(counts, topKs, alphas, ks);
    if q < |before| {
      GridInOrder(rest, topKs, alphas, ks, p, q);
      GridIff(rest, topKs, alphas, ks, before[p]);
      GridIff(rest, topKs, alphas, ks, before[q]);
    } else {
      PairsIff(last, topKs, alphas, ks, all[q]);
      if p < |before| {
        GridIff(rest, topKs, alphas, ks, before[p]);
      } else {
        PairsInOrder(last, topKs, alphas, ks, p - |before|, q - |before|);
        PairsIff(last, topKs, alphas, ks, all[p]);
      }
    }
  }

  method PairApproaches(count: nat, topK: nat, alphas: seq<real>, ks: seq<nat>) returns (output: seq<Approach>)
    ensures output == PairOf(count, topK, alphas, ks)
  {
    output := [Keyword(count, topK), Vector(count, topK)];
    for i := 0 to |alphas|
      invariant output == [Keyword(count, topK), Vector(count, topK)] + Hybrids(count, topK, alphas[..i])
    {
      assert alphas[..i + 1][..i] == alphas[..i];
      output := output + [Hybrid(count, topK, alphas[i])];
    }
    assert alphas[..|alphas|] == alphas;
    ghost var most := output;
    for i := 0 to |ks|
      invariant output == most + Rrfs(count, topK, ks[..i])
    {
      assert ks[..i + 1][..i] == ks[..i];
      output := output + [ReciprocalRanks(count, topK, ks[i])];
    }
    assert ks[..|ks|] == ks;
  }

  method Approaches(counts: seq<nat>, topKs: seq<nat>, alphas: seq<real>, ks: seq<nat>) returns (output: seq<Approach>)
    ensures output == Grid(counts, topKs, alphas, ks)
    ensures forall a :: a in output <==> InGrid(a, counts, topKs, alphas, ks)
  {
    output := [];
    for i := 0 to |counts|
      invariant output == Grid(counts[..i], topKs, alphas, ks)
    {
      ghost var before := output;
      for j := 0 to |topKs|
        invariant output == before + PairsOf(counts[i], topKs[..j], alphas, ks)
      {
        assert topKs[..j + 1][..j] == topKs[..j];
        if topKs[j] <= counts[i] {
          var pair := PairApproaches(counts[i], topKs[j], alphas, ks);
          Regroup(before, PairsOf(counts[i], topKs[..j], alphas, ks), pair);
          output := output + pair;
        } else {
          NothingAdded(PairsOf(counts[i], topKs[..j], alphas, ks));
        }
      }
      assert topKs[..|topKs|] == topKs;
      assert counts[..i + 1][..i] == counts[..i];
    }
    assert counts[..|counts|] == counts;
    forall a
      ensures a in output <==> InGrid(a, counts, topKs, alphas, ks)
    {
      GridIff(counts, topKs, alphas, ks, a);
    }
  }

  /** The row holds the means of one approach over all cases. */
  predicate Measures(row: Row, retrieve: Service, cases: seq<Case>, a: Approach, latency: real)
    requires cases != []
  {
    && row.approach == a && row.latency == latency
    && row.hitRate == HitRate(retrieve, cases, a)
    && row.mrr == Mrr(retrieve, cases, a)
  }

  lemma {:induction false} UpToCase(retrieve: Service, cases: seq<Case>, a: Approach, c: nat)
    requires c < |cases|
    ensures Hits(retrieve, cases[..c + 1], a)
         == Hits(retrieve, cases[..c], a) + [Hit(retrieve(cases[c].sources, a), cases[c].relevant)]
    ensures Reciprocals(retrieve, cases[..c + 1], a)
         == Reciprocals(retrieve, cases[..c], a) + [Reciprocal(retrieve(cases[c].sources, a), cases[c].relevant)]
  {
    assert cases[..c + 1][..c] == cases[..c];
  }

  /** The inner loop of the grid: one approach over all cases. */
  method RunApproach(retrieve: Service, cases: seq<Case>, a: Approach) returns (hits: seq<real>, ranks: seq<real>)
    ensures hits == Hits(retrieve, cases, a) && ranks == Reciprocals(retrieve, cases, a)
  {
    hits, ranks := [], [];
    for c := 0 to |cases|
      invariant hits == Hits(retrieve, cases[..c], a) && ranks == Reciprocals(retrieve, cases[..c], a)
    {
      UpToCase(retrieve, cases, a, c);
      var results := retrieve(cases[c].sources, a);
      var rank := ReciprocalRank(results, cases[c].relevant);
      hits := hits + [Hit(results, cases[c].relevant)];
      ranks := ranks + [rank];
    }
    assert cases[..|cases|] == cases;
  }

  /** The grid loop of RetrievalEvaluator.run; latencies are what the clock measured. */
  method RunRows(retrieve: Service, cases: seq<Case>, approaches: seq<Approach>, latency: Approach -> real)
    returns (rows: seq<Row>)
    requires cases != []
    ensures |rows| == |approaches|
    ensures forall i :: 0 <= i < |rows| ==> Measures(rows[i], retrieve, cases, approaches[i], latency(approaches[i]))
  {
    rows := [];
    for i := 0 to |approaches|
      invariant |rows| == i
      invariant forall j :: 0 <= j < i ==>
        Measures(rows[j], retrieve, cases, approaches[j], latency(approaches[j]))
    {
      var hits, ranks := RunApproach(retrieve, cases, approaches[i]);
      var row := Row(approaches[i], Mean(hits), Mean(ranks), latency(approaches[i]));
      rows := rows + [row];
    }
  }

  /** RetrievalEvaluator.run: the rows of the grid and the one that is selected. */
  method RunGrid(retrieve: Service, cases: seq<Case>, approaches: seq<Approach>, latency: Approach -> real)
    returns (rows: seq<Row>, winner: Row)
    requires cases != [] && approaches != []
    ensures |rows| == |approaches|
    ensures forall i :: 0 <= i < |rows| ==> Measures(rows[i], retrieve, cases, approaches[i], latency(approaches[i]))
    ensures exists i :: 0 <= i < |rows| && rows[i] == winner && WinsAt(rows, i)
  {
    rows := RunRows(retrieve, cases, approaches, latency);
    winner := SelectWinner(rows);
  }
}
