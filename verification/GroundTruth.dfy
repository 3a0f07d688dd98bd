/**
 Building the ground-truth review bundle (ground_truth/service.py): every (ticker, Item)
 stratum is screened by a concurrent worker and the results arrive in any order. Strata
 are numbered in the order of the artifact; digests and chunk ids are numbers in the
 order of their strings.

 A worker ranks its stratum's rows by digest, asks the assessor about one after another
 and stops at the target. Gather follows the order in which the workers complete; the
 bundle it leads to is a function of the rows and the decisions only, and passes the
 review that its reader puts it through.
 */
module GroundTruth {
  import opened Wrappers
  import opened Sequences
  import opened Ordering

  datatype Row = Row(id: nat, stratum: nat, digest: nat)

  datatype Config = Config(perStratum: nat, maxCandidates: nat)

  datatype Summary = Summary(
    stratum: nat, available: nat, screened: nat, selected: nat, target: nat, sourceShortfall: bool,
    meaningfulShortfall: bool)

  datatype Bundle = Bundle(chunks: seq<Row>, summaries: seq<Summary>)

  /** Three tickers times six Items. */
  const STRATA: nat := 18

  /** The assessor's decision on a row; None when it raises. */
  type Assessor = Row -> Option<bool>

  // ----- screening one stratum --------------------------------------------

  predicate RankBefore(a: Row, b: Row) {
    a.digest < b.digest || (a.digest == b.digest && a.id < b.id)
  }

  function InStratum(s: nat): Row -> bool {
    (r: Row) => r.stratum == s
  }

  /** deterministic_rank of the stratum's rows, cut to the candidates that may be screened. */
  function Candidates(rows: seq<Row>, s: nat, config: Config): seq<Row> {
    Take(SortBy(RankBefore, Filter(rows, InStratum(s))), config.maxCandidates)
  }

  function Meaningful(assess: Assessor): Row -> bool {
    (r: Row) => assess(r) == Some(true)
  }

  datatype Screening = Screening(selected: seq<Row>, screened: nat, failed: bool)

  /** One row of the loop of process; nothing once it has been left. */
  function Next(before: Screening, row: Row, assess: Assessor, target: nat): Screening {
    if before.failed || (before.selected != [] && |before.selected| == target) then before
    else
      match assess(row)
      case None => before.(failed := true)
      case Some(meaningful) =>
        Screening(before.selected + if meaningful then [row] else [], before.screened + 1, false)
  }

  function Screened(candidates: seq<Row>, assess: Assessor, target: nat, n: nat): Screening
    requires n <= |candidates|
  {
    if n == 0 then Screening([], 0, false)
    else Next(Screened(candidates, assess, target, n - 1), candidates[n - 1], assess, target)
  }

  function Worker(rows: seq<Row>, s: nat, config: Config, assess: Assessor): Screening {
    var candidates := Candidates(rows, s, config);
    Screened(candidates, assess, config.perStratum, |candidates|)
  }

  method Process(rows: seq<Row>, s: nat, config: Config, assess: Assessor) returns (r: Screening)
    ensures r == Worker(rows, s, config, assess)
  {
    var candidates := Candidates(rows, s, config);
    var selected: seq<Row>, screened := [], 0;
    for i := 0 to |candidates|
      invariant Screened(candidates, assess, config.perStratum, i) == Screening(selected, screened, false)
      invariant selected == [] || |selected| != config.perStratum
    {
      match assess(candidates[i]) {
        case None =>
          StoppedStays(candidates, assess, config.perStratum, i + 1, |candidates|);
          return Screening(selected, screened, true);
        case Some(meaningful) =>
          screened := screened + 1;
          if meaningful {
            selected := selected + [candidates[i]];
            if |selected| == config.perStratum {
              StoppedStays(candidates, assess, config.perStratum, i + 1, |candidates|);
              return Screening(selected, screened, false);
            }
          }
      }
    }
    return Screening(selected, screened, false);
  }

  lemma {:induction false} StoppedStays(candidates: seq<Row>, assess: Assessor, target: nat, n: nat, m: nat)
    requires n <= m <= |candidates|
    requires var r := Screened(candidates, assess, target, n); r.failed || (r.selected != [] && |r.selected| == target)
    ensures Screened(candidates, assess, target, m) == Screened(candidates, assess, target, n)
  {
    if n < m {
      StoppedStays(candidates, assess, target, n, m - 1);
    }
  }

  /** The loop's state agrees with the rows it has screened. */
  ghost predicate InStep(candidates: seq<Row>, meaningful: Row -> bool, target: nat, n: nat, r: Screening) {
    && r.screened <= n <= |candidates|
    && r.selected == Filter(candidates[..r.screened], meaningful)
    && |r.selected| <= target
    && (r.screened < n ==> r.selected != [] && |r.selected| == target)
    && (r.selected != [] && |r.selected| == target ==> r.screened > 0 && meaningful(candidates[r.screened - 1]))
  }

  lemma {:induction false} NextKeeps(candidates: seq<Row>, assess: Assessor, target: nat, n: nat, r: Screening)
    requires n < |candidates| && InStep(candidates, Meaningful(assess), target, n, r) && !r.failed && 0 < target
    requires !Next(r, candidates[n], assess, target).failed
    ensures InStep(candidates, Meaningful(assess), target, n + 1, Next(r, candidates[n], assess, target))
  {
    assert candidates[..n + 1] == candidates[..n] + [candidates[n]];
  }

  lemma {:induction false} ScreenedSoFar(candidates: seq<Row>, assess: Assessor, target: nat, n: nat)
    requires n <= |candidates| && 0 < target && !Screened(candidates, assess, target, n).failed
    ensures InStep(candidates, Meaningful(assess), target, n, Screened(candidates, assess, target, n))
  {
    if n > 0 {
      ScreenedSoFar(candidates, assess, target, n - 1);
      NextKeeps(candidates, assess, target, n - 1, Screened(candidates, assess, target, n - 1));
    }
  }

  /** The assessor raises on candidate k, which it is asked about because the target is not yet met. */
  predicate RaisesAt(candidates: seq<Row>, assess: Assessor, target: nat, k: nat)
    requires k < |candidates|
  {
    assess(candidates[k]).None? && CountWhere(candidates[..k], Meaningful(assess)) < target
  }

  lemma {:induction false} NextFailsIff(candidates: seq<Row>, assess: Assessor, target: nat, n: nat, r: Screening)
    requires n < |candidates| && InStep(candidates, Meaningful(assess), target, n, r) && !r.failed && 0 < target
    ensures Next(r, candidates[n], assess, target).failed <==> RaisesAt(candidates, assess, target, n)
  {
    FilterLength(candidates[..r.screened], Meaningful(assess));
    if r.screened < n {
      assert candidates[..n] == candidates[..r.screened] + candidates[r.screened..n];
      CountAppend(candidates[..r.screened], candidates[r.screened..n], Meaningful(assess));
    }
  }

  lemma {:induction false} ScreeningFailsIff(candidates: seq<Row>, assess: Assessor, target: nat, n: nat)
    requires n <= |candidates| && 0 < target
    ensures Screened(candidates, assess, target, n).failed
       <==> exists k :: 0 <= k < n && RaisesAt(candidates, assess, target, k)
  {
    if n > 0 {
      ScreeningFailsIff(candidates, assess, target, n - 1);
      var r := Screened(candidates, assess, target, n - 1);
      if !r.failed {
        ScreenedSoFar(candidates, assess, target, n - 1);
        NextFailsIff(candidates, assess, target, n - 1, r);
      }
    }
  }

  /** A worker fails exactly when the assessor raises before the stratum's target is met. */
  lemma {:induction false} WorkerFailsIff(rows: seq<Row>, s: nat, config: Config, assess: Assessor)
    requires 0 < config.perStratum
    ensures var candidates := Candidates(rows, s, config);
      Worker(rows, s, config, assess).failed
      <==> exists k :: 0 <= k < |candidates| && RaisesAt(candidates, assess, config.perStratum, k)
  {
    ScreeningFailsIff(Candidates(rows, s, config), assess, config.perStratum, |Candidates(rows, s, config)|);
  }

  /**
   A worker that is not stopped by an error selects exactly the first meaningful candidates,
   up to the target, and screens no row beyond the one that meets it.
   */
  lemma {:induction false} WorkerSelectsTheFirst(rows: seq<Row>, s: nat, config: Config, assess: Assessor)
    requires 0 < config.perStratum && !Worker(rows, s, config, assess).failed
    ensures var candidates, r := Candidates(rows, s, config), Worker(rows, s, config, assess);
      && r.selected == Take(Filter(candidates, Meaningful(assess)), config.perStratum)
      && r.screened <= |candidates|
      && r.selected == Filter(candidates[..r.screened], Meaningful(assess))
      && (r.screened < |candidates| ==>
            |r.selected| == config.perStratum && r.screened > 0 && Meaningful(assess)(candidates[r.screened - 1]))
  {
    var candidates := Candidates(rows, s, config);
    var r := Worker(rows, s, config, assess);
    ScreenedSoFar(candidates, assess, config.perStratum, |candidates|);
    FilterPrefix(candidates, r.screened, Meaningful(assess));
    if r.screened == |candidates| {
      assert candidates[..r.screened] == candidates;
    }
  }

  // ----- gathering the workers --------------------------------------------

  /** The artifact's order: by stratum, then chunk id. */
  predicate ChunkBefore(a: Row, b: Row) {
    a.stratum < b.stratum || (a.stratum == b.stratum && a.id < b.id)
  }

  function SummaryOf(rows: seq<Row>, s: nat, config: Config, assess: Assessor): Summary {
    var available, r := |Filter(rows, InStratum(s))|, Worker(rows, s, config, assess);
    Summary(s, available, r.screened, |r.selected|, config.perStratum, available < config.perStratum,
            |r.selected| < config.perStratum)
  }

  /** What the worker of each stratum selects. */
  function Selections(rows: seq<Row>, config: Config, assess: Assessor): nat -> seq<Row> {
    (s: nat) => Worker(rows, s, config, assess).selected
  }

  /** What the workers of these strata selected, in the order they completed. */
  function Gathered(rows: seq<Row>, config: Config, assess: Assessor, order: seq<nat>): seq<Row> {
    Collected(Selections(rows, config, assess), order)
  }

  function Numbers(n: nat): (r: seq<nat>)
    ensures |r| == n && forall i :: 0 <= i < n ==> r[i] == i
  {
    if n == 0 then [] else Numbers(n - 1) + [n - 1]
  }

  function Summaries(rows: seq<Row>, config: Config, assess: Assessor): seq<Summary> {
    seq(STRATA, s requires 0 <= s < STRATA => SummaryOf(rows, s, config, assess))
  }

  predicate AnyFails(rows: seq<Row>, config: Config, assess: Assessor) {
    exists s :: 0 <= s < STRATA && Worker(rows, s, config, assess).failed
  }

  /** The bundle as a function of the rows and decisions alone. */
  function BundleOf(rows: seq<Row>, config: Config, assess: Assessor): Bundle {
    Bundle(SortBy(ChunkBefore, Gathered(rows, config, assess, Numbers(STRATA))), Summaries(rows, config, assess))
  }

  /** Chunk ids are primary keys. */
  ghost predicate DistinctIds(rows: seq<Row>) {
    && (forall a, b :: a in rows && b in rows && a.id == b.id ==> a == b)
    && NoRepeats(rows)
  }

  /** The summary of a stratum whose worker has completed without an error is on record. */
  predicate Recorded(summaries: map<nat, Summary>, rows: seq<Row>, config: Config, assess: Assessor, s: nat) {
    s in summaries && summaries[s] == SummaryOf(rows, s, config, assess) && !Worker(rows, s, config, assess).failed
  }

  /** generate_bundle, the workers completing in the given order; None when one of them raises. */
  method GenerateBundle(rows: seq<Row>, config: Config, assess: Assessor, order: seq<nat>)
    returns (bundle: Option<Bundle>)
    requires DistinctIds(rows) && multiset(order) == multiset(Numbers(STRATA))
    ensures bundle == if AnyFails(rows, config, assess) then None else Some(BundleOf(rows, config, assess))
  {
    OrderCovers(order, STRATA);
    var gathered := Gather(rows, config, assess, order);
    if gathered.None? {
      return None;
    }
    var (chunks, summaries) := gathered.value;
    chunks := SortBy(ChunkBefore, chunks);
    ChunksIgnoreCompletion(rows, config, assess, order);
    var listed := ListSummaries(rows, config, assess, summaries);
    return Some(Bundle(chunks, listed));
  }

  /** The loop over the completed workers. */
  method Gather(rows: seq<Row>, config: Config, assess: Assessor, order: seq<nat>)
    returns (r: Option<(seq<Row>, map<nat, Summary>)>)
    requires forall s :: s in order <==> 0 <= s < STRATA
    ensures r.None? <==> AnyFails(rows, config, assess)
    ensures r.Some? ==> r.value.0 == Gathered(rows, config, assess, order)
    ensures r.Some? ==> forall s :: 0 <= s < STRATA ==> Recorded(r.value.1, rows, config, assess, s)
  {
    var chunks: seq<Row> := [];
    var summaries: map<nat, Summary> := map[];
    for i := 0 to |order|
      invariant chunks == Gathered(rows, config, assess, order[..i])
      invariant forall k :: 0 <= k < i ==> Recorded(summaries, rows, config, assess, order[k])
    {
      GatheredPush(rows, config, assess, order, i);
      var screening := Process(rows, order[i], config, assess);
      if screening.failed {
        assert order[i] in order;
        return None;
      }
      chunks := chunks + screening.selected;
      summaries := summaries[order[i] := SummaryOf(rows, order[i], config, assess)];
    }
    assert order[..|order|] == order;
    forall s | 0 <= s < STRATA
      ensures Recorded(summaries, rows, config, assess, s) && !Worker(rows, s, config, assess).failed
    {
      assert s in order;
      var k :| 0 <= k < |order| && order[k] == s;
    }
    return Some((chunks, summaries));
  }

  lemma {:induction false} GatheredPush(rows: seq<Row>, config: Config, assess: Assessor, order: seq<nat>, i: nat)
    requires i < |order|
    ensures Gathered(rows, config, assess, order[..i + 1])
         == Gathered(rows, config, assess, order[..i]) + Worker(rows, order[i], config, assess).selected
  {
    assert order[..i + 1][..i] == order[..i];
  }

  /** [summaries[stratum] for stratum in strata] */
  method ListSummaries(rows: seq<Row>, config: Config, assess: Assessor, summaries: map<nat, Summary>)
    returns (r: seq<Summary>)
    requires forall s :: 0 <= s < STRATA ==> Recorded(summaries, rows, config, assess, s)
    ensures r == Summaries(rows, config, assess)
  {
    r := [];
    for s := 0 to STRATA
      invariant |r| == s && forall k :: 0 <= k < s ==> r[k] == SummaryOf(rows, k, config, assess)
    {
      assert Recorded(summaries, rows, config, assess, s);
      r := r + [summaries[s]];
    }
  }

  lemma {:induction false} OrderCovers(order: seq<nat>, n: nat)
    requires multiset(order) == multiset(Numbers(n))
    ensures forall s :: s in order <==> 0 <= s < n
  {
    forall s: nat
      ensures s in order <==> s < n
    {
      assert s in order <==> s in multiset(order);
      assert s < n ==> Numbers(n)[s] == s;
    }
  }

  lemma {:induction false} ChunkBeforeIsWeak()
    ensures StrictWeak(ChunkBefore) && StrictWeak(RankBefore)
  {
  }

  lemma {:induction false} CandidatesAreRows(rows: seq<Row>, s: nat, config: Config, r: Row)
    requires r in Candidates(rows, s, config)
    ensures r in rows && r.stratum == s
  {
    var own := Filter(rows, InStratum(s));
    SortElements(RankBefore, own);
    assert r in SortBy(RankBefore, own);
    FilterElements(rows, InStratum(s), r);
    assert multiset(own)[r] > 0;
    assert multiset(rows)[r] > 0;
  }

  lemma {:induction false} SelectedAreCandidates(candidates: seq<Row>, assess: Assessor, target: nat, n: nat)
    requires n <= |candidates|
    ensures forall r :: r in Screened(candidates, assess, target, n).selected ==> r in candidates
  {
    if n > 0 {
      SelectedAreCandidates(candidates, assess, target, n - 1);
      assert candidates[n - 1] in candidates;
    }
  }

  lemma {:induction false} SelectedAreRows(rows: seq<Row>, s: nat, config: Config, assess: Assessor)
    ensures forall r :: r in Selections(rows, config, assess)(s) ==> r in rows && r.stratum == s
  {
    var candidates := Candidates(rows, s, config);
    SelectedAreCandidates(candidates, assess, config.perStratum, |candidates|);
    forall r | r in candidates
      ensures r in rows && r.stratum == s
    {
      CandidatesAreRows(rows, s, config, r);
    }
  }

  lemma {:induction false} GatheredAreRows(rows: seq<Row>, config: Config, assess: Assessor, order: seq<nat>)
    ensures forall r :: r in Gathered(rows, config, assess, order) ==> r in rows && r.stratum in order
  {
    if order != [] {
      var before, last := order[..|order| - 1], order[|order| - 1];
      GatheredAreRows(rows, config, assess, before);
      SelectedAreRows(rows, last, config, assess);
      assert forall s :: s in before ==> s in order;
    }
  }

  /** The smaller digest or, of two rows with one digest, the smaller id. */
  predicate EarlierRank(a: Row, b: Row) {
    a.digest <= b.digest && (a.digest == b.digest ==> a.id < b.id)
  }

  lemma {:induction false} OwnDiffer(rows: seq<Row>, s: nat)
    requires DistinctIds(rows)
    ensures Distinguishes(RankBefore, Filter(rows, InStratum(s))) && NoRepeats(Filter(rows, InStratum(s)))
  {
    var own := Filter(rows, InStratum(s));
    NoRepeatsCount(rows);
    forall r
      ensures multiset(own)[r] <= 1 && (r in own <==> r in rows && r.stratum == s)
    {
      FilterElements(rows, InStratum(s), r);
      assert (r in own <==> r in multiset(own)) && (r in rows <==> r in multiset(rows));
    }
    NoRepeatsCount(own);
  }

  lemma {:induction false} RankedPair(rows: seq<Row>, s: nat, i: nat, j: nat)
    requires DistinctIds(rows) && i < j < |SortBy(RankBefore, Filter(rows, InStratum(s)))|
    ensures var ranked := SortBy(RankBefore, Filter(rows, InStratum(s))); EarlierRank(ranked[i], ranked[j])
  {
    var own := Filter(rows, InStratum(s));
    var ranked := SortBy(RankBefore, own);
    OwnDiffer(rows, s);
    ChunkBeforeIsWeak();
    SortSorted(RankBefore, own);
    SortElements(RankBefore, own);
    NoRepeatsCount(own);
    NoRepeatsCount(ranked);
    StrictPair(RankBefore, ranked, i, j);
  }

  lemma {:induction false} InRanked(rows: seq<Row>, s: nat, r: Row)
    ensures r in SortBy(RankBefore, Filter(rows, InStratum(s))) <==> r in rows && r.stratum == s
  {
    var own := Filter(rows, InStratum(s));
    SortElements(RankBefore, own);
    FilterElements(rows, InStratum(s), r);
    assert (r in own <==> r in multiset(own)) && (r in rows <==> r in multiset(rows));
  }

  lemma {:induction false} LeftOutRanksLater(rows: seq<Row>, s: nat, config: Config, r: Row, c: Row)
    requires DistinctIds(rows) && r in rows && r.stratum == s
    requires r !in Candidates(rows, s, config) && c in Candidates(rows, s, config)
    ensures EarlierRank(c, r)
  {
    var ranked, candidates := SortBy(RankBefore, Filter(rows, InStratum(s))), Candidates(rows, s, config);
    InRanked(rows, s, r);
    var j: nat :| j < |ranked| && ranked[j] == r;
    var i: nat :| i < |candidates| && candidates[i] == c;
    assert candidates == ranked[..|candidates|];
    RankedPair(rows, s, i, j);
  }

  /**
   The candidates of a stratum are its rows with the smallest digests, in their order, as many
   as may be screened or as there are.
   */
  lemma {:induction false} CandidatesAreLeast(rows: seq<Row>, s: nat, config: Config)
    requires DistinctIds(rows)
    ensures var candidates, own := Candidates(rows, s, config), CountWhere(rows, InStratum(s));
      && |candidates| == (if own < config.maxCandidates then own else config.maxCandidates)
      && (forall i, j :: 0 <= i < j < |candidates| ==> EarlierRank(candidates[i], candidates[j]))
      && (forall r :: r in candidates ==> r in rows && r.stratum == s)
      && (forall r, c :: r in rows && r.stratum == s && r !in candidates && c in candidates ==> EarlierRank(c, r))
  {
    var own, candidates := Filter(rows, InStratum(s)), Candidates(rows, s, config);
    var ranked := SortBy(RankBefore, own);
    SortElements(RankBefore, own);
    FilterLength(rows, InStratum(s));
    forall i: nat, j: nat | i < j < |candidates|
      ensures EarlierRank(candidates[i], candidates[j])
    {
      RankedPair(rows, s, i, j);
    }
    forall r | r in candidates
      ensures r in rows && r.stratum == s
    {
      InRanked(rows, s, r);
    }
    forall r, c | r in rows && r.stratum == s && r !in candidates && c in candidates
      ensures EarlierRank(c, r)
    {
      LeftOutRanksLater(rows, s, config, r, c);
    }
  }

  /** What the summary of a stratum says, on the rows of the stratum and its meaningful candidates. */
  lemma {:induction false} SummaryMeans(rows: seq<Row>, s: nat, config: Config, assess: Assessor)
    requires 0 < config.perStratum && !Worker(rows, s, config, assess).failed
    ensures var summary := SummaryOf(rows, s, config, assess);
      var own := CountWhere(rows, InStratum(s));
      var meaningful := CountWhere(Candidates(rows, s, config), Meaningful(assess));
      && summary.stratum == s && summary.target == config.perStratum
      && summary.available == own && (summary.sourceShortfall <==> own < config.perStratum)
      && summary.selected == (if meaningful < config.perStratum then meaningful else config.perStratum)
      && (summary.meaningfulShortfall <==> meaningful < config.perStratum)
      && summary.screened <= |Candidates(rows, s, config)|
      && CountWhere(Candidates(rows, s, config)[..summary.screened], Meaningful(assess)) == summary.selected
  {
    var candidates := Candidates(rows, s, config);
    WorkerSelectsTheFirst(rows, s, config, assess);
    FilterLength(rows, InStratum(s));
    FilterLength(candidates, Meaningful(assess));
    FilterLength(candidates[..Worker(rows, s, config, assess).screened], Meaningful(assess));
  }

  /** The chunks come out the same whatever order the workers complete in. */
  lemma {:induction false} ChunksIgnoreCompletion(rows: seq<Row>, config: Config, assess: Assessor, order: seq<nat>)
    requires DistinctIds(rows) && multiset(order) == multiset(Numbers(STRATA))
    ensures SortBy(ChunkBefore, Gathered(rows, config, assess, order)) == BundleOf(rows, config, assess).chunks
  {
    var a, b := Gathered(rows, config, assess, order), Gathered(rows, config, assess, Numbers(STRATA));
    CollectedElements(Selections(rows, config, assess), order, Numbers(STRATA));
    GatheredAreRows(rows, config, assess, order);
    ChunkBeforeIsWeak();
    SortForgetsOrder(ChunkBefore, a, b);
  }

  lemma {:induction false} CandidatesIgnoreOrder(rows: seq<Row>, other: seq<Row>, s: nat, config: Config)
    requires DistinctIds(rows) && multiset(rows) == multiset(other)
    ensures Candidates(rows, s, config) == Candidates(other, s, config)
    ensures |Filter(rows, InStratum(s))| == |Filter(other, InStratum(s))|
  {
    var a, b := Filter(rows, InStratum(s)), Filter(other, InStratum(s));
    forall x
      ensures multiset(a)[x] == multiset(b)[x]
    {
      FilterElements(rows, InStratum(s), x);
      FilterElements(other, InStratum(s), x);
    }
    assert multiset(a) == multiset(b);
    assert |multiset(a)| == |a| && |multiset(b)| == |b|;
    ChunkBeforeIsWeak();
    forall x, y | x in a && y in a && x != y
      ensures RankBefore(x, y) || RankBefore(y, x)
    {
      FilterElements(rows, InStratum(s), x);
      FilterElements(rows, InStratum(s), y);
      assert multiset(a)[x] > 0 && multiset(a)[y] > 0;
      assert multiset(rows)[x] > 0 && multiset(rows)[y] > 0;
    }
    SortForgetsOrder(RankBefore, a, b);
  }

  /** Nor does the order in which the database returns the rows matter. */
  lemma {:induction false} BundleIgnoresRowOrder(rows: seq<Row>, other: seq<Row>, config: Config, assess: Assessor)
    requires DistinctIds(rows) && multiset(rows) == multiset(other)
    ensures BundleOf(rows, config, assess) == BundleOf(other, config, assess)
  {
    forall s: nat
      ensures Selections(rows, config, assess)(s) == Selections(other, config, assess)(s)
      ensures SummaryOf(rows, s, config, assess) == SummaryOf(other, s, config, assess)
    {
      CandidatesIgnoreOrder(rows, other, s, config);
    }
    SamePartsCollectTheSame(Selections(rows, config, assess), Selections(other, config, assess), Numbers(STRATA));
  }

  lemma {:induction false} SamePartsCollectTheSame<T>(p: nat -> seq<T>, q: nat -> seq<T>, order: seq<nat>)
    requires forall s: nat :: p(s) == q(s)
    ensures Collected(p, order) == Collected(q, order)
  {
    if order != [] {
      SamePartsCollectTheSame(p, q, order[..|order| - 1]);
    }
  }

  // ----- the bundle passes its review -------------------------------------

  function IdsOf(rows: seq<Row>): (r: seq<nat>)
    ensures |r| == |rows| && forall i :: 0 <= i < |r| ==> r[i] == rows[i].id
  {
    seq(|rows|, i requires 0 <= i < |rows| => rows[i].id)
  }

  function StrataOf(summaries: seq<Summary>): (r: seq<nat>)
    ensures |r| == |summaries| && forall i :: 0 <= i < |r| ==> r[i] == summaries[i].stratum
  {
    seq(|summaries|, i requires 0 <= i < |summaries| => summaries[i].stratum)
  }

  /** validate_review without completeness; the configuration and snapshot hashes are computed from what they cover. */
  predicate PassesReview(b: Bundle) {
    && |ToSet(IdsOf(b.chunks))| == |b.chunks|
    && ToSet(StrataOf(b.summaries)) == ToSet(Numbers(STRATA))
    && |b.summaries| == STRATA
  }

  lemma {:induction false} NumbersAre(n: nat)
    ensures NoRepeats(Numbers(n)) && forall s: nat :: s in Numbers(n) <==> s < n
  {
    if n > 0 {
      NumbersAre(n - 1);
      assert Numbers(n)[..n - 1] == Numbers(n - 1);
    }
    forall s: nat
      ensures s in Numbers(n) <==> s < n
    {
      assert s < n ==> Numbers(n)[s] == s;
    }
  }

  /** What the review asks of any bundle: no chunk twice, and as many summaries as strata, one for each. */
  lemma {:induction false} ReviewMeans(b: Bundle)
    ensures PassesReview(b) <==>
      && NoRepeats(IdsOf(b.chunks))
      && |b.summaries| == 18 && forall s: nat :: s < 18 ==> s in StrataOf(b.summaries)
  {
    NoRepeatsIff(IdsOf(b.chunks));
    NumbersAre(STRATA);
    NoRepeatsIff(Numbers(STRATA));
    var strata, all := ToSet(StrataOf(b.summaries)), ToSet(Numbers(STRATA));
    assert forall s: nat :: s in strata <==> s in StrataOf(b.summaries);
    assert forall s: nat :: s in all <==> s < STRATA;
    SetSize(StrataOf(b.summaries));
    if all <= strata {
      SubsetSize(all, strata);
    }
  }

  lemma {:induction false} SetSize(s: seq<nat>)
    ensures |ToSet(s)| <= |s|
  {
    if s != [] {
      SetSize(s[..|s| - 1]);
      assert ToSet(s) == ToSet(s[..|s| - 1]) + {s[|s| - 1]};
    }
  }

  function Occurrences(s: seq<Row>, r: Row): nat {
    multiset(s)[r]
  }

  lemma {:induction false} NextWithin(before: Screening, row: Row, assess: Assessor, target: nat, r: Row)
    ensures Occurrences(Next(before, row, assess, target).selected, r)
         <= Occurrences(before.selected, r) + if r == row then 1 else 0
  {
  }

  lemma {:induction false} OccurrencesUpTo(s: seq<Row>, n: nat, r: Row)
    requires 0 < n <= |s|
    ensures Occurrences(s[..n], r) == Occurrences(s[..n - 1], r) + if r == s[n - 1] then 1 else 0
  {
    assert s[..n] == s[..n - 1] + [s[n - 1]];
  }

  lemma {:induction false} SelectedWithin(candidates: seq<Row>, assess: Assessor, target: nat, n: nat, r: Row)
    requires n <= |candidates|
    ensures Occurrences(Screened(candidates, assess, target, n).selected, r) <= Occurrences(candidates[..n], r)
  {
    if n > 0 {
      SelectedWithin(candidates, assess, target, n - 1, r);
      NextWithin(Screened(candidates, assess, target, n - 1), candidates[n - 1], assess, target, r);
      OccurrencesUpTo(candidates, n, r);
    }
  }

  lemma {:induction false} TakeWithin<T>(s: seq<T>, n: nat, x: T)
    ensures multiset(Take(s, n))[x] <= multiset(s)[x]
  {
    if n < |s| {
      assert s == s[..n] + s[n..];
    }
  }

  lemma {:induction false} SelectionWithin(rows: seq<Row>, s: nat, config: Config, assess: Assessor, r: Row)
    ensures multiset(Selections(rows, config, assess)(s))[r] <= if r.stratum == s then multiset(rows)[r] else 0
  {
    var own, candidates := Filter(rows, InStratum(s)), Candidates(rows, s, config);
    SelectedWithin(candidates, assess, config.perStratum, |candidates|, r);
    assert candidates[..|candidates|] == candidates;
    TakeWithin(SortBy(RankBefore, own), config.maxCandidates, r);
    SortElements(RankBefore, own);
    FilterElements(rows, InStratum(s), r);
  }

  lemma {:induction false} GatheredWithin(rows: seq<Row>, config: Config, assess: Assessor, n: nat, r: Row)
    ensures multiset(Gathered(rows, config, assess, Numbers(n)))[r] <= if r.stratum < n then multiset(rows)[r] else 0
  {
    if n > 0 {
      GatheredWithin(rows, config, assess, n - 1, r);
      SelectionWithin(rows, n - 1, config, assess, r);
    } else {
      var nothing: seq<Row> := [];
      assert Gathered(rows, config, assess, Numbers(n)) == nothing;
      assert multiset(nothing)[r] == 0;
    }
  }

  lemma {:induction false} DistinctRowsDistinctIds(rows: seq<Row>, chunks: seq<Row>)
    requires DistinctIds(rows) && NoRepeats(chunks) && forall r :: r in chunks ==> r in rows
    ensures NoRepeats(IdsOf(chunks))
  {
    if chunks != [] {
      var before, last := chunks[..|chunks| - 1], chunks[|chunks| - 1];
      DistinctRowsDistinctIds(rows, before);
      assert IdsOf(chunks)[..|chunks| - 1] == IdsOf(before);
    }
  }

  lemma {:induction false} ChunksDiffer(rows: seq<Row>, config: Config, assess: Assessor)
    requires DistinctIds(rows)
    ensures var chunks := BundleOf(rows, config, assess).chunks;
      NoRepeats(chunks) && forall r :: r in chunks ==> r in rows
  {
    var gathered := Gathered(rows, config, assess, Numbers(STRATA));
    var chunks := BundleOf(rows, config, assess).chunks;
    SortElements(ChunkBefore, gathered);
    GatheredAreRows(rows, config, assess, Numbers(STRATA));
    NoRepeatsCount(rows);
    forall r | r in chunks
      ensures multiset(chunks)[r] <= 1
    {
      GatheredWithin(rows, config, assess, STRATA, r);
    }
    NoRepeatsCount(chunks);
  }

  /** Every bundle that is built passes the review's integrity checks. */
  lemma {:induction false} BundlePassesReview(rows: seq<Row>, config: Config, assess: Assessor)
    requires DistinctIds(rows)
    ensures PassesReview(BundleOf(rows, config, assess))
  {
    var b := BundleOf(rows, config, assess);
    ChunksDiffer(rows, config, assess);
    DistinctRowsDistinctIds(rows, b.chunks);
    NoRepeatsIff(IdsOf(b.chunks));
    assert StrataOf(b.summaries) == Numbers(STRATA);
  }
  lemma {:induction false} InGathered(rows: seq<Row>, config: Config, assess: Assessor, n: nat, r: Row)
    ensures r in Gathered(rows, config, assess, Numbers(n))
       <==> r.stratum < n && r in Worker(rows, r.stratum, config, assess).selected
  {
    if n > 0 {
      InGathered(rows, config, assess, n - 1, r);
      SelectedAreRows(rows, n - 1, config, assess);
      assert Numbers(n)[..n - 1] == Numbers(n - 1);
    }
  }

  /** A bundle lists what the strata selected, in the order of the strata and, within one, of the chunk ids. */
  lemma {:induction false} BundleLists(rows: seq<Row>, config: Config, assess: Assessor, i: nat, j: nat, r: Row)
    requires DistinctIds(rows)
    ensures var b := BundleOf(rows, config, assess);
      && (r in b.chunks <==> r.stratum < STRATA && r in Worker(rows, r.stratum, config, assess).selected)
      && (i < j < |b.chunks| ==>
            b.chunks[i].stratum <= b.chunks[j].stratum
            && (b.chunks[i].stratum == b.chunks[j].stratum ==> b.chunks[i].id < b.chunks[j].id))
      && |b.summaries| == STRATA
      && (i < STRATA ==> b.summaries[i] == SummaryOf(rows, i, config, assess))
  {
    var gathered := Gathered(rows, config, assess, Numbers(STRATA));
    var chunks := BundleOf(rows, config, assess).chunks;
    SortElements(ChunkBefore, gathered);
    InGathered(rows, config, assess, STRATA, r);
    ChunksDiffer(rows, config, assess);
    ChunkBeforeIsWeak();
    SortSorted(ChunkBefore, gathered);
    if i < j < |chunks| {
      assert chunks[i] in chunks && chunks[j] in chunks;
      StrictPair(ChunkBefore, chunks, i, j);
    }
  }
}
