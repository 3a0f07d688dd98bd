/**
 The production evaluation release (cli/production_evaluation.py): a file-system protocol
 on one persistent volume. A command is the sequence of file operations it performs; it
 may be killed after any of them and run again. Hashes are injective, so a hash is
 modelled by what it was computed from.
 */
module Release {
  import opened Wrappers
  import opened Ordering
  import M = Metrics

  // ----- what a directory holds -------------------------------------------

  datatype Selected = Selected(approach: M.Approach, reason: Option<string>)

  /** config/retrieval.json: the evaluation grid, the remaining fields, and the promoted default. */
  datatype Retrieval = Retrieval(
    counts: seq<nat>, topKs: seq<nat>, alphas: seq<real>, ks: seq<nat>, fixed: nat, default_: Option<Selected>)

  datatype Generation = Generation(fixed: nat, promoted: Option<nat>, reason: Option<string>)

  /** evaluation/results/retrieval-v1.json */
  datatype Benchmark = Benchmark(dataset: nat, hash: Retrieval, failures: bool, rows: seq<M.Row>, selected: M.Approach)

  /** evaluation/results/generation-v1.json, as far as publish looks at it. */
  datatype Comparison = Comparison(
    dataset: nat, corpus: nat, retrieval: Retrieval, generation: Generation, selected: Option<nat>, eligible: set<nat>,
    prompts: map<nat, nat>)

  datatype Metadata = Metadata(run: string, evaluated: Retrieval, accepted: Retrieval)

  datatype Dir = Dir(
    dataset: nat, manifestDataset: nat, reviewed: bool, corpus: nat, retrieval: Retrieval, generation: Generation,
    prompts: map<nat, nat>, benchmark: Option<Benchmark>, comparison: Option<Comparison>, metadata: Option<Metadata>,
    others: bool, temporaries: set<string>)

  /** A directory tree that is being copied or removed is damaged until the operation is over. */
  datatype Tree = Damaged | Intact(dir: Dir)

  datatype Volume = Volume(
    releases: map<string, Tree>, runs: map<string, Tree>, active: Option<string>, first: Option<string>,
    next: Option<string>)

  // ----- file operations --------------------------------------------------

  datatype Op =
    | PutRelease(id: string, tree: Tree)
    | PutRun(id: string, tree: Tree)
    | LinkFirst(id: string)
    | SwitchFirst
    | MoveRun(id: string)
    | UnlinkNext
    | LinkNext(id: string)
    | SwitchNext
    | RemoveRelease(id: string)

  function Apply(v: Volume, op: Op): Volume {
    match op
    case PutRelease(id, tree) => v.(releases := v.releases[id := tree])
    case PutRun(id, tree) => v.(runs := v.runs[id := tree])
    case LinkFirst(id) => v.(first := Some(id))
    case SwitchFirst => v.(active := v.first, first := None)
    case MoveRun(id) =>
      if id in v.runs then v.(releases := v.releases[id := v.runs[id]], runs := v.runs - {id}) else v
    case UnlinkNext => v.(next := None)
    case LinkNext(id) => v.(next := Some(id))
    case SwitchNext => v.(active := v.next, next := None)
    case RemoveRelease(id) => v.(releases := v.releases - {id})
  }

  function After(v: Volume, ops: seq<Op>): Volume {
    if ops == [] then v else Apply(After(v, ops[..|ops| - 1]), ops[|ops| - 1])
  }

  // ----- the checks -------------------------------------------------------

  function Resolved(v: Volume): Option<string> {
    if v.active.Some? && v.active.value in v.releases then v.active else None
  }

  /** _retrieval_inputs */
  predicate BenchmarkHolds(d: Dir) {
    && d.benchmark.Some?
    && d.reviewed && d.manifestDataset == d.dataset && d.benchmark.value.dataset == d.manifestDataset
    && !d.benchmark.value.failures
    && d.benchmark.value.rows != []
    && d.benchmark.value.selected == d.benchmark.value.rows[First(M.Preferred, d.benchmark.value.rows)].approach
  }

  function AcceptReason(id: string): string {
    "Accepted production retrieval evaluation from release " + id + "."
  }

  function PromoteReason(id: string): string {
    "Accepted production generation evaluation from release " + id + "."
  }

  /** The configuration accept_retrieval promotes. */
  function AcceptedRetrieval(d: Dir, id: string): Retrieval
    requires d.benchmark.Some?
  {
    d.retrieval.(default_ := Some(Selected(d.benchmark.value.selected, Some(AcceptReason(id)))))
  }

  /** The default the configuration names occurs in its grid. */
  predicate WellFormed(r: Retrieval) {
    r.default_.Some? ==> M.InGrid(r.default_.value.approach, r.counts, r.topKs, r.alphas, r.ks)
  }

  predicate Acceptable(d: Dir, id: string) {
    && BenchmarkHolds(d)
    && WellFormed(AcceptedRetrieval(d, id))
    && (match d.metadata
        case Some(m) =>
          && m.run == id && m.evaluated == d.benchmark.value.hash && m.accepted == AcceptedRetrieval(d, id)
          && (d.retrieval == AcceptedRetrieval(d, id) || d.retrieval == d.benchmark.value.hash)
        case None => d.benchmark.value.hash == d.retrieval)
  }

  predicate AlreadyAccepted(d: Dir, id: string)
    requires Acceptable(d, id)
  {
    d.metadata.Some? && d.retrieval == AcceptedRetrieval(d, id)
  }

  /** _required and every check of _validate_and_promote that precedes its write. */
  predicate Checks(d: Dir, id: string) {
    && d.others && d.comparison.Some?
    && BenchmarkHolds(d)
    && d.metadata.Some?
    && d.metadata.value.run == id
    && d.metadata.value.evaluated == d.benchmark.value.hash
    && d.metadata.value.accepted == d.retrieval
    && d.retrieval.default_.Some? && d.retrieval.default_.value.approach == d.benchmark.value.selected
    && (var c := d.comparison.value;
        && c.dataset == d.dataset && c.corpus == d.corpus
        && c.retrieval == d.retrieval && c.generation == d.generation
        && c.selected.Some? && c.selected.value in c.eligible
        && c.selected.value in c.prompts && c.selected.value in d.prompts
        && c.prompts[c.selected.value] == d.prompts[c.selected.value])
  }

  function PromotedGeneration(d: Dir, id: string): Generation
    requires d.comparison.Some?
  {
    d.generation.(promoted := d.comparison.value.selected, reason := Some(PromoteReason(id)))
  }

  /** The directory that passed the checks, with its winner promoted and the temporary file gone. */
  function Promoted(d: Dir, id: string): Dir
    requires d.comparison.Some?
  {
    d.(generation := PromotedGeneration(d, id), temporaries := d.temporaries - {"generation"})
  }

  // ----- the commands -----------------------------------------------------

  /** Writing a file through a temporary one and os.replace: d before, e after. */
  function WriteJson(id: string, d: Dir, name: string, e: Dir): seq<Op> {
    [PutRun(id, Intact(d.(temporaries := d.temporaries + {name}))), PutRun(id, Intact(e))]
  }

  function InitializePlan(v: Volume, source: Dir): seq<Op> {
    if v.active.Some? || "initial" in v.releases then []
    else
      [PutRelease("initial", Damaged), PutRelease("initial", Intact(source)), LinkFirst("initial"), SwitchFirst]
  }

  function CreateRunPlan(v: Volume, id: string): seq<Op> {
    if Resolved(v).None? || id in v.runs then []
    else
      match v.releases[v.active.value]
      case Damaged => [PutRun(id, Damaged)]
      case Intact(d) =>
        [PutRun(id, Damaged), PutRun(id, Intact(d)),
         PutRun(id, Intact(d.(benchmark := None))),
         PutRun(id, Intact(d.(benchmark := None, others := false))),
         PutRun(id, Intact(d.(benchmark := None, others := false, comparison := None))),
         PutRun(id, Intact(d.(benchmark := None, others := false, comparison := None, metadata := None)))]
  }

  function WithMetadata(d: Dir, id: string): Dir
    requires d.benchmark.Some?
  {
    d.(metadata := Some(Metadata(id, d.benchmark.value.hash, AcceptedRetrieval(d, id))),
       temporaries := d.temporaries - {"metadata"})
  }

  function WithRetrieval(d: Dir, id: string): Dir
    requires d.benchmark.Some?
  {
    d.(retrieval := AcceptedRetrieval(d, id), temporaries := d.temporaries - {"retrieval"})
  }

  function AcceptPlan(v: Volume, id: string): seq<Op> {
    if id !in v.runs || v.runs[id].Damaged? then []
    else
      var d := v.runs[id].dir;
      if !Acceptable(d, id) || AlreadyAccepted(d, id) then []
      else
        WriteJson(id, d, "metadata", WithMetadata(d, id))
        + WriteJson(id, WithMetadata(d, id), "retrieval", WithRetrieval(WithMetadata(d, id), id))
  }

  /** Whether publish gets past its own preconditions once the run is validated. */
  predicate Switchable(v: Volume, id: string) {
    id !in v.releases && Resolved(v).Some?
  }

  function PublishPlan(v: Volume, id: string): seq<Op> {
    if id !in v.runs || v.runs[id].Damaged? || !Checks(v.runs[id].dir, id) then []
    else
      var d := v.runs[id].dir;
      var write := WriteJson(id, d, "generation", Promoted(d, id));
      if !Switchable(v, id) then write
      else
        write + [MoveRun(id), UnlinkNext, LinkNext(id), SwitchNext,
                 PutRelease(v.active.value, Damaged), RemoveRelease(v.active.value)]
  }

  /** Edit stands for the evaluation tools, which may do anything inside a run directory. */
  datatype Command =
    | Initialize(source: Dir)
    | CreateRun(id: string)
    | Edit(id: string, tree: Tree)
    | Accept(id: string)
    | Publish(id: string)

  function Plan(v: Volume, c: Command): seq<Op> {
    match c
    case Initialize(source) => InitializePlan(v, source)
    case CreateRun(id) => CreateRunPlan(v, id)
    case Edit(id, tree) => if id in v.runs then [PutRun(id, tree)] else []
    case Accept(id) => AcceptPlan(v, id)
    case Publish(id) => PublishPlan(v, id)
  }

  /** The volume a command leaves when it is killed after n operations. */
  function Interrupted(v: Volume, c: Command, n: nat): Volume {
    var ops := Plan(v, c);
    After(v, if n < |ops| then ops[..n] else ops)
  }

  function Completed(v: Volume, c: Command): Volume {
    After(v, Plan(v, c))
  }

  const NEW := Volume(map[], map[], None, None, None)

  function Run(history: seq<(Command, nat)>): Volume {
    if history == [] then NEW
    else Interrupted(Run(history[..|history| - 1]), history[|history| - 1].0, history[|history| - 1].1)
  }

  // ----- the active release -----------------------------------------------

  /** The directory passed every check of a publish and then had its winner promoted. */
  ghost predicate Vetted(d: Dir, id: string) {
    exists e: Dir :: Checks(e, id) && d == Promoted(e, id)
  }

  /** Once set, active names an existing, complete release: the initial one, or one that was vetted. */
  ghost predicate Safe(v: Volume) {
    v.active.Some? ==>
      && v.active.value in v.releases
      && v.releases[v.active.value].Intact?
      && (v.active.value == "initial" || Vetted(v.releases[v.active.value].dir, v.active.value))
  }

  /** Nothing a reader of the active release could notice. */
  predicate SameActive(v: Volume, w: Volume) {
    w.active == v.active
    && (v.active.Some? && v.active.value in v.releases ==>
          v.active.value in w.releases && w.releases[v.active.value] == v.releases[v.active.value])
  }

  lemma {:induction false} AfterPrefix(v: Volume, ops: seq<Op>, n: nat)
    requires n < |ops|
    ensures After(v, ops[..n + 1]) == Apply(After(v, ops[..n]), ops[n])
  {
    assert ops[..n + 1][..n] == ops[..n];
  }

  /** Operations on run directories and spare links leave the active release alone. */
  predicate Harmless(v: Volume, op: Op) {
    match op
    case PutRun(_, _) => true
    case LinkFirst(_) => true
    case LinkNext(_) => true
    case UnlinkNext => true
    case PutRelease(id, _) => v.active != Some(id)
    case RemoveRelease(id) => v.active != Some(id)
    case MoveRun(id) => v.active != Some(id)
    case _ => false
  }

  lemma {:induction false} HarmlessKeeps(v: Volume, op: Op)
    requires Harmless(v, op)
    ensures SameActive(v, Apply(v, op))
  {
  }

  lemma {:induction false} AllHarmlessKeeps(v: Volume, ops: seq<Op>, n: nat)
    requires n <= |ops| && forall op :: op in ops ==> Harmless(v, op)
    ensures SameActive(v, After(v, ops[..n]))
  {
    if n > 0 {
      AllHarmlessKeeps(v, ops, n - 1);
      AfterPrefix(v, ops, n - 1);
      assert ops[n - 1] in ops;
      HarmlessKeeps(After(v, ops[..n - 1]), ops[n - 1]);
    }
  }

  /** The volume once publish has switched, before it removes the old release. */
  function Switched(v: Volume, id: string, d: Dir): Volume {
    v.(releases := v.releases[id := Intact(d)], runs := v.runs - {id}, active := Some(id), next := None)
  }

  lemma {:induction false} PutsLast(v: Volume, ops: seq<Op>, id: string)
    requires ops != [] && forall op :: op in ops ==> op.PutRun? && op.id == id
    ensures After(v, ops) == v.(runs := v.runs[id := ops[|ops| - 1].tree])
  {
    var before, last := ops[..|ops| - 1], ops[|ops| - 1];
    assert last in ops;
    if before != [] {
      assert forall op :: op in before ==> op in ops;
      PutsLast(v, before, id);
    }
  }

  lemma {:induction false} PublishWrites(v: Volume, id: string)
    requires id in v.runs && v.runs[id].Intact? && Checks(v.runs[id].dir, id)
    ensures After(v, PublishPlan(v, id)[..2]) == v.(runs := v.runs[id := Intact(Promoted(v.runs[id].dir, id))])
  {
    PutsLast(v, PublishPlan(v, id)[..2], id);
  }

  lemma {:induction false} FourMore(v: Volume, ops: seq<Op>)
    requires 6 <= |ops|
    ensures After(v, ops[..6]) == Apply(Apply(Apply(Apply(After(v, ops[..2]), ops[2]), ops[3]), ops[4]), ops[5])
  {
    AfterPrefix(v, ops, 2);
    AfterPrefix(v, ops, 3);
    AfterPrefix(v, ops, 4);
    AfterPrefix(v, ops, 5);
  }

  lemma {:induction false} PublishReachesSwitch(v: Volume, id: string)
    requires id in v.runs && v.runs[id].Intact? && Checks(v.runs[id].dir, id) && Switchable(v, id)
    ensures After(v, PublishPlan(v, id)[..6]) == Switched(v, id, Promoted(v.runs[id].dir, id))
  {
    var d := Promoted(v.runs[id].dir, id);
    PublishWrites(v, id);
    FourMore(v, PublishPlan(v, id));
    assert v.runs[id := Intact(d)] - {id} == v.runs - {id};
  }

  lemma {:induction false} BeforeTheSwitch(v: Volume, id: string, n: nat)
    requires id in v.runs && v.runs[id].Intact? && Checks(v.runs[id].dir, id)
    requires n <= |PublishPlan(v, id)| && n <= 5
    ensures SameActive(v, After(v, PublishPlan(v, id)[..n]))
  {
    var ops := PublishPlan(v, id);
    var m := if |ops| < 5 then |ops| else 5;
    assert ops[..n] == ops[..m][..n];
    forall op | op in ops[..m]
      ensures Harmless(v, op)
    {
      var i :| 0 <= i < m && ops[i] == op;
    }
    AllHarmlessKeeps(v, ops[..m], n);
  }

  /**
   A publish killed anywhere: a reader of the active release sees it as it was, or sees a
   directory that passed every check, complete, with its winner promoted.
   */
  lemma {:induction false} PublishShowsOldOrVetted(v: Volume, id: string, n: nat)
    ensures var w := Interrupted(v, Publish(id), n);
      SameActive(v, w)
      || (&& id in v.runs && v.runs[id].Intact? && Checks(v.runs[id].dir, id)
          && w.active == Some(id) && id in w.releases
          && w.releases[id] == Intact(Promoted(v.runs[id].dir, id)))
  {
    var ops := PublishPlan(v, id);
    var k := if n < |ops| then n else |ops|;
    assert ops[..|ops|] == ops;
    if ops != [] {
      if k <= 5 {
        BeforeTheSwitch(v, id, k);
      } else {
        AfterTheSwitch(v, id, k);
      }
    }
  }

  lemma {:induction false} AfterTheSwitch(v: Volume, id: string, n: nat)
    requires id in v.runs && v.runs[id].Intact? && Checks(v.runs[id].dir, id) && Switchable(v, id)
    requires 6 <= n <= 8
    ensures SameActive(Switched(v, id, Promoted(v.runs[id].dir, id)), After(v, PublishPlan(v, id)[..n]))
  {
    var ops := PublishPlan(v, id);
    PublishReachesSwitch(v, id);
    if n > 6 {
      AfterTheSwitch(v, id, n - 1);
      AfterPrefix(v, ops, n - 1);
      HarmlessKeeps(After(v, ops[..n - 1]), ops[n - 1]);
    }
  }

  lemma {:induction false} InitializeIsSafe(v: Volume, source: Dir, n: nat)
    requires Safe(v)
    ensures Safe(Interrupted(v, Initialize(source), n))
    ensures v.active.Some? ==> Interrupted(v, Initialize(source), n) == v
  {
    var ops := InitializePlan(v, source);
    var k := if n < |ops| then n else |ops|;
    assert ops[..|ops|] == ops;
    if ops != [] {
      if k < 4 {
        assert ops[..k] == ops[..3][..k];
        AllHarmlessKeeps(v, ops[..3], k);
      } else {
        assert ops[..0] == [];
        AfterPrefix(v, ops, 0);
        AfterPrefix(v, ops, 1);
        AfterPrefix(v, ops, 2);
        AfterPrefix(v, ops, 3);
      }
    }
  }

  lemma {:induction false} InterruptedAt(v: Volume, c: Command, n: nat)
    ensures var ops := Plan(v, c); Interrupted(v, c, n) == After(v, ops[..if n < |ops| then n else |ops|])
  {
    var ops := Plan(v, c);
    assert ops[..|ops|] == ops;
  }

  /** The commands that only work inside runs/. */
  lemma {:induction false} WorkingIsHarmless(v: Volume, c: Command, n: nat)
    requires c.CreateRun? || c.Edit? || c.Accept?
    ensures SameActive(v, Interrupted(v, c, n))
  {
    var ops := Plan(v, c);
    InterruptedAt(v, c, n);
    OnlyPutsRuns(v, c);
    AllHarmlessKeeps(v, ops, if n < |ops| then n else |ops|);
  }

  lemma {:induction false} OnlyPutsRuns(v: Volume, c: Command)
    requires c.CreateRun? || c.Edit? || c.Accept?
    ensures forall op :: op in Plan(v, c) ==> op.PutRun?
  {
  }

  lemma {:induction false} CommandIsSafe(v: Volume, c: Command, n: nat)
    requires Safe(v)
    ensures Safe(Interrupted(v, c, n)) && (v.active.Some? ==> Interrupted(v, c, n).active.Some?)
  {
    match c
    case Initialize(source) => InitializeIsSafe(v, source, n);
    case Publish(id) => PublishShowsOldOrVetted(v, id, n);
    case _ => WorkingIsHarmless(v, c, n);
  }

  /**
   Any history of commands, each completed or killed after any of its operations, with the
   evaluation tools free to change run directories: the active link is never dangling and
   never names anything but the initial release or a vetted one, complete.
   */
  lemma {:induction false} ActiveAlwaysResolves(history: seq<(Command, nat)>)
    ensures Safe(Run(history))
  {
    if history != [] {
      ActiveAlwaysResolves(history[..|history| - 1]);
      CommandIsSafe(Run(history[..|history| - 1]), history[|history| - 1].0, history[|history| - 1].1);
    }
  }

  // ----- what the checks come to ------------------------------------------

  /** The benchmark of a reviewed dataset, without failures, that selects the winning row of its grid. */
  ghost predicate Evaluated(d: Dir) {
    && d.reviewed && d.manifestDataset == d.dataset
    && d.benchmark.Some? && d.benchmark.value.dataset == d.dataset && !d.benchmark.value.failures
    && exists i :: 0 <= i < |d.benchmark.value.rows| && M.WinsAt(d.benchmark.value.rows, i)
                   && d.benchmark.value.selected == d.benchmark.value.rows[i].approach
  }

  lemma {:induction false} OneWinner(rows: seq<M.Row>, i: nat, j: nat)
    requires i < |rows| && j < |rows| && M.WinsAt(rows, i) && M.WinsAt(rows, j)
    ensures i == j
  {
    var first, second := M.Preferred(rows[i], rows[j]), M.Preferred(rows[j], rows[i]);
    assert (i < j ==> second) && (j < i ==> first);
  }

  lemma {:induction false} EvaluatedIff(d: Dir)
    ensures BenchmarkHolds(d) <==> Evaluated(d)
  {
    if d.benchmark.Some? && d.benchmark.value.rows != [] {
      var rows := d.benchmark.value.rows;
      M.WinnerIsFirst(rows);
      forall i: nat | i < |rows| && M.WinsAt(rows, i)
        ensures i == First(M.Preferred, rows)
      {
        OneWinner(rows, i, First(M.Preferred, rows));
      }
    }
  }

  /**
   What a published directory can be held to: the default retrieval is the winner of its own
   benchmark, accepted from the configuration that was benchmarked; its comparison was run on
   this dataset, corpus and retrieval configuration and on the generation configuration before
   the promotion; and the promoted prompt is that comparison's eligible choice, unchanged since.
   */
  ghost predicate Accountable(d: Dir, id: string) {
    && Evaluated(d) && d.others && d.comparison.Some? && "generation" !in d.temporaries
    && d.retrieval.default_.Some? && d.retrieval.default_.value.approach == d.benchmark.value.selected
    && d.metadata == Some(Metadata(id, d.benchmark.value.hash, d.retrieval))
    && (var c := d.comparison.value;
        && c.dataset == d.dataset && c.corpus == d.corpus && c.retrieval == d.retrieval
        && d.generation.fixed == c.generation.fixed && d.generation.promoted == c.selected
        && d.generation.reason == Some("Accepted production generation evaluation from release " + id + ".")
        && c.selected.Some?
        && var prompt := c.selected.value;
        prompt in c.eligible && prompt in c.prompts && prompt in d.prompts && c.prompts[prompt] == d.prompts[prompt])
  }

  lemma {:induction false} PromotedIsAccountable(e: Dir, id: string)
    requires Checks(e, id)
    ensures Accountable(Promoted(e, id), id)
  {
    var d := Promoted(e, id);
    EvaluatedIff(e);
    EvaluatedIff(d);
  }

  /** The directories a publish can leave are exactly the accountable ones. */
  lemma {:induction false} VettedIff(d: Dir, id: string)
    ensures Vetted(d, id) <==> Accountable(d, id)
  {
    if Vetted(d, id) {
      var e: Dir :| Checks(e, id) && d == Promoted(e, id);
      PromotedIsAccountable(e, id);
    }
    if Accountable(d, id) {
      var e := d.(generation := d.comparison.value.generation);
      EvaluatedIff(e);
      EvaluatedIff(d);
      assert d.temporaries - {"generation"} == d.temporaries;
      assert Checks(e, id) && d == Promoted(e, id);
    }
  }

  /**
   A publish that passes its checks promotes the winner in the run. With the id still free and
   an active release to take over from, the run then becomes the active release, accountable,
   and the old release is gone; otherwise nothing else changes.
   */
  lemma {:induction false} PublishedVolume(v: Volume, id: string)
    requires id in v.runs && v.runs[id].Intact? && Checks(v.runs[id].dir, id)
    ensures var w, d := Completed(v, Publish(id)), v.runs[id].dir;
      var e := Intact(Promoted(d, id));
      && Accountable(e.dir, id)
      && e.dir.(generation := d.generation, temporaries := d.temporaries) == d
      && if id in v.releases || v.active.None? || v.active.value !in v.releases then w == v.(runs := v.runs[id := e])
         else
           && w.active == Some(id) && id in w.releases && w.releases[id] == e
           && w.releases.Keys == (v.releases.Keys - {v.active.value}) + {id}
           && (forall r :: r in w.releases && r != id ==> w.releases[r] == v.releases[r])
           && w.runs == v.runs - {id} && w.first == v.first && w.next == None
  {
    var ops := PublishPlan(v, id);
    PromotedIsAccountable(v.runs[id].dir, id);
    if Switchable(v, id) {
      PublishReachesSwitch(v, id);
      AfterPrefix(v, ops, 6);
      AfterPrefix(v, ops, 7);
      assert ops[..8] == ops;
    } else {
      PublishWrites(v, id);
      assert ops[..2] == ops;
    }
  }

  /** A run is created when its id is free and the active release resolves: a copy without results or acceptance. */
  lemma {:induction false} CreatedRun(v: Volume, id: string)
    requires v.active.Some? && v.active.value in v.releases ==> v.releases[v.active.value].Intact?
    ensures var w := Completed(v, CreateRun(id));
      if id in v.runs || v.active.None? || v.active.value !in v.releases then w == v
      else
        var d := v.releases[v.active.value].dir;
        w == v.(runs := v.runs[id := Intact(d.(benchmark := None, comparison := None, metadata := None,
                                               others := false))])
  {
    if id !in v.runs && Resolved(v).Some? {
      PutsLast(v, CreateRunPlan(v, id), id);
    }
  }

  /** The first release is the directory it was copied from; a volume with an active link is left alone. */
  lemma {:induction false} InitializedVolume(v: Volume, source: Dir)
    ensures var w := Completed(v, Initialize(source));
      if v.active.Some? || "initial" in v.releases then w == v
      else w == v.(releases := v.releases["initial" := Intact(source)], active := Some("initial"), first := None)
  {
    var ops := InitializePlan(v, source);
    if ops != [] {
      assert ops[..0] == [] && ops[..4] == ops;
      AfterPrefix(v, ops, 0);
      AfterPrefix(v, ops, 1);
      AfterPrefix(v, ops, 2);
      AfterPrefix(v, ops, 3);
      assert v.releases["initial" := Damaged]["initial" := Intact(source)] == v.releases["initial" := Intact(source)];
    }
  }

  lemma {:induction false} CompletedIs(v: Volume, c: Command, n: nat)
    requires |Plan(v, c)| <= n
    ensures Interrupted(v, c, n) == Completed(v, c)
  {
  }

  lemma {:induction false} RunPush(history: seq<(Command, nat)>, c: Command, n: nat)
    ensures Run(history + [(c, n)]) == Interrupted(Run(history), c, n)
  {
    assert (history + [(c, n)])[..|history|] == history;
  }

  lemma {:induction false} InitialRun(source: Dir)
    ensures Run([(Initialize(source), 4)])
         == Volume(map["initial" := Intact(source)], map[], Some("initial"), None, None)
  {
    var first: seq<(Command, nat)> := [];
    assert first + [(Initialize(source), 4)] == [(Initialize(source), 4)];
    RunPush(first, Initialize(source), 4);
    CompletedIs(NEW, Initialize(source), 4);
    FirstVolume(source);
  }

  lemma {:induction false} FirstVolume(source: Dir)
    ensures Completed(NEW, Initialize(source))
         == Volume(map["initial" := Intact(source)], map[], Some("initial"), None, None)
  {
    InitializedVolume(NEW, source);
  }

  lemma {:induction false} EditedRun(v: Volume, id: string, d: Dir)
    requires id in v.runs
    ensures Interrupted(v, Edit(id, Intact(d)), 1) == v.(runs := v.runs[id := Intact(d)])
  {
    PutsLast(v, [PutRun(id, Intact(d))], id);
    CompletedIs(v, Edit(id, Intact(d)), 1);
  }

  /** A volume with an initial release and one run, which passes the checks. */
  function WithOneRun(source: Dir, id: string, d: Dir): Volume {
    Volume(map["initial" := Intact(source)], map[id := Intact(d)], Some("initial"), None, None)
  }

  lemma {:induction false} EditedFromScratch(source: Dir, id: string, d: Dir)
    ensures Run([(Initialize(source), 4)] + [(CreateRun(id), 6)] + [(Edit(id, Intact(d)), 1)])
         == WithOneRun(source, id, d)
  {
    var initialized := [(Initialize(source), 4)];
    InitialRun(source);
    RunPush(initialized, CreateRun(id), 6);
    CreatedRun(Run(initialized), id);
    CompletedIs(Run(initialized), CreateRun(id), 6);
    RunPush(initialized + [(CreateRun(id), 6)], Edit(id, Intact(d)), 1);
    EditedRun(Run(initialized + [(CreateRun(id), 6)]), id, d);
  }

  lemma {:induction false} PublishedFirst(source: Dir, id: string, d: Dir)
    requires id != "initial" && Checks(d, id)
    ensures Completed(WithOneRun(source, id, d), Publish(id))
         == Volume(map[id := Intact(Promoted(d, id))], map[], Some(id), None, None)
  {
    PublishedVolume(WithOneRun(source, id, d), id);
    var w := Completed(WithOneRun(source, id, d), Publish(id));
    assert w.releases == map[id := Intact(Promoted(d, id))];
  }

  /** From an empty volume: a run that comes to pass the checks is published, over the initial release. */
  lemma {:induction false} PublishingIsReached(source: Dir, id: string, d: Dir)
    requires id != "initial" && Checks(d, id)
    ensures Run([(Initialize(source), 4)] + [(CreateRun(id), 6)] + [(Edit(id, Intact(d)), 1)] + [(Publish(id), 8)])
         == Volume(map[id := Intact(Promoted(d, id))], map[], Some(id), None, None)
  {
    var edited := [(Initialize(source), 4)] + [(CreateRun(id), 6)] + [(Edit(id, Intact(d)), 1)];
    EditedFromScratch(source, id, d);
    RunPush(edited, Publish(id), 8);
    CompletedIs(WithOneRun(source, id, d), Publish(id), 8);
    PublishedFirst(source, id, d);
  }

  // ----- accepting a retrieval result again -------------------------------

  /** The volume without the temporary files of one run. */
  function Tidy(v: Volume, id: string): Volume
    requires id in v.runs && v.runs[id].Intact?
  {
    v.(runs := v.runs[id := Intact(v.runs[id].dir.(temporaries := {}))])
  }

  /** What a complete accept makes of the run directory. */
  function AcceptedDir(d: Dir, id: string): Dir {
    if !Acceptable(d, id) || AlreadyAccepted(d, id) then d else WithRetrieval(WithMetadata(d, id), id)
  }

  lemma {:induction false} AcceptResult(v: Volume, id: string)
    requires id in v.runs && v.runs[id].Intact?
    ensures Completed(v, Accept(id)) == v.(runs := v.runs[id := Intact(AcceptedDir(v.runs[id].dir, id))])
  {
    var d := v.runs[id].dir;
    if Acceptable(d, id) && !AlreadyAccepted(d, id) {
      PutsLast(v, AcceptPlan(v, id), id);
    } else {
      assert v.runs[id := v.runs[id]] == v.runs;
    }
  }

  /** The winner becomes the default of the configuration, its grid and other fields as they are. */
  function WithWinner(d: Dir, id: string): Retrieval
    requires d.benchmark.Some?
  {
    var reason := "Accepted production retrieval evaluation from release " + id + ".";
    Retrieval(d.retrieval.counts, d.retrieval.topKs, d.retrieval.alphas, d.retrieval.ks, d.retrieval.fixed,
              Some(Selected(d.benchmark.value.selected, Some(reason))))
  }

  /**
   accept_retrieval refuses, and leaves the run as it is, exactly when the benchmark does not
   hold, its choice is not in the configured grid, or configuration and metadata are not those
   of an acceptance that is due, under way or done. Otherwise it leaves the configuration with
   the winner and the metadata of this acceptance.
   */
  lemma {:induction false} AcceptedRun(v: Volume, id: string)
    requires id in v.runs && v.runs[id].Intact?
    ensures var d, w := v.runs[id].dir, Completed(v, Accept(id));
      && id in w.runs && w.runs[id].Intact? && w == v.(runs := v.runs[id := w.runs[id]])
      && var e := w.runs[id].dir;
      if !Evaluated(d)
         || !M.InGrid(d.benchmark.value.selected, d.retrieval.counts, d.retrieval.topKs, d.retrieval.alphas,
                      d.retrieval.ks)
         || (d.retrieval != d.benchmark.value.hash
             && (d.metadata.None? || d.retrieval != WithWinner(d, id)))
         || (d.metadata.Some? && d.metadata.value != Metadata(id, d.benchmark.value.hash, WithWinner(d, id)))
      then e == d
      else
        && e.retrieval == WithWinner(d, id)
        && e.metadata == Some(Metadata(id, d.benchmark.value.hash, WithWinner(d, id)))
        && e.(retrieval := d.retrieval, metadata := d.metadata, temporaries := d.temporaries) == d
  {
    EvaluatedIff(v.runs[id].dir);
    AcceptResult(v, id);
  }

  function Marked(d: Dir, name: string): Dir {
    d.(temporaries := d.temporaries + {name})
  }

  /** The directory after n operations of an accept that is due. */
  function Partly(d: Dir, id: string, n: nat): Dir
    requires d.benchmark.Some?
  {
    if n == 0 then d
    else if n == 1 then Marked(d, "metadata")
    else if n == 2 then WithMetadata(d, id)
    else if n == 3 then Marked(WithMetadata(d, id), "retrieval")
    else WithRetrieval(WithMetadata(d, id), id)
  }

  predicate SameFiles(a: Dir, b: Dir) {
    a.(temporaries := {}) == b.(temporaries := {})
  }

  /** The volume with another directory for one run. */
  function WithRun(v: Volume, id: string, d: Dir): Volume {
    v.(runs := v.runs[id := Intact(d)])
  }

  lemma {:induction false} AcceptPartly(v: Volume, id: string, n: nat)
    requires id in v.runs && v.runs[id].Intact? && n <= |AcceptPlan(v, id)|
    ensures var w := After(v, AcceptPlan(v, id)[..n]);
      && (n == 0 ==> w == v)
      && (n > 0 ==> Acceptable(v.runs[id].dir, id) && !AlreadyAccepted(v.runs[id].dir, id)
                    && w == WithRun(v, id, Partly(v.runs[id].dir, id, n)))
  {
    var ops := AcceptPlan(v, id);
    if n == 0 {
      assert v.runs[id := v.runs[id]] == v.runs;
    } else {
      PutsLast(v, ops[..n], id);
    }
  }

  /** The configuration is the accepted one before it is accepted; only the metadata is missing. */
  predicate NothingToAccept(d: Dir, id: string) {
    Acceptable(d, id) && d.metadata.None? && d.retrieval == AcceptedRetrieval(d, id)
  }

  lemma {:induction false} PartlyAccepts(d: Dir, id: string, n: nat)
    requires Acceptable(d, id) && !AlreadyAccepted(d, id) && n <= 4
    ensures SameFiles(AcceptedDir(Partly(d, id, n), id), AcceptedDir(d, id))
    ensures AcceptedDir(Partly(d, id, n), id) == AcceptedDir(d, id) <==>
      !NothingToAccept(d, id) || n < 2 || n == 4 || (n == 2 && "retrieval" !in d.temporaries)
  {
    var e := Partly(d, id, n);
    assert AcceptedRetrieval(e, id) == AcceptedRetrieval(d, id);
    if n == 2 || n == 3 {
      assert "retrieval" !in AcceptedDir(d, id).temporaries;
      assert AlreadyAccepted(e, id) <==> NothingToAccept(d, id);
    }
  }

  lemma {:induction false} RunTwice(v: Volume, id: string, d: Dir, e: Dir)
    ensures WithRun(WithRun(v, id, d), id, e) == WithRun(v, id, e)
    ensures WithRun(v, id, d) == WithRun(v, id, e) <==> d == e
  {
    assert v.runs[id := Intact(d)][id := Intact(e)] == v.runs[id := Intact(e)];
    assert WithRun(v, id, d).runs[id] == Intact(d) && WithRun(v, id, e).runs[id] == Intact(e);
  }

  lemma {:induction false} TidyRun(v: Volume, id: string, d: Dir)
    ensures Tidy(WithRun(v, id, d), id) == WithRun(v, id, d.(temporaries := {}))
  {
    RunTwice(v, id, d, d.(temporaries := {}));
  }

  /** Accepting in two volumes that differ in one run only. */
  lemma {:induction false} AcceptedAlike(v: Volume, e: Dir, id: string)
    requires id in v.runs && v.runs[id].Intact?
    ensures var a, b := AcceptedDir(e, id), AcceptedDir(v.runs[id].dir, id);
      && Completed(WithRun(v, id, e), Accept(id)) == WithRun(v, id, a)
      && Completed(v, Accept(id)) == WithRun(v, id, b)
  {
    AcceptResult(v, id);
    AcceptResult(WithRun(v, id, e), id);
    RunTwice(v, id, e, AcceptedDir(e, id));
  }

  /**
   accept_retrieval killed after any write and run again reaches the volume one uninterrupted
   call reaches, temporary files apart. These differ exactly when the configuration was the
   accepted one from the start and a leftover of its rewriting stays: then the rerun finds
   nothing to do once the metadata is written.
   */
  lemma {:induction false} AcceptSurvivesCrashes(v: Volume, id: string, n: nat)
    requires id in v.runs && v.runs[id].Intact?
    ensures var w := Interrupted(v, Accept(id), n);
      var x, y := Completed(w, Accept(id)), Completed(v, Accept(id));
      && id in x.runs && x.runs[id].Intact? && id in y.runs && y.runs[id].Intact?
      && Tidy(x, id) == Tidy(y, id)
      && (x == y <==>
            !NothingToAccept(v.runs[id].dir, id) || n < 2 || n > 3
            || (n == 2 && "retrieval" !in v.runs[id].dir.temporaries))
  {
    var ops := AcceptPlan(v, id);
    InterruptedAt(v, Accept(id), n);
    AcceptLength(v, id);
    AcceptsAfter(v, id, if n < |ops| then n else |ops|);
  }

  lemma {:induction false} AcceptsAfter(v: Volume, id: string, k: nat)
    requires id in v.runs && v.runs[id].Intact? && k <= |AcceptPlan(v, id)|
    ensures var d, w := v.runs[id].dir, After(v, AcceptPlan(v, id)[..k]);
      var x, y := Completed(w, Accept(id)), Completed(v, Accept(id));
      && id in x.runs && x.runs[id].Intact? && id in y.runs && y.runs[id].Intact?
      && Tidy(x, id) == Tidy(y, id)
      && (x == y <==>
            !NothingToAccept(d, id) || k < 2 || k == 4 || (k == 2 && "retrieval" !in d.temporaries))
  {
    AcceptPartly(v, id, k);
    if k > 0 {
      AcceptLength(v, id);
      AcceptsAgain(v, id, k);
    } else {
      AcceptResult(v, id);
    }
  }

  lemma {:induction false} AcceptsAgain(v: Volume, id: string, n: nat)
    requires id in v.runs && v.runs[id].Intact? && n <= 4
    requires Acceptable(v.runs[id].dir, id) && !AlreadyAccepted(v.runs[id].dir, id)
    ensures var d := v.runs[id].dir;
      var x, y := Completed(WithRun(v, id, Partly(d, id, n)), Accept(id)), Completed(v, Accept(id));
      && id in x.runs && x.runs[id].Intact? && id in y.runs && y.runs[id].Intact?
      && Tidy(x, id) == Tidy(y, id)
      && (x == y <==>
            !NothingToAccept(d, id) || n < 2 || n == 4 || (n == 2 && "retrieval" !in d.temporaries))
  {
    var d := v.runs[id].dir;
    var e := Partly(d, id, n);
    AcceptedAlike(v, e, id);
    PartlyAccepts(d, id, n);
    TidyRun(v, id, AcceptedDir(e, id));
    TidyRun(v, id, AcceptedDir(d, id));
    RunTwice(v, id, AcceptedDir(e, id), AcceptedDir(d, id));
  }

  lemma {:induction false} AcceptLength(v: Volume, id: string)
    requires id in v.runs && v.runs[id].Intact?
    ensures var d := v.runs[id].dir;
      |AcceptPlan(v, id)| == if Acceptable(d, id) && !AlreadyAccepted(d, id) then 4 else 0
  {
  }

  /** Repeating a complete accept_retrieval changes nothing at all. */
  lemma {:induction false} AcceptIsIdempotent(v: Volume, id: string)
    requires id in v.runs && v.runs[id].Intact?
    ensures Completed(Completed(v, Accept(id)), Accept(id)) == Completed(v, Accept(id))
  {
    AcceptResult(v, id);
    AcceptResult(Completed(v, Accept(id)), id);
  }

  // ----- publishing again -------------------------------------------------

  /** The directory names the winner and the reason already. */
  predicate PromotionIsDone(d: Dir, id: string)
    requires d.comparison.Some?
  {
    d.generation == PromotedGeneration(d, id)
  }

  /** publish finds the working run and all its checks pass. */
  predicate Publishable(v: Volume, id: string) {
    id in v.runs && v.runs[id].Intact? && Checks(v.runs[id].dir, id)
  }

  lemma {:induction false} AfterAppend(v: Volume, a: seq<Op>, b: seq<Op>)
    ensures After(v, a + b) == After(After(v, a), b)
  {
    if b == [] {
      assert a + b == a;
    } else {
      AfterAppend(v, a, b[..|b| - 1]);
      assert (a + b)[..|a + b| - 1] == a + b[..|b| - 1];
    }
  }

  /** The operations of publish after its write depend on the active release only. */
  function Switching(v: Volume, id: string): seq<Op> {
    if !Switchable(v, id) then []
    else
      [MoveRun(id), UnlinkNext, LinkNext(id), SwitchNext,
       PutRelease(v.active.value, Damaged), RemoveRelease(v.active.value)]
  }

  lemma {:induction false} PublishResult(v: Volume, id: string)
    requires Publishable(v, id)
    ensures Completed(v, Publish(id))
         == After(v.(runs := v.runs[id := Intact(Promoted(v.runs[id].dir, id))]), Switching(v, id))
  {
    var d, ops := v.runs[id].dir, PublishPlan(v, id);
    var write := WriteJson(id, d, "generation", Promoted(d, id));
    assert ops == write + Switching(v, id);
    assert ops[..2] == write;
    PublishWrites(v, id);
    AfterAppend(v, write, Switching(v, id));
  }

  /** Two volumes that differ in what the run was before the same promotion. */
  lemma {:induction false} SamePromotionSamePublish(v: Volume, e: Dir, id: string)
    requires Publishable(v, id) && Checks(e, id) && Promoted(e, id) == Promoted(v.runs[id].dir, id)
    ensures Completed(v.(runs := v.runs[id := Intact(e)]), Publish(id)) == Completed(v, Publish(id))
  {
    var w, d := v.(runs := v.runs[id := Intact(e)]), Promoted(e, id);
    PublishResult(v, id);
    PublishResult(w, id);
    assert w.runs[id := Intact(d)] == v.runs[id := Intact(d)];
    assert Switching(w, id) == Switching(v, id);
  }

  lemma {:induction false} RunIsGone(v: Volume, id: string, n: nat)
    requires Publishable(v, id) && 3 <= n <= |PublishPlan(v, id)|
    ensures id !in After(v, PublishPlan(v, id)[..n]).runs
  {
    var ops := PublishPlan(v, id);
    AfterPrefix(v, ops, n - 1);
    if n == 3 {
      PublishWrites(v, id);
    } else {
      RunIsGone(v, id, n - 1);
      NoRunComesBack(After(v, ops[..n - 1]), ops[n - 1], id);
    }
  }

  lemma {:induction false} NoRunComesBack(v: Volume, op: Op, id: string)
    requires id !in v.runs && !op.PutRun?
    ensures id !in Apply(v, op).runs
  {
  }

  /** What the run directory is after at most two operations of publish. */
  function PartlyPromoted(d: Dir, id: string, n: nat): Dir
    requires d.comparison.Some?
  {
    if n == 0 then d
    else if n == 1 then d.(temporaries := d.temporaries + {"generation"})
    else Promoted(d, id)
  }

  lemma {:induction false} PublishPartly(v: Volume, id: string, n: nat)
    requires Publishable(v, id) && n <= 2
    ensures After(v, PublishPlan(v, id)[..n])
         == v.(runs := v.runs[id := Intact(PartlyPromoted(v.runs[id].dir, id, n))])
  {
    if n == 0 {
      assert v.runs[id := v.runs[id]] == v.runs;
    } else {
      PutsLast(v, PublishPlan(v, id)[..n], id);
    }
  }

  lemma {:induction false} PartlyPromotedChecks(d: Dir, id: string, n: nat)
    requires Checks(d, id) && n <= 2
    ensures Checks(PartlyPromoted(d, id, n), id) <==> n < 2 || PromotionIsDone(d, id)
    ensures Checks(PartlyPromoted(d, id, n), id) ==> Promoted(PartlyPromoted(d, id, n), id) == Promoted(d, id)
  {
    var e := d.(temporaries := d.temporaries + {"generation"});
    assert e.temporaries - {"generation"} == d.temporaries - {"generation"};
    assert Promoted(d, id).temporaries - {"generation"} == Promoted(d, id).temporaries;
  }

  /**
   publish writes the promoted configuration before it has checked that it can switch, and
   the comparison names the configuration it was run with. So a run whose publish was refused
   or killed can be published again exactly when that write was not done or changed nothing;
   and then the repetition reaches what one uninterrupted call reaches.
   */
  lemma {:induction false} PublishAgainIff(v: Volume, id: string, n: nat)
    requires Publishable(v, id)
    ensures var w := Interrupted(v, Publish(id), n);
      && (Publishable(w, id) <==>
            n < 2 || ((n == 2 || !Switchable(v, id)) && PromotionIsDone(v.runs[id].dir, id)))
      && (Publishable(w, id) ==> Completed(w, Publish(id)) == Completed(v, Publish(id)))
  {
    var ops := PublishPlan(v, id);
    var k := if n < |ops| then n else |ops|;
    InterruptedAt(v, Publish(id), n);
    PlanLength(v, id);
    PublishAgainAt(v, id, k);
  }

  lemma {:induction false} PlanLength(v: Volume, id: string)
    requires Publishable(v, id)
    ensures |PublishPlan(v, id)| == if Switchable(v, id) then 8 else 2
  {
  }

  lemma {:induction false} PublishAgainAt(v: Volume, id: string, k: nat)
    requires Publishable(v, id) && k <= |PublishPlan(v, id)|
    ensures var w := After(v, PublishPlan(v, id)[..k]);
      && (Publishable(w, id) <==> k < 2 || (k == 2 && PromotionIsDone(v.runs[id].dir, id)))
      && (Publishable(w, id) ==> Completed(w, Publish(id)) == Completed(v, Publish(id)))
  {
    if k <= 2 {
      PublishAgainEarly(v, id, k);
    } else {
      RunIsGone(v, id, k);
    }
  }

  lemma {:induction false} PublishAgainEarly(v: Volume, id: string, n: nat)
    requires Publishable(v, id) && n <= 2
    ensures var w := After(v, PublishPlan(v, id)[..n]);
      && (Publishable(w, id) <==> n < 2 || PromotionIsDone(v.runs[id].dir, id))
      && (Publishable(w, id) ==> Completed(w, Publish(id)) == Completed(v, Publish(id)))
  {
    var d := v.runs[id].dir;
    PublishPartly(v, id, n);
    PartlyPromotedChecks(d, id, n);
    if Checks(PartlyPromoted(d, id, n), id) {
      SamePromotionSamePublish(v, PartlyPromoted(d, id, n), id);
    }
  }

  /** A run that passes every check and is stuck once publish has written its promotion. */
  lemma {:induction false} PublishCanGetStuck() returns (v: Volume)
    ensures Safe(v) && Publishable(v, "r") && Switchable(v, "r")
    ensures !Publishable(Interrupted(v, Publish("r"), 2), "r")
    ensures Interrupted(v, Publish("r"), 2).active == Some("initial")
  {
    var approach := M.Keyword(1, 1);
    var evaluated := Retrieval([1], [1], [0.5], [60], 0, None);
    var accepted := evaluated.(default_ := Some(Selected(approach, Some(AcceptReason("r")))));
    var generation := Generation(0, None, None);
    var prompts := map[0 := 0, 1 := 1, 2 := 2];
    var row := M.Row(approach, 0.0, 0.0, 0.0);
    var d := Dir(
      0, 0, true, 0, accepted, generation, prompts,
      Some(Benchmark(0, evaluated, false, [row], approach)),
      Some(Comparison(0, 0, accepted, generation, Some(0), {0}, prompts)),
      Some(Metadata("r", evaluated, accepted)), true, {});
    assert [row][First(M.Preferred, [row])] == row;
    assert Checks(d, "r");
    v := Volume(map["initial" := Intact(d)], map["r" := Intact(d)], Some("initial"), None, None);
    PublishAgainIff(v, "r", 2);
    BeforeTheSwitch(v, "r", 2);
  }
}
