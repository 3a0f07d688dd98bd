/**
 One filing batch: the state WorkflowRepository keeps (repositories/workflows.py), the
 run claimed by start_run (repositories/corpus.py), and the callbacks of
 FilingExecutionService (services/workflows.py).

 Every repository call is one transaction and one step. A callback holds the context it
 read at its start, may be overtaken by any other callback between two of its steps, and
 may stop for good after any of them.
 */
module Workflow {
  import opened Wrappers
  import opened Sequences

  datatype Mode = Latest | ExactYear

  datatype ItemStatus = Pending | Selecting | Acquiring | Processing | Succeeded | Skipped | Failed

  datatype BatchStatus = Submitted | Running | BatchSucceeded | PartialFailure | BatchFailed

  datatype Acquisition = Acquisition(accession: nat, document: nat)

  datatype Item = Item(
    status: ItemStatus, accession: Option<nat>, acquisition: Option<Acquisition>, corpus: Option<nat>,
    run: Option<nat>, finished: bool)

  const NEW := Item(Pending, None, None, None, None, false)

  /** runs[r] is the item on whose behalf ingestion run r was started. */
  datatype Tables = Tables(mode: Mode, batch: BatchStatus, items: seq<Item>, runs: seq<nat>)

  // ----- repository calls -------------------------------------------------

  predicate Terminal(status: ItemStatus) {
    status.Succeeded? || status.Skipped? || status.Failed?
  }

  function Coalesce<T>(value: Option<T>, current: Option<T>): Option<T> {
    if value.Some? then value else current
  }

  function Moved(
    item: Item, status: ItemStatus, accession: Option<nat>, acquisition: Option<Acquisition>, corpus: Option<nat>): Item
  {
    item.(status := status,
          accession := Coalesce(accession, item.accession),
          acquisition := Coalesce(acquisition, item.acquisition),
          corpus := Coalesce(corpus, item.corpus),
          finished := Terminal(status))
  }

  function Transitioned(
    t: Tables, i: nat, status: ItemStatus, accession: Option<nat>, acquisition: Option<Acquisition>,
    corpus: Option<nat>): Tables
    requires i < |t.items|
  {
    t.(items := t.items[i := Moved(t.items[i], status, accession, acquisition, corpus)],
       batch := if t.batch.Submitted? then Running else t.batch)
  }

  /** The claim of start_run; None when the item already has a run and the new one is rolled back. */
  function Claimed(t: Tables, i: nat): Option<Tables>
    requires i < |t.items|
  {
    if t.items[i].run.Some? then None
    else Some(t.(items := t.items[i := t.items[i].(run := Some(|t.runs|))], runs := t.runs + [i]))
  }

  /** UPDATE ... SET status='failed', finished_at=now() on the items whose status is listed. */
  function FailWhere(items: seq<Item>, open: set<ItemStatus>): (r: seq<Item>)
    ensures |r| == |items|
    ensures forall i :: 0 <= i < |items| ==>
      r[i] == if items[i].status in open then items[i].(status := Failed, finished := true) else items[i]
  {
    if items == [] then []
    else
      var last := items[|items| - 1];
      FailWhere(items[..|items| - 1], open)
      + [if last.status in open then last.(status := Failed, finished := true) else last]
  }

  const OPEN := {Pending, Selecting, Acquiring, Processing}

  function Count(items: seq<Item>, status: ItemStatus): (n: nat)
    ensures n <= |items|
  {
    if items == [] then 0
    else Count(items[..|items| - 1], status) + if items[|items| - 1].status == status then 1 else 0
  }

  /** _aggregate_batch_status over the counts of the items by status. */
  function Aggregate(mode: Mode, items: seq<Item>): BatchStatus {
    var succeeded := Count(items, Succeeded) + if mode.Latest? then Count(items, Skipped) else 0;
    var total := Count(items, Pending) + Count(items, Selecting) + Count(items, Acquiring) + Count(items, Processing)
               + Count(items, Succeeded) + Count(items, Skipped) + Count(items, Failed);
    if succeeded == 0 then BatchFailed else if total - succeeded != 0 then PartialFailure else BatchSucceeded
  }

  function Finalized(t: Tables): Tables {
    t.(items := FailWhere(t.items, OPEN), batch := Aggregate(t.mode, t.items))
  }

  function LaunchFailed(t: Tables): Tables {
    t.(items := FailWhere(t.items, {Pending}), batch := if t.batch.Submitted? then BatchFailed else t.batch)
  }

  function SubmissionFailed(t: Tables): Tables {
    t.(items := FailWhere(t.items, {Pending}), batch := BatchFailed)
  }

  // ----- callbacks in flight ----------------------------------------------

  /** Where a callback stands, with what it read: the next repository or provider call it makes. */
  datatype Stage =
    | Done
    | MarkSelecting
    | Discover
    | WriteSkipped
    | WriteSelected(accession: nat)
    | MarkAcquiring(accession: nat)
    | Fetch(accession: nat)
    | WriteAcquired(acquisition: Acquisition)
    | MarkProcessing
    | Claim
    | Ingest
    | WriteOutcome(outcome: ItemStatus, corpus: Option<nat>)

  datatype Call = Call(item: nat, stage: Stage)

  datatype State = State(tables: Tables, calls: seq<Call>)

  datatype Callback = Select | Acquire | Process

  /** What the provider or the ingestion pipeline answers; Raise is any exception. */
  datatype Reply =
    | Raise
    | NoCandidate
    | Chosen(accession: nat)
    | Fetched(document: nat)
    | Ingested(corpus: nat)
    | Unchanged(corpus: nat)
    | IngestFailed

  datatype Action =
    | Begin(callback: Callback, item: nat)
    | Advance(call: nat, reply: Reply)
    | FailItem(item: nat)
    | FinalizeBatch
    | FailLaunch
    | FailSubmission

  /** The read at the start of a callback and the early return or error it may lead to. */
  function FirstStage(item: Item, callback: Callback): Stage {
    match callback
    case Select => if item.status.Skipped? || item.status.Succeeded? then Done else MarkSelecting
    case Acquire =>
      if item.accession.None? || item.acquisition.Some? then Done else MarkAcquiring(item.accession.value)
    case Process => if item.status.Succeeded? || item.acquisition.None? then Done else MarkProcessing
  }

  /** One call of a callback: its effect on the tables and the call that follows. */
  function Advanced(t: Tables, i: nat, stage: Stage, reply: Reply): (Tables, Stage)
    requires i < |t.items|
  {
    match stage
    case Done => (t, Done)
    case MarkSelecting => (Transitioned(t, i, Selecting, None, None, None), Discover)
    case Discover =>
      (match reply
       case Chosen(accession) => (t, WriteSelected(accession))
       case NoCandidate => (t, if t.mode.ExactYear? then WriteSkipped else Done)
       case _ => (t, Done))
    case WriteSkipped => (Transitioned(t, i, Skipped, None, None, None), Done)
    case WriteSelected(accession) => (Transitioned(t, i, Acquiring, Some(accession), None, None), Done)
    case MarkAcquiring(accession) => (Transitioned(t, i, Acquiring, None, None, None), Fetch(accession))
    case Fetch(accession) =>
      (match reply
       case Fetched(document) => (t, WriteAcquired(Acquisition(accession, document)))
       case _ => (t, Done))
    case WriteAcquired(acquisition) => (Transitioned(t, i, Processing, None, Some(acquisition), None), Done)
    case MarkProcessing => (Transitioned(t, i, Processing, None, None, None), Claim)
    case Claim =>
      (match Claimed(t, i)
       case Some(u) => if reply.Raise? then (t, Done) else (u, Ingest)
       case None => (t, Done))
    case Ingest =>
      (match reply
       case Ingested(corpus) => (t, WriteOutcome(Succeeded, Some(corpus)))
       case Unchanged(corpus) => (t, WriteOutcome(Skipped, Some(corpus)))
       case IngestFailed => (t, WriteOutcome(Failed, None))
       case _ => (t, Done))
    case WriteOutcome(outcome, corpus) => (Transitioned(t, i, outcome, None, None, corpus), Done)
  }

  function After(s: State, a: Action): State {
    match a
    case Begin(callback, i) =>
      if i >= |s.tables.items| then s
      else s.(calls := s.calls + [Call(i, FirstStage(s.tables.items[i], callback))])
    case Advance(k, reply) =>
      if k >= |s.calls| || s.calls[k].item >= |s.tables.items| then s
      else
        var (t, stage) := Advanced(s.tables, s.calls[k].item, s.calls[k].stage, reply);
        State(t, s.calls[k := s.calls[k].(stage := stage)])
    case FailItem(i) =>
      if i >= |s.tables.items| then s else s.(tables := Transitioned(s.tables, i, Failed, None, None, None))
    case FinalizeBatch => s.(tables := Finalized(s.tables))
    case FailLaunch => s.(tables := LaunchFailed(s.tables))
    case FailSubmission => s.(tables := SubmissionFailed(s.tables))
  }

  function Run(s: State, actions: seq<Action>): State {
    if actions == [] then s else After(Run(s, actions[..|actions| - 1]), actions[|actions| - 1])
  }

  function Fresh(count: nat): seq<Item> {
    seq(count, _ => NEW)
  }

  /** A batch as create_batch leaves it. */
  function Created(mode: Mode, count: nat): State {
    State(Tables(mode, Submitted, Fresh(count), []), [])
  }

  /** A callback's next n steps with nothing in between and one reply for all of them. */
  function Steps(t: Tables, i: nat, stage: Stage, reply: Reply, n: nat): (r: (Tables, Stage))
    requires i < |t.items|
    ensures |r.0.items| == |t.items|
  {
    if n == 0 then (t, stage)
    else
      var (u, next) := Steps(t, i, stage, reply, n - 1);
      Advanced(u, i, next, reply)
  }

  /** A callback run to its end with nothing in between; none makes more than four calls. */
  function Called(t: Tables, i: nat, callback: Callback, reply: Reply): Tables
    requires i < |t.items|
  {
    Steps(t, i, FirstStage(t.items[i], callback), reply, 4).0
  }

  lemma {:induction false} FourSteps(t: Tables, i: nat, stage: Stage, reply: Reply)
    requires i < |t.items|
    ensures var (a, x) := Advanced(t, i, stage, reply);
      var (b, y) := Advanced(a, i, x, reply);
      var (c, z) := Advanced(b, i, y, reply);
      Steps(t, i, stage, reply, 4) == Advanced(c, i, z, reply)
  {
    assert Steps(t, i, stage, reply, 1) == Advanced(t, i, stage, reply);
    assert Steps(t, i, stage, reply, 2)
        == Advanced(Steps(t, i, stage, reply, 1).0, i, Steps(t, i, stage, reply, 1).1, reply);
    assert Steps(t, i, stage, reply, 3)
        == Advanced(Steps(t, i, stage, reply, 2).0, i, Steps(t, i, stage, reply, 2).1, reply);
  }

  /** The tables behind the two repositories, and the callbacks with their provider replies. */
  class WorkflowTables {
    const mode: Mode
    var batch: BatchStatus
    var items: seq<Item>
    var runs: seq<nat>

    ghost function Contents(): Tables
      reads this
    {
      Tables(mode, batch, items, runs)
    }

    constructor (mode: Mode, count: nat)
      ensures Contents() == Created(mode, count).tables
    {
      this.mode, batch, items, runs := mode, Submitted, Fresh(count), [];
    }

    method Transition(
      i: nat, status: ItemStatus, accession: Option<nat>, acquisition: Option<Acquisition>, corpus: Option<nat>)
      requires i < |items|
      modifies this
      ensures Contents() == Transitioned(old(Contents()), i, status, accession, acquisition, corpus)
    {
      items := items[i := Moved(items[i], status, accession, acquisition, corpus)];
      if batch.Submitted? {
        batch := Running;
      }
    }

    method StartRun(i: nat) returns (claimed: bool)
      requires i < |items|
      modifies this
      ensures claimed == Claimed(old(Contents()), i).Some?
      ensures Contents() == if claimed then Claimed(old(Contents()), i).value else old(Contents())
    {
      claimed := items[i].run.None?;
      if claimed {
        items := items[i := items[i].(run := Some(|runs|))];
        runs := runs + [i];
      }
    }

    method Finalize() returns (status: BatchStatus)
      modifies this
      ensures Contents() == Finalized(old(Contents())) && status == batch
    {
      status := Aggregate(mode, items);
      items := FailWhere(items, OPEN);
      batch := status;
    }

    /** None is an exception; otherwise the answer is the row's accession, or None for an item it skips. */
    method Select(i: nat, reply: Reply) returns (answer: Option<Option<nat>>)
      requires i < |items|
      modifies this
      ensures Contents() == Called(old(Contents()), i, Callback.Select, reply)
      ensures answer.Some? <==> old(items[i].status) in {Skipped, Succeeded}
                                || reply.Chosen? || (reply.NoCandidate? && mode.ExactYear?)
      ensures answer.Some? && reply.NoCandidate? && old(items[i].status) !in {Skipped, Succeeded} ==>
        answer.value == None
      ensures answer.Some? && (reply.Chosen? || old(items[i].status) in {Skipped, Succeeded}) ==>
        answer.value == items[i].accession
    {
      FourSteps(Contents(), i, FirstStage(items[i], Callback.Select), reply);
      if items[i].status.Skipped? || items[i].status.Succeeded? {
        return Some(items[i].accession);
      }
      Transition(i, Selecting, None, None, None);
      match reply {
        case Chosen(accession) =>
          Transition(i, Acquiring, Some(accession), None, None);
          return Some(Some(accession));
        case NoCandidate =>
          if mode.ExactYear? {
            Transition(i, Skipped, None, None, None);
            return Some(None);
          }
        case _ =>
      }
      return None;
    }

    method Acquire(i: nat, reply: Reply) returns (acquisition: Option<Acquisition>)
      requires i < |items|
      modifies this
      ensures Contents() == Called(old(Contents()), i, Callback.Acquire, reply)
      ensures acquisition.Some? <==> old(items[i].accession).Some?
                                     && (old(items[i].acquisition).Some? || reply.Fetched?)
      ensures acquisition.Some? ==> items[i].acquisition == acquisition
    {
      FourSteps(Contents(), i, FirstStage(items[i], Callback.Acquire), reply);
      if items[i].accession.None? {
        return None;
      }
      if items[i].acquisition.Some? {
        return items[i].acquisition;
      }
      var accession := items[i].accession.value;
      Transition(i, Acquiring, None, None, None);
      if !reply.Fetched? {
        return None;
      }
      acquisition := Some(Acquisition(accession, reply.document));
      Transition(i, Processing, None, acquisition, None);
    }

    /** The status and corpus it answers with are the row's; None is an exception. */
    method Process(i: nat, reply: Reply) returns (answer: Option<(ItemStatus, Option<nat>)>)
      requires i < |items|
      modifies this
      ensures Contents() == Called(old(Contents()), i, Callback.Process, reply)
      ensures answer.Some? <==> old(items[i].status).Succeeded? ||
                                (&& old(items[i].acquisition).Some? && old(items[i].run).None?
                                 && (reply.Ingested? || reply.Unchanged? || reply.IngestFailed?))
      ensures answer.Some? ==> Terminal(items[i].status) && items[i].status == answer.value.0
      ensures answer.Some? ==> answer.value.1 == if items[i].status.Failed? then None else items[i].corpus
    {
      FourSteps(Contents(), i, FirstStage(items[i], Callback.Process), reply);
      if items[i].status.Succeeded? {
        return Some((Succeeded, items[i].corpus));
      }
      if items[i].acquisition.None? {
        return None;
      }
      Transition(i, Processing, None, None, None);
      if reply.Raise? {
        return None;
      }
      var claimed := StartRun(i);
      if !claimed {
        return None;
      }
      answer := Conclude(i, reply);
    }

    /** The end of process: what the pipeline's outcome makes of the item. */
    method Conclude(i: nat, reply: Reply) returns (answer: Option<(ItemStatus, Option<nat>)>)
      requires i < |items|
      modifies this
      ensures var (u, next) := Advanced(old(Contents()), i, Ingest, reply);
        Contents() == Advanced(u, i, next, reply).0
      ensures answer.Some? <==> reply.Ingested? || reply.Unchanged? || reply.IngestFailed?
      ensures answer.Some? ==> Terminal(items[i].status) && items[i].status == answer.value.0
      ensures answer.Some? ==> answer.value.1 == if items[i].status.Failed? then None else items[i].corpus
    {
      match reply {
        case Ingested(corpus) =>
          Transition(i, Succeeded, None, None, Some(corpus));
          return Some((Succeeded, Some(corpus)));
        case Unchanged(corpus) =>
          Transition(i, Skipped, None, None, Some(corpus));
          return Some((Skipped, Some(corpus)));
        case IngestFailed =>
          Transition(i, Failed, None, None, None);
          return Some((Failed, None));
        case _ =>
          return None;
      }
    }
  }

  // ----- what every step keeps --------------------------------------------

  predicate Consistent(item: Item) {
    && (item.status.Acquiring? ==> item.accession.Some?)
    && (item.status.Processing? ==> item.acquisition.Some?)
    && (item.status.Succeeded? ==> item.corpus.Some? && item.run.Some?)
    && (item.acquisition.Some? ==> item.accession.Some?)
    && (item.run.Some? ==> item.acquisition.Some?)
    && (item.finished <==> Terminal(item.status))
  }

  /** What a callback relies on when it writes is still in the row. */
  predicate Supported(item: Item, stage: Stage) {
    match stage
    case MarkAcquiring(_) => item.accession.Some?
    case Fetch(_) => item.accession.Some?
    case WriteAcquired(_) => item.accession.Some?
    case MarkProcessing => item.acquisition.Some?
    case Claim => item.acquisition.Some?
    case Ingest => item.acquisition.Some? && item.run.Some?
    case WriteOutcome(outcome, corpus) =>
      item.acquisition.Some? && item.run.Some? && Terminal(outcome) && (outcome.Succeeded? ==> corpus.Some?)
    case _ => true
  }

  /** References are never cleared, and a run is never exchanged for another. */
  predicate Keeps(before: Item, after: Item) {
    && (before.accession.Some? ==> after.accession.Some?)
    && (before.acquisition.Some? ==> after.acquisition.Some?)
    && (before.corpus.Some? ==> after.corpus.Some?)
    && (before.run.Some? ==> after.run == before.run)
  }

  ghost predicate ItemsConsistent(items: seq<Item>) {
    forall i :: 0 <= i < |items| ==> Consistent(items[i])
  }

  ghost predicate CallsSupported(items: seq<Item>, calls: seq<Call>) {
    forall k :: 0 <= k < |calls| ==> calls[k].item < |items| && Supported(items[calls[k].item], calls[k].stage)
  }

  /** The ingestion runs and the items name each other. */
  ghost predicate RunsClaimed(items: seq<Item>, runs: seq<nat>) {
    && (forall r :: 0 <= r < |runs| ==> runs[r] < |items| && items[runs[r]].run == Some(r))
    && (forall i :: 0 <= i < |items| && items[i].run.Some? ==>
          items[i].run.value < |runs| && runs[items[i].run.value] == i)
  }

  ghost predicate Inv(s: State) {
    && ItemsConsistent(s.tables.items)
    && CallsSupported(s.tables.items, s.calls)
    && RunsClaimed(s.tables.items, s.tables.runs)
  }

  ghost predicate ItemsKeep(before: seq<Item>, after: seq<Item>) {
    |before| == |after| && forall i :: 0 <= i < |before| ==> Keeps(before[i], after[i])
  }

  lemma {:induction false} CallsStaySupported(before: seq<Item>, after: seq<Item>, calls: seq<Call>)
    requires CallsSupported(before, calls) && ItemsKeep(before, after)
    ensures CallsSupported(after, calls)
  {
  }

  lemma {:induction false} ClaimKeepsRuns(items: seq<Item>, i: nat, runs: seq<nat>)
    requires RunsClaimed(items, runs) && i < |items| && items[i].run.None?
    ensures RunsClaimed(items[i := items[i].(run := Some(|runs|))], runs + [i])
  {
    var claimed, more := items[i := items[i].(run := Some(|runs|))], runs + [i];
    forall r | 0 <= r < |more|
      ensures more[r] < |claimed| && claimed[more[r]].run == Some(r)
    {
      if r < |runs| {
        assert items[runs[r]].run == Some(r);
      }
    }
  }

  /** A callback's step on its own row and stage. */
  lemma {:induction false} AdvancedRow(t: Tables, i: nat, stage: Stage, reply: Reply)
    requires i < |t.items| && Consistent(t.items[i]) && Supported(t.items[i], stage)
    ensures var (u, next) := Advanced(t, i, stage, reply);
      && |u.items| == |t.items|
      && u.items == t.items[i := u.items[i]]
      && Consistent(u.items[i]) && Supported(u.items[i], next) && Keeps(t.items[i], u.items[i])
  {
    var item := t.items[i];
    assert t.items[i := item] == t.items;
  }

  lemma {:induction false} AdvancedRuns(t: Tables, i: nat, stage: Stage, reply: Reply)
    requires i < |t.items| && RunsClaimed(t.items, t.runs)
    ensures var (u, _) := Advanced(t, i, stage, reply); RunsClaimed(u.items, u.runs)
  {
    var (u, _) := Advanced(t, i, stage, reply);
    if stage.Claim? && u != t {
      ClaimKeepsRuns(t.items, i, t.runs);
    }
  }

  lemma {:induction false} AdvanceKeeps(s: State, k: nat, reply: Reply)
    requires Inv(s) && k < |s.calls|
    ensures Inv(After(s, Advance(k, reply))) && ItemsKeep(s.tables.items, After(s, Advance(k, reply)).tables.items)
  {
    var call := s.calls[k];
    var (u, next) := Advanced(s.tables, call.item, call.stage, reply);
    AdvancedRow(s.tables, call.item, call.stage, reply);
    AdvancedRuns(s.tables, call.item, call.stage, reply);
    CallsStaySupported(s.tables.items, u.items, s.calls);
  }

  lemma {:induction false} FailWhereKeeps(items: seq<Item>, open: set<ItemStatus>, runs: seq<nat>)
    requires ItemsConsistent(items) && RunsClaimed(items, runs)
    ensures ItemsConsistent(FailWhere(items, open)) && RunsClaimed(FailWhere(items, open), runs)
    ensures ItemsKeep(items, FailWhere(items, open))
  {
    assert forall i :: 0 <= i < |items| ==> FailWhere(items, open)[i].run == items[i].run;
  }

  lemma {:induction false} FailItemKeeps(s: State, i: nat)
    requires Inv(s) && i < |s.tables.items|
    ensures Inv(After(s, FailItem(i))) && ItemsKeep(s.tables.items, After(s, FailItem(i)).tables.items)
  {
    var failed := Moved(s.tables.items[i], Failed, None, None, None);
    CallsStaySupported(s.tables.items, s.tables.items[i := failed], s.calls);
  }

  lemma {:induction false} AfterKeeps(s: State, a: Action)
    requires Inv(s)
    ensures Inv(After(s, a)) && ItemsKeep(s.tables.items, After(s, a).tables.items)
  {
    match a
    case Begin(_, _) =>
    case Advance(k, reply) =>
      if k < |s.calls| {
        AdvanceKeeps(s, k, reply);
      }
    case FailItem(i) =>
      if i < |s.tables.items| {
        FailItemKeeps(s, i);
      }
    case FinalizeBatch =>
      FailWhereKeeps(s.tables.items, OPEN, s.tables.runs);
      CallsStaySupported(s.tables.items, FailWhere(s.tables.items, OPEN), s.calls);
    case FailLaunch =>
      FailWhereKeeps(s.tables.items, {Pending}, s.tables.runs);
      CallsStaySupported(s.tables.items, FailWhere(s.tables.items, {Pending}), s.calls);
    case FailSubmission =>
      FailWhereKeeps(s.tables.items, {Pending}, s.tables.runs);
      CallsStaySupported(s.tables.items, FailWhere(s.tables.items, {Pending}), s.calls);
  }

  lemma {:induction false} RunKeepsInv(s: State, actions: seq<Action>)
    requires Inv(s)
    ensures Inv(Run(s, actions)) && ItemsKeep(s.tables.items, Run(s, actions).tables.items)
  {
    if actions != [] {
      RunKeepsInv(s, actions[..|actions| - 1]);
      AfterKeeps(Run(s, actions[..|actions| - 1]), actions[|actions| - 1]);
    }
  }

  /**
   Any order and repetition of the callbacks, stopped anywhere: the row of every item
   agrees with its status, finished_at is set exactly on the terminal ones, and no two
   ingestion runs were ever started for one item.
   */
  lemma {:induction false} EveryRunIsConsistent(mode: Mode, count: nat, actions: seq<Action>)
    ensures var t := Run(Created(mode, count), actions).tables;
      && ItemsConsistent(t.items)
      && (forall r, q :: 0 <= r < |t.runs| && 0 <= q < |t.runs| && t.runs[r] == t.runs[q] ==> r == q)
      && (forall r :: 0 <= r < |t.runs| ==> t.runs[r] < |t.items| && t.items[t.runs[r]].run == Some(r))
  {
    RunKeepsInv(Created(mode, count), actions);
  }

  // ----- finalization -----------------------------------------------------

  /** In latest mode an unchanged corpus is as good as a new one. */
  predicate Healthy(mode: Mode, item: Item) {
    item.status.Succeeded? || (mode.Latest? && item.status.Skipped?)
  }

  lemma {:induction false} CountsCoverAll(items: seq<Item>)
    ensures |items| == Count(items, Pending) + Count(items, Selecting) + Count(items, Acquiring)
                     + Count(items, Processing) + Count(items, Succeeded) + Count(items, Skipped) + Count(items, Failed)
  {
    if items != [] {
      CountsCoverAll(items[..|items| - 1]);
    }
  }

  function HealthyCount(mode: Mode, items: seq<Item>): nat {
    Count(items, Succeeded) + if mode.Latest? then Count(items, Skipped) else 0
  }

  function HealthyIn(mode: Mode): Item -> bool {
    item => Healthy(mode, item)
  }

  lemma {:induction false} HealthyCountIs(mode: Mode, items: seq<Item>)
    ensures HealthyCount(mode, items) == CountWhere(items, HealthyIn(mode))
  {
    if items != [] {
      HealthyCountIs(mode, items[..|items| - 1]);
    }
  }

  lemma {:induction false} HealthyCountIff(mode: Mode, items: seq<Item>)
    ensures HealthyCount(mode, items) <= |items|
    ensures HealthyCount(mode, items) == 0 <==> forall item :: item in items ==> !Healthy(mode, item)
    ensures HealthyCount(mode, items) == |items| <==> forall item :: item in items ==> Healthy(mode, item)
  {
    HealthyCountIs(mode, items);
    CountsAll(items, HealthyIn(mode));
    CountsNone(items, HealthyIn(mode));
    assert forall item :: HealthyIn(mode)(item) == Healthy(mode, item);
  }

  function FromCounts(healthy: nat, total: nat): BatchStatus {
    if healthy == 0 then BatchFailed else if healthy < total then PartialFailure else BatchSucceeded
  }

  lemma {:induction false} AggregateCounts(mode: Mode, items: seq<Item>)
    ensures Aggregate(mode, items) == FromCounts(HealthyCount(mode, items), |items|)
  {
    CountsCoverAll(items);
  }

  /** The batch succeeds when every item is healthy, fails when none is, and partially fails in between. */
  lemma {:induction false} AggregateIff(mode: Mode, items: seq<Item>)
    ensures Aggregate(mode, items) == BatchFailed <==> forall item :: item in items ==> !Healthy(mode, item)
    ensures Aggregate(mode, items) == BatchSucceeded
       <==> items != [] && forall item :: item in items ==> Healthy(mode, item)
    ensures Aggregate(mode, items) in {BatchFailed, BatchSucceeded, PartialFailure}
  {
    AggregateCounts(mode, items);
    HealthyCountIff(mode, items);
    if items != [] {
      assert items[0] in items;
    }
  }

  lemma {:induction false} SameHealthSameCount(mode: Mode, a: seq<Item>, b: seq<Item>)
    requires |a| == |b| && forall i :: 0 <= i < |a| ==> Healthy(mode, a[i]) == Healthy(mode, b[i])
    ensures HealthyCount(mode, a) == HealthyCount(mode, b)
  {
    if a != [] {
      SameHealthSameCount(mode, a[..|a| - 1], b[..|b| - 1]);
    }
  }

  /**
   finalize leaves no open item and touches no other; the status it computes from the
   counts before the update is the aggregate of the statuses after it; and finalizing
   again changes nothing.
   */
  lemma {:induction false} FinalizeSettlesTheBatch(t: Tables)
    ensures var u := Finalized(t);
      && (forall item :: item in u.items ==> Terminal(item.status))
      && (forall i :: 0 <= i < |t.items| && Terminal(t.items[i].status) ==> u.items[i] == t.items[i])
      && u.batch == Aggregate(u.mode, u.items)
      && Finalized(u) == u
  {
    var u := Finalized(t);
    SameHealthSameCount(t.mode, t.items, u.items);
    AggregateCounts(t.mode, t.items);
    AggregateCounts(t.mode, u.items);
  }

  // ----- repeated and late callbacks --------------------------------------

  ghost predicate NoCallOpen(s: State, i: nat) {
    forall k :: 0 <= k < |s.calls| && s.calls[k].item == i ==> s.calls[k].stage.Done?
  }

  lemma {:induction false} SucceededStaysOneStep(s: State, a: Action, i: nat)
    requires Inv(s) && i < |s.tables.items| && s.tables.items[i].status.Succeeded? && NoCallOpen(s, i)
    requires a != FailItem(i)
    ensures After(s, a).tables.items[i] == s.tables.items[i] && NoCallOpen(After(s, a), i)
  {
    assert Consistent(s.tables.items[i]);
    if a.Advance? && a.call < |s.calls| {
      AdvancedRow(s.tables, s.calls[a.call].item, s.calls[a.call].stage, a.reply);
    }
  }

  lemma {:induction false} StaysAfter(s: State, a: Action, i: nat, row: Item)
    requires Inv(s) && i < |s.tables.items| && s.tables.items[i] == row && row.status.Succeeded? && NoCallOpen(s, i)
    requires a != FailItem(i)
    ensures i < |After(s, a).tables.items| && After(s, a).tables.items[i] == row && NoCallOpen(After(s, a), i)
  {
    SucceededStaysOneStep(s, a, i);
  }

  /**
   Once an item has succeeded and the callbacks begun earlier are over, repeating any
   callback and finalizing, in any order and number, leaves its row as it is; only a
   failure callback can change it.
   */
  lemma {:induction false} SucceededIsFinal(s: State, actions: seq<Action>, i: nat)
    requires Inv(s) && i < |s.tables.items| && s.tables.items[i].status.Succeeded? && NoCallOpen(s, i)
    requires FailItem(i) !in actions
    ensures i < |Run(s, actions).tables.items|
    ensures Run(s, actions).tables.items[i] == s.tables.items[i] && NoCallOpen(Run(s, actions), i)
  {
    if actions != [] {
      var before, a := actions[..|actions| - 1], actions[|actions| - 1];
      assert forall b :: b in before ==> b in actions;
      assert a in actions;
      SucceededIsFinal(s, before, i);
      RunKeepsInv(s, before);
      StaysAfter(Run(s, before), a, i, s.tables.items[i]);
    }
  }

  predicate CanHeal(mode: Mode, stage: Stage) {
    stage.Ingest? || stage.WriteOutcome? || (mode.Latest? && stage.WriteSkipped?)
  }

  /**
   The item's run has been claimed and is over: no callback begun for the item can still
   write an outcome, or skip it in latest mode.
   */
  ghost predicate Spent(s: State, i: nat) {
    && i < |s.tables.items| && s.tables.items[i].run.Some?
    && forall k :: 0 <= k < |s.calls| && s.calls[k].item == i ==> !CanHeal(s.tables.mode, s.calls[k].stage)
  }

  lemma {:induction false} SpentStaysOneStep(s: State, a: Action, i: nat)
    requires Spent(s, i)
    ensures Spent(After(s, a), i) && After(s, a).tables.mode == s.tables.mode
    ensures !Healthy(s.tables.mode, s.tables.items[i]) || a == FailItem(i)
        ==> !Healthy(s.tables.mode, After(s, a).tables.items[i])
  {
  }

  /** Without a run to claim an item that has lost its success never gets it back. */
  lemma {:induction false} NeverHealthyAgain(s: State, actions: seq<Action>, i: nat)
    requires Spent(s, i) && (!Healthy(s.tables.mode, s.tables.items[i]) || FailItem(i) in actions)
    ensures Spent(Run(s, actions), i) && Run(s, actions).tables.mode == s.tables.mode
    ensures !Healthy(s.tables.mode, Run(s, actions).tables.items[i])
  {
    if actions != [] {
      var before, a := actions[..|actions| - 1], actions[|actions| - 1];
      SpentStays(s, before, i);
      if !Healthy(s.tables.mode, s.tables.items[i]) || FailItem(i) in before {
        NeverHealthyAgain(s, before, i);
      }
      SpentStaysOneStep(Run(s, before), a, i);
    }
  }

  lemma {:induction false} SpentStays(s: State, actions: seq<Action>, i: nat)
    requires Spent(s, i)
    ensures Spent(Run(s, actions), i) && Run(s, actions).tables.mode == s.tables.mode
  {
    if actions != [] {
      SpentStays(s, actions[..|actions| - 1], i);
      SpentStaysOneStep(Run(s, actions[..|actions| - 1]), actions[|actions| - 1], i);
    }
  }

  lemma {:induction false} OverIsSpent(s: State, i: nat)
    requires Inv(s) && i < |s.tables.items| && s.tables.items[i].status.Succeeded? && NoCallOpen(s, i)
    ensures Spent(s, i)
  {
    assert Consistent(s.tables.items[i]);
  }

  /**
   transition has no guard on the current status. So a success survives whatever callbacks
   follow exactly when no failure callback is among them: one that arrives late replaces the
   success, nothing brings it back, and every later finalization finds the batch unsuccessful.
   */
  lemma {:induction false} LateFailureIff(s: State, actions: seq<Action>, i: nat)
    requires Inv(s) && i < |s.tables.items| && s.tables.items[i].status.Succeeded? && NoCallOpen(s, i)
    ensures i < |Run(s, actions).tables.items|
    ensures Run(s, actions).tables.items[i] == s.tables.items[i] <==> FailItem(i) !in actions
    ensures FailItem(i) in actions ==> Finalized(Run(s, actions).tables).batch != BatchSucceeded
  {
    if FailItem(i) !in actions {
      SucceededIsFinal(s, actions, i);
    } else {
      OverIsSpent(s, i);
      NeverHealthyAgain(s, actions, i);
      UnhealthyBatch(Run(s, actions).tables, i);
    }
  }

  lemma {:induction false} UnhealthyBatch(t: Tables, i: nat)
    requires i < |t.items| && !Healthy(t.mode, t.items[i])
    ensures Finalized(t).batch != BatchSucceeded
  {
    AggregateIff(t.mode, t.items);
    assert t.items[i] in t.items;
  }

  function Repeat(a: Action, n: nat): seq<Action> {
    if n == 0 then [] else Repeat(a, n - 1) + [a]
  }

  lemma {:induction false} RunPush(s: State, actions: seq<Action>, a: Action)
    ensures Run(s, actions + [a]) == After(Run(s, actions), a)
  {
    assert (actions + [a])[..|actions|] == actions;
  }

  lemma {:induction false} AdvanceOne(s: State, k: nat, reply: Reply)
    requires k < |s.calls| && s.calls[k].item < |s.tables.items|
    ensures var (t, stage) := Advanced(s.tables, s.calls[k].item, s.calls[k].stage, reply);
      After(s, Advance(k, reply)) == State(t, s.calls[k := s.calls[k].(stage := stage)])
  {
  }

  lemma {:induction false} RunsOn(s: State, before: seq<Action>, k: nat, reply: Reply, n: nat)
    requires var u := Run(s, before); k < |u.calls| && u.calls[k].item < |u.tables.items|
    ensures var u := Run(s, before);
      var (t, stage) := Steps(u.tables, u.calls[k].item, u.calls[k].stage, reply, n);
      Run(s, before + Repeat(Advance(k, reply), n)) == State(t, u.calls[k := u.calls[k].(stage := stage)])
  {
    if n == 0 {
      NothingAdded(before);
    } else {
      RunsOn(s, before, k, reply, n - 1);
      var most := before + Repeat(Advance(k, reply), n - 1);
      RunPush(s, most, Advance(k, reply));
      AdvanceOne(Run(s, most), k, reply);
      Regroup(before, Repeat(Advance(k, reply), n - 1), [Advance(k, reply)]);
    }
  }

  /** Callback k of the run, begun and run to its end with nothing in between. */
  function Play(callback: Callback, i: nat, k: nat, reply: Reply): seq<Action> {
    [Begin(callback, i)] + Repeat(Advance(k, reply), 4)
  }

  lemma {:induction false} FourStepsEnd(t: Tables, i: nat, callback: Callback, reply: Reply)
    requires i < |t.items|
    ensures Steps(t, i, FirstStage(t.items[i], callback), reply, 4).1 == Done
  {
    FourSteps(t, i, FirstStage(t.items[i], callback), reply);
  }

  /** Called is what the interleaving of one callback alone reaches. */
  lemma {:induction false} CalledIsARun(s: State, callback: Callback, i: nat, reply: Reply)
    requires i < |s.tables.items|
    ensures Run(s, Play(callback, i, |s.calls|, reply))
         == State(Called(s.tables, i, callback, reply), s.calls + [Call(i, Done)])
  {
    var first := [Begin(callback, i)];
    assert first[..|first| - 1] == [];
    assert Run(s, first) == After(s, Begin(callback, i));
    RunsOn(s, first, |s.calls|, reply, 4);
    FourStepsEnd(s.tables, i, callback, reply);
  }

  /** A document that was fetched once is not fetched again: repeating acquire changes nothing. */
  lemma {:induction false} AcquireRepeats(t: Tables, i: nat, document: nat, reply: Reply)
    requires i < |t.items| && t.items[i].accession.Some?
    ensures var u := Called(t, i, Acquire, Fetched(document));
      && u.items[i].acquisition.Some?
      && (t.items[i].acquisition.None? ==>
            && u.items[i].status.Processing?
            && u.items[i].acquisition == Some(Acquisition(t.items[i].accession.value, document)))
      && Called(u, i, Acquire, reply) == u
  {
    var u := Called(t, i, Acquire, Fetched(document));
    FourSteps(t, i, FirstStage(t.items[i], Acquire), Fetched(document));
    FourSteps(u, i, Done, reply);
  }

  /**
   Processing an item again after its run was claimed: the documentation promises a safe
   repetition, and it is one exactly for an item that succeeded (or is still processing).
   Any other item is reopened, the second claim is refused, and no new run starts.
   */
  lemma {:induction false} RepeatedProcessIff(t: Tables, i: nat, reply: Reply)
    requires i < |t.items| && Consistent(t.items[i]) && t.items[i].run.Some?
    ensures var u := Called(t, i, Process, reply);
      && u.runs == t.runs
      && (u.items[i] == t.items[i] <==> t.items[i].status.Succeeded? || t.items[i].status.Processing?)
      && (!t.items[i].status.Succeeded? ==>
            u.items == t.items[i := t.items[i].(status := Processing, finished := false)])
  {
    FourSteps(t, i, FirstStage(t.items[i], Process), reply);
    assert t.items[i := t.items[i]] == t.items;
  }

  /**
   What that costs: in a latest-mode batch in which everything went well, repeating the
   processing of an item that was skipped as unchanged turns the batch from succeeded to
   partially or wholly failed.
   */
  lemma {:induction false} RetryUndoesUnchanged(t: Tables, i: nat, reply: Reply)
    requires t.mode.Latest? && i < |t.items| && Consistent(t.items[i]) && t.items[i].run.Some?
    requires t.items[i].status.Skipped? && forall item :: item in t.items ==> Healthy(Latest, item)
    ensures Finalized(t).batch == BatchSucceeded
    ensures var u := Finalized(Called(t, i, Process, reply));
      u.items[i].status.Failed? && u.batch != BatchSucceeded
  {
    AggregateIff(Latest, t.items);
    RepeatedProcessIff(t, i, reply);
    var v := Called(t, i, Process, reply);
    FourSteps(t, i, MarkProcessing, reply);
    AggregateIff(Latest, v.items);
    assert v.items[i] in v.items;
  }

  // ----- runs in which it happens -----------------------------------------

  lemma {:induction false} RunAppend(s: State, a: seq<Action>, b: seq<Action>)
    ensures Run(s, a + b) == Run(Run(s, a), b)
  {
    if b == [] {
      NothingAdded(a);
    } else {
      RunAppend(s, a, b[..|b| - 1]);
      assert (a + b)[..|a + b| - 1] == a + b[..|b| - 1];
    }
  }

  /** The tables u are t with another row for item i, and the batch under way. */
  predicate Writes(t: Tables, u: Tables, i: nat, row: Item)
    requires i < |t.items|
  {
    && u.mode == t.mode && u.runs == t.runs
    && u.items == t.items[i := row]
    && u.batch == if t.batch.Submitted? then Running else t.batch
  }

  /**
   What select leaves: nothing changed for an item that is over, the selected accession, the
   skipped item of a year without a filing, or, after an exception, the selecting one.
   */
  lemma {:induction false} SelectLeaves(t: Tables, i: nat, reply: Reply)
    requires i < |t.items|
    ensures var u, item := Called(t, i, Select, reply), t.items[i];
      if item.status.Skipped? || item.status.Succeeded? then u == t
      else Writes(t, u, i,
                  if reply.Chosen? then
                    item.(status := Acquiring, accession := Some(reply.accession), finished := false)
                  else if reply.NoCandidate? && t.mode.ExactYear? then item.(status := Skipped, finished := true)
                  else item.(status := Selecting, finished := false))
  {
    FourSteps(t, i, FirstStage(t.items[i], Select), reply);
  }

  lemma {:induction false} AcquireLeaves(t: Tables, i: nat, reply: Reply)
    requires i < |t.items|
    ensures var u, item := Called(t, i, Acquire, reply), t.items[i];
      if item.accession.None? || item.acquisition.Some? then u == t
      else Writes(t, u, i,
                  if reply.Fetched? then
                    item.(status := Processing, finished := false,
                          acquisition := Some(Acquisition(item.accession.value, reply.document)))
                  else item.(status := Acquiring, finished := false))
  {
    FourSteps(t, i, FirstStage(t.items[i], Acquire), reply);
  }

  /** The item once the pipeline that claimed a run for it has answered. */
  function ProcessedAs(item: Item, reply: Reply): Item {
    match reply
    case Ingested(corpus) => item.(status := Succeeded, corpus := Some(corpus), finished := true)
    case Unchanged(corpus) => item.(status := Skipped, corpus := Some(corpus), finished := true)
    case IngestFailed => item.(status := Failed, finished := true)
    case _ => item.(status := Processing, finished := false)
  }

  /**
   What process leaves: an exception before the claim, or the refused claim of an item that
   has a run, keeps it processing; otherwise the new run is the item's and its outcome decides.
   */
  lemma {:induction false} ProcessLeaves(t: Tables, i: nat, reply: Reply)
    requires i < |t.items|
    ensures var u, item := Called(t, i, Process, reply), t.items[i];
      if item.status.Succeeded? || item.acquisition.None? then u == t
      else if reply.Raise? || item.run.Some? then Writes(t, u, i, item.(status := Processing, finished := false))
      else
        && u.runs == t.runs + [i]
        && Writes(t, u.(runs := t.runs), i, ProcessedAs(item, reply).(run := Some(|t.runs|)))
  {
    FourSteps(t, i, FirstStage(t.items[i], Process), reply);
  }

  /** The failure callback: the item fails whatever it was, and keeps what it refers to. */
  lemma {:induction false} FailureLeaves(s: State, i: nat)
    requires i < |s.tables.items|
    ensures Writes(s.tables, After(s, FailItem(i)).tables, i, s.tables.items[i].(status := Failed, finished := true))
    ensures After(s, FailItem(i)).calls == s.calls
  {
  }

  /** A batch that cannot be launched or submitted: its pending items fail, the others stay as they are. */
  lemma {:induction false} FailuresBeforeTheRun(s: State, a: Action)
    requires a.FailLaunch? || a.FailSubmission?
    ensures var t, u := s.tables, After(s, a).tables;
      && (u.batch == if a.FailSubmission? || t.batch.Submitted? then BatchFailed else t.batch)
      && u.mode == t.mode && u.runs == t.runs && After(s, a).calls == s.calls && |u.items| == |t.items|
      && forall i :: 0 <= i < |t.items| ==>
           u.items[i]
           == if t.items[i].status.Pending? then t.items[i].(status := Failed, finished := true) else t.items[i]
  {
  }

  /** The callbacks of item i in their intended order, each once. */
  function Serve(i: nat, accession: nat, document: nat, reply: Reply): seq<Action> {
    Play(Select, i, 0, Chosen(accession)) + Play(Acquire, i, 1, Fetched(document)) + Play(Process, i, 2, reply)
  }

  function Served(accession: nat, document: nat, reply: Reply): Item
    requires reply.Ingested? || reply.Unchanged?
  {
    Item(if reply.Ingested? then Succeeded else Skipped, Some(accession), Some(Acquisition(accession, document)),
         Some(reply.corpus), Some(0), true)
  }

  lemma {:induction false} PlayOn(s: State, before: seq<Action>, callback: Callback, i: nat, k: nat, reply: Reply)
    requires var u := Run(s, before); i < |u.tables.items| && k == |u.calls|
    ensures var u := Run(s, before);
      Run(s, before + Play(callback, i, k, reply))
      == State(Called(u.tables, i, callback, reply), u.calls + [Call(i, Done)])
  {
    RunAppend(s, before, Play(callback, i, k, reply));
    CalledIsARun(Run(s, before), callback, i, reply);
  }

  /** A batch with one item that holds a document and has not been processed. */
  function Acquired(mode: Mode, count: nat, i: nat, accession: nat, document: nat): Tables
    requires i < count
  {
    var item := Item(Processing, Some(accession), Some(Acquisition(accession, document)), None, None, false);
    Tables(mode, Running, Fresh(count)[i := item], [])
  }

  lemma {:induction false} AcquiredIsReached(mode: Mode, count: nat, i: nat, accession: nat, document: nat)
    requires i < count
    ensures Run(Created(mode, count), Play(Select, i, 0, Chosen(accession)) + Play(Acquire, i, 1, Fetched(document)))
         == State(Acquired(mode, count, i, accession, document), [Call(i, Done), Call(i, Done)])
  {
    var s, select := Created(mode, count), Play(Select, i, 0, Chosen(accession));
    CalledIsARun(s, Select, i, Chosen(accession));
    SelectLeaves(s.tables, i, Chosen(accession));
    PlayOn(s, select, Acquire, i, 1, Fetched(document));
    AcquireLeaves(Run(s, select).tables, i, Fetched(document));
  }

  /** Every item of every batch can succeed, or be skipped as unchanged. */
  lemma {:induction false} ServedIsReached(
    mode: Mode, count: nat, i: nat, accession: nat, document: nat, reply: Reply)
    requires i < count && (reply.Ingested? || reply.Unchanged?)
    ensures Run(Created(mode, count), Serve(i, accession, document, reply)) == State(
              Tables(mode, Running, Fresh(count)[i := Served(accession, document, reply)], [i]),
              [Call(i, Done), Call(i, Done), Call(i, Done)])
  {
    var s := Created(mode, count);
    var before := Play(Select, i, 0, Chosen(accession)) + Play(Acquire, i, 1, Fetched(document));
    AcquiredIsReached(mode, count, i, accession, document);
    PlayOn(s, before, Process, i, 2, reply);
    ProcessLeaves(Acquired(mode, count, i, accession, document), i, reply);
  }

  /** Finalizing a batch of one item. */
  lemma {:induction false} FinalizedAlone(t: Tables, item: Item)
    requires t.items == [item]
    ensures Finalized(t).batch == if Healthy(t.mode, item) then BatchSucceeded else BatchFailed
    ensures Finalized(t).items == [if item.status in OPEN then item.(status := Failed, finished := true) else item]
  {
    AggregateIff(t.mode, [item]);
    assert FailWhere([item][..0], OPEN) == [];
  }

  lemma {:induction false} ServedAlone(mode: Mode, accession: nat, document: nat, reply: Reply)
    requires reply.Ingested? || reply.Unchanged?
    ensures Run(Created(mode, 1), Serve(0, accession, document, reply)) == State(
              Tables(mode, Running, [Served(accession, document, reply)], [0]),
              [Call(0, Done), Call(0, Done), Call(0, Done)])
  {
    ServedIsReached(mode, 1, 0, accession, document, reply);
    assert Fresh(1)[0 := Served(accession, document, reply)] == [Served(accession, document, reply)];
  }

  lemma {:induction false} ServedBatchSucceeds(mode: Mode, accession: nat, document: nat, reply: Reply)
    requires reply.Ingested? || (reply.Unchanged? && mode.Latest?)
    ensures Run(Created(mode, 1), Serve(0, accession, document, reply) + [FinalizeBatch]).tables.batch
         == BatchSucceeded
  {
    var s, serve := Created(mode, 1), Serve(0, accession, document, reply);
    ServedAlone(mode, accession, document, reply);
    RunPush(s, serve, FinalizeBatch);
    FinalizedAlone(Run(s, serve).tables, Served(accession, document, reply));
  }

  /** A batch of one item that has succeeded ends failed when a failure callback comes late. */
  lemma {:induction false} LateFailureFailsTheBatch(mode: Mode, accession: nat, document: nat, corpus: nat)
    ensures var serve := Serve(0, accession, document, Ingested(corpus));
      && Run(Created(mode, 1), serve + [FinalizeBatch]).tables.batch == BatchSucceeded
      && (var t := Run(Created(mode, 1), serve + [FailItem(0)] + [FinalizeBatch]).tables;
          && t.items == [Served(accession, document, Ingested(corpus)).(status := Failed)]
          && t.batch == BatchFailed)
  {
    var s, serve := Created(mode, 1), Serve(0, accession, document, Ingested(corpus));
    ServedBatchSucceeds(mode, accession, document, Ingested(corpus));
    ServedAlone(mode, accession, document, Ingested(corpus));
    RunPush(s, serve, FailItem(0));
    RunPush(s, serve + [FailItem(0)], FinalizeBatch);
    FailedAlone(Run(s, serve), Served(accession, document, Ingested(corpus)));
  }

  lemma {:induction false} FailedAlone(s: State, item: Item)
    requires s.tables.items == [item] && item.finished
    ensures var t := Finalized(After(s, FailItem(0)).tables);
      t.items == [item.(status := Failed)] && t.batch == BatchFailed
  {
    var failed := item.(status := Failed);
    assert [item][0 := failed] == [failed];
    FinalizedAlone(After(s, FailItem(0)).tables, failed);
  }

  /** So does a latest-mode batch whose one item was unchanged, when its processing is repeated. */
  lemma {:induction false} RetryFailsTheBatch(accession: nat, document: nat, corpus: nat, reply: Reply)
    ensures var serve := Serve(0, accession, document, Unchanged(corpus));
      && Run(Created(Latest, 1), serve + [FinalizeBatch]).tables.batch == BatchSucceeded
      && (var t := Run(Created(Latest, 1), serve + Play(Process, 0, 3, reply) + [FinalizeBatch]).tables;
          && t.items == [Served(accession, document, Unchanged(corpus)).(status := Failed)]
          && t.batch == BatchFailed)
  {
    var s, serve := Created(Latest, 1), Serve(0, accession, document, Unchanged(corpus));
    ServedBatchSucceeds(Latest, accession, document, Unchanged(corpus));
    ServedAlone(Latest, accession, document, Unchanged(corpus));
    PlayOn(s, serve, Process, 0, 3, reply);
    RunPush(s, serve + Play(Process, 0, 3, reply), FinalizeBatch);
    ReopenedAlone(Run(s, serve).tables, Served(accession, document, Unchanged(corpus)), reply);
  }

  lemma {:induction false} ReopenedAlone(t: Tables, item: Item, reply: Reply)
    requires t.items == [item] && t.mode.Latest? && Consistent(item) && item.run.Some? && item.status.Skipped?
    ensures var u := Finalized(Called(t, 0, Process, reply));
      u.items == [item.(status := Failed)] && u.batch == BatchFailed
  {
    var reopened := item.(status := Processing, finished := false);
    RepeatedProcessIff(t, 0, reply);
    assert [item][0 := reopened] == [reopened];
    FourSteps(t, 0, MarkProcessing, reply);
    FinalizedAlone(Called(t, 0, Process, reply), reopened);
  }

  // ----- the selected filing and the acquired one -------------------------

  predicate Matches(item: Item) {
    item.acquisition.Some? ==> item.accession == Some(item.acquisition.value.accession)
  }

  /** The action writes an accession to item i under which it does not hold a document, or the reverse. */
  predicate Mismatches(s: State, a: Action, i: nat)
    requires i < |s.tables.items|
  {
    a.Advance? && a.call < |s.calls| && s.calls[a.call].item == i &&
    match s.calls[a.call].stage
    case WriteSelected(accession) =>
      s.tables.items[i].acquisition.Some? && s.tables.items[i].acquisition.value.accession != accession
    case WriteAcquired(acquisition) => s.tables.items[i].accession != Some(acquisition.accession)
    case _ => false
  }

  /**
   The document an item holds is the filing it selected until a second selection picks
   another filing after the first was acquired, or while it is being fetched; no other
   step can part them.
   */
  lemma {:induction false} MatchIsKeptIff(s: State, a: Action, i: nat)
    requires Inv(s) && i < |s.tables.items| && Matches(s.tables.items[i])
    ensures i < |After(s, a).tables.items|
    ensures Matches(After(s, a).tables.items[i]) <==> !Mismatches(s, a, i)
  {
    if a.Advance? && a.call < |s.calls| {
      AdvancedRow(s.tables, s.calls[a.call].item, s.calls[a.call].stage, a.reply);
      if s.calls[a.call].item == i {
        AdvanceMatches(s.tables, i, s.calls[a.call].stage, a.reply);
      }
    }
  }

  lemma {:induction false} AdvanceMatches(t: Tables, i: nat, stage: Stage, reply: Reply)
    requires i < |t.items| && Matches(t.items[i])
    ensures var (u, _) := Advanced(t, i, stage, reply);
      i < |u.items| &&
      (Matches(u.items[i]) <==>
        && (stage.WriteSelected? ==>
              t.items[i].acquisition.None? || t.items[i].acquisition.value.accession == stage.accession)
        && (stage.WriteAcquired? ==> t.items[i].accession == Some(stage.acquisition.accession)))
  {
  }

  /** How many selections of item i are begun. */
  function Selections(actions: seq<Action>, i: nat): nat {
    if actions == [] then 0
    else Selections(actions[..|actions| - 1], i) + if actions[|actions| - 1] == Begin(Select, i) then 1 else 0
  }

  predicate IsSelecting(call: Call, i: nat) {
    call.item == i && (call.stage.MarkSelecting? || call.stage.Discover?)
  }

  /** A callback of the item knows no filing but the chosen one. */
  predicate Knows(stage: Stage, choice: Option<nat>) {
    match stage
    case WriteSelected(accession) => choice == Some(accession)
    case MarkAcquiring(accession) => choice == Some(accession)
    case Fetch(accession) => choice == Some(accession)
    case WriteAcquired(acquisition) => choice == Some(acquisition.accession)
    case _ => true
  }

  predicate Holds(item: Item, choice: Option<nat>) {
    && (item.accession.Some? ==> item.accession == choice)
    && (item.acquisition.Some? ==> item.accession == choice == Some(item.acquisition.value.accession))
  }

  /** At most one selection is under way, and none once a filing has been chosen. */
  ghost predicate OneChoice(s: State, i: nat, choice: Option<nat>) {
    && i < |s.tables.items| && Holds(s.tables.items[i], choice)
    && (forall k :: 0 <= k < |s.calls| && s.calls[k].item == i ==> Knows(s.calls[k].stage, choice))
    && (forall k :: 0 <= k < |s.calls| && IsSelecting(s.calls[k], i) ==> choice == None)
    && (forall k, l :: 0 <= k < l < |s.calls| ==> !IsSelecting(s.calls[k], i) || !IsSelecting(s.calls[l], i))
  }

  ghost predicate NotSelecting(s: State, i: nat) {
    forall k :: 0 <= k < |s.calls| ==> !IsSelecting(s.calls[k], i)
  }

  lemma {:induction false} RowsHold(items: seq<Item>, open: set<ItemStatus>, i: nat, choice: Option<nat>)
    requires i < |items| && Holds(items[i], choice)
    ensures Holds(FailWhere(items, open)[i], choice)
  {
  }

  /** The choice after a step from the given stage. */
  function ChoiceOf(stage: Stage, reply: Reply, choice: Option<nat>): Option<nat> {
    if stage.Discover? && reply.Chosen? then Some(reply.accession) else choice
  }

  lemma {:induction false} AdvanceKnows(t: Tables, i: nat, stage: Stage, reply: Reply, choice: Option<nat>)
    requires i < |t.items| && Consistent(t.items[i]) && Supported(t.items[i], stage)
    requires Holds(t.items[i], choice) && Knows(stage, choice) && (stage.Discover? ==> choice == None)
    ensures var (u, next) := Advanced(t, i, stage, reply);
      && |u.items| == |t.items|
      && Holds(u.items[i], ChoiceOf(stage, reply, choice))
      && Knows(next, ChoiceOf(stage, reply, choice))
      && !next.MarkSelecting? && (next.Discover? ==> stage.MarkSelecting?)
  {
  }

  /** The choice after one step. */
  function ChoiceAfter(s: State, a: Action, i: nat, choice: Option<nat>): Option<nat> {
    if a.Advance? && a.call < |s.calls| && s.calls[a.call] == Call(i, Discover) && a.reply.Chosen?
    then Some(a.reply.accession) else choice
  }

  lemma {:induction false} ChoiceStep(s: State, a: Action, i: nat, choice: Option<nat>)
    requires Inv(s) && OneChoice(s, i, choice)
    requires a == Begin(Select, i) ==> choice == None && NotSelecting(s, i)
    ensures OneChoice(After(s, a), i, ChoiceAfter(s, a, i, choice))
    ensures a != Begin(Select, i) && choice == None && NotSelecting(s, i)
        ==> NotSelecting(After(s, a), i) && ChoiceAfter(s, a, i, choice) == None
  {
    match a
    case Begin(_, _) =>
    case Advance(k, reply) =>
      if k < |s.calls| {
        ChoiceAdvance(s, k, reply, i, choice);
      }
    case FailItem(_) =>
    case FinalizeBatch => RowsHold(s.tables.items, OPEN, i, choice);
    case FailLaunch => RowsHold(s.tables.items, {Pending}, i, choice);
    case FailSubmission => RowsHold(s.tables.items, {Pending}, i, choice);
  }

  lemma {:induction false} ChoiceAdvance(s: State, k: nat, reply: Reply, i: nat, choice: Option<nat>)
    requires Inv(s) && OneChoice(s, i, choice) && k < |s.calls|
    ensures OneChoice(After(s, Advance(k, reply)), i, ChoiceAfter(s, Advance(k, reply), i, choice))
    ensures choice == None && NotSelecting(s, i)
        ==> NotSelecting(After(s, Advance(k, reply)), i) && ChoiceAfter(s, Advance(k, reply), i, choice) == None
  {
    var call := s.calls[k];
    var (t, next) := Advanced(s.tables, call.item, call.stage, reply);
    if call.item == i {
      AdvanceKnows(s.tables, i, call.stage, reply, choice);
      OwnCall(s, k, t, next, i, choice, ChoiceOf(call.stage, reply, choice));
    } else {
      AdvancedRow(s.tables, call.item, call.stage, reply);
      OtherCall(s, k, t, next, i, choice);
    }
  }

  lemma {:induction false} OtherCall(s: State, k: nat, t: Tables, next: Stage, i: nat, choice: Option<nat>)
    requires OneChoice(s, i, choice) && k < |s.calls| && s.calls[k].item != i
    requires i < |t.items| && t.items[i] == s.tables.items[i]
    ensures OneChoice(State(t, s.calls[k := s.calls[k].(stage := next)]), i, choice)
  {
  }

  lemma {:induction false} OwnCall(
    s: State, k: nat, t: Tables, next: Stage, i: nat, choice: Option<nat>, later: Option<nat>)
    requires OneChoice(s, i, choice) && k < |s.calls| && s.calls[k].item == i
    requires i < |t.items| && Holds(t.items[i], later) && Knows(next, later)
    requires !next.MarkSelecting? && (next.Discover? ==> s.calls[k].stage.MarkSelecting? && later == choice)
    requires later != choice ==> choice == None && s.calls[k].stage.Discover? && !next.Discover?
    ensures OneChoice(State(t, s.calls[k := s.calls[k].(stage := next)]), i, later)
  {
  }

  lemma {:induction false} OneSelectionOneChoice(mode: Mode, count: nat, actions: seq<Action>, i: nat)
    returns (choice: Option<nat>)
    requires i < count && Selections(actions, i) <= 1
    ensures OneChoice(Run(Created(mode, count), actions), i, choice)
    ensures Selections(actions, i) == 0 ==> choice == None && NotSelecting(Run(Created(mode, count), actions), i)
  {
    if actions == [] {
      choice := None;
    } else {
      var before, a := actions[..|actions| - 1], actions[|actions| - 1];
      var s := Run(Created(mode, count), before);
      var earlier := OneSelectionOneChoice(mode, count, before, i);
      RunKeepsInv(Created(mode, count), before);
      ChoiceStep(s, a, i, earlier);
      choice := ChoiceAfter(s, a, i, earlier);
    }
  }

  /** Selecting another filing after one was acquired: the document stays, under the wrong accession. */
  function Reselected(i: nat): seq<Action> {
    Play(Select, i, 0, Chosen(0)) + Play(Acquire, i, 1, Fetched(0)) + Play(Select, i, 2, Chosen(1))
  }

  ghost predicate MatchesAfter(mode: Mode, count: nat, actions: seq<Action>, i: nat) {
    var items := Run(Created(mode, count), actions).tables.items;
    i < |items| && Matches(items[i])
  }

  lemma {:induction false} ReselectionMismatches(mode: Mode, count: nat, i: nat)
    requires i < count
    ensures Selections(Reselected(i), i) == 2
    ensures !MatchesAfter(mode, count, Reselected(i), i)
  {
    var select, acquire := Play(Select, i, 0, Chosen(0)), Play(Acquire, i, 1, Fetched(0));
    AcquiredIsReached(mode, count, i, 0, 0);
    PlayOn(Created(mode, count), select + acquire, Select, i, 2, Chosen(1));
    SelectLeaves(Acquired(mode, count, i, 0, 0), i, Chosen(1));
    ReselectedTwice(i);
  }

  lemma {:induction false} ReselectedTwice(i: nat)
    ensures Selections(Reselected(i), i) == 2
  {
    var select, acquire := Play(Select, i, 0, Chosen(0)), Play(Acquire, i, 1, Fetched(0));
    SelectionsAdd(select, acquire, i);
    SelectionsAdd(select + acquire, Play(Select, i, 2, Chosen(1)), i);
    PlaySelections(Select, i, 0, Chosen(0));
    PlaySelections(Acquire, i, 1, Fetched(0));
    PlaySelections(Select, i, 2, Chosen(1));
  }

  lemma {:induction false} SelectionsAdd(a: seq<Action>, b: seq<Action>, i: nat)
    ensures Selections(a + b, i) == Selections(a, i) + Selections(b, i)
  {
    if b == [] {
      NothingAdded(a);
    } else {
      SelectionsAdd(a, b[..|b| - 1], i);
      assert (a + b)[..|a + b| - 1] == a + b[..|b| - 1];
    }
  }

  lemma {:induction false} NoneRepeated(k: nat, reply: Reply, n: nat, i: nat)
    ensures Selections(Repeat(Advance(k, reply), n), i) == 0
  {
    if n > 0 {
      NoneRepeated(k, reply, n - 1, i);
      var most := Repeat(Advance(k, reply), n - 1);
      assert (most + [Advance(k, reply)])[..|most|] == most;
    }
  }

  lemma {:induction false} PlaySelections(callback: Callback, i: nat, k: nat, reply: Reply)
    ensures Selections(Play(callback, i, k, reply), i) == if callback.Select? then 1 else 0
  {
    var first := [Begin(callback, i)];
    SelectionsAdd(first, Repeat(Advance(k, reply), 4), i);
    NoneRepeated(k, reply, 4, i);
    assert first[..0] == [];
  }

  /**
   Over whole runs: however the callbacks interleave, fail and repeat, the document an item
   holds is the filing it selected exactly as long as the item is selected at most once.
   */
  lemma {:induction false} MatchesIffSelectedOnce(mode: Mode, count: nat, i: nat, n: nat)
    requires i < count
    ensures (forall actions :: Selections(actions, i) <= n ==> MatchesAfter(mode, count, actions, i)) <==> n <= 1
  {
    if n <= 1 {
      forall actions | Selections(actions, i) <= n
        ensures MatchesAfter(mode, count, actions, i)
      {
        var _ := OneSelectionOneChoice(mode, count, actions, i);
      }
    } else {
      ReselectionMismatches(mode, count, i);
    }
  }
}
