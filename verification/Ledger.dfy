/**
 The lifetime budget: reserve_cost and update_user (auth.py), the two transactions that
 create a charged action and the two that settle one (repositories/research.py,
 repositories/workflows.py). Every transaction locks the user or the action row it
 decides on, so each is one step; a run is any sequence of them.
 */
module Ledger {
  import opened Wrappers
  import opened Pricing
  import opened Sequences

  datatype Kind = Research | CorpusPreparation

  datatype Status = Reserved | Reconciled(charged: Money) | Indeterminate(charged: Money)

  /** A cost_action row with the pricing snapshot and the usage rows its settlement reads. */
  datatype Action = Action(
    user: nat, kind: Kind, status: Status, reserved: Money, snapshot: Option<Snapshot>, usage: seq<Usage>)

  datatype State = State(
    overrides: map<nat, Option<Money>>,  // app_user.lifetime_budget_override_usd
    actions: seq<Action>,
    keys: set<(nat, string)>,            // research_request_user_idempotency
    launchers: map<string, nat>)         // filing_batch.launcher_execution_id

  const EMPTY := State(map[], [], {}, map[])

  // ----- the summary ------------------------------------------------------

  /** What an action takes from the budget. */
  function Taken(a: Action): Money {
    if a.status.Reserved? then a.reserved else a.status.charged
  }

  function Used(actions: seq<Action>, user: nat): Money {
    if actions == [] then 0.0
    else
      var last := actions[|actions| - 1];
      Used(actions[..|actions| - 1], user) + if last.user == user then Taken(last) else 0.0
  }

  function Outstanding(actions: seq<Action>, user: nat): Money {
    if actions == [] then 0.0
    else
      var last := actions[|actions| - 1];
      Outstanding(actions[..|actions| - 1], user)
      + if last.user == user && last.status.Reserved? then last.reserved else 0.0
  }

  datatype Summary = Summary(limit: Money, used: Money, reserved: Money, remaining: real)

  datatype Refusal = UnknownUser | QuotaExceeded(summary: Summary) | InvalidRequest | DuplicateKey

  function Limit(s: State, user: nat, fallback: Money): Money
    requires user in s.overrides
  {
    match s.overrides[user]
    case Some(limit) => limit
    case None => fallback
  }

  function BudgetSummary(s: State, user: nat, fallback: Money): Option<Summary> {
    if user !in s.overrides then None
    else
      var limit, used := Limit(s, user, fallback), Used(s.actions, user);
      Some(Summary(limit, used, Outstanding(s.actions, user), limit - used))
  }

  function ReserveCost(s: State, user: nat, fallback: Money, amount: Money): Result<Summary, Refusal> {
    match BudgetSummary(s, user, fallback)
    case None => Failure(UnknownUser)
    case Some(summary) => if summary.remaining < amount then Failure(QuotaExceeded(summary)) else Success(summary)
  }

  // ----- the transactions -------------------------------------------------

  datatype Event =
    | AddUser(user: nat)
    | UpdateUser(user: nat, clear: bool, limit: Option<Money>)
    | CreateResearch(user: nat, key: Option<string>, corpusReady: bool, fallback: Money, amount: Money,
                     snapshot: Option<Snapshot>)
    | CreateBatch(user: nat, launcher: Option<string>, tickersKnown: bool, fallback: Money, amount: Money,
                  snapshot: Option<Snapshot>)
    | RecordUsage(action: nat, usage: Usage)
    | Settle(action: nat)

  /** The action a creating event answers with, or why it is refused. */
  function Creation(s: State, e: Event): Result<nat, Refusal>
    requires e.CreateResearch? || e.CreateBatch?
  {
    if e.CreateBatch? && e.launcher.Some? && e.launcher.value in s.launchers then Success(s.launchers[e.launcher.value])
    else if !(if e.CreateResearch? then e.corpusReady else e.tickersKnown) then Failure(InvalidRequest)
    else
      match ReserveCost(s, e.user, e.fallback, e.amount)
      case Failure(refusal) => Failure(refusal)
      case Success(_) =>
        if e.CreateResearch? && e.key.Some? && (e.user, e.key.value) in s.keys then Failure(DuplicateKey)
        else Success(|s.actions|)
  }

  /** Settling an open action of a kind with the usage known at that moment. */
  function Priced(kind: Kind, reserved: Money, snapshot: Option<Snapshot>, usage: seq<Usage>): Status {
    if kind.CorpusPreparation? && usage == [] then Reconciled(0.0)
    else
      match Estimate(snapshot, usage)
      case Some(charge) => Reconciled(charge)
      case None => Indeterminate(reserved)
  }

  /** _reconcile and _reconcile_batch: the status a settlement leaves. */
  function Settled(a: Action): Status {
    if a.status.Reconciled? || (a.kind.CorpusPreparation? && a.status.Indeterminate?) then a.status
    else Priced(a.kind, a.reserved, a.snapshot, a.usage)
  }

  /**
   The status charges for the usage: nothing for a batch that used nothing, the bill where it
   can be made out, and otherwise the whole reservation, with no amount known.
   */
  predicate ChargesFor(a: Action, usage: seq<Usage>) {
    if a.kind.CorpusPreparation? && usage == [] then a.status == Reconciled(0.0)
    else if AllChargeable(a.snapshot, usage) && Bill(a.snapshot.value, usage) < FLOAT_OVERFLOW then
      a.status.Reconciled? && a.status.charged == Bill(a.snapshot.value, usage)
    else a.status == Indeterminate(a.reserved)
  }

  lemma {:induction false} PricedCharges(a: Action, usage: seq<Usage>)
    requires a.status == Priced(a.kind, a.reserved, a.snapshot, usage)
    ensures ChargesFor(a, usage)
  {
    EstimateIsBill(a.snapshot, usage);
  }

  function After(s: State, e: Event): State {
    match e
    case AddUser(user) => if user in s.overrides then s else s.(overrides := s.overrides[user := None])
    case UpdateUser(user, clear, limit) =>
      if user !in s.overrides then s
      else
        var override_ := if clear then None else if limit.Some? then limit else s.overrides[user];
        s.(overrides := s.overrides[user := override_])
    case CreateResearch(user, key, _, _, amount, snapshot) =>
      if Creation(s, e).Failure? then s
      else s.(actions := s.actions + [Action(user, Research, Reserved, amount, snapshot, [])],
              keys := if key.Some? then s.keys + {(user, key.value)} else s.keys)
    case CreateBatch(user, launcher, _, _, amount, snapshot) =>
      if Creation(s, e) != Success(|s.actions|) then s
      else s.(actions := s.actions + [Action(user, CorpusPreparation, Reserved, amount, snapshot, [])],
              launchers := if launcher.Some? then s.launchers[launcher.value := |s.actions|] else s.launchers)
    case RecordUsage(i, u) =>
      if i >= |s.actions| then s
      else s.(actions := s.actions[i := s.actions[i].(usage := s.actions[i].usage + [u])])
    case Settle(i) =>
      if i >= |s.actions| then s
      else s.(actions := s.actions[i := s.actions[i].(status := Settled(s.actions[i]))])
  }

  function Run(events: seq<Event>): State {
    if events == [] then EMPTY else After(Run(events[..|events| - 1]), events[|events| - 1])
  }

  /** The tables behind the two repositories. */
  class CostTables {
    var overrides: map<nat, Option<Money>>
    var actions: seq<Action>
    var keys: set<(nat, string)>
    var launchers: map<string, nat>

    ghost function Contents(): State
      reads this
    {
      State(overrides, actions, keys, launchers)
    }

    ghost predicate Valid()
      reads this
    {
      forall l :: l in launchers ==> launchers[l] < |actions|
    }

    constructor ()
      ensures Valid() && Contents() == EMPTY
    {
      overrides, actions, keys, launchers := map[], [], {}, map[];
    }

    method UpdateUser(user: nat, clear: bool, limit: Option<Money>) returns (known: bool)
      requires Valid()
      modifies this
      ensures Valid() && Contents() == After(old(Contents()), Event.UpdateUser(user, clear, limit))
      ensures known == (user in old(overrides))
    {
      known := user in overrides;
      if known && clear {
        overrides := overrides[user := None];
      } else if known && limit.Some? {
        overrides := overrides[user := limit];
      } else if known {
        assert overrides[user := overrides[user]] == overrides;
      }
    }

    method CreateResearch(user: nat, key: Option<string>, corpusReady: bool, fallback: Money, amount: Money,
                          snapshot: Option<Snapshot>)
      returns (r: Result<nat, Refusal>)
      requires Valid()
      modifies this
      ensures var e := Event.CreateResearch(user, key, corpusReady, fallback, amount, snapshot);
        Valid() && Contents() == After(old(Contents()), e) && r == Creation(old(Contents()), e)
    {
      if !corpusReady {
        return Failure(InvalidRequest);
      }
      var reservation := ReserveCost(State(overrides, actions, keys, launchers), user, fallback, amount);
      if reservation.Failure? {
        return Failure(reservation.error);
      }
      if key.Some? {
        if (user, key.value) in keys {
          return Failure(DuplicateKey);
        }
        keys := keys + {(user, key.value)};
      }
      actions := actions + [Action(user, Research, Reserved, amount, snapshot, [])];
      return Success(|actions| - 1);
    }

    method CreateBatch(user: nat, launcher: Option<string>, tickersKnown: bool, fallback: Money, amount: Money,
                       snapshot: Option<Snapshot>)
      returns (r: Result<nat, Refusal>, created: bool)
      requires Valid()
      modifies this
      ensures var e := Event.CreateBatch(user, launcher, tickersKnown, fallback, amount, snapshot);
        Valid() && Contents() == After(old(Contents()), e) && r == Creation(old(Contents()), e)
      ensures created <==> actions != old(actions)
    {
      if launcher.Some? && launcher.value in launchers {
        return Success(launchers[launcher.value]), false;
      }
      if !tickersKnown {
        return Failure(InvalidRequest), false;
      }
      var reservation := ReserveCost(State(overrides, actions, keys, launchers), user, fallback, amount);
      if reservation.Failure? {
        return Failure(reservation.error), false;
      }
      if launcher.Some? {
        launchers := launchers[launcher.value := |actions|];
      }
      actions := actions + [Action(user, CorpusPreparation, Reserved, amount, snapshot, [])];
      return Success(|actions| - 1), true;
    }

    method Usage(i: nat, usage: Usage)
      requires Valid() && i < |actions|
      modifies this`actions
      ensures Valid() && Contents() == After(old(Contents()), RecordUsage(i, usage))
    {
      actions := actions[i := actions[i].(usage := actions[i].usage + [usage])];
    }

    /** _reconcile: every settlement but a reconciled one is evaluated again. */
    method Reconcile(i: nat)
      requires Valid() && i < |actions| && actions[i].kind.Research?
      modifies this`actions
      ensures Valid() && Contents() == After(old(Contents()), Settle(i))
      ensures old(actions[i]).status.Reconciled? ==> actions == old(actions)
      ensures !old(actions[i]).status.Reconciled? ==> ChargesFor(actions[i], old(actions[i]).usage)
    {
      var action := actions[i];
      if action.status.Reconciled? {
        assert actions[i := action] == actions;
        return;
      }
      var charge := EstimateCharge(action.snapshot, action.usage);
      var status := if charge.Some? then Reconciled(charge.value) else Indeterminate(action.reserved);
      actions := actions[i := action.(status := status)];
    }

    /** _reconcile_batch: only an open reservation is settled, and one without usage is released. */
    method ReconcileBatch(i: nat)
      requires Valid() && i < |actions| && actions[i].kind.CorpusPreparation?
      modifies this`actions
      ensures Valid() && Contents() == After(old(Contents()), Settle(i))
      ensures !old(actions[i]).status.Reserved? ==> actions == old(actions)
      ensures old(actions[i]).status.Reserved? ==> ChargesFor(actions[i], old(actions[i]).usage)
    {
      var action := actions[i];
      if !action.status.Reserved? {
        assert actions[i := action] == actions;
        return;
      }
      if action.usage == [] {
        actions := actions[i := action.(status := Reconciled(0.0))];
        return;
      }
      var charge := EstimateCharge(action.snapshot, action.usage);
      var status := if charge.Some? then Reconciled(charge.value) else Indeterminate(action.reserved);
      actions := actions[i := action.(status := status)];
    }
  }

  // ----- settlement is final ----------------------------------------------

  /** The status is the settlement of the first n usage rows. */
  predicate BilledAt(a: Action, n: nat) {
    n <= |a.usage| && a.status == Priced(a.kind, a.reserved, a.snapshot, a.usage[..n])
  }

  ghost predicate Explained(a: Action) {
    a.status.Reserved? || exists n: nat :: BilledAt(a, n)
  }

  /** How an action may change: its terms never, its usage by growing, its status once. */
  predicate Evolves(a: Action, b: Action) {
    && a.user == b.user && a.kind == b.kind && a.reserved == b.reserved && a.snapshot == b.snapshot
    && a.usage <= b.usage
    && (!a.status.Reserved? ==> b.status == a.status)
  }

  lemma {:induction false} GrownStaysExplained(a: Action, u: Usage)
    requires Explained(a)
    ensures Explained(a.(usage := a.usage + [u]))
  {
    if !a.status.Reserved? {
      var n: nat :| BilledAt(a, n);
      assert (a.usage + [u])[..n] == a.usage[..n];
      assert BilledAt(a.(usage := a.usage + [u]), n);
    }
  }

  /** Evaluating a settled action again gives the settlement it already has. */
  lemma {:induction false} SettlingAgainChangesNothing(a: Action)
    requires Explained(a) && !a.status.Reserved?
    ensures Settled(a) == a.status
  {
    if a.kind.Research? && a.status.Indeterminate? {
      var n: nat :| BilledAt(a, n);
      UnavailableStays(a.snapshot, a.usage[..n], a.usage[n..]);
      assert a.usage[..n] + a.usage[n..] == a.usage;
    }
  }

  lemma {:induction false} SettledIsExplained(a: Action)
    requires Explained(a)
    ensures Explained(a.(status := Settled(a))) && Evolves(a, a.(status := Settled(a)))
  {
    if a.status.Reserved? {
      assert a.usage[..|a.usage|] == a.usage;
      assert BilledAt(a.(status := Settled(a)), |a.usage|);
    } else {
      SettlingAgainChangesNothing(a);
    }
  }

  ghost predicate Inv(s: State) {
    && (forall a :: a in s.actions ==> Explained(a))
    && (forall l :: l in s.launchers ==> s.launchers[l] < |s.actions|)
  }

  /** Every action of s is still there in t, and evolved. */
  ghost predicate Later(s: State, t: State) {
    && |s.actions| <= |t.actions|
    && (forall i :: 0 <= i < |s.actions| ==> Evolves(s.actions[i], t.actions[i]))
    && (forall l :: l in s.launchers ==> l in t.launchers && t.launchers[l] == s.launchers[l])
    && s.keys <= t.keys
  }

  lemma {:induction false} AfterKeeps(s: State, e: Event)
    requires Inv(s)
    ensures Inv(After(s, e)) && Later(s, After(s, e))
  {
    if e.RecordUsage? && e.action < |s.actions| {
      GrownStaysExplained(s.actions[e.action], e.usage);
    } else if e.Settle? && e.action < |s.actions| {
      SettledIsExplained(s.actions[e.action]);
    }
  }

  lemma {:induction false} RunKeeps(events: seq<Event>)
    ensures Inv(Run(events))
  {
    if events != [] {
      RunKeeps(events[..|events| - 1]);
      AfterKeeps(Run(events[..|events| - 1]), events[|events| - 1]);
    }
  }

  lemma {:induction false} RunGoesOn(events: seq<Event>, more: seq<Event>)
    ensures Later(Run(events), Run(events + more))
  {
    if more == [] {
      assert events + more == events;
    } else {
      var before := events + more[..|more| - 1];
      RunGoesOn(events, more[..|more| - 1]);
      RunKeeps(before);
      AfterKeeps(Run(before), more[|more| - 1]);
      assert (events + more)[..|events + more| - 1] == before;
    }
  }

  /** In every run, the settlement of an open action charges for the usage recorded until then. */
  lemma {:induction false} SettlementCharges(events: seq<Event>, i: nat)
    requires i < |Run(events).actions| && Run(events).actions[i].status.Reserved?
    ensures i < |Run(events + [Settle(i)]).actions|
    ensures var a, b := Run(events).actions[i], Run(events + [Settle(i)]).actions[i];
      b == a.(status := b.status) && ChargesFor(b, a.usage)
  {
    RunPush(events, Settle(i));
    var a := Run(events).actions[i];
    PricedCharges(a.(status := Settled(a)), a.usage);
  }

  /**
   Once an action is settled, no retry of succeed, fail or finalize and no other event
   ever changes its status or charge; and the charge is the priced sum of the usage known
   when it was settled, or the reservation when that sum was unavailable.
   */
  lemma {:induction false} SettlementIsFinal(events: seq<Event>, more: seq<Event>, i: nat)
    requires i < |Run(events).actions| && !Run(events).actions[i].status.Reserved?
    ensures i < |Run(events + more).actions|
    ensures Run(events + more).actions[i].status == Run(events).actions[i].status
    ensures var a := Run(events).actions[i];
      exists n: nat :: n <= |a.usage| && ChargesFor(a, a.usage[..n])
  {
    RunGoesOn(events, more);
    RunKeeps(events);
    var a := Run(events).actions[i];
    assert Explained(a);
    var n: nat :| BilledAt(a, n);
    PricedCharges(a, a.usage[..n]);
  }

  /** The usage rows the events record for action i, once it is there. */
  function Recorded(events: seq<Event>, i: nat): seq<Usage> {
    if events == [] then []
    else
      var e := events[|events| - 1];
      Recorded(events[..|events| - 1], i) + if e.RecordUsage? && e.action == i then [e.usage] else []
  }

  lemma {:induction false} UsageGrows(events: seq<Event>, more: seq<Event>, i: nat)
    requires i < |Run(events).actions|
    ensures i < |Run(events + more).actions|
    ensures Run(events + more).actions[i].usage == Run(events).actions[i].usage + Recorded(more, i)
  {
    RunGoesOn(events, more);
    if more == [] {
      assert events + more == events;
    } else {
      var before, e := more[..|more| - 1], more[|more| - 1];
      UsageGrows(events, before, i);
      assert (events + more)[..|events + more| - 1] == events + before;
      UsageAfter(Run(events + before), e, i);
      Regroup(Run(events).actions[i].usage, Recorded(before, i),
              if e.RecordUsage? && e.action == i then [e.usage] else []);
    }
  }

  lemma {:induction false} UsageAfter(s: State, e: Event, i: nat)
    requires i < |s.actions|
    ensures i < |After(s, e).actions|
    ensures After(s, e).actions[i].usage
         == s.actions[i].usage + if e.RecordUsage? && e.action == i then [e.usage] else []
  {
  }

  /**
   Usage recorded after a settlement is never charged: whatever follows, the charge is the
   price of all the action's usage exactly when each operation recorded afterwards is priced
   at nothing.
   */
  lemma {:induction false} LateUsageIsFree(events: seq<Event>, i: nat, more: seq<Event>)
    requires i < |Run(events).actions| && Run(events).actions[i].status.Reserved?
    requires Run(events).actions[i].snapshot.Some? && Settled(Run(events).actions[i]).Reconciled?
    ensures i < |Run(events + [Settle(i)] + more).actions|
    ensures var prices, b := Run(events).actions[i].snapshot.value, Run(events + [Settle(i)] + more).actions[i];
      && b.status == Settled(Run(events).actions[i])
      && (Total(prices, b.usage) == Some(b.status.charged) <==>
            forall u :: u in Recorded(more, i) ==> CostOf(prices, u) == Some(0.0))
  {
    var a := Run(events).actions[i];
    SettledThenLate(events, i, more);
    SettledTotal(a);
    LateTotal(a.snapshot.value, a.usage, Recorded(more, i), Settled(a).charged);
  }

  lemma {:induction false} SettledThenLate(events: seq<Event>, i: nat, more: seq<Event>)
    requires i < |Run(events).actions| && Run(events).actions[i].status.Reserved?
    ensures i < |Run(events + [Settle(i)] + more).actions|
    ensures var a, b := Run(events).actions[i], Run(events + [Settle(i)] + more).actions[i];
      b.status == Settled(a) && b.usage == a.usage + Recorded(more, i)
  {
    RunPush(events, Settle(i));
    SettledIsClosed(Run(events).actions[i]);
    RunGoesOn(events + [Settle(i)], more);
    UsageGrows(events + [Settle(i)], more, i);
  }

  lemma {:induction false} SettledIsClosed(a: Action)
    ensures !Settled(a).Reserved?
  {
  }

  lemma {:induction false} LateTotal(prices: Snapshot, usage: seq<Usage>, late: seq<Usage>, charged: Money)
    requires Total(prices, usage) == Some(charged)
    ensures Total(prices, usage + late) == Some(charged) <==> forall u :: u in late ==> CostOf(prices, u) == Some(0.0)
  {
    TotalAdds(prices, usage, late);
    TotalIsZeroIff(prices, late);
  }

  lemma {:induction false} SettledTotal(a: Action)
    requires a.status.Reserved? && a.snapshot.Some? && Settled(a).Reconciled?
    ensures Total(a.snapshot.value, a.usage) == Some(Settled(a).charged)
  {
  }

  /**
   A launcher execution creates at most one batch: after it has one, every further call
   with that launcher id, whatever its other arguments, answers with the same batch and
   changes nothing.
   */
  lemma {:induction false} LaunchIsIdempotent(events: seq<Event>, more: seq<Event>, first: Event, again: Event)
    requires first.CreateBatch? && first.launcher.Some? && Creation(Run(events), first).Success?
    requires again.CreateBatch? && again.launcher == first.launcher
    ensures var later := Run(events + [first] + more);
      && Creation(later, again) == Creation(Run(events), first)
      && After(later, again) == later
  {
    RunKeeps(events);
    assert (events + [first])[..|events|] == events;
    assert first.launcher.value in Run(events + [first]).launchers;
    RunGoesOn(events + [first], more);
    RunKeeps(events + [first] + more);
    RunKeeps(events + [first]);
  }

  /**
   An idempotency key is good for one research request of its user: once it has been used,
   creating again with it is refused and reserves nothing, whatever the other arguments.
   */
  lemma {:induction false} ResearchKeyIsUsedOnce(events: seq<Event>, more: seq<Event>, first: Event, again: Event)
    requires first.CreateResearch? && first.key.Some? && Creation(Run(events), first).Success?
    requires again.CreateResearch? && again.user == first.user && again.key == first.key
    ensures var later := Run(events + [first] + more);
      Creation(later, again).Failure? && After(later, again) == later
  {
    assert (events + [first])[..|events|] == events;
    assert (first.user, first.key.value) in Run(events + [first]).keys;
    RunGoesOn(events + [first], more);
  }

  /** What a user's settled actions were charged. */
  function Charged(actions: seq<Action>, user: nat): Money {
    if actions == [] then 0.0
    else
      var last := actions[|actions| - 1];
      Charged(actions[..|actions| - 1], user)
      + if last.user == user && !last.status.Reserved? then last.status.charged else 0.0
  }

  lemma {:induction false} UsedIsOutstandingAndCharged(actions: seq<Action>, user: nat)
    ensures Used(actions, user) == Outstanding(actions, user) + Charged(actions, user)
  {
    if actions != [] {
      UsedIsOutstandingAndCharged(actions[..|actions| - 1], user);
    }
  }

  /** The summary balances: the limit is what is charged, what is reserved and what remains. */
  lemma {:induction false} SummaryBalances(s: State, user: nat, fallback: Money)
    requires BudgetSummary(s, user, fallback).Some?
    ensures var summary := BudgetSummary(s, user, fallback).value;
      summary.limit == Charged(s.actions, user) + summary.reserved + summary.remaining
  {
    UsedIsOutstandingAndCharged(s.actions, user);
  }

  // ----- what is accepted, and what an edit does ---------------------------

  /** What the user may still spend: the override or else the default, less charges and open reservations. */
  function Available(s: State, user: nat, fallback: Money): real
    requires user in s.overrides
  {
    (if s.overrides[user].Some? then s.overrides[user].value else fallback)
    - Charged(s.actions, user) - Outstanding(s.actions, user)
  }

  /** The state refuses the request, for the first of these reasons; None means that it is accepted. */
  function Reason(s: State, e: Event): Option<string>
    requires e.CreateResearch? || e.CreateBatch?
  {
    if e.CreateResearch? && !e.corpusReady then Some("invalid")
    else if e.CreateBatch? && !e.tickersKnown then Some("invalid")
    else if e.user !in s.overrides then Some("unknown user")
    else if Available(s, e.user, e.fallback) < e.amount then Some("quota")
    else if e.CreateResearch? && e.key.Some? && (e.user, e.key.value) in s.keys then Some("duplicate")
    else None
  }

  /** Whether the batch of this launcher exists already. */
  predicate Launched(s: State, e: Event) {
    e.CreateBatch? && e.launcher.Some? && e.launcher.value in s.launchers
  }

  /**
   A request reserves its amount exactly when nothing speaks against it: the budget left
   covers it, to the last cent. Otherwise nothing changes and the answer says why.
   */
  lemma {:induction false} AcceptedIff(events: seq<Event>, e: Event)
    requires e.CreateResearch? || e.CreateBatch?
    ensures var s, t, answer := Run(events), Run(events + [e]), Creation(Run(events), e);
      if Launched(s, e) then t == s && answer == Success(s.launchers[e.launcher.value])
      else
        match Reason(s, e)
        case None =>
          && answer == Success(|s.actions|)
          && t.overrides == s.overrides
          && t.actions == s.actions + [Action(
               e.user, if e.CreateResearch? then Research else CorpusPreparation, Reserved, e.amount, e.snapshot, [])]
          && t.keys == (if e.CreateResearch? && e.key.Some? then s.keys + {(e.user, e.key.value)} else s.keys)
          && t.launchers == (if e.CreateBatch? && e.launcher.Some?
                             then s.launchers[e.launcher.value := |s.actions|] else s.launchers)
        case Some(reason) =>
          && t == s && answer.Failure?
          && (reason == "invalid" <==> answer.error.InvalidRequest?)
          && (reason == "unknown user" <==> answer.error.UnknownUser?)
          && (reason == "quota" <==> answer.error.QuotaExceeded?)
          && (reason == "duplicate" <==> answer.error.DuplicateKey?)
  {
    RunPush(events, e);
    RunKeeps(events);
    UsedIsOutstandingAndCharged(Run(events).actions, e.user);
  }

  /** Editing a user: clearing wins over setting, no limit given leaves it, and no other user notices. */
  lemma {:induction false} EditedLimit(s: State, user: nat, clear: bool, limit: Option<Money>, other: nat)
    requires user in s.overrides && other in s.overrides
    ensures var t := After(s, UpdateUser(user, clear, limit));
      && t == s.(overrides := t.overrides) && t.overrides.Keys == s.overrides.Keys
      && (other != user ==> t.overrides[other] == s.overrides[other])
      && (clear ==> t.overrides[user].None?)
      && (!clear && limit.Some? ==> t.overrides[user] == limit)
      && (!clear && limit.None? ==> t.overrides[user] == s.overrides[user])
  {
  }

  // ----- the budget holds -------------------------------------------------

  /** The part of what an action takes that its reservation covered. */
  function CoveredPart(a: Action): Money {
    if Taken(a) < a.reserved then Taken(a) else a.reserved
  }

  function Covered(actions: seq<Action>, user: nat): Money {
    if actions == [] then 0.0
    else
      var last := actions[|actions| - 1];
      Covered(actions[..|actions| - 1], user) + if last.user == user then CoveredPart(last) else 0.0
  }

  /** The total by which a user's settled actions cost more than they reserved. */
  function Overrun(actions: seq<Action>, user: nat): Money {
    if actions == [] then 0.0
    else
      var last := actions[|actions| - 1];
      Overrun(actions[..|actions| - 1], user)
      + if last.user == user && !last.status.Reserved? && last.status.charged > last.reserved
        then last.status.charged - last.reserved else 0.0
  }

  lemma {:induction false} UsedIsCoveredAndOverrun(actions: seq<Action>, user: nat)
    ensures Used(actions, user) == Covered(actions, user) + Overrun(actions, user)
  {
    if actions != [] {
      UsedIsCoveredAndOverrun(actions[..|actions| - 1], user);
    }
  }

  lemma {:induction false} CoveredFalls(actions: seq<Action>, i: nat, b: Action, user: nat)
    requires i < |actions| && b.user == actions[i].user && CoveredPart(b) <= CoveredPart(actions[i])
    ensures Covered(actions[i := b], user) <= Covered(actions, user)
  {
    var before := actions[..|actions| - 1];
    if i == |actions| - 1 {
      assert actions[i := b][..|actions| - 1] == before;
    } else {
      CoveredFalls(before, i, b, user);
      assert actions[i := b][..|actions| - 1] == before[i := b];
    }
  }

  /** Whether e creates an action, so that a reservation of its user is accepted. */
  predicate Accepts(s: State, e: Event) {
    (e.CreateResearch? || e.CreateBatch?) && Creation(s, e) == Success(|s.actions|)
  }

  /** The largest limit in force at any accepted reservation of the user. */
  function Peak(events: seq<Event>, user: nat): Money {
    if events == [] then 0.0
    else
      var before, e := events[..|events| - 1], events[|events| - 1];
      var peak, s := Peak(before, user), Run(before);
      if Accepts(s, e) && e.user == user && user in s.overrides && Limit(s, user, e.fallback) > peak
      then Limit(s, user, e.fallback) else peak
  }

  lemma {:induction false} SettledIsCovered(a: Action)
    requires Explained(a)
    ensures CoveredPart(a.(status := Settled(a))) <= CoveredPart(a)
  {
    if !a.status.Reserved? {
      SettlingAgainChangesNothing(a);
    }
  }

  lemma {:induction false} OtherEventsCoverNoMore(s: State, e: Event, user: nat)
    requires Inv(s) && !Accepts(s, e)
    ensures Covered(After(s, e).actions, user) <= Covered(s.actions, user)
  {
    if e.RecordUsage? && e.action < |s.actions| {
      CoveredFalls(s.actions, e.action, s.actions[e.action].(usage := s.actions[e.action].usage + [e.usage]), user);
    } else if e.Settle? && e.action < |s.actions| {
      SettledIsCovered(s.actions[e.action]);
      CoveredFalls(s.actions, e.action, s.actions[e.action].(status := Settled(s.actions[e.action])), user);
    }
  }

  lemma {:induction false} CoveredStaysUnderPeak(events: seq<Event>, user: nat)
    ensures Covered(Run(events).actions, user) <= Peak(events, user)
  {
    if events != [] {
      var before, e := events[..|events| - 1], events[|events| - 1];
      var s := Run(before);
      CoveredStaysUnderPeak(before, user);
      RunKeeps(before);
      if Accepts(s, e) {
        UsedIsCoveredAndOverrun(s.actions, user);
      } else {
        OtherEventsCoverNoMore(s, e, user);
      }
    }
  }

  /**
   Over every interleaving of reservations, settlements and limit changes, what a user has
   used never exceeds the largest limit in force at an accepted reservation by more than
   the actions of that user overran their reservations.
   */
  lemma {:induction false} SpendingIsBounded(events: seq<Event>, user: nat)
    ensures Used(Run(events).actions, user) <= Peak(events, user) + Overrun(Run(events).actions, user)
  {
    CoveredStaysUnderPeak(events, user);
    UsedIsCoveredAndOverrun(Run(events).actions, user);
  }

  /** e asks for a reservation of the user. */
  predicate Reserves(e: Event, user: nat) {
    (e.CreateResearch? || e.CreateBatch?) && e.user == user
  }

  /** Every reservation the user asks for is checked against the same limit. */
  ghost predicate FixedLimit(events: seq<Event>, user: nat, limit: Money) {
    events == [] ||
    var before, e := events[..|events| - 1], events[|events| - 1];
    && FixedLimit(before, user, limit)
    && (Reserves(e, user) && user in Run(before).overrides ==> Limit(Run(before), user, e.fallback) == limit)
  }

  lemma {:induction false} FixedLimitPeak(events: seq<Event>, user: nat, limit: Money)
    requires FixedLimit(events, user, limit)
    ensures Peak(events, user) <= limit
  {
    if events != [] {
      FixedLimitPeak(events[..|events| - 1], user, limit);
    }
  }

  /** With a fixed limit and no overrun the remaining budget is never negative. */
  lemma {:induction false} RemainingIsNeverNegative(events: seq<Event>, user: nat, limit: Money, fallback: Money)
    requires FixedLimit(events, user, limit)
    requires user in Run(events).overrides && Limit(Run(events), user, fallback) >= limit
    requires Overrun(Run(events).actions, user) == 0.0
    ensures BudgetSummary(Run(events), user, fallback).value.remaining >= 0.0
  {
    FixedLimitPeak(events, user, limit);
    SpendingIsBounded(events, user);
  }

  /** e leaves the user's limit alone, and a reservation by the user finds the given one in force. */
  predicate KeepsLimit(e: Event, user: nat, override_: Option<Money>, limit: Money) {
    && !(e.UpdateUser? && e.user == user)
    && (Reserves(e, user) ==> limit == if override_.Some? then override_.value else e.fallback)
  }

  lemma {:induction false} OverrideStays(s: State, e: Event, user: nat, override_: Option<Money>, limit: Money)
    requires user in s.overrides && s.overrides[user] == override_ && KeepsLimit(e, user, override_, limit)
    ensures user in After(s, e).overrides && After(s, e).overrides[user] == override_
  {
  }

  /**
   A limit that is set, by an override or by leaving the default in place, before the user
   first reserves and not edited afterwards is fixed.
   */
  lemma {:induction false} SetOnceIsFixed(
    setup: seq<Event>, rest: seq<Event>, user: nat, override_: Option<Money>, limit: Money)
    requires forall e :: e in setup ==> !Reserves(e, user)
    requires user in Run(setup).overrides && Run(setup).overrides[user] == override_
    requires forall e :: e in rest ==> KeepsLimit(e, user, override_, limit)
    ensures FixedLimit(setup + rest, user, limit)
    ensures user in Run(setup + rest).overrides && Run(setup + rest).overrides[user] == override_
  {
    if rest == [] {
      assert setup + rest == setup;
      NoReservationIsFixed(setup, user, limit);
    } else {
      var before, e := rest[..|rest| - 1], rest[|rest| - 1];
      assert forall f :: f in before ==> f in rest;
      assert e in rest;
      SetOnceIsFixed(setup, before, user, override_, limit);
      OverrideStays(Run(setup + before), e, user, override_, limit);
      assert (setup + rest)[..|setup + rest| - 1] == setup + before;
    }
  }

  lemma {:induction false} NoReservationIsFixed(events: seq<Event>, user: nat, limit: Money)
    requires forall e :: e in events ==> !Reserves(e, user)
    ensures FixedLimit(events, user, limit)
  {
    if events != [] {
      var before := events[..|events| - 1];
      assert forall e :: e in before ==> e in events;
      assert events[|events| - 1] in events;
      NoReservationIsFixed(before, user, limit);
    }
  }

  lemma {:induction false} RunPush(events: seq<Event>, e: Event)
    ensures Run(events + [e]) == After(Run(events), e)
  {
    assert (events + [e])[..|events|] == events;
  }

  /** One token of the model costs the given amount. */
  function UnitPrices(cost: Money): Snapshot {
    Snapshot(map["m" := Price(cost * TOKEN_UNIT, None)])
  }

  const ONE_TOKEN := Usage("m", Some(1), None)

  /** A request with one token of usage, settled; it reserves the whole limit. */
  function Paid(limit: Money, cost: Money): seq<Event> {
    [] + [AddUser(1)] + [CreateResearch(1, None, true, limit, limit, Some(UnitPrices(cost)))]
    + [RecordUsage(0, ONE_TOKEN)] + [Settle(0)]
  }

  lemma {:induction false} PaidIs(limit: Money, cost: Money)
    requires Finite(cost)
    ensures Run(Paid(limit, cost)) == State(
              map[1 := None],
              [Action(1, Research, Reconciled(cost), limit, Some(UnitPrices(cost)), [ONE_TOKEN])], {}, map[])
  {
    var create := CreateResearch(1, None, true, limit, limit, Some(UnitPrices(cost)));
    var action := Action(1, Research, Reserved, limit, Some(UnitPrices(cost)), []);
    var added := State(map[1 := None], [], {}, map[]);
    RunFour(AddUser(1), create, RecordUsage(0, ONE_TOKEN), Settle(0));
    assert After(EMPTY, AddUser(1)) == added;
    assert After(added, create) == added.(actions := [action]);
    var used := action.(usage := [ONE_TOKEN]);
    assert After(added.(actions := [action]), RecordUsage(0, ONE_TOKEN)) == added.(actions := [used]);
    ChargeForOne(cost);
    EstimateOfOne(UnitPrices(cost), ONE_TOKEN);
    assert Settled(used) == Reconciled(cost);
    assert After(added.(actions := [used]), Settle(0))
        == added.(actions := [used.(status := Reconciled(cost))]);
  }

  /**
   The overrun term is needed: an action may cost any amount more than it reserved, and
   then the remaining budget is negative by exactly that amount.
   */
  lemma {:induction false} OverrunGoesPastTheLimit(limit: Money, extra: Money) returns (events: seq<Event>)
    requires Finite(limit + extra)
    ensures FixedLimit(events, 1, limit) && 1 in Run(events).overrides
    ensures Overrun(Run(events).actions, 1) == extra
    ensures BudgetSummary(Run(events), 1, limit).value.remaining + extra == 0.0
  {
    events := Paid(limit, limit + extra);
    PaidIs(limit, limit + extra);
    OneAction(Run(events).actions[0]);
    var create := CreateResearch(1, None, true, limit, limit, Some(UnitPrices(limit + extra)));
    FixedForOne(limit, create, RecordUsage(0, ONE_TOKEN), Settle(0));
  }

  /**
   A run with late usage: succeed settles the request and raises afterwards, so the attempt's
   usage is recorded a second time. The action is charged for half of what its rows cost.
   */
  lemma {:induction false} LateUsageGoesUncharged(cost: Money) returns (events: seq<Event>)
    requires Finite(cost)
    ensures |Run(events).actions| == 1
    ensures var a := Run(events).actions[0];
      && a.status == Reconciled(cost)
      && a.snapshot.Some? && Total(a.snapshot.value, a.usage) == Some(cost + cost)
  {
    events := Paid(cost, cost) + [RecordUsage(0, ONE_TOKEN)];
    PaidIs(cost, cost);
    RunPush(Paid(cost, cost), RecordUsage(0, ONE_TOKEN));
    RecordedOnce(Run(Paid(cost, cost)), ONE_TOKEN);
    UnitCost(cost);
    TotalOfTwo(UnitPrices(cost), ONE_TOKEN);
  }

  lemma {:induction false} RecordedOnce(s: State, u: Usage)
    requires |s.actions| == 1
    ensures var t := After(s, RecordUsage(0, u));
      |t.actions| == 1 && t.actions[0] == s.actions[0].(usage := s.actions[0].usage + [u])
  {
  }

  lemma {:induction false} UnitCost(cost: Money)
    ensures CostOf(UnitPrices(cost), ONE_TOKEN) == Some(cost)
  {
    ChargeForOne(cost);
  }

  lemma {:induction false} TotalOfTwo(prices: Snapshot, u: Usage)
    ensures Total(prices, [u] + [u]) == Plus(CostOf(prices, u), CostOf(prices, u))
  {
    TotalAdds(prices, [u], [u]);
    assert Total(prices, [u][..0]) == Some(0.0);
  }

  lemma {:induction false} FixedForOne(limit: Money, create: Event, record: Event, settle: Event)
    requires create.CreateResearch? && create.user == 1 && create.fallback == limit
    requires record.RecordUsage? && settle.Settle?
    ensures FixedLimit([] + [AddUser(1)] + [create] + [record] + [settle], 1, limit)
  {
    var setup, rest := [AddUser(1)], [create, record, settle];
    assert setup[..|setup| - 1] == [];
    assert Run(setup) == After(EMPTY, AddUser(1));
    SetOnceIsFixed(setup, rest, 1, None, limit);
    assert setup + rest == [] + [AddUser(1)] + [create] + [record] + [settle];
  }

  lemma {:induction false} RunFour(a: Event, b: Event, c: Event, d: Event)
    ensures Run([] + [a] + [b] + [c] + [d]) == After(After(After(After(EMPTY, a), b), c), d)
  {
    RunPush([], a);
    RunPush([] + [a], b);
    RunPush([] + [a] + [b], c);
    RunPush([] + [a] + [b] + [c], d);
  }

  lemma {:induction false} OneAction(a: Action)
    requires a.status.Reconciled?
    ensures Used([a], a.user) == a.status.charged
    ensures Overrun([a], a.user) == if a.status.charged > a.reserved then a.status.charged - a.reserved else 0.0
  {
    assert Used([a][..0], a.user) == 0.0;
    assert Overrun([a][..0], a.user) == 0.0;
  }
}
