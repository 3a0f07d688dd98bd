/**
 stream_research (api/routers/public/research.py): the producer thread that runs
 ResearchService.create (generation/service.py) and publishes its stages, and the
 response generator that drains the bounded queue between them.

 Each action is one queue operation; a run is any interleaving of the two threads.
 */
module StreamProtocol {
  import opened Wrappers
  import opened EventStream

  datatype Item = Message(event: Event) | Sentinel

  const CAPACITY: nat := 32

  /** put_nowait: None is queue.Full. */
  function Offer(queue: seq<Item>, item: Item): Option<seq<Item>> {
    if |queue| >= CAPACITY then None else Some(queue + [item])
  }

  /** queue.Queue(maxsize=32) with the three ways the endpoint uses it. */
  class EventQueue {
    var items: seq<Item>

    constructor ()
      ensures items == []
    {
      items := [];
    }

    /** publish and the producer's finally block: a full queue drops the item. */
    method PutNowait(item: Item) returns (accepted: bool)
      modifies this
      ensures accepted == Offer(old(items), item).Some?
      ensures items == if accepted then old(items) + [item] else old(items)
    {
      if |items| >= CAPACITY {
        return false;
      }
      items := items + [item];
      return true;
    }

    /** get, when it does not have to wait. */
    method Get() returns (item: Item)
      requires items != []
      modifies this
      ensures old(items) == [item] + items
    {
      item := items[0];
      items := items[1..];
    }
  }

  // ----- the producer -----------------------------------------------------

  /** How far create has come: the stage it reported last, or how it ended. */
  datatype Producer =
    | Start
    | Retrieving
    | Retrieved
    | BuildingContext
    | Drafting(attempt: nat)
    | Validating(attempt: nat)
    | Persisting(attempt: nat)
    | Ended(result: Option<bool>)  // Some(succeeded), or None when an unexpected error escapes
    | Closing(result: Option<bool>)
    | Exited(result: Option<bool>)

  datatype Move =
    | Advance(data: string)  // report the next stage of the same attempt
    | Retry(data: string)    // the attempt failed: report the next attempt's first stage
    | Return                 // create returns a result: the idempotent one, or that of the last stage
    | Raise                  // create raises one of the errors produce catches
    | Escape                 // create raises anything else
    | Report(data: string)   // publish "succeeded" or "failed", or nothing for an escaped error
    | Close                  // put the sentinel

  /** The stage event a move publishes, and where it leaves the producer. */
  function StageMove(maxRetries: nat, p: Producer, m: Move): Option<(string, Producer)> {
    match (p, m)
    case (Start, Advance(_)) => Some(("retrieving", Retrieving))
    case (Retrieving, Advance(_)) => Some(("retrieved", Retrieved))
    case (Retrieved, Advance(_)) => Some(("building_context", BuildingContext))
    case (BuildingContext, Advance(_)) => Some(("drafting", Drafting(1)))
    case (Drafting(k), Advance(_)) => Some(("validating", Validating(k)))
    case (Validating(k), Advance(_)) => Some(("persisting", Persisting(k)))
    case (Drafting(k), Retry(_)) => if k <= maxRetries then Some(("drafting", Drafting(k + 1))) else None
    case (Validating(k), Retry(_)) => if k <= maxRetries then Some(("drafting", Drafting(k + 1))) else None
    case (Persisting(k), Retry(_)) => if k <= maxRetries then Some(("drafting", Drafting(k + 1))) else None
    case _ => None
  }

  /** The moves that end create without publishing. */
  function EndMove(p: Producer, m: Move): Option<Producer> {
    match m
    case Return => if p.Start? || p.Persisting? then Some(Ended(Some(true))) else None
    case Raise => if p.Ended? || p.Closing? || p.Exited? then None else Some(Ended(Some(false)))
    case Escape => if p.Ended? || p.Closing? || p.Exited? then None else Some(Ended(None))
    case _ => None
  }

  datatype State = State(
    producer: Producer, queue: seq<Item>, published: seq<Event>, dropped: nat, yielded: seq<Event>, finished: bool)

  const INITIAL := State(Start, [], [], 0, [], false)

  datatype Action = Produce(move: Move) | Consume

  function Publish(s: State, e: Event, p: Producer): State {
    match Offer(s.queue, Message(e))
    case Some(queue) => s.(producer := p, queue := queue, published := s.published + [e])
    case None => s.(producer := p, published := s.published + [e], dropped := s.dropped + 1)
  }

  function Data(m: Move): string {
    match m
    case Advance(data) => data
    case Retry(data) => data
    case _ => ""
  }

  /** One action of either thread, or None when it is not possible in s. */
  function Next(maxRetries: nat, s: State, a: Action): Option<State> {
    match a
    case Produce(Close) =>
      if s.producer.Closing? then
        match Offer(s.queue, Sentinel)
        case Some(queue) => Some(s.(producer := Exited(s.producer.result), queue := queue))
        case None => Some(s.(producer := Exited(s.producer.result), dropped := s.dropped + 1))
      else None
    case Produce(Report(data)) =>
      if s.producer.Ended? then
        match s.producer.result
        case Some(ok) =>
          Some(Publish(s, Event(if ok then "succeeded" else "failed", data), Closing(s.producer.result)))
        case None => Some(s.(producer := Closing(None)))
      else None
    case Produce(m) =>
      (match StageMove(maxRetries, s.producer, m)
       case Some((name, p)) => Some(Publish(s, Event(name, Data(m)), p))
       case None =>
         match EndMove(s.producer, m)
         case Some(p) => Some(s.(producer := p))
         case None => None)
    case Consume =>
      if s.finished || s.queue == [] then None
      else
        match s.queue[0]
        case Sentinel => Some(s.(queue := s.queue[1..], finished := true))
        case Message(e) => Some(s.(queue := s.queue[1..], yielded := s.yielded + [e]))
  }

  /** The state after a run of actions, or None when one of them was not possible. */
  function Run(maxRetries: nat, actions: seq<Action>): Option<State> {
    if actions == [] then Some(INITIAL)
    else
      match Run(maxRetries, actions[..|actions| - 1])
      case None => None
      case Some(s) => Next(maxRetries, s, actions[|actions| - 1])
  }

  // ----- nothing is dropped -----------------------------------------------

  /** The most queue operations the producer can have made on reaching p. */
  function Budget(maxRetries: nat, p: Producer): nat {
    match p
    case Start => 0
    case Retrieving => 1
    case Retrieved => 2
    case BuildingContext => 3
    case Drafting(k) => 3 * k + 1
    case Validating(k) => 3 * k + 2
    case Persisting(k) => 3 * k + 3
    case Ended(_) => 3 * (maxRetries + 1) + 3
    case Closing(_) => 3 * (maxRetries + 1) + 4
    case Exited(_) => 3 * (maxRetries + 1) + 5
  }

  /** The events still in the queue. */
  function Waiting(queue: seq<Item>): seq<Event> {
    if queue == [] then []
    else
      var rest := Waiting(queue[..|queue| - 1]);
      match queue[|queue| - 1]
      case Message(e) => rest + [e]
      case Sentinel => rest
  }

  predicate AttemptInRange(maxRetries: nat, p: Producer) {
    (p.Drafting? || p.Validating? || p.Persisting?) ==> 1 <= p.attempt <= maxRetries + 1
  }

  ghost predicate Inv(maxRetries: nat, s: State) {
    && AttemptInRange(maxRetries, s.producer)
    && s.dropped == 0
    && s.yielded + Waiting(s.queue) == s.published
    && |s.queue| <= Budget(maxRetries, s.producer)
    && (!s.producer.Exited? ==> !s.finished && Sentinel !in s.queue)
    && (s.producer.Exited? && !s.finished ==>
          s.queue != [] && s.queue[|s.queue| - 1] == Sentinel && Sentinel !in s.queue[..|s.queue| - 1])
    && (s.finished ==> s.queue == [])
  }

  lemma {:induction false} WaitingPop(queue: seq<Item>)
    requires queue != []
    ensures Waiting(queue) == (if queue[0].Message? then [queue[0].event] else []) + Waiting(queue[1..])
  {
    if |queue| == 1 {
      assert queue == [queue[0]];
      assert Waiting(queue[..0]) == [];
    } else {
      WaitingPop(queue[..|queue| - 1]);
      assert queue[..|queue| - 1][1..] == queue[1..][..|queue[1..]| - 1];
    }
  }

  /** Putting one item keeps the queue in step with what was published. */
  lemma {:induction false} PushKeeps(maxRetries: nat, s: State, item: Item, p: Producer, t: State)
    requires Inv(maxRetries, s) && !s.producer.Exited? && |s.queue| < CAPACITY
    requires AttemptInRange(maxRetries, p) && Budget(maxRetries, s.producer) + 1 <= Budget(maxRetries, p)
    requires t == s.(producer := p, queue := s.queue + [item],
                     published := s.published + if item.Message? then [item.event] else [])
    requires p.Exited? <==> item.Sentinel?
    ensures Inv(maxRetries, t)
  {
    assert t.queue[..|t.queue| - 1] == s.queue;
    var more := if item.Message? then [item.event] else [];
    assert s.yielded + (Waiting(s.queue) + more) == (s.yielded + Waiting(s.queue)) + more;
  }

  lemma {:induction false} StageMoveBudget(maxRetries: nat, p: Producer, m: Move)
    requires AttemptInRange(maxRetries, p) && StageMove(maxRetries, p, m).Some?
    ensures var q := StageMove(maxRetries, p, m).value.1;
      && AttemptInRange(maxRetries, q) && !q.Exited? && !p.Exited?
      && Budget(maxRetries, p) + 1 <= Budget(maxRetries, q)
      && Budget(maxRetries, q) <= 3 * (maxRetries + 1) + 3
  {
  }

  lemma {:induction false} EndMoveBudget(maxRetries: nat, p: Producer, m: Move)
    requires AttemptInRange(maxRetries, p) && EndMove(p, m).Some?
    ensures var q := EndMove(p, m).value;
      && q.Ended? && !p.Exited? && Budget(maxRetries, p) <= Budget(maxRetries, q)
  {
  }

  lemma {:induction false} FirstIsInFront<T>(queue: seq<T>)
    requires queue != []
    ensures |queue| > 1 ==> queue[0] in queue[..|queue| - 1]
  {
    if |queue| > 1 {
      assert queue[..|queue| - 1][0] == queue[0];
    }
  }

  lemma {:induction false} PopKeeps(maxRetries: nat, s: State, t: State)
    requires Inv(maxRetries, s) && Next(maxRetries, s, Consume) == Some(t)
    ensures Inv(maxRetries, t)
  {
    WaitingPop(s.queue);
    var head := s.queue[0];
    if head.Sentinel? {
      FirstIsInFront(s.queue);
    } else {
      assert (s.yielded + [head.event]) + Waiting(s.queue[1..]) == s.yielded + ([head.event] + Waiting(s.queue[1..]));
      if s.producer.Exited? {
        assert s.queue[1..][..|s.queue[1..]| - 1] == s.queue[..|s.queue| - 1][1..];
      }
    }
  }

  /** Within the budget every step of either thread keeps the invariant: no put ever finds the queue full. */
  lemma {:induction false} NextKeeps(maxRetries: nat, s: State, a: Action)
    requires 3 * (maxRetries + 1) + 5 <= CAPACITY
    requires Inv(maxRetries, s) && Next(maxRetries, s, a).Some?
    ensures Inv(maxRetries, Next(maxRetries, s, a).value)
  {
    var t := Next(maxRetries, s, a).value;
    match a
    case Consume => PopKeeps(maxRetries, s, t);
    case Produce(m) =>
      if m.Close? {
        PushKeeps(maxRetries, s, Sentinel, t.producer, t);
      } else if m.Report? {
        if s.producer.result.Some? {
          PushKeeps(maxRetries, s, Message(t.published[|t.published| - 1]), t.producer, t);
        }
      } else if StageMove(maxRetries, s.producer, m).Some? {
        StageMoveBudget(maxRetries, s.producer, m);
        PushKeeps(maxRetries, s, Message(t.published[|t.published| - 1]), t.producer, t);
      } else {
        EndMoveBudget(maxRetries, s.producer, m);
      }
  }

  lemma {:induction false} RunKeeps(maxRetries: nat, actions: seq<Action>)
    requires 3 * (maxRetries + 1) + 5 <= CAPACITY && Run(maxRetries, actions).Some?
    ensures Inv(maxRetries, Run(maxRetries, actions).value)
  {
    if actions != [] {
      RunKeeps(maxRetries, actions[..|actions| - 1]);
      NextKeeps(maxRetries, Run(maxRetries, actions[..|actions| - 1]).value, actions[|actions| - 1]);
    }
  }

  // ----- every run ends ---------------------------------------------------

  function Position(maxRetries: nat, p: Producer): nat {
    match p
    case Ended(_) => 3 * (maxRetries + 1) + 4
    case Closing(_) => 3 * (maxRetries + 1) + 5
    case Exited(_) => 3 * (maxRetries + 1) + 6
    case _ => Budget(maxRetries, p)
  }

  /** An upper bound on the actions still to come, drops or not. */
  function Rank(maxRetries: nat, s: State): int {
    2 * (3 * (maxRetries + 1) + 6 - Position(maxRetries, s.producer)) + |s.queue| + if s.finished then 0 else 1
  }

  lemma {:induction false} MovesGoForward(maxRetries: nat, p: Producer, m: Move)
    requires AttemptInRange(maxRetries, p)
    ensures StageMove(maxRetries, p, m).Some? ==>
      var q := StageMove(maxRetries, p, m).value.1;
      AttemptInRange(maxRetries, q) && Position(maxRetries, p) < Position(maxRetries, q)
    ensures EndMove(p, m).Some? ==>
      var q := EndMove(p, m).value;
      AttemptInRange(maxRetries, q) && Position(maxRetries, p) < Position(maxRetries, q)
  {
  }

  lemma {:induction false} NextRanks(maxRetries: nat, s: State, a: Action)
    requires AttemptInRange(maxRetries, s.producer) && Next(maxRetries, s, a).Some?
    ensures var t := Next(maxRetries, s, a).value;
      && AttemptInRange(maxRetries, t.producer)
      && Rank(maxRetries, t) < Rank(maxRetries, s)
  {
    if a.Produce? {
      MovesGoForward(maxRetries, s.producer, a.move);
    }
  }

  /** No run is longer than 6 * maxRetries + 19 actions, whatever the interleaving. */
  lemma {:induction false} RunsAreShort(maxRetries: nat, actions: seq<Action>)
    requires Run(maxRetries, actions).Some?
    ensures AttemptInRange(maxRetries, Run(maxRetries, actions).value.producer)
    ensures |actions| + Rank(maxRetries, Run(maxRetries, actions).value) <= Rank(maxRetries, INITIAL)
    ensures 0 <= Rank(maxRetries, Run(maxRetries, actions).value)
    ensures |actions| <= 6 * maxRetries + 19
  {
    if actions != [] {
      RunsAreShort(maxRetries, actions[..|actions| - 1]);
      NextRanks(maxRetries, Run(maxRetries, actions[..|actions| - 1]).value, actions[|actions| - 1]);
    }
  }

  /** Neither thread can act any more. */
  ghost predicate Stuck(maxRetries: nat, s: State) {
    forall a :: Next(maxRetries, s, a).None?
  }

  lemma {:induction false} StuckMeansFinished(maxRetries: nat, s: State)
    requires Inv(maxRetries, s) && Stuck(maxRetries, s)
    ensures s.finished && s.producer.Exited? && s.yielded == s.published
  {
    assert Next(maxRetries, s, Produce(Raise)).None?;
    assert Next(maxRetries, s, Produce(Report(""))).None?;
    assert Next(maxRetries, s, Produce(Close)).None?;
    assert Next(maxRetries, s, Consume).None?;
  }

  /**
   For every setting the configuration admits (max_retries at most 2) and beyond, up to
   8, and for every interleaving: nothing is ever dropped, and when neither thread can
   move the generator has returned after yielding exactly the published sequence.
   */
  lemma {:induction false} NothingIsLost(maxRetries: nat, actions: seq<Action>)
    requires maxRetries <= 8 && Run(maxRetries, actions).Some?
    ensures var s := Run(maxRetries, actions).value;
      && s.dropped == 0
      && s.yielded <= s.published
      && (Stuck(maxRetries, s) ==> s.finished && s.yielded == s.published)
  {
    RunKeeps(maxRetries, actions);
    var s := Run(maxRetries, actions).value;
    assert s.yielded <= s.yielded + Waiting(s.queue);
    if Stuck(maxRetries, s) {
      StuckMeansFinished(maxRetries, s);
    }
  }

  // ----- the stages that are reported -------------------------------------

  /** The stage names a request reports one after the other; an attempt may be given up after any of its stages. */
  predicate MayFollow(a: string, b: string) {
    match a
    case "retrieving" => b in {"retrieved", "failed"}
    case "retrieved" => b in {"building_context", "failed"}
    case "building_context" => b in {"drafting", "failed"}
    case "drafting" => b in {"validating", "drafting", "failed"}
    case "validating" => b in {"persisting", "drafting", "failed"}
    case "persisting" => b in {"drafting", "succeeded", "failed"}
    case _ => false
  }

  /** A request that was answered before reports its result at once. */
  predicate MayBegin(name: string) {
    name in {"retrieving", "succeeded", "failed"}
  }

  predicate InOrder(events: seq<Event>) {
    events == []
    || (|events| == 1 && MayBegin(events[0].name))
    || (|events| > 1 && InOrder(events[..|events| - 1])
        && MayFollow(events[|events| - 2].name, events[|events| - 1].name))
  }

  function Attempts(events: seq<Event>): nat {
    if events == [] then 0
    else Attempts(events[..|events| - 1]) + if events[|events| - 1].name == "drafting" then 1 else 0
  }

  function LastName(events: seq<Event>): string {
    if events == [] then "" else events[|events| - 1].name
  }

  /** The producer is at the stage it reported last, in the attempt of that number. */
  predicate AtStage(p: Producer, last: string, attempts: nat) {
    match p
    case Start => last == "" && attempts == 0
    case Retrieving => last == "retrieving" && attempts == 0
    case Retrieved => last == "retrieved" && attempts == 0
    case BuildingContext => last == "building_context" && attempts == 0
    case Drafting(k) => last == "drafting" && attempts == k
    case Validating(k) => last == "validating" && attempts == k
    case Persisting(k) => last == "persisting" && attempts == k
    case Ended(r) => last !in {"succeeded", "failed"} && (r == Some(true) ==> last == "" || last == "persisting")
    case _ => true
  }

  predicate Known(name: string) {
    name in {"", "retrieving", "retrieved", "building_context", "drafting", "validating", "persisting", "succeeded",
             "failed"}
  }

  ghost predicate WellStaged(maxRetries: nat, s: State) {
    && InOrder(s.published) && Attempts(s.published) <= maxRetries + 1
    && Known(LastName(s.published)) && (s.published != [] ==> LastName(s.published) != "")
    && AtStage(s.producer, LastName(s.published), Attempts(s.published))
  }

  lemma {:induction false} OrderPush(events: seq<Event>, e: Event)
    requires InOrder(events) && if events == [] then MayBegin(e.name) else MayFollow(LastName(events), e.name)
    ensures InOrder(events + [e]) && LastName(events + [e]) == e.name
    ensures Attempts(events + [e]) == Attempts(events) + if e.name == "drafting" then 1 else 0
  {
    assert (events + [e])[..|events|] == events;
  }

  lemma {:induction false} PublishedIs(s: State, e: Event, p: Producer)
    ensures Publish(s, e, p).published == s.published + [e] && Publish(s, e, p).producer == p
  {
  }

  lemma {:induction false} StageFollows(maxRetries: nat, p: Producer, m: Move, last: string, attempts: nat)
    requires AtStage(p, last, attempts) && attempts <= maxRetries + 1
    requires StageMove(maxRetries, p, m).Some?
    ensures var (name, q) := StageMove(maxRetries, p, m).value;
      var after := attempts + if name == "drafting" then 1 else 0;
      && AtStage(q, name, after) && after <= maxRetries + 1
      && (if last == "" then MayBegin(name) else MayFollow(last, name))
      && name != "" && Known(name)
  {
  }

  lemma {:induction false} ResultFollows(last: string, ok: bool)
    requires Known(last) && last !in {"succeeded", "failed"} && (ok ==> last == "" || last == "persisting")
    ensures var name := if ok then "succeeded" else "failed";
      && (if last == "" then MayBegin(name) else MayFollow(last, name))
      && name != "" && name != "drafting" && Known(name)
  {
  }

  lemma {:induction false} EndFollows(p: Producer, m: Move, last: string, attempts: nat)
    requires AtStage(p, last, attempts) && EndMove(p, m).Some?
    ensures AtStage(EndMove(p, m).value, last, attempts)
  {
  }

  lemma {:induction false} StagePublished(
    maxRetries: nat, s: State, name: string, data: string, p: Producer)
    requires WellStaged(maxRetries, s) && name != "" && Known(name)
    requires if LastName(s.published) == "" then MayBegin(name) else MayFollow(LastName(s.published), name)
    requires var after := Attempts(s.published) + if name == "drafting" then 1 else 0;
      after <= maxRetries + 1 && AtStage(p, name, after)
    ensures WellStaged(maxRetries, Publish(s, Event(name, data), p))
  {
    OrderPush(s.published, Event(name, data));
    PublishedIs(s, Event(name, data), p);
  }

  lemma {:induction false} NextStage(maxRetries: nat, s: State, a: Action, t: State)
    requires WellStaged(maxRetries, s) && Next(maxRetries, s, a) == Some(t)
    ensures WellStaged(maxRetries, t)
  {
    var last, attempts := LastName(s.published), Attempts(s.published);
    if a.Produce? && a.move.Report? {
      if s.producer.result.Some? {
        ResultFollows(last, s.producer.result.value);
        StagePublished(maxRetries, s, if s.producer.result.value then "succeeded" else "failed", a.move.data,
                       Closing(s.producer.result));
      }
    } else if a.Produce? && !a.move.Close? {
      if StageMove(maxRetries, s.producer, a.move).Some? {
        var (name, p) := StageMove(maxRetries, s.producer, a.move).value;
        StageFollows(maxRetries, s.producer, a.move, last, attempts);
        StagePublished(maxRetries, s, name, Data(a.move), p);
      } else {
        EndFollows(s.producer, a.move, last, attempts);
      }
    }
  }

  /**
   Every run reports the stages in their order: from retrieving to building the context once,
   then at most max_retries + 1 attempts, each drafting, validating and persisting as far as it
   gets, and last the result.
   */
  lemma {:induction false} StagesInOrder(maxRetries: nat, actions: seq<Action>)
    requires Run(maxRetries, actions).Some?
    ensures WellStaged(maxRetries, Run(maxRetries, actions).value)
  {
    if actions != [] {
      StagesInOrder(maxRetries, actions[..|actions| - 1]);
      NextStage(maxRetries, Run(maxRetries, actions[..|actions| - 1]).value, actions[|actions| - 1],
                Run(maxRetries, actions).value);
    }
  }

  /** When the producer can move on, retry, return and raise. */
  lemma {:induction false} ProducerCan(maxRetries: nat, s: State, data: string)
    ensures var p := s.producer;
      var attempting := p.Drafting? || p.Validating? || p.Persisting?;
      && (Next(maxRetries, s, Produce(Advance(data))).Some?
          <==> !p.Persisting? && !p.Ended? && !p.Closing? && !p.Exited?)
      && (Next(maxRetries, s, Produce(Retry(data))).Some? <==> attempting && p.attempt <= maxRetries)
      && (Next(maxRetries, s, Produce(Return)).Some? <==> p.Start? || p.Persisting?)
      && (Next(maxRetries, s, Produce(Raise)).Some? <==> !p.Ended? && !p.Closing? && !p.Exited?)
      && (Next(maxRetries, s, Produce(Escape)).Some? <==> !p.Ended? && !p.Closing? && !p.Exited?)
      && (Next(maxRetries, s, Produce(Report(data))).Some? <==> p.Ended?)
      && (Next(maxRetries, s, Produce(Close)).Some? <==> p.Closing?)
      && (Next(maxRetries, s, Consume).Some? <==> !s.finished && s.queue != [])
  {
  }

  /** How create ended is what the run made of it: a result, a caught error, or one that escaped. */
  ghost predicate EndedAs(p: Producer, actions: seq<Action>) {
    if p.Ended? || p.Closing? || p.Exited? then
      && (p.result == Some(true) <==> Produce(Return) in actions)
      && (p.result == Some(false) <==> Produce(Raise) in actions)
      && (p.result == None <==> Produce(Escape) in actions)
    else Produce(Return) !in actions && Produce(Raise) !in actions && Produce(Escape) !in actions
  }

  lemma {:induction false} EndsAs(maxRetries: nat, s: State, before: seq<Action>, a: Action, t: State)
    requires EndedAs(s.producer, before) && Next(maxRetries, s, a) == Some(t)
    ensures EndedAs(t.producer, before + [a])
  {
    assert forall b :: b in before + [a] <==> b in before || b == a;
  }

  /** The payloads the run reports: one for each stage, and the result's unless an error escapes. */
  function Sent(actions: seq<Action>): seq<string> {
    if actions == [] then []
    else
      var before, a := actions[..|actions| - 1], actions[|actions| - 1];
      match a
      case Produce(Advance(data)) => Sent(before) + [data]
      case Produce(Retry(data)) => Sent(before) + [data]
      case Produce(Report(data)) => if Produce(Escape) in before then Sent(before) else Sent(before) + [data]
      case _ => Sent(before)
  }

  function DataOf(events: seq<Event>): seq<string> {
    if events == [] then [] else DataOf(events[..|events| - 1]) + [events[|events| - 1].data]
  }

  lemma {:induction false} DataOfPush(events: seq<Event>, e: Event)
    ensures DataOf(events + [e]) == DataOf(events) + [e.data]
  {
    assert (events + [e])[..|events|] == events;
  }

  /** Whether an action publishes an event. */
  predicate Publishes(s: State, a: Action) {
    a.Produce? && (a.move.Advance? || a.move.Retry?
                   || (a.move.Report? && s.producer.Ended? && s.producer.result.Some?))
  }

  lemma {:induction false} PublishedGrows(maxRetries: nat, s: State, a: Action, t: State)
    requires Next(maxRetries, s, a) == Some(t)
    ensures Publishes(s, a) ==> exists name :: t.published == s.published + [Event(name, a.move.data)]
    ensures !Publishes(s, a) ==> t.published == s.published
  {
    if a.Produce? && a.move.Report? && s.producer.Ended? && s.producer.result.Some? {
      var name := if s.producer.result.value then "succeeded" else "failed";
      PublishedIs(s, Event(name, a.move.data), Closing(s.producer.result));
    } else if a.Produce? && (a.move.Advance? || a.move.Retry?) {
      var (name, p) := StageMove(maxRetries, s.producer, a.move).value;
      PublishedIs(s, Event(name, a.move.data), p);
    }
  }

  /** What one action adds to the payloads. */
  lemma {:induction false} Sends(maxRetries: nat, s: State, before: seq<Action>, a: Action, t: State)
    requires EndedAs(s.producer, before) && Next(maxRetries, s, a) == Some(t) && DataOf(s.published) == Sent(before)
    ensures DataOf(t.published) == Sent(before + [a])
  {
    assert (before + [a])[..|before|] == before;
    PublishedGrows(maxRetries, s, a, t);
    if Publishes(s, a) {
      var name :| t.published == s.published + [Event(name, a.move.data)];
      DataOfPush(s.published, Event(name, a.move.data));
    }
  }

  /** What is reported agrees with the actions so far. */
  ghost predicate Reports(s: State, actions: seq<Action>) {
    EndedAs(s.producer, actions) && DataOf(s.published) == Sent(actions)
  }

  lemma {:induction false} ReportsOn(maxRetries: nat, s: State, before: seq<Action>, a: Action, t: State)
    requires Reports(s, before) && Next(maxRetries, s, a) == Some(t)
    ensures Reports(t, before + [a])
  {
    EndsAs(maxRetries, s, before, a, t);
    Sends(maxRetries, s, before, a, t);
  }

  /**
   Every run reports the payloads it was given, one with each stage, and ends as create did:
   succeeded exactly when it returned, failed exactly when it raised a caught error, and
   without a verdict exactly when the error escaped.
   */
  lemma {:induction false} RunReports(maxRetries: nat, actions: seq<Action>)
    requires Run(maxRetries, actions).Some?
    ensures Reports(Run(maxRetries, actions).value, actions)
  {
    if actions != [] {
      var before, a := actions[..|actions| - 1], actions[|actions| - 1];
      RunReports(maxRetries, before);
      ReportsOn(maxRetries, Run(maxRetries, before).value, before, a, Run(maxRetries, actions).value);
      assert actions == before + [a];
    }
  }

  // ----- the bound is tight -----------------------------------------------

  /** The producer running alone through k failed attempts. */
  function Alone(k: nat): seq<Action> {
    if k == 0 then
      [Produce(Advance("")), Produce(Advance("")), Produce(Advance("")), Produce(Advance("")),
       Produce(Advance("")), Produce(Advance(""))]
    else Alone(k - 1) + [Produce(Retry("")), Produce(Advance("")), Produce(Advance(""))]
  }

  lemma {:induction false} RunStep(maxRetries: nat, actions: seq<Action>, a: Action)
    ensures Run(maxRetries, actions + [a])
         == match Run(maxRetries, actions)
            case None => None
            case Some(s) => Next(maxRetries, s, a)
  {
    assert (actions + [a])[..|actions|] == actions;
  }

  function Three(maxRetries: nat, s: State, a: Action, b: Action, c: Action): Option<State> {
    match Next(maxRetries, s, a)
    case None => None
    case Some(t) =>
      match Next(maxRetries, t, b)
      case None => None
      case Some(u) => Next(maxRetries, u, c)
  }

  lemma {:induction false} RunThree(
    maxRetries: nat, actions: seq<Action>, s: State, a: Action, b: Action, c: Action, t: State)
    requires Run(maxRetries, actions) == Some(s) && Three(maxRetries, s, a, b, c) == Some(t)
    ensures Run(maxRetries, actions + [a, b, c]) == Some(t)
  {
    RunStep(maxRetries, actions, a);
    RunStep(maxRetries, actions + [a], b);
    RunStep(maxRetries, actions + [a] + [b], c);
    assert actions + [a] + [b] + [c] == actions + [a, b, c];
  }

  /** Three stages of one attempt, with nobody draining the queue. */
  lemma {:induction false} AttemptAlone(maxRetries: nat, s: State, first: Move) returns (t: State)
    requires first == Advance("") || first == Retry("")
    requires s.producer.BuildingContext? ==> first == Advance("")
    requires s.producer.Persisting? ==> first == Retry("") && s.producer.attempt <= maxRetries
    requires s.producer.BuildingContext? || s.producer.Persisting?
    ensures Three(maxRetries, s, Produce(first), Produce(Advance("")), Produce(Advance(""))) == Some(t)
    ensures t.producer == Persisting(if s.producer.Persisting? then s.producer.attempt + 1 else 1)
    ensures |s.queue| + 3 <= CAPACITY ==> |t.queue| == |s.queue| + 3 && t.dropped == s.dropped
    ensures |s.queue| <= CAPACITY < |s.queue| + 3 ==> t.dropped > s.dropped
  {
    var k := if s.producer.Persisting? then s.producer.attempt + 1 else 1;
    var a := Publish(s, Event("drafting", ""), Drafting(k));
    var b := Publish(a, Event("validating", ""), Validating(k));
    t := Publish(b, Event("persisting", ""), Persisting(k));
    assert Next(maxRetries, s, Produce(first)) == Some(a);
    assert Next(maxRetries, a, Produce(Advance(""))) == Some(b);
    assert Next(maxRetries, b, Produce(Advance(""))) == Some(t);
  }

  lemma {:induction false} OpeningAlone(maxRetries: nat) returns (s: State)
    ensures Run(maxRetries, [Produce(Advance("")), Produce(Advance("")), Produce(Advance(""))]) == Some(s)
    ensures s.producer == BuildingContext && |s.queue| == 3
  {
    var up := Produce(Advance(""));
    var a := Publish(INITIAL, Event("retrieving", ""), Retrieving);
    var b := Publish(a, Event("retrieved", ""), Retrieved);
    s := Publish(b, Event("building_context", ""), BuildingContext);
    assert Next(maxRetries, INITIAL, up) == Some(a);
    assert Next(maxRetries, a, up) == Some(b);
    assert Next(maxRetries, b, up) == Some(s);
    RunThree(maxRetries, [], INITIAL, up, up, up, s);
    assert [] + [up, up, up] == [up, up, up];
  }

  lemma {:induction false} AloneFills(maxRetries: nat, k: nat) returns (t: State)
    requires k <= maxRetries && k <= 9
    ensures Run(maxRetries, Alone(k)) == Some(t)
    ensures t.producer == Persisting(k + 1)
    ensures k <= 8 ==> |t.queue| == 3 * k + 6
    ensures k == 9 ==> t.dropped > 0
  {
    var up := Produce(Advance(""));
    if k == 0 {
      var s := OpeningAlone(maxRetries);
      t := AttemptAlone(maxRetries, s, Advance(""));
      RunThree(maxRetries, [up, up, up], s, up, up, up, t);
      assert [up, up, up] + [up, up, up] == Alone(0);
    } else {
      var s := AloneFills(maxRetries, k - 1);
      t := AttemptAlone(maxRetries, s, Retry(""));
      RunThree(maxRetries, Alone(k - 1), s, Produce(Retry("")), up, up, t);
    }
  }

  /** The queue never overflows exactly when at most nine attempts are allowed. */
  lemma {:induction false} NoDropIff(maxRetries: nat)
    ensures (forall actions :: Run(maxRetries, actions).Some? ==> Run(maxRetries, actions).value.dropped == 0)
       <==> maxRetries <= 8
  {
    if maxRetries <= 8 {
      forall actions | Run(maxRetries, actions).Some?
        ensures Run(maxRetries, actions).value.dropped == 0
      {
        NothingIsLost(maxRetries, actions);
      }
    } else {
      var s := AloneFills(maxRetries, 9);
      assert Run(maxRetries, Alone(9)).value.dropped > 0;
    }
  }

  // ----- end to end -------------------------------------------------------

  /** The payloads are what json.dumps can print and the browser can parse back. */
  ghost predicate GoodData<J>(data: string, parse: string -> Option<J>) {
    data != "" && OneLine(data) && parse(data).Some?
  }

  ghost predicate GoodActions<J>(actions: seq<Action>, parse: string -> Option<J>) {
    forall a :: a in actions && a.Produce? && (a.move.Advance? || a.move.Retry? || a.move.Report?)
      ==> GoodData(a.move.data, parse)
  }

  /** A terminal event is published last or not at all, and says how create ended. */
  predicate WellEnded(s: State) {
    var r := if s.producer.Closing? || s.producer.Exited? then s.producer.result else None;
    if r.None? then FirstTerminal(s.published) == |s.published|
    else
      && s.published != []
      && FirstTerminal(s.published) == |s.published| - 1
      && s.published[|s.published| - 1].name == if r.value then "succeeded" else "failed"
  }

  lemma {:induction false} StageNameIsPlain(maxRetries: nat, p: Producer, m: Move)
    requires StageMove(maxRetries, p, m).Some?
    ensures var name := StageMove(maxRetries, p, m).value.0;
      name != "" && name[0] != 's' && name[0] != 'f' && OneLine(name)
  {
    var name := StageMove(maxRetries, p, m).value.0;
    assert name in {"retrieving", "retrieved", "building_context", "drafting", "validating", "persisting"};
  }

  lemma {:induction false} PublishedGoodPush<J>(events: seq<Event>, e: Event, parse: string -> Option<J>)
    requires AllReadable(events, parse) && e.name != "" && OneLine(e.name) && GoodData(e.data, parse)
    ensures AllReadable(events + [e], parse)
  {
    assert Readable(e, parse);
  }

  lemma {:induction false} StageIsOpen(maxRetries: nat, p: Producer, m: Move)
    requires StageMove(maxRetries, p, m).Some?
    ensures var q := StageMove(maxRetries, p, m).value.1;
      !p.Closing? && !p.Exited? && !q.Closing? && !q.Exited?
  {
  }

  lemma {:induction false} StageEnds<J>(maxRetries: nat, s: State, m: Move, parse: string -> Option<J>)
    requires StageMove(maxRetries, s.producer, m).Some? && GoodData(Data(m), parse)
    requires WellEnded(s) && AllReadable(s.published, parse)
    ensures var (name, p) := StageMove(maxRetries, s.producer, m).value;
      var t := Publish(s, Event(name, Data(m)), p);
      WellEnded(t) && AllReadable(t.published, parse)
  {
    StageIsOpen(maxRetries, s.producer, m);
    StageNameIsPlain(maxRetries, s.producer, m);
  }

  lemma {:induction false} ReportNameIsPlain(ok: bool)
    ensures var name := if ok then "succeeded" else "failed"; name != "" && OneLine(name)
  {
  }

  lemma {:induction false} ReportPublished<J>(events: seq<Event>, e: Event, ok: bool, parse: string -> Option<J>)
    requires e.name == (if ok then "succeeded" else "failed") && GoodData(e.data, parse)
    requires FirstTerminal(events) == |events| && AllReadable(events, parse)
    ensures FirstTerminal(events + [e]) == |events| && AllReadable(events + [e], parse)
  {
    ReportNameIsPlain(ok);
    PublishedGoodPush(events, e, parse);
  }

  lemma {:induction false} ReportEnds<J>(s: State, ok: bool, data: string, parse: string -> Option<J>)
    requires s.producer == Ended(Some(ok)) && GoodData(data, parse)
    requires WellEnded(s) && AllReadable(s.published, parse)
    ensures var t := Publish(s, Event(if ok then "succeeded" else "failed", data), Closing(Some(ok)));
      WellEnded(t) && AllReadable(t.published, parse)
  {
    var e := Event(if ok then "succeeded" else "failed", data);
    ReportPublished(s.published, e, ok, parse);
    assert (s.published + [e])[|s.published|] == e;
  }

  /** A step that publishes nothing. */
  lemma {:induction false} QuietStepEnds(maxRetries: nat, s: State, a: Action, t: State)
    requires Next(maxRetries, s, a) == Some(t) && WellEnded(s)
    requires a.Consume? || a.move.Close? || (a.move.Report? && s.producer == Ended(None))
          || (!a.move.Report? && StageMove(maxRetries, s.producer, a.move).None?)
    ensures t.published == s.published && WellEnded(t)
  {
  }

  lemma {:induction false} NextEnds<J>(maxRetries: nat, s: State, a: Action, t: State, parse: string -> Option<J>)
    requires Next(maxRetries, s, a) == Some(t) && WellEnded(s) && AllReadable(s.published, parse)
    requires a.Produce? && (a.move.Advance? || a.move.Retry? || a.move.Report?) ==> GoodData(a.move.data, parse)
    ensures WellEnded(t) && AllReadable(t.published, parse)
  {
    if a.Produce? && a.move.Report? && s.producer.result.Some? {
      ReportEnds(s, s.producer.result.value, a.move.data, parse);
    } else if a.Produce? && !a.move.Report? && !a.move.Close? && StageMove(maxRetries, s.producer, a.move).Some? {
      StageEnds(maxRetries, s, a.move, parse);
    } else {
      QuietStepEnds(maxRetries, s, a, t);
    }
  }

  lemma {:induction false} RunEnds<J>(maxRetries: nat, actions: seq<Action>, parse: string -> Option<J>)
    requires Run(maxRetries, actions).Some? && GoodActions(actions, parse)
    ensures var s := Run(maxRetries, actions).value;
      WellEnded(s) && AllReadable(s.published, parse)
  {
    if actions != [] {
      var before, a := actions[..|actions| - 1], actions[|actions| - 1];
      assert forall b :: b in before ==> b in actions;
      RunEnds(maxRetries, before, parse);
      assert a in actions;
      NextEnds(maxRetries, Run(maxRetries, before).value, a, Run(maxRetries, actions).value, parse);
    }
  }

  function Verdict<J>(s: State, parse: string -> Option<J>): Outcome<J>
    requires s.producer.Exited? && WellEnded(s) && AllReadable(s.published, parse)
  {
    match s.producer.result
    case None => EndedEarly
    case Some(ok) =>
      var last := s.published[|s.published| - 1];
      assert Readable(last, parse);
      if ok then Resolved(parse(last.data).value) else Rejected(parse(last.data).value)
  }

  /**
   The whole channel: for any interleaving that has come to rest and any way the network
   cuts the response, the browser reports exactly the events the service published, and
   its promise settles as create ended; only an escaped error leaves it without a verdict.
   */
  lemma {:induction false} BrowserSeesEverything<J>(
    maxRetries: nat, actions: seq<Action>, received: seq<string>, parse: string -> Option<J>)
    requires maxRetries <= 8 && Run(maxRetries, actions).Some? && GoodActions(actions, parse)
    requires Stuck(maxRetries, Run(maxRetries, actions).value)
    requires Concat(received) == Print(Run(maxRetries, actions).value.yielded)
    ensures var s := Run(maxRetries, actions).value;
      && s.producer.Exited?
      && WellEnded(s)
      && AllReadable(s.published, parse)
      && AtEnd(After(Concat(received), parse)).calls == Decoded(s.published, parse)
      && AtEnd(After(Concat(received), parse)).outcome == Verdict(s, parse)
  {
    var s := Run(maxRetries, actions).value;
    RunKeeps(maxRetries, actions);
    StuckMeansFinished(maxRetries, s);
    RunEnds(maxRetries, actions, parse);
    StreamRoundTrip(s.published, received, parse);
    assert s.published[..|s.published|] == s.published;
  }
}
