/**
 estimate_charge (core/pricing.py) over the rates captured when an execution was
 accepted. Amounts are exact; the decimal context's 28 digits are not modelled.
 */
module Pricing {
  import opened Wrappers
  import opened Sequences

  /** Rates, token counts and amounts are checked non-negative where they are stored. */
  type Money = x: real | 0.0 <= x witness 0.0

  datatype Price = Price(input: Money, output: Option<Money>)
  datatype Snapshot = Snapshot(models: map<string, Price>)
  datatype Usage = Usage(model: string, input: Option<nat>, output: Option<nat>)

  const TOKEN_UNIT: real := 1000000.0

  /** The least amount that float() turns into infinity: 2 to the 1024 less 2 to the 970. */
  const FLOAT_OVERFLOW: real :=
    var word := 0x1_0000_0000_0000_0000;
    var five := word * word * word * word * word;
    (five * five * five * word - five * five * five * 0x400) as real

  function Power(n: nat): nat {
    if n == 0 then 1 else 2 * Power(n - 1)
  }

  lemma {:induction false} PowersAdd(m: nat, n: nat)
    ensures Power(m + n) == Power(m) * Power(n)
  {
    if n > 0 {
      PowersAdd(m, n - 1);
    }
  }

  lemma {:induction false} FifthPower(n: nat)
    ensures var x := Power(n); Power(5 * n) == x * x * x * x * x
  {
    PowersAdd(n, n);
    PowersAdd(2 * n, n);
    PowersAdd(3 * n, n);
    PowersAdd(4 * n, n);
  }

  lemma {:induction false} ThirdPower(n: nat)
    ensures var x := Power(n); Power(3 * n) == x * x * x
  {
    PowersAdd(n, n);
    PowersAdd(2 * n, n);
  }

  lemma {:induction false} Words()
    ensures Power(10) == 0x400 && Power(64) == 0x1_0000_0000_0000_0000
  {
    PowersAdd(16, 16);
    PowersAdd(32, 32);
  }

  /** The largest double is 2 to the 1024 less 2 to the 971; from half the gap above it on, float() overflows. */
  lemma {:induction false} OverflowIs(most: nat, half: nat)
    requires most == 1024 && half == 970
    ensures FLOAT_OVERFLOW == (Power(most) - Power(half)) as real
  {
    Words();
    FifthPower(64);
    ThirdPower(320);
    PowersAdd(960, 64);
    PowersAdd(960, 10);
  }

  /** not math.isinf(float(total)) */
  predicate Finite(total: Money) {
    total < FLOAT_OVERFLOW
  }

  function Charge(tokens: nat, rate: Money): Money {
    tokens as real * rate / TOKEN_UNIT
  }

  /** What one operation costs; None when its model or a token count it needs is missing. */
  function CostOf(prices: Snapshot, u: Usage): Option<Money> {
    if u.model !in prices.models || u.input.None? then None
    else
      var price := prices.models[u.model];
      match price.output
      case None => Some(Charge(u.input.value, price.input))
      case Some(rate) =>
        if u.output.None? then None
        else Some(Charge(u.input.value, price.input) + Charge(u.output.value, rate))
  }

  /** Adds amounts of which any may be unknown. */
  function Plus(x: Option<Money>, y: Option<Money>): Option<Money> {
    if x.Some? && y.Some? then Some(x.value + y.value) else None
  }

  function Total(prices: Snapshot, operations: seq<Usage>): Option<Money> {
    if operations == [] then Some(0.0)
    else Plus(Total(prices, operations[..|operations| - 1]), CostOf(prices, operations[|operations| - 1]))
  }

  /** The estimate; None is "unavailable". */
  function Estimate(snapshot: Option<Snapshot>, operations: seq<Usage>): Option<Money> {
    match snapshot
    case None => None
    case Some(prices) =>
      match Total(prices, operations)
      case None => None
      case Some(total) => if Finite(total) then Some(total) else None
  }

  lemma {:induction false} TotalAdds(prices: Snapshot, a: seq<Usage>, b: seq<Usage>)
    ensures Total(prices, a + b) == Plus(Total(prices, a), Total(prices, b))
  {
    if b == [] {
      assert a + b == a;
    } else {
      TotalAdds(prices, a, b[..|b| - 1]);
      assert (a + b)[..|a + b| - 1] == a + b[..|b| - 1];
    }
  }

  // ----- when an estimate is available --------------------------------------

  predicate Chargeable(prices: Snapshot, u: Usage) {
    && u.model in prices.models
    && u.input.Some?
    && (prices.models[u.model].output.Some? ==> u.output.Some?)
  }

  lemma {:induction false} TotalKnownIff(prices: Snapshot, operations: seq<Usage>)
    ensures Total(prices, operations).Some? <==> forall u :: u in operations ==> Chargeable(prices, u)
  {
    if operations != [] {
      var before, last := operations[..|operations| - 1], operations[|operations| - 1];
      TotalKnownIff(prices, before);
      assert CostOf(prices, last).Some? <==> Chargeable(prices, last);
      assert operations == before + [last];
      assert Total(prices, operations) == Plus(Total(prices, before), CostOf(prices, last));
    }
  }

  /** One operation without a price or a count it needs makes the whole estimate unavailable, and nothing else does. */
  lemma {:induction false} AvailableIff(snapshot: Option<Snapshot>, operations: seq<Usage>)
    ensures Estimate(snapshot, operations).Some?
       <==> && snapshot.Some?
            && (forall u :: u in operations ==> Chargeable(snapshot.value, u))
            && Total(snapshot.value, operations).Some?
            && Finite(Total(snapshot.value, operations).value)
  {
    if snapshot.Some? {
      TotalKnownIff(snapshot.value, operations);
    }
  }

  /** More usage never makes an unavailable estimate available. */
  lemma {:induction false} UnavailableStays(snapshot: Option<Snapshot>, operations: seq<Usage>, more: seq<Usage>)
    requires Estimate(snapshot, operations).None?
    ensures Estimate(snapshot, operations + more).None?
  {
    if snapshot.Some? {
      TotalAdds(snapshot.value, operations, more);
    }
  }

  // ----- the order of the rows ----------------------------------------------

  lemma {:induction false} TotalMoves(prices: Snapshot, a: seq<Usage>, u: Usage, b: seq<Usage>)
    ensures Total(prices, a + [u] + b) == Total(prices, a + b + [u])
  {
    TotalAdds(prices, a + [u], b);
    TotalAdds(prices, a, [u]);
    TotalAdds(prices, a + b, [u]);
    TotalAdds(prices, a, b);
  }

  lemma {:induction false} TotalIgnoresOrder(prices: Snapshot, a: seq<Usage>, b: seq<Usage>)
    requires multiset(a) == multiset(b)
    ensures Total(prices, a) == Total(prices, b)
    decreases |a|
  {
    if a == [] {
      assert multiset(b) == multiset{};
      assert b == [];
    } else {
      var i := SameElements(a, b);
      TotalIgnoresOrder(prices, a[..|a| - 1], Without(b, i));
      TotalMoves(prices, b[..i], b[i], b[i + 1..]);
      assert b == b[..i] + [b[i]] + b[i + 1..];
      TotalAdds(prices, Without(b, i), [b[i]]);
      TotalAdds(prices, a[..|a| - 1], [b[i]]);
      assert a == a[..|a| - 1] + [b[i]];
    }
  }

  /** Batch usage is read without an ORDER BY: the estimate does not depend on the order it comes in. */
  lemma {:induction false} EstimateIgnoresOrder(snapshot: Option<Snapshot>, a: seq<Usage>, b: seq<Usage>)
    requires multiset(a) == multiset(b)
    ensures Estimate(snapshot, a) == Estimate(snapshot, b)
  {
    if snapshot.Some? {
      TotalIgnoresOrder(snapshot.value, a, b);
    }
  }

  /** One token of a model priced at x * TOKEN_UNIT costs x. */
  lemma {:induction false} ChargeForOne(x: Money)
    ensures Charge(1, x * TOKEN_UNIT) == x
  {
  }

  lemma {:induction false} EstimateOfOne(prices: Snapshot, u: Usage)
    requires CostOf(prices, u).Some? && Finite(CostOf(prices, u).value)
    ensures Estimate(Some(prices), [u]) == CostOf(prices, u)
  {
    assert Total(prices, [u][..0]) == Some(0.0);
  }

  lemma {:induction false} TotalIsZeroIff(prices: Snapshot, operations: seq<Usage>)
    ensures Total(prices, operations) == Some(0.0) <==> forall u :: u in operations ==> CostOf(prices, u) == Some(0.0)
  {
    if operations != [] {
      var before, last := operations[..|operations| - 1], operations[|operations| - 1];
      TotalIsZeroIff(prices, before);
      assert forall u :: u in operations <==> u in before || u == last;
    }
  }

  // ----- the bill ---------------------------------------------------------

  /** What the input tokens of the operations come to, a million times over; the models are all priced. */
  function InputBill(prices: Snapshot, operations: seq<Usage>): real
    requires forall u :: u in operations ==> Chargeable(prices, u)
  {
    if operations == [] then 0.0
    else
      var last := operations[|operations| - 1];
      assert last in operations && Chargeable(prices, last);
      InputBill(prices, operations[..|operations| - 1])
      + last.input.value as real * prices.models[last.model].input
  }

  /** The same for the output tokens of the models that charge for output. */
  function OutputBill(prices: Snapshot, operations: seq<Usage>): real
    requires forall u :: u in operations ==> Chargeable(prices, u)
  {
    if operations == [] then 0.0
    else
      var last := operations[|operations| - 1];
      assert last in operations && Chargeable(prices, last);
      OutputBill(prices, operations[..|operations| - 1])
      + match prices.models[last.model].output
        case None => 0.0
        case Some(rate) => last.output.value as real * rate
  }

  /** The snapshot prices every operation, with every count it needs. */
  predicate AllChargeable(snapshot: Option<Snapshot>, operations: seq<Usage>) {
    snapshot.Some? && forall u :: u in operations ==> Chargeable(snapshot.value, u)
  }

  /** What all tokens come to in dollars. */
  function Bill(prices: Snapshot, operations: seq<Usage>): real
    requires forall u :: u in operations ==> Chargeable(prices, u)
  {
    (InputBill(prices, operations) + OutputBill(prices, operations)) / 1000000.0
  }

  /** What the last operation adds to the bill. */
  lemma {:induction false} BillAdds(prices: Snapshot, operations: seq<Usage>)
    requires operations != [] && forall u :: u in operations ==> Chargeable(prices, u)
    ensures var before, last := operations[..|operations| - 1], operations[|operations| - 1];
      && Chargeable(prices, last) && (forall u :: u in before ==> Chargeable(prices, u))
      && CostOf(prices, last).Some?
      && Bill(prices, operations) == Bill(prices, before) + CostOf(prices, last).value
  {
    var before, last := operations[..|operations| - 1], operations[|operations| - 1];
    assert forall u :: u in before ==> u in operations;
    assert last in operations && Chargeable(prices, last);
    CostIsTokens(prices, last);
    DividedSum(InputBill(prices, before) + OutputBill(prices, before),
               InputBill(prices, operations) + OutputBill(prices, operations)
               - (InputBill(prices, before) + OutputBill(prices, before)));
  }

  lemma {:induction false} TotalIsBill(prices: Snapshot, operations: seq<Usage>)
    requires forall u :: u in operations ==> Chargeable(prices, u)
    ensures Total(prices, operations).Some?
    ensures Total(prices, operations).value == Bill(prices, operations) >= 0.0
  {
    if operations != [] {
      BillAdds(prices, operations);
      TotalIsBill(prices, operations[..|operations| - 1]);
    }
  }

  lemma {:induction false} DividedSum(x: real, y: real)
    ensures (x + y) / 1000000.0 == x / 1000000.0 + y / 1000000.0
  {
  }

  lemma {:induction false} CostIsTokens(prices: Snapshot, u: Usage)
    requires Chargeable(prices, u)
    ensures CostOf(prices, u).Some?
    ensures var price := prices.models[u.model];
      CostOf(prices, u).value == (u.input.value as real * price.input
        + if price.output.Some? then u.output.value as real * price.output.value else 0.0) / 1000000.0
  {
  }

  /**
   What is charged: an estimate is available exactly when every operation is priced, with the
   counts it needs, and the bill is finite; and then it is the bill, input tokens at the
   model's input rate and output tokens at its output rate.
   */
  lemma {:induction false} EstimateIsBill(snapshot: Option<Snapshot>, operations: seq<Usage>)
    ensures Estimate(snapshot, operations).Some?
       <==> AllChargeable(snapshot, operations) && Bill(snapshot.value, operations) < FLOAT_OVERFLOW
    ensures Estimate(snapshot, operations).Some? ==>
      Estimate(snapshot, operations).value == Bill(snapshot.value, operations)
  {
    if snapshot.Some? {
      TotalKnownIff(snapshot.value, operations);
      if AllChargeable(snapshot, operations) {
        TotalIsBill(snapshot.value, operations);
      }
    }
  }

  method EstimateCharge(snapshot: Option<Snapshot>, operations: seq<Usage>) returns (charge: Option<Money>)
    ensures charge == Estimate(snapshot, operations)
    ensures charge.Some? <==> AllChargeable(snapshot, operations) && Bill(snapshot.value, operations) < FLOAT_OVERFLOW
    ensures charge.Some? ==> charge.value == Bill(snapshot.value, operations)
  {
    EstimateIsBill(snapshot, operations);
    if snapshot.None? {
      return None;
    }
    var prices := snapshot.value;
    var total: Money := 0.0;
    for i := 0 to |operations|
      invariant Total(prices, operations[..i]) == Some(total)
    {
      var operation := operations[i];
      TotalUpTo(prices, operations, i);
      if operation.model !in prices.models || operation.input.None? {
        return None;
      }
      var price := prices.models[operation.model];
      total := total + Charge(operation.input.value, price.input);
      if price.output.Some? {
        if operation.output.None? {
          return None;
        }
        total := total + Charge(operation.output.value, price.output.value);
      }
    }
    assert operations[..|operations|] == operations;
    return if Finite(total) then Some(total) else None;
  }

  lemma {:induction false} TotalUpTo(prices: Snapshot, operations: seq<Usage>, i: nat)
    requires i < |operations|
    ensures Total(prices, operations[..i + 1]) == Plus(Total(prices, operations[..i]), CostOf(prices, operations[i]))
    ensures CostOf(prices, operations[i]).None? ==> Total(prices, operations).None?
  {
    assert operations[..i + 1][..i] == operations[..i];
    TotalAdds(prices, operations[..i + 1], operations[i + 1..]);
    assert operations[..i + 1] + operations[i + 1..] == operations;
  }
}
