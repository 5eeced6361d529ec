/** Gas units and the meter of a transaction, in saturating 64-bit arithmetic. */
module Gas {
  import opened Wrappers
  import opened Basics

  type U64 = x: int | 0 <= x <= 0xFFFF_FFFF_FFFF_FFFF

  /** Gas in several dimensions, or a price per unit in each of them. */
  type Units = seq<U64>

  function Value(gas: Units, price: Units): U64
    requires |gas| == |price|
  {
    if gas == [] then 0
    else
      var n := |gas| - 1;
      SaturatingAdd(Value(gas[..n], price[..n]), SaturatingMul(gas[n], price[n]))
  }

  function Combine(a: Units, b: Units): (r: Units)
    requires |a| == |b|
    ensures |r| == |a|
  {
    seq(|a|, i requires 0 <= i < |a| => SaturatingAdd(a[i], b[i]))
  }

  predicate Within(a: Units, b: Units)
    requires |a| == |b|
  {
    forall i :: 0 <= i < |a| ==> a[i] <= b[i]
  }

  function CheckedSub(a: Units, b: Units): (r: Option<Units>)
    requires |a| == |b|
    ensures r.Some? ==> |r.value| == |a|
  {
    if Within(b, a) then Some(seq(|a|, i requires 0 <= i < |a| => a[i] as int - b[i] as int)) else None
  }

  function Zero(n: nat): (r: Units)
    ensures |r| == n
  {
    seq(n, _ => 0)
  }

  // ----- what the saturating arithmetic computes

  /** The price of the gas, without bounds. */
  ghost function Dot(gas: Units, price: Units): nat
    requires |gas| == |price|
  {
    if gas == [] then 0 else var n := |gas| - 1; Dot(gas[..n], price[..n]) + gas[n] as int * price[n] as int
  }

  ghost function Sum(price: Units): nat {
    if price == [] then 0 else var n := |price| - 1; Sum(price[..n]) + price[n] as int
  }

  /** Saturating at every step is saturating once. */
  lemma {:induction false} ValueIsDot(gas: Units, price: Units)
    requires |gas| == |price|
    ensures Value(gas, price) == Least(Dot(gas, price), U64_MAX)
  {
    if gas != [] {
      ValueIsDot(gas[..|gas| - 1], price[..|gas| - 1]);
    }
  }

  lemma {:induction false} ZeroIsFree(n: nat, price: Units)
    requires n == |price|
    ensures Dot(Zero(n), price) == 0
  {
    if n > 0 {
      assert Zero(n)[..n - 1] == Zero(n - 1);
      ZeroIsFree(n - 1, price[..n - 1]);
    }
  }

  /** While the total price fits, gas adds up; a dimension that saturates has price zero. */
  lemma {:induction false} CombineAdds(a: Units, b: Units, price: Units)
    requires |a| == |b| == |price| && Dot(a, price) + Dot(b, price) <= U64_MAX
    ensures Dot(Combine(a, b), price) == Dot(a, price) + Dot(b, price)
  {
    if a != [] {
      var n := |a| - 1;
      assert Combine(a, b)[..n] == Combine(a[..n], b[..n]);
      CombineAdds(a[..n], b[..n], price[..n]);
      OneDimension(a[n], b[n], price[n]);
    }
  }

  lemma OneDimension(a: nat, b: nat, p: nat)
    requires a * p + b * p <= U64_MAX
    ensures Least(a + b, U64_MAX) * p == a * p + b * p
  {
    assert (a + b) * p == a * p + b * p;
    assert p > 0 ==> (a + b) * p >= a + b;
  }

  lemma {:induction false} SubSubtracts(a: Units, b: Units, price: Units)
    requires |a| == |b| == |price| && Within(b, a)
    ensures Dot(CheckedSub(a, b).value, price) + Dot(b, price) == Dot(a, price)
  {
    if a != [] {
      var n := |a| - 1;
      assert CheckedSub(a, b).value[..n] == CheckedSub(a[..n], b[..n]).value;
      SubSubtracts(a[..n], b[..n], price[..n]);
      var x, y, p := a[n] as int, b[n] as int, price[n] as int;
      assert (x - y) * p + y * p == x * p;
    }
  }

  /** When all prices together are at most one, no gas costs more than fits. */
  lemma {:induction false} CheapFits(gas: Units, price: Units)
    requires |gas| == |price|
    ensures Dot(gas, price) <= U64_MAX * Sum(price)
  {
    if gas != [] {
      var n := |gas| - 1;
      CheapFits(gas[..n], price[..n]);
      var g, p := gas[n] as int, price[n] as int;
      assert g * p <= U64_MAX * p;
      assert U64_MAX * Sum(price) == U64_MAX * Sum(price[..n]) + U64_MAX * p;
    }
  }

  // ----- the meter

  datatype Meter = Meter(remaining: U64, price: Units, used: Units)

  datatype GasError = OutOfGas | ImpossibleToRefundGas

  datatype Op = Charge(gas: Units) | Refund(gas: Units)

  ghost predicate Sized(m: Meter) {
    |m.used| == |m.price|
  }

  function Charged(m: Meter, gas: Units): (r: Result<Meter, GasError>)
    requires |m.used| == |m.price| == |gas|
    ensures r.Ok? ==> |r.value.used| == |gas| && r.value.price == m.price
  {
    var cost := Value(gas, m.price);
    if m.remaining < cost then Err(OutOfGas)
    else Ok(Meter(m.remaining as int - cost as int, m.price, Combine(m.used, gas)))
  }

  function Refunded(m: Meter, gas: Units): (r: Result<Meter, GasError>)
    requires |m.used| == |m.price| == |gas|
    ensures r.Ok? ==> |r.value.used| == |gas| && r.value.price == m.price
  {
    var used := CheckedSub(m.used, gas);
    if used.None? then Err(ImpossibleToRefundGas)
    else Ok(Meter(SaturatingAdd(m.remaining, Value(gas, m.price)), m.price, used.value))
  }

  ghost predicate SizedOps(n: nat, ops: seq<Op>) {
    forall k :: 0 <= k < |ops| ==> |ops[k].gas| == n
  }

  /** An operation that errs leaves the meter as it was. */
  function Applied(m: Meter, op: Op): (r: Meter)
    requires |m.used| == |m.price| == |op.gas|
    ensures |r.used| == |r.price| && r.price == m.price
  {
    var r := if op.Charge? then Charged(m, op.gas) else Refunded(m, op.gas);
    if r.Ok? then r.value else m
  }

  ghost function Run(m: Meter, ops: seq<Op>): (r: Meter)
    requires Sized(m) && SizedOps(|m.price|, ops)
    ensures Sized(r) && r.price == m.price
    decreases |ops|
  {
    if ops == [] then m else Run(Applied(m, ops[0]), ops[1..])
  }

  // ----- when an operation succeeds, and what it moves

  /** The price of the gas, as far as 64 bits count. */
  ghost function Cost(gas: Units, price: Units): nat
    requires |gas| == |price|
  {
    Least(Dot(gas, price), U64_MAX)
  }

  /** A charge is refused only for want of funds; otherwise it takes its price, and every dimension counts. */
  lemma ChargedIff(m: Meter, gas: Units)
    requires |m.used| == |m.price| == |gas|
    ensures var r, cost := Charged(m, gas), Cost(gas, m.price);
            && (r.Ok? <==> cost <= m.remaining as int)
            && (r.Err? ==> r.error == OutOfGas)
            && (r.Ok? ==>
                  && r.value.remaining as int == m.remaining as int - cost
                  && forall i :: 0 <= i < |gas| ==>
                       r.value.used[i] as int == Least(m.used[i] as int + gas[i] as int, U64_MAX))
  {
    ValueIsDot(gas, m.price);
  }

  /** A refund is refused exactly if it exceeds what was used in some dimension; otherwise it gives back its price. */
  lemma RefundedIff(m: Meter, gas: Units)
    requires |m.used| == |m.price| == |gas|
    ensures var r, cost := Refunded(m, gas), Cost(gas, m.price);
            && (r.Ok? <==> forall i :: 0 <= i < |gas| ==> gas[i] <= m.used[i])
            && (r.Err? ==> r.error == ImpossibleToRefundGas)
            && (r.Ok? ==>
                  && r.value.remaining as int == Least(m.remaining as int + cost, U64_MAX)
                  && forall i :: 0 <= i < |gas| ==> r.value.used[i] as int == m.used[i] as int - gas[i] as int)
  {
    ValueIsDot(gas, m.price);
  }

  ghost function Costs(charges: seq<Units>, price: Units): nat
    requires forall k :: 0 <= k < |charges| ==> |charges[k]| == |price|
  {
    if charges == [] then 0 else Cost(charges[0], price) + Costs(charges[1..], price)
  }

  /** The meter after all charges, if none is refused. */
  ghost function ChargedAllOf(m: Meter, charges: seq<Units>): (r: Option<Meter>)
    requires |m.used| == |m.price| && forall k :: 0 <= k < |charges| ==> |charges[k]| == |m.price|
    decreases |charges|
  {
    if charges == [] then Some(m)
    else
      match Charged(m, charges[0])
      case Err(_) => None
      case Ok(m') => ChargedAllOf(m', charges[1..])
  }

  /** Charges are all accepted exactly if the funds cover them together, and they leave the rest. */
  lemma {:induction false} ChargesFitIff(m: Meter, charges: seq<Units>)
    requires |m.used| == |m.price| && forall k :: 0 <= k < |charges| ==> |charges[k]| == |m.price|
    ensures var r, total := ChargedAllOf(m, charges), Costs(charges, m.price);
            && (r.Some? <==> total <= m.remaining as int)
            && (r.Some? ==> r.value.remaining as int == m.remaining as int - total)
    decreases |charges|
  {
    if charges != [] {
      ChargedIff(m, charges[0]);
      if Charged(m, charges[0]).Ok? {
        ChargesFitIff(Charged(m, charges[0]).value, charges[1..]);
      }
    }
  }

  function NewMeter(funds: U64, price: Units): Meter {
    Meter(funds, price, Zero(|price|))
  }

  /** The funds that remain and the price of the gas used make up the funds at the start. */
  ghost predicate Conserved(m: Meter, funds: U64)
    requires Sized(m)
  {
    m.remaining as int + Value(m.used, m.price) as int == funds as int
  }

  ghost predicate Exact(m: Meter, funds: U64)
    requires Sized(m)
  {
    m.remaining as int + Dot(m.used, m.price) == funds as int
  }

  /** Either the funds are not the largest number, or prices are so low that nothing can cost more than it. */
  ghost predicate Bounded(funds: U64, price: Units) {
    funds as int < U64_MAX || Sum(price) <= 1
  }

  lemma ChargeExact(m: Meter, funds: U64, gas: Units)
    requires Sized(m) && |gas| == |m.price| && Exact(m, funds) && Bounded(funds, m.price) && Charged(m, gas).Ok?
    ensures Exact(Charged(m, gas).value, funds)
  {
    ValueIsDot(gas, m.price);
    CheapFits(gas, m.price);
    assert Sum(m.price) <= 1 ==> U64_MAX * Sum(m.price) <= U64_MAX;
    CombineAdds(m.used, gas, m.price);
  }

  lemma RefundExact(m: Meter, funds: U64, gas: Units)
    requires Sized(m) && |gas| == |m.price| && Exact(m, funds) && Refunded(m, gas).Ok?
    ensures Exact(Refunded(m, gas).value, funds)
  {
    ValueIsDot(gas, m.price);
    SubSubtracts(m.used, gas, m.price);
  }

  lemma {:induction false} RunExact(m: Meter, funds: U64, ops: seq<Op>)
    requires Sized(m) && SizedOps(|m.price|, ops) && Exact(m, funds) && Bounded(funds, m.price)
    ensures Exact(Run(m, ops), funds)
    decreases |ops|
  {
    if ops != [] {
      var op := ops[0];
      if op.Charge? && Charged(m, op.gas).Ok? {
        ChargeExact(m, funds, op.gas);
      } else if op.Refund? && Refunded(m, op.gas).Ok? {
        RefundExact(m, funds, op.gas);
      }
      RunExact(Applied(m, op), funds, ops[1..]);
    }
  }

  lemma RunConserves(funds: U64, price: Units, ops: seq<Op>)
    requires SizedOps(|price|, ops) && Bounded(funds, price)
    ensures Conserved(Run(NewMeter(funds, price), ops), funds)
  {
    ZeroIsFree(|price|, price);
    RunExact(NewMeter(funds, price), funds, ops);
    var m := Run(NewMeter(funds, price), ops);
    ValueIsDot(m.used, m.price);
  }

  // ----- when it is not conserved

  function Single(n: nat, i: nat, x: U64): (r: Units)
    ensures |r| == n
  {
    seq(n, k => if k == i then x else 0)
  }

  lemma {:induction false} SingleDot(n: nat, i: nat, x: U64, price: Units)
    requires n == |price|
    ensures Dot(Single(n, i, x), price) == if i < n then x as int * price[i] as int else 0
  {
    if n > 0 {
      assert Single(n, i, x)[..n - 1] == Single(n - 1, i, x);
      SingleDot(n - 1, i, x, price[..n - 1]);
    }
  }

  lemma {:induction false} SomePositive(price: Units) returns (i: nat)
    requires Sum(price) > 0
    ensures i < |price| && price[i] >= 1
  {
    var n := |price| - 1;
    if price[n] >= 1 {
      i := n;
    } else {
      i := SomePositive(price[..n]);
    }
  }

  /** Two units can be priced, in one dimension or in two. */
  lemma {:induction false} TwoPriced(price: Units) returns (i: nat, j: nat)
    requires Sum(price) >= 2
    ensures i <= j < |price| && price[i] >= 1 && price[j] >= 1 && (i == j ==> price[i] >= 2)
  {
    var n := |price| - 1;
    if price[n] >= 2 {
      i, j := n, n;
    } else if price[n] == 1 {
      i := SomePositive(price[..n]);
      j := n;
    } else {
      i, j := TwoPriced(price[..n]);
    }
  }

  /** Charging for gas that costs too much to count, then refunding the part `a` of it, gives back all funds while
      the part `b` still counts as used. */
  lemma Overrefunded(price: Units, a: Units, b: Units)
    requires |a| == |b| == |price| && forall k :: 0 <= k < |a| ==> a[k] as int + b[k] as int <= U64_MAX
    requires Dot(a, price) >= U64_MAX && Dot(b, price) > 0
    ensures var ops := [Charge(Combine(a, b)), Refund(a)];
            SizedOps(|price|, ops) && !Conserved(Run(NewMeter(U64_MAX, price), ops), U64_MAX)
  {
    var all := Combine(a, b);
    ChargedAll(price, a, b);
    RefundedPart(price, a, b);
    ValueIsDot(b, price);
    RunTwo(NewMeter(U64_MAX, price), Charge(all), Refund(a));
  }

  lemma ChargedAll(price: Units, a: Units, b: Units)
    requires |a| == |b| == |price| && forall k :: 0 <= k < |a| ==> a[k] as int + b[k] as int <= U64_MAX
    requires Dot(a, price) >= U64_MAX
    ensures Applied(NewMeter(U64_MAX, price), Charge(Combine(a, b))) == Meter(0, price, Combine(a, b))
  {
    var all := Combine(a, b);
    SubSubtracts(all, a, price);
    ValueIsDot(all, price);
    assert Combine(Zero(|price|), all) == all;
  }

  lemma RefundedPart(price: Units, a: Units, b: Units)
    requires |a| == |b| == |price| && forall k :: 0 <= k < |a| ==> a[k] as int + b[k] as int <= U64_MAX
    requires Dot(a, price) >= U64_MAX
    ensures Applied(Meter(0, price, Combine(a, b)), Refund(a)) == Meter(U64_MAX, price, b)
  {
    ValueIsDot(a, price);
    assert CheckedSub(Combine(a, b), a).value == b;
  }

  lemma RunTwo(m: Meter, x: Op, y: Op)
    requires |m.used| == |m.price| == |x.gas| == |y.gas|
    ensures SizedOps(|m.price|, [x, y]) && Run(m, [x, y]) == Applied(Applied(m, x), y)
  {
    assert [x, y][1..] == [y] && [y][1..] == [];
    assert Run(Applied(m, x), [y]) == Run(Applied(Applied(m, x), y), []);
  }

  lemma Unbounded(price: Units) returns (ops: seq<Op>)
    requires Sum(price) >= 2
    ensures SizedOps(|price|, ops) && !Conserved(Run(NewMeter(U64_MAX, price), ops), U64_MAX)
  {
    var n := |price|;
    var i, j := TwoPriced(price);
    var half := 0x8000_0000_0000_0000;
    var x, y := if i == j then half else U64_MAX, if i == j then half - 1 else U64_MAX;
    var a, b := Single(n, i, x), Single(n, j, y);
    SingleDot(n, i, x, price);
    SingleDot(n, j, y, price);
    Overrefunded(price, a, b);
    ops := [Charge(Combine(a, b)), Refund(a)];
  }

  /** Exactly when charges and refunds conserve funds, over all runs. */
  lemma ConservedIff(funds: U64, price: Units)
    ensures (forall ops :: SizedOps(|price|, ops) ==> Conserved(Run(NewMeter(funds, price), ops), funds))
            <==> Bounded(funds, price)
  {
    if Bounded(funds, price) {
      forall ops | SizedOps(|price|, ops) ensures Conserved(Run(NewMeter(funds, price), ops), funds) {
        RunConserves(funds, price, ops);
      }
    } else {
      var ops := Unbounded(price);
    }
  }

  // ----- the final split

  datatype TxData = TxData(maxPriorityFeeBips: U64, maxFee: U64, gasLimit: Option<Units>)

  function InitialFunds(tx: TxData, price: Units): U64
    requires tx.gasLimit.Some? ==> |tx.gasLimit.value| == |price|
  {
    if tx.gasLimit.Some? then Value(tx.gasLimit.value, price) else tx.maxFee
  }

  function GasMeterOf(tx: TxData, price: Units): Meter
    requires tx.gasLimit.Some? ==> |tx.gasLimit.value| == |price|
  {
    NewMeter(InitialFunds(tx, price), price)
  }

  /** The funds a transaction may spend on gas. */
  ghost function Budget(tx: TxData, price: Units): nat
    requires tx.gasLimit.Some? ==> |tx.gasLimit.value| == |price|
  {
    if tx.gasLimit.Some? then Cost(tx.gasLimit.value, price) else tx.maxFee as int
  }

  /** What a transaction may spend: charges are all accepted exactly if together they cost at most its gas limit or,
      without one, its maximum fee. */
  lemma MayCharge(tx: TxData, price: Units, charges: seq<Units>)
    requires tx.gasLimit.Some? ==> |tx.gasLimit.value| == |price|
    requires forall k :: 0 <= k < |charges| ==> |charges[k]| == |price|
    ensures ChargedAllOf(GasMeterOf(tx, price), charges).Some? <==>
            Costs(charges, price) <= Budget(tx, price)
  {
    ChargesFitIff(GasMeterOf(tx, price), charges);
    if tx.gasLimit.Some? {
      ValueIsDot(tx.gasLimit.value, price);
    }
  }

  /** Nothing on overflow. */
  function PriorityFee(bips: U64, quantity: U64): Option<U64> {
    var fee := quantity as int * bips as int / 10_000;
    if fee > U64_MAX then None else Some(fee)
  }

  datatype Consumption = Consumption(remaining: U64, baseFee: Units, priorityFee: U64)

  /** Nothing if the base fee exceeds the maximum fee, where the subtraction underflows. */
  function Split(baseFee: Units, price: Units, maxFee: U64, bips: U64): Option<Consumption>
    requires |baseFee| == |price|
  {
    var base := Value(baseFee, price);
    var fee := PriorityFee(bips, base);
    var most := if fee.Some? then fee.value else maxFee;
    if maxFee < base then None
    else
      var left := maxFee as int - base as int;
      var tip := Least(most, left);
      Some(Consumption(left - tip, baseFee, tip))
  }

  /** Base fee, tip and remainder make up the maximum fee; the tip is within the priority rate, and nothing remains
      while the rate allows more. */
  lemma SplitAddsUp(baseFee: Units, price: Units, maxFee: U64, bips: U64)
    requires |baseFee| == |price|
    ensures var r := Split(baseFee, price, maxFee, bips); var base := Value(baseFee, price) as int;
            && (r.Some? <==> base <= maxFee as int)
            && (r.Some? ==>
                  var tip := r.value.priorityFee as int;
                  && r.value.baseFee == baseFee
                  && base + tip + r.value.remaining as int == maxFee as int
                  && tip * 10_000 <= base * bips as int
                  && (r.value.remaining > 0 ==> (tip + 1) * 10_000 > base * bips as int))
  {
    var base, rate := Value(baseFee, price) as int, bips as int;
    var product := base * rate;
    assert product / 10_000 * 10_000 <= product < (product / 10_000 + 1) * 10_000;
  }

  /** The gas used never costs more than the funds at the start. */
  lemma UsedWithin(funds: U64, price: Units, ops: seq<Op>)
    requires SizedOps(|price|, ops)
    ensures Value(Run(NewMeter(funds, price), ops).used, price) <= funds
  {
    if Bounded(funds, price) {
      RunConserves(funds, price, ops);
    }
  }

  /** Exactly when the split of a transaction never underflows, whatever it charged and refunded: the funds its meter
      starts with are within its maximum fee. */
  lemma SplitNeverUnderflowsIff(tx: TxData, price: Units)
    requires tx.gasLimit.Some? ==> |tx.gasLimit.value| == |price|
    ensures (forall ops :: SizedOps(|price|, ops) ==>
               Split(Run(GasMeterOf(tx, price), ops).used, price, tx.maxFee, tx.maxPriorityFeeBips).Some?)
            <==> InitialFunds(tx, price) <= tx.maxFee
  {
    var m, funds := GasMeterOf(tx, price), InitialFunds(tx, price);
    if funds <= tx.maxFee {
      forall ops | SizedOps(|price|, ops)
        ensures Split(Run(m, ops).used, price, tx.maxFee, tx.maxPriorityFeeBips).Some?
      {
        UsedWithin(funds, price, ops);
      }
    } else {
      var limit := tx.gasLimit.value;
      var ops := [Charge(limit)];
      assert Combine(m.used, limit) == limit;
      assert ops[1..] == [];
      assert Run(m, ops).used == limit;
      assert Split(limit, price, tx.maxFee, tx.maxPriorityFeeBips).None?;
    }
  }

  class TxGasMeter {
    var remainingFunds: U64
    const gasPrice: Units
    var gasUsed: Units

    function Model(): Meter
      reads this
    {
      Meter(remainingFunds, gasPrice, gasUsed)
    }

    constructor (tx: TxData, price: Units)
      requires tx.gasLimit.Some? ==> |tx.gasLimit.value| == |price|
      ensures Model() == GasMeterOf(tx, price)
    {
      remainingFunds, gasPrice, gasUsed := InitialFunds(tx, price), price, Zero(|price|);
    }

    method RefundGas(gas: Units) returns (r: Result<(), GasError>)
      requires |gasUsed| == |gasPrice| == |gas|
      modifies this
      ensures match Refunded(old(Model()), gas)
              case Ok(m) => r == Ok(()) && Model() == m
              case Err(e) => r == Err(e) && Model() == old(Model())
    {
      var used := CheckedSub(gasUsed, gas);
      if used.None? {
        return Err(ImpossibleToRefundGas);
      }
      gasUsed := used.value;
      remainingFunds := SaturatingAdd(remainingFunds, Value(gas, gasPrice));
      return Ok(());
    }

    method ChargeGas(gas: Units) returns (r: Result<(), GasError>)
      requires |gasUsed| == |gasPrice| == |gas|
      modifies this
      ensures match Charged(old(Model()), gas)
              case Ok(m) => r == Ok(()) && Model() == m
              case Err(e) => r == Err(e) && Model() == old(Model())
    {
      var funds := Value(gas, gasPrice);
      if remainingFunds < funds {
        return Err(OutOfGas);
      }
      remainingFunds := remainingFunds as int - funds as int;
      gasUsed := Combine(gasUsed, gas);
      return Ok(());
    }
  }
}
