/** How the bank enforces gas: it locks a transaction's maximum fee, and pays it out after execution. */
module Fees {
  import opened Wrappers
  import opened Basics
  import opened Gas

  type Account = nat

  type Balances = map<Account, U64>

  function BalanceOf(b: Balances, a: Account): U64 {
    if a in b then b[a] else 0
  }

  /** Fails on an insufficient balance, or if the receiver's balance would overflow. */
  function Transfer(b: Balances, from: Account, to: Account, amount: U64): Option<Balances> {
    if from == to || amount == 0 then Some(b)
    else if BalanceOf(b, from) < amount || BalanceOf(b, to) as int + amount as int > U64_MAX then None
    else Some(b[from := BalanceOf(b, from) as int - amount as int][to := BalanceOf(b, to) as int + amount as int])
  }

  datatype RefusalReason =
    | AccountDoesNotExist
    | InsufficientBalanceToReserveGas
    | ImpossibleToTransferGas
    | CurrentGasPriceTooHigh
    | InsufficientGasForPreExecutionChecks

  /** The balances either way, and the meter that execution starts with. */
  datatype Reservation = Reserved(balances: Balances, meter: Meter) | Refused(balances: Balances, reason: RefusalReason)

  ghost predicate Fitting(tx: TxData, price: Units, spent: Units) {
    |spent| == |price| && (tx.gasLimit.Some? ==> |tx.gasLimit.value| == |price|)
  }

  /** Locks the maximum fee with the bank, refuses a gas limit that costs more, and charges the gas `spent` by the
      checks before execution. */
  ghost function Reserve(b: Balances, bank: Account, tx: TxData, payer: Account, price: Units, spent: Units)
    : Reservation
    requires Fitting(tx, price, spent)
  {
    if payer !in b then Refused(b, AccountDoesNotExist)
    else if b[payer] < tx.maxFee then Refused(b, InsufficientBalanceToReserveGas)
    else
      match Transfer(b, payer, bank, tx.maxFee)
      case None => Refused(b, ImpossibleToTransferGas)
      case Some(locked) =>
        if tx.gasLimit.Some? && tx.maxFee < Value(tx.gasLimit.value, price) then Refused(locked, CurrentGasPriceTooHigh)
        else
          match Charged(GasMeterOf(tx, price), spent)
          case Err(_) => Refused(locked, InsufficientGasForPreExecutionChecks)
          case Ok(m) => Reserved(locked, m)
  }

  // ----- money is moved, not made

  ghost function Supply(b: Balances): nat {
    if b == map[] then 0 else var a :| a in b; b[a] as int + Supply(b - {a})
  }

  lemma {:induction false} SupplyWithout(b: Balances, a: Account)
    requires a in b
    ensures Supply(b) == b[a] as int + Supply(b - {a})
    decreases |b|
  {
    var c :| c in b && Supply(b) == b[c] as int + Supply(b - {c});
    if c != a {
      SupplyWithout(b - {c}, a);
      SupplyWithout(b - {a}, c);
      assert b - {c} - {a} == b - {a} - {c};
    }
  }

  lemma SupplySet(b: Balances, a: Account, x: U64)
    ensures Supply(b[a := x]) + BalanceOf(b, a) as int == Supply(b) + x as int
  {
    var b' := b[a := x];
    SupplyWithout(b', a);
    if a in b {
      SupplyWithout(b, a);
      assert b' - {a} == b - {a};
    } else {
      assert b' - {a} == b;
    }
  }

  /** Two accounts together hold no more than there is. */
  lemma SupplyBounds(b: Balances, a: Account, c: Account)
    requires a != c
    ensures BalanceOf(b, a) as int + BalanceOf(b, c) as int <= Supply(b)
  {
    if a in b {
      SupplyWithout(b, a);
      if c in b {
        SupplyWithout(b - {a}, c);
      }
    } else if c in b {
      SupplyWithout(b, c);
    }
  }

  function If(condition: bool, amount: U64): nat {
    if condition then amount else 0
  }

  ghost predicate Moved(b: Balances, b': Balances, from: Account, to: Account, amount: U64) {
    forall a {:trigger BalanceOf(b', a)} ::
      BalanceOf(b', a) as int + If(a == from, amount) == BalanceOf(b, a) as int + If(a == to, amount)
  }

  /** What a transfer of available funds does; the receiver cannot overflow while the supply fits 64 bits. */
  lemma TransferMoves(b: Balances, from: Account, to: Account, amount: U64)
    requires Supply(b) <= U64_MAX && BalanceOf(b, from) >= amount
    ensures var r := Transfer(b, from, to, amount);
            && r.Some? && Supply(r.value) == Supply(b)
            && Moved(b, r.value, from, to, amount)
  {
    if from != to {
      SupplyBounds(b, from, to);
      var mid := b[from := BalanceOf(b, from) as int - amount as int];
      SupplySet(b, from, BalanceOf(b, from) as int - amount as int);
      SupplySet(mid, to, BalanceOf(b, to) as int + amount as int);
    }
  }

  /** While the supply fits 64 bits, a transfer fails exactly for want of funds. */
  lemma TransferOkIff(b: Balances, from: Account, to: Account, amount: U64)
    requires Supply(b) <= U64_MAX
    ensures Transfer(b, from, to, amount).Some? <==> from == to || BalanceOf(b, from) >= amount
  {
    if from != to {
      SupplyBounds(b, from, to);
    }
  }

  // ----- after execution

  /** Refund to the payer, then base fee and tip to their recipients, all out of what the bank holds. */
  function PaidOut(b: Balances, bank: Account, payer: Account, baseRecipient: Account, tipRecipient: Account,
                   c: Consumption, baseFee: U64): Option<Balances>
  {
    match Transfer(b, bank, payer, c.remaining)
    case None => None
    case Some(refunded) =>
      match Transfer(refunded, bank, baseRecipient, baseFee)
      case None => None
      case Some(paid) => Transfer(paid, bank, tipRecipient, c.priorityFee)
  }

  /** Each account gains what it is owed, and the bank loses what it pays out. */
  ghost predicate Distributed(b: Balances, b': Balances, bank: Account, payer: Account, baseRecipient: Account,
                              tipRecipient: Account, c: Consumption, baseFee: U64, total: U64)
  {
    forall a ::
      BalanceOf(b', a) as int + If(a == bank, total) ==
      BalanceOf(b, a) as int + If(a == payer, c.remaining) + If(a == baseRecipient, baseFee)
      + If(a == tipRecipient, c.priorityFee)
  }

  lemma PayOutSucceeds(b: Balances, bank: Account, payer: Account, baseRecipient: Account, tipRecipient: Account,
                       c: Consumption, baseFee: U64, total: U64)
    requires Supply(b) <= U64_MAX && BalanceOf(b, bank) >= total
    requires baseFee as int + c.priorityFee as int + c.remaining as int == total as int
    ensures var r := PaidOut(b, bank, payer, baseRecipient, tipRecipient, c, baseFee);
            && r.Some? && Supply(r.value) == Supply(b)
            && Distributed(b, r.value, bank, payer, baseRecipient, tipRecipient, c, baseFee, total)
  {
    TransferMoves(b, bank, payer, c.remaining);
    var refunded := Transfer(b, bank, payer, c.remaining).value;
    TransferMoves(refunded, bank, baseRecipient, baseFee);
    var paid := Transfer(refunded, bank, baseRecipient, baseFee).value;
    TransferMoves(paid, bank, tipRecipient, c.priorityFee);
  }

  // ----- the whole life of a transaction

  /** A reservation locks the maximum fee, makes no money, and never starts with more funds than it locked. */
  lemma ReservationLocks(b: Balances, bank: Account, tx: TxData, payer: Account, price: Units, spent: Units)
    requires Fitting(tx, price, spent) && Supply(b) <= U64_MAX
    ensures var r := Reserve(b, bank, tx, payer, price, spent);
            && Supply(r.balances) == Supply(b)
            && (if payer in b && b[payer] >= tx.maxFee then Moved(b, r.balances, payer, bank, tx.maxFee)
                else r.balances == b)
            && (r.Reserved? ==>
                  && BalanceOf(r.balances, bank) >= tx.maxFee && InitialFunds(tx, price) <= tx.maxFee
                  && Charged(GasMeterOf(tx, price), spent) == Ok(r.meter))
  {
    if payer in b && b[payer] >= tx.maxFee {
      TransferMoves(b, payer, bank, tx.maxFee);
    }
  }

  /** Which transactions are accepted: exactly those whose sender holds the maximum fee, whose gas limit costs at most
      that, and which can pay for the checks made so far. What is left for execution is the rest of their budget. */
  lemma ReservedIff(b: Balances, bank: Account, tx: TxData, payer: Account, price: Units, spent: Units)
    requires Fitting(tx, price, spent) && Supply(b) <= U64_MAX
    ensures var r := Reserve(b, bank, tx, payer, price, spent);
            && (r.Reserved? <==>
                  && payer in b && b[payer] >= tx.maxFee && Budget(tx, price) <= tx.maxFee as int
                  && Cost(spent, price) <= Budget(tx, price))
            && (r.Reserved? ==>
                  && r.meter.remaining as int == Budget(tx, price) - Cost(spent, price)
                  && r.meter.used == spent && r.meter.price == price)
            && (r.Refused? ==>
                  r.reason == if payer !in b then AccountDoesNotExist
                              else if b[payer] < tx.maxFee then InsufficientBalanceToReserveGas
                              else if Budget(tx, price) > tx.maxFee as int then CurrentGasPriceTooHigh
                              else InsufficientGasForPreExecutionChecks)
  {
    TransferOkIff(b, payer, bank, tx.maxFee);
    ChargedIff(GasMeterOf(tx, price), spent);
    if tx.gasLimit.Some? {
      ValueIsDot(tx.gasLimit.value, price);
    }
    assert Combine(Zero(|price|), spent) == spent;
  }

  /** The gas of a reserved transaction: what its meter records is a run that began with the checks. */
  lemma RunFromCheck(tx: TxData, price: Units, spent: Units, m: Meter, ops: seq<Op>)
    requires Fitting(tx, price, spent) && Charged(GasMeterOf(tx, price), spent) == Ok(m) && SizedOps(|price|, ops)
    ensures SizedOps(|price|, [Charge(spent)] + ops)
    ensures Run(m, ops) == Run(GasMeterOf(tx, price), [Charge(spent)] + ops)
  {
    assert ([Charge(spent)] + ops)[1..] == ops;
  }

  /** For every transaction the bank accepts, after any run of charges and refunds, and whatever execution did to the
      balances as long as it left the locked fee with the bank: the split succeeds, none of the three payments fails,
      and base fee, tip and refund come to exactly the locked fee. */
  lemma SettlementIsInfallible(b: Balances, bank: Account, tx: TxData, payer: Account, price: Units, spent: Units,
                               ops: seq<Op>, after: Balances, baseRecipient: Account, tipRecipient: Account)
    returns (c: Consumption)
    requires Fitting(tx, price, spent) && Supply(b) <= U64_MAX && SizedOps(|price|, ops)
    requires Reserve(b, bank, tx, payer, price, spent).Reserved?
    requires Supply(after) <= U64_MAX && BalanceOf(after, bank) >= tx.maxFee
    ensures var used := Run(Reserve(b, bank, tx, payer, price, spent).meter, ops).used;
            var base := Value(used, price);
            && Split(used, price, tx.maxFee, tx.maxPriorityFeeBips) == Some(c)
            && base as int + c.priorityFee as int + c.remaining as int == tx.maxFee as int
            && var r := PaidOut(after, bank, payer, baseRecipient, tipRecipient, c, base);
            && r.Some? && Supply(r.value) == Supply(after)
            && Distributed(after, r.value, bank, payer, baseRecipient, tipRecipient, c, base, tx.maxFee)
  {
    ReservationLocks(b, bank, tx, payer, price, spent);
    var m := Reserve(b, bank, tx, payer, price, spent).meter;
    RunFromCheck(tx, price, spent, m, ops);
    SplitNeverUnderflowsIff(tx, price);
    var used := Run(m, ops).used;
    SplitAddsUp(used, price, tx.maxFee, tx.maxPriorityFeeBips);
    c := Split(used, price, tx.maxFee, tx.maxPriorityFeeBips).value;
    PayOutSucceeds(after, bank, payer, baseRecipient, tipRecipient, c, Value(used, price), tx.maxFee);
  }

  /** A transaction that execution reverts costs its sender exactly base fee and tip. */
  lemma RevertedCosts(b: Balances, bank: Account, tx: TxData, payer: Account, price: Units, spent: Units,
                      ops: seq<Op>, baseRecipient: Account, tipRecipient: Account)
    requires Fitting(tx, price, spent) && Supply(b) <= U64_MAX && SizedOps(|price|, ops)
    requires Reserve(b, bank, tx, payer, price, spent).Reserved?
    requires payer != bank && payer != baseRecipient && payer != tipRecipient
    ensures var locked := Reserve(b, bank, tx, payer, price, spent);
            var used := Run(locked.meter, ops).used;
            var c := Split(used, price, tx.maxFee, tx.maxPriorityFeeBips);
            && c.Some?
            && var r := PaidOut(locked.balances, bank, payer, baseRecipient, tipRecipient, c.value, Value(used, price));
            && r.Some?
            && BalanceOf(r.value, payer) as int + Value(used, price) as int + c.value.priorityFee as int
               == BalanceOf(b, payer) as int
  {
    ReservationLocks(b, bank, tx, payer, price, spent);
    TransferMoves(b, payer, bank, tx.maxFee);
    var locked := Reserve(b, bank, tx, payer, price, spent).balances;
    var c := SettlementIsInfallible(b, bank, tx, payer, price, spent, ops, locked, baseRecipient, tipRecipient);
  }

  class Bank {
    const id: Account
    var balances: Balances

    constructor (id: Account, balances: Balances)
      ensures this.id == id && this.balances == balances
    {
      this.id, this.balances := id, balances;
    }

    method TransferFrom(from: Account, to: Account, amount: U64) returns (ok: bool)
      modifies this
      ensures match Transfer(old(balances), from, to, amount)
              case Some(b) => ok && balances == b
              case None => !ok && balances == old(balances)
    {
      if from == to || amount == 0 {
        return true;
      }
      var fromBalance, toBalance := BalanceOf(balances, from), BalanceOf(balances, to);
      if fromBalance < amount || toBalance as int + amount as int > U64_MAX {
        return false;
      }
      balances := balances[from := fromBalance as int - amount as int];
      balances := balances[to := toBalance as int + amount as int];
      return true;
    }

    /** Either the meter to execute with, or why the transaction is refused. */
    method ReserveGas(tx: TxData, payer: Account, price: Units, spent: Units)
      returns (r: Result<TxGasMeter, RefusalReason>)
      requires Fitting(tx, price, spent)
      modifies this
      ensures match Reserve(old(balances), id, tx, payer, price, spent)
              case Reserved(b, m) => r.Ok? && r.value.Model() == m && balances == b
              case Refused(b, reason) => r == Err(reason) && balances == b
    {
      if payer !in balances {
        return Err(AccountDoesNotExist);
      }
      if balances[payer] < tx.maxFee {
        return Err(InsufficientBalanceToReserveGas);
      }
      var locked := TransferFrom(payer, id, tx.maxFee);
      if !locked {
        return Err(ImpossibleToTransferGas);
      }
      if tx.gasLimit.Some? && tx.maxFee < Value(tx.gasLimit.value, price) {
        return Err(CurrentGasPriceTooHigh);
      }
      var meter := new TxGasMeter(tx, price);
      var charged := meter.ChargeGas(spent);
      if charged.Err? {
        return Err(InsufficientGasForPreExecutionChecks);
      }
      return Ok(meter);
    }

    /** Refunds the payer and pays base fee and tip; the source expects that none of the transfers fails. */
    method PayOut(payer: Account, baseRecipient: Account, tipRecipient: Account, c: Consumption, baseFee: U64)
      requires Supply(balances) <= U64_MAX
      requires BalanceOf(balances, id) as int >= baseFee as int + c.priorityFee as int + c.remaining as int
      modifies this
      ensures PaidOut(old(balances), id, payer, baseRecipient, tipRecipient, c, baseFee) == Some(balances)
      ensures Supply(balances) == Supply(old(balances))
    {
      TransferMoves(balances, id, payer, c.remaining);
      var refunded := TransferFrom(id, payer, c.remaining);
      assert refunded;
      TransferMoves(balances, id, baseRecipient, baseFee);
      var paid := TransferFrom(id, baseRecipient, baseFee);
      assert paid;
      TransferMoves(balances, id, tipRecipient, c.priorityFee);
      var tipped := TransferFrom(id, tipRecipient, c.priorityFee);
      assert tipped;
    }
  }
}
