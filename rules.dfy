/**
 * The withdrawal, deposit and transfer rules of the two account variants,
 * stated on plain balance values. Balances and amounts are exact `real`
 * currency amounts; the rounding of the original `double` arithmetic is
 * not modelled.
 */
module AccountRules {

  /** The two concrete account variants, each with the one attribute it adds. */
  datatype Variant = Savings(interestRate: real) | Current(overdraftLimit: real)

  /** A savings account may never be withdrawn below this balance. */
  const MinimumBalance: real := 100.0

  /** The fixed amount every transfer moves. */
  const TransferAmount: real := 300.0

  /** The lowest balance a withdrawal may leave behind. */
  function Floor(v: Variant): real {
    match v
    case Savings(_) => MinimumBalance
    case Current(limit) => -limit
  }

  /** The condition under which a variant accepts a withdrawal. */
  predicate WithdrawAllowed(v: Variant, balance: real, amount: real) {
    amount > 0.0 && balance - amount >= Floor(v)
  }

  /** The balance after a withdrawal request. */
  function AfterWithdraw(v: Variant, balance: real, amount: real): (r: real)
    ensures r <= balance
    ensures r < balance <==> amount > 0.0 && balance - amount >= Floor(v)
    ensures r < balance ==> r == balance - amount
    ensures r == balance || r >= Floor(v)
  {
    if WithdrawAllowed(v, balance, amount) then balance - amount else balance
  }

  /** The balance after a deposit request (the same rule for both variants). */
  function AfterDeposit(balance: real, amount: real): (r: real)
    ensures r >= balance
    ensures r > balance <==> amount > 0.0
    ensures r > balance ==> r == balance + amount
  {
    if amount > 0.0 then balance + amount else balance
  }

  /**
   * The balances of a source and a distinct target after a transfer: the
   * source is asked to withdraw the transfer amount and the target receives
   * it whether or not the withdrawal was accepted.
   */
  function TransferBalances(v: Variant, source: real, target: real): (r: (real, real))
    ensures r.1 == target + TransferAmount
    ensures r.0 == source - TransferAmount || r.0 == source
    ensures r.0 + r.1 == source + target <==> source - TransferAmount >= Floor(v)
    ensures r.0 + r.1 == source + target + TransferAmount <==> source - TransferAmount < Floor(v)
  {
    (AfterWithdraw(v, source, TransferAmount), AfterDeposit(target, TransferAmount))
  }

  /** Everything that can change one account's balance. */
  datatype Op =
    | Withdraw(amount: real)
    | Deposit(amount: real)
    | SendTransfer      // this account is the source of a transfer
    | ReceiveTransfer   // this account is the target of a transfer

  function Apply(v: Variant, balance: real, op: Op): real {
    match op
    case Withdraw(a) => AfterWithdraw(v, balance, a)
    case Deposit(a) => AfterDeposit(balance, a)
    case SendTransfer => AfterWithdraw(v, balance, TransferAmount)
    case ReceiveTransfer => AfterDeposit(balance, TransferAmount)
  }

  /** The balance after a sequence of operations, applied first to last. */
  function Run(v: Variant, balance: real, ops: seq<Op>): real
    decreases |ops|
  {
    if ops == [] then balance else Run(v, Apply(v, balance, ops[0]), ops[1..])
  }

  /**
   * An account that starts at or above its variant's floor stays there,
   * whatever sequence of withdrawals, deposits and transfers it goes through.
   */
  lemma {:induction false} RunKeepsFloor(v: Variant, balance: real, ops: seq<Op>)
    requires balance >= Floor(v)
    ensures Run(v, balance, ops) >= Floor(v)
    decreases |ops|
  {
    if ops != [] {
      RunKeepsFloor(v, Apply(v, balance, ops[0]), ops[1..]);
    }
  }

  /**
   * An account may start below its variant's floor (its constructor allows
   * it); whatever it goes through, its final balance is never below the
   * starting one.
   */
  lemma {:induction false} RunBelowFloorNeverDrops(v: Variant, balance: real, ops: seq<Op>)
    requires balance < Floor(v)
    ensures Run(v, balance, ops) >= balance
    decreases |ops|
  {
    if ops != [] {
      var next := Apply(v, balance, ops[0]);
      if next < Floor(v) {
        RunBelowFloorNeverDrops(v, next, ops[1..]);
      } else {
        RunKeepsFloor(v, next, ops[1..]);
      }
    }
  }

  /** An account below its floor refuses every withdrawal. */
  lemma BelowFloorRefusesWithdraw(v: Variant, balance: real, amount: real)
    requires balance < Floor(v)
    ensures AfterWithdraw(v, balance, amount) == balance
  {
  }

  /** Running a sequence is running its first `k` operations, then the rest. */
  lemma {:induction false} RunSplit(v: Variant, balance: real, ops: seq<Op>, k: nat)
    requires k <= |ops|
    ensures Run(v, balance, ops) == Run(v, Run(v, balance, ops[..k]), ops[k..])
    decreases k
  {
    if k > 0 {
      assert ops[..k][0] == ops[0];
      assert ops[..k][1..] == ops[1..][..k - 1];
      assert ops[k..] == ops[1..][k - 1..];
      RunSplit(v, Apply(v, balance, ops[0]), ops[1..], k - 1);
    }
  }

  /**
   * Once some prefix of a sequence has brought the balance to the floor,
   * the balance at the end of the whole sequence is at the floor or above.
   */
  lemma {:induction false} RunStaysAtFloorOnceReached(v: Variant, balance: real, ops: seq<Op>, k: nat)
    requires k <= |ops|
    requires Run(v, balance, ops[..k]) >= Floor(v)
    ensures Run(v, balance, ops) >= Floor(v)
  {
    RunSplit(v, balance, ops, k);
    RunKeepsFloor(v, Run(v, balance, ops[..k]), ops[k..]);
  }

  /**
   * A savings source holding 150 cannot give up 300, yet the target still
   * receives 300: the transfer creates money.
   */
  lemma TransferFromLowSavingsCreatesFunds(rate: real)
    ensures TransferBalances(Savings(rate), 150.0, 0.0) == (150.0, 300.0)
  {
  }
}
