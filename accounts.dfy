/**
 * The account objects: one class whose `variant` tag stands for the two
 * concrete subclasses, with the balance as its only mutable field.
 */
module Accounts {
  import opened AccountRules

  /** What the `+` operator yields: an account reference, or a failed downcast. */
  datatype PlusResult = Ok(account: Account) | BadCast

  class Account {
    const number: string
    const holder: string
    const variant: Variant
    var balance: real

    constructor NewSavings(number: string, holder: string, balance: real, interestRate: real)
      ensures this.number == number && this.holder == holder
      ensures this.balance == balance && variant == Savings(interestRate)
    {
      this.number := number;
      this.holder := holder;
      this.balance := balance;
      variant := Savings(interestRate);
    }

    constructor NewCurrent(number: string, holder: string, balance: real, overdraftLimit: real)
      ensures this.number == number && this.holder == holder
      ensures this.balance == balance && variant == Current(overdraftLimit)
    {
      this.number := number;
      this.holder := holder;
      this.balance := balance;
      variant := Current(overdraftLimit);
    }

    /** The descriptive name of the variant. */
    function AccountType(): (s: string)
      ensures variant.Savings? <==> s == "Savings Account"
      ensures variant.Current? <==> s == "Current Account"
    {
      match variant
      case Savings(_) => "Savings Account"
      case Current(_) => "Current Account"
    }

    /** The balance is at or above the variant's floor. */
    ghost predicate WithinFloor()
      reads this
    {
      balance >= Floor(variant)
    }

    /** Withdraws `amount` if the variant's floor allows it; `accepted` is false where a warning is printed. */
    method Withdraw(amount: real) returns (accepted: bool)
      modifies this`balance
      ensures accepted <==> amount > 0.0 && old(balance) - amount >= Floor(variant)
      ensures balance == AfterWithdraw(variant, old(balance), amount)
      ensures old(WithinFloor()) ==> WithinFloor()
    {
      match variant {
        case Savings(_) =>
          accepted := amount > 0.0 && balance - amount >= MinimumBalance;
        case Current(overdraftLimit) =>
          accepted := amount > 0.0 && balance - amount >= -overdraftLimit;
      }
      if accepted {
        balance := balance - amount;
      }
    }

    /** Deposits `amount` if it is positive; `accepted` is false where a warning is printed. */
    method Deposit(amount: real) returns (accepted: bool)
      modifies this`balance
      ensures accepted <==> amount > 0.0
      ensures balance == AfterDeposit(old(balance), amount)
    {
      accepted := amount > 0.0;
      if accepted {
        balance := balance + amount;
      }
    }

    /**
     * Withdraws the transfer amount from this account, then deposits it into
     * `rhs` regardless; `withdrawn` is false where the withdrawal's warning
     * is printed.
     */
    method PerformTransfer(rhs: Account) returns (withdrawn: bool)
      modifies this`balance, rhs`balance
      ensures withdrawn <==> WithdrawAllowed(variant, old(balance), TransferAmount)
      ensures Transferred(this, rhs)
    {
      withdrawn := Withdraw(TransferAmount);
      var deposited := rhs.Deposit(TransferAmount);
    }

    /** The base class operator: transfers, then returns the argument. */
    method BasePlus(rhs: Account) returns (r: Account)
      modifies this`balance, rhs`balance
      ensures r == rhs
      ensures Transferred(this, rhs)
    {
      var withdrawn := PerformTransfer(rhs);
      r := rhs;
    }

    /** The savings operator: checks the argument's variant first, then transfers and returns itself. */
    method SavingsPlus(rhs: Account) returns (r: PlusResult)
      requires variant.Savings?
      modifies this`balance, rhs`balance
      ensures !rhs.variant.Savings? ==> r == BadCast && balance == old(balance) && rhs.balance == old(rhs.balance)
      ensures rhs.variant.Savings? ==> r == Ok(this) && Transferred(this, rhs)
    {
      if !rhs.variant.Savings? {
        return BadCast;
      }
      var withdrawn := PerformTransfer(rhs);
      r := Ok(this);
    }

    /** The current operator: transfers first, then checks the argument's variant and returns the argument. */
    method CurrentPlus(rhs: Account) returns (r: PlusResult)
      requires variant.Current?
      modifies this`balance, rhs`balance
      ensures Transferred(this, rhs)
      ensures r == if rhs.variant.Current? then Ok(rhs) else BadCast
    {
      var withdrawn := PerformTransfer(rhs);
      if rhs.variant.Current? {
        r := Ok(rhs);
      } else {
        r := BadCast;
      }
    }
  }

  /**
   * The balances after a transfer from `source` to `target`, including the
   * case where both are the same object.
   */
  twostate predicate Transferred(source: Account, target: Account)
    reads source, target
  {
    if source != target then
      (source.balance, target.balance)
        == TransferBalances(source.variant, old(source.balance), old(target.balance))
    else
      source.balance == AfterWithdraw(source.variant, old(source.balance), TransferAmount) + TransferAmount
  }

  /**
   * The program's fixed script: a savings account receives 500, a current
   * account gives up 1000, then the current account is added to the savings
   * account, which transfers 300 before the downcast of the savings account
   * to a current account fails.
   */
  method DriverScenario()
    returns (deposited: bool, withdrawn: bool,
             savingsAfterDeposit: real, currentAfterWithdraw: real,
             savingsFinal: real, currentFinal: real, sum: PlusResult)
    ensures deposited && withdrawn
    ensures savingsAfterDeposit == 1500.0 && currentAfterWithdraw == 1000.0
    ensures savingsFinal == 1800.0 && currentFinal == 700.0
    ensures sum == BadCast
  {
    var savings := new Account.NewSavings("S123", "John Doe", 1000.0, 0.02);
    var current := new Account.NewCurrent("C456", "Jane Doe", 2000.0, 500.0);
    deposited := savings.Deposit(500.0);
    withdrawn := current.Withdraw(1000.0);
    savingsAfterDeposit, currentAfterWithdraw := savings.balance, current.balance;
    sum := current.CurrentPlus(savings);
    savingsFinal, currentFinal := savings.balance, current.balance;
  }
}
