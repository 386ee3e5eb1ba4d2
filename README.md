# Bank accounts: a verified model

This project models the account classes of a small C++ teaching program (`main.cpp`). It has two account variants that share one base `Account`:

- A **savings account** refuses any withdrawal that would take its balance below a fixed minimum of 100.
- A **current account** refuses any withdrawal that would take its balance below minus its overdraft limit.
- Both variants accept only positive deposits.
- A **transfer** always moves a fixed 300. The source is asked to withdraw 300, and the target then receives 300 unconditionally. So when the source refuses, money is created. The model states this behaviour as it is and does not correct it.
- The **`+` operator** transfers from the left operand to the right one. Each variant overrides it differently:
  - The savings version checks that the argument is a savings account before anything changes, and returns itself.
  - The current version transfers first and checks the argument's variant afterwards, and returns the argument.
  - The base version returns the argument without any check.

The model has two modules:

- `AccountRules` (`rules.dfy`) states the rules on plain balance values: the floor of each variant, the balance after a withdrawal, after a deposit and after a transfer. It also proves that any sequence of operations keeps a balance at or above its floor.
- `Accounts` (`accounts.dfy`) is the object model. One class, `Account`, has a constant variant tag in place of the two C++ subclasses. The balance is its only mutable field. Its methods update the balance in place and are proved against the `AccountRules` functions. `DriverScenario` replays the program's fixed script.

Balances and amounts are exact `real` numbers. Each printed rejection message is modelled as a returned success flag. A failed `dynamic_cast` is modelled as the result `BadCast`.

## Model

| member | source | states |
|---|---|---|
| `AccountRules.AfterWithdraw` | main.cpp:41-49 | For savings accounts here and for current accounts at main.cpp:81-87: the balance drops exactly when the amount is positive and the remaining balance would be at or above the variant's floor (100 for savings, minus the overdraft limit for current). It then drops by exactly the amount. Otherwise it is unchanged. A withdrawal never leaves a changed balance below the floor. |
| `AccountRules.AfterDeposit` | main.cpp:52-58 | For savings accounts here and for current accounts at main.cpp:89-95: the balance rises exactly when the amount is positive, and then by exactly that amount. Otherwise it is unchanged. |
| `AccountRules.TransferBalances` | main.cpp:25-29 | The target always gains exactly 300. The source loses 300 or nothing. The sum of both balances is preserved exactly when the source's own withdrawal rule accepts 300, and it grows by 300 exactly when the rule refuses. |
| `AccountRules.RunKeepsFloor` | main.cpp:41-58 | For savings accounts here and for current accounts at main.cpp:81-95: a balance that starts at or above its variant's floor stays at or above it after any sequence of withdrawals, deposits and transfers in either direction. |
| `AccountRules.RunBelowFloorNeverDrops` | main.cpp:41-58 | For savings accounts here and for current accounts at main.cpp:81-95: for a balance that starts below its floor, the final balance after any sequence of operations is never below the starting one. |
| `AccountRules.BelowFloorRefusesWithdraw` | main.cpp:41-49 | For savings accounts here and for current accounts at main.cpp:81-87: a balance below its variant's floor refuses every withdrawal and stays unchanged. |
| `AccountRules.RunSplit` | main.cpp:41-58 | For savings accounts here and for current accounts at main.cpp:81-95: running a sequence of operations is the same as running its first `k` operations and then the rest from the balance they reach. |
| `AccountRules.RunStaysAtFloorOnceReached` | main.cpp:41-58 | For savings accounts here and for current accounts at main.cpp:81-95: once some prefix of a sequence has brought the balance to the floor or above, the balance at the end of the whole sequence is at the floor or above. |
| `AccountRules.TransferFromLowSavingsCreatesFunds` | main.cpp:25-29 | A savings source holding 150 keeps its 150 while the target still gains 300. |
| `Accounts.Account.NewSavings` | main.cpp:34-35 | A new savings account holds the given number, holder, balance and interest rate. |
| `Accounts.Account.NewCurrent` | main.cpp:74-75 | A new current account holds the given number, holder, balance and overdraft limit. |
| `Accounts.Account.AccountType` | main.cpp:37-39 | For savings accounts here and for current accounts at main.cpp:77-79: returns "Savings Account" exactly for savings accounts and "Current Account" exactly for current accounts. |
| `Accounts.Account.Withdraw` | main.cpp:41-49 | For savings accounts here and for current accounts at main.cpp:81-87: reports acceptance exactly when the amount is positive and the balance minus the amount stays at or above the floor. Sets the balance to `AfterWithdraw` of the old balance. Changes no field but `balance`. Keeps a balance that was at or above the floor at or above it. |
| `Accounts.Account.Deposit` | main.cpp:52-58 | For savings accounts here and for current accounts at main.cpp:89-95: reports acceptance exactly when the amount is positive. Sets the balance to `AfterDeposit` of the old balance. Changes no field but `balance`. |
| `Accounts.Account.PerformTransfer` | main.cpp:25-29 | Withdraws from this account and then deposits into the argument. Reports whether the withdrawal was accepted, exactly when this account's rule allows 300. The two balances become `TransferBalances` of the old ones. When both are one object, the balance is the withdrawal result plus 300. |
| `Accounts.Account.BasePlus` | main.cpp:17-20 | Transfers and returns the argument. No virtual call reaches it, because `Account` is abstract and both variants override the operator. |
| `Accounts.Account.SavingsPlus` | main.cpp:60-64 | If the argument is not a savings account, it fails with `BadCast` and both balances are unchanged. Otherwise it transfers and returns this account itself. |
| `Accounts.Account.CurrentPlus` | main.cpp:97-100 | Always transfers first. It then returns the argument if that is a current account, and otherwise fails with `BadCast` with the balances already changed. |
| `Accounts.DriverScenario` | main.cpp:132-146 | The deposit and the withdrawal are both accepted, so the script prints no warning before the transfer. After the fixed script, savings is 1500 and current is 1000 after the deposit and the withdrawal. Then `current + savings` leaves current at 700 and savings at 1800, and ends in `BadCast`. |

## Left out

- Console output: the rejection messages "Minimum Balance Reached!", "Overdraft Limit!" and "Invalid deposit amount." are printed in the C++. Here they become the `accepted` result of `Withdraw` and `Deposit`, and the `withdrawn` result of `PerformTransfer`.
- BasePlus, SavingsPlus and CurrentPlus: they do not return whether the transfer's withdrawal printed a warning. That fact is the `withdrawn` result of `PerformTransfer`, and their `Transferred` postcondition fixes the balances it implies.
- The `operator<<` report functions (main.cpp:108-129): these only format text. They render a `double` through `std::ostream` and append a literal ".00".
- IEEE `double` arithmetic: balances are exact reals, so rounding is not modelled.
- The exception machinery of `dynamic_cast` and `std::bad_cast`, and the abnormal termination that follows, are not modelled. A failed cast is the result `BadCast`, and nothing after it is modelled.
- The assignment in `current = current + savings` (main.cpp:146): it is never reached, because the cast throws first.
- The interest rate is stored in the `Savings` variant but never applied. The C++ only displays it.
- Virtual dispatch of `operator+`: the operator is virtual, so the object's dynamic type selects the override. No dispatcher chooses between `SavingsPlus` and `CurrentPlus` by variant. In the driver the dynamic type of `current` is a current account, so the model calls `CurrentPlus` directly. `Withdraw` does dispatch on the variant tag.
