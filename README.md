# BankAccount, modelled and verified in Dafny

A model of the `BankAccount` class of a small Java project. An account holds an
email, fixed when the account is created, and a balance that only `withdraw`,
`deposit` and `transfer` change. Two static validators decide what counts as a
legal email (`isEmailValid`) and a legal monetary amount (`isAmountValid`).
Every balance-changing operation makes all of its checks before it changes
anything, so it either applies in full or throws with nothing changed.

Files and modules:

- `wrappers.dfy` (`Wrappers`): `Option` stands for a Java reference that may be
  null, and `Result` for a value or the exception that replaced it.
- `amounts.dfy` (`Amounts`): amounts as exact `real`s; `IsAmountValid`, the
  cents conversions `FromCents`/`ToCents` and their round trip, and the closure
  of valid amounts under addition and subtraction.
- `emails.dfy` (`Emails`): the email pattern `^[^@]+@[^@.]+\.[A-Za-z]{2,}$`
  stated twice. `MatchesEmailPattern` says there is a split of the string into
  the four parts. `IsEmailValid` decides it by finding the last `'.'` and the
  last `'@'` before it. `EmailValidIffPattern` proves the two agree.
- `accounts.dfy` (`Accounts`): the error kinds and the checks of each operation
  as functions (`CheckWithdraw`, `CheckDeposit`, `CheckTransfer`). The class
  `BankAccount` has a `const email`, a `var balance` and the invariant
  `Valid()`. Its methods are proved against the check functions. Lemmas cover
  invariant preservation, the withdraw/deposit round trip, the boundary cases
  and conservation under transfer.
- `scenarios.dfy` (`Scenarios`): the unit tests' concrete cases, as lemmas about
  the validators and as client methods proved from the contracts alone.

Design decisions:

- Amounts are `real`, not `float`. `isAmountValid` scales by 100, rounds with
  `Math.round` (modelled as `Round`, that is `floor(x + 0.5)`), and accepts
  when the difference is below `0.0001`. The model compares the scaled amount
  with its rounding for equality, so the accepted amounts are exactly the
  non-negative whole numbers of cents (`ValidIsWholeCents`, `CentsAreValid`).
  "## Left out" lists the amounts on which this differs from the `float` code.
- The Java constructor throws on bad arguments. It is modelled by the static
  method `BankAccount.Open`, which returns a `Result`. `Open` calls a Dafny
  constructor whose `requires` are the checks `Open` has already made.
- A thrown `IllegalArgumentException` is a `Fail(error)` outcome. The error
  tells apart the cases the messages name: invalid email, invalid initial
  balance, invalid amount, invalid destination and insufficient funds.
- `email` is a `const` field, so no method can assign it after construction.
- `transfer` takes a `BankAccount?` (null allowed) and `modifies this,
  destination`. Its contract covers `destination == this`: the balance is then
  unchanged. In every case the sum of the two balances is unchanged.
- The doc comment of `isEmailValid` asks only for a top-level domain of at
  least two characters. The regex it uses accepts only ASCII letters
  `[A-Za-z]` there, and the model follows the regex.

## Model

| member | source | states |
|---|---|---|
| `Amounts.Round` | src/main/java/BankAccount.java:111 | `Math.round` rounds half up: the result is within half a unit of its argument (no saturation at `Integer.MAX_VALUE`, see "## Left out") |
| `Amounts.IsAmountValid` | src/main/java/BankAccount.java:105-113 | a valid amount is non-negative and equals its own number of cents, rounded, divided by 100 |
| `Amounts.ValidIsWholeCents` | src/main/java/BankAccount.java:105-113 | an amount is valid iff it is non-negative and 100 times it is a whole number |
| `Amounts.CentsAreValid` | src/main/java/BankAccount.java:105-113 | a whole number of cents is a valid amount iff it is non-negative, so every negative amount is invalid |
| `Amounts.ToCents` | src/main/java/BankAccount.java:110-112 | every valid amount is a non-negative whole number of cents, and converting back gives the same amount |
| `Amounts.SumIsValid` | src/main/java/BankAccount.java:60 | the sum of two valid amounts is valid, and its cents are the sum of their cents |
| `Amounts.DifferenceIsValid` | src/main/java/BankAccount.java:48 | a valid amount minus a smaller-or-equal valid amount is valid, and cents subtract |
| `Emails.IsEmailValid` | src/main/java/BankAccount.java:91-98 | an accepted email is non-null and at least six characters long (one-character local part and domain, `'@'`, `'.'`, two-letter top-level domain) |
| `Emails.EmailValidIffPattern` | src/main/java/BankAccount.java:91-98 | the check accepts a non-null string exactly when it splits as local part, `'@'`, domain label, `'.'`, and two or more ASCII letters |
| `Emails.ValidEmailHasOneAt` | src/main/java/BankAccount.java:86-97 | an accepted email contains exactly one `'@'` |
| `Emails.ComposedEmailIsValid` | src/main/java/BankAccount.java:96-97 | every string assembled as local part, `'@'`, domain label, `'.'`, top-level domain is accepted |
| `Emails.RejectsNullOrNoAt` | src/main/java/BankAccount.java:92-94 | null is rejected, and so is every string without `'@'`, the empty string included |
| `Emails.LastIndexOf` | src/main/java/BankAccount.java:96-97 | the result is -1 or an index holding the character, and no later index holds it |
| `Accounts.CheckWithdraw` | src/main/java/BankAccount.java:42-47 | withdraw passes iff the amount is valid and `0 < amount <= balance`; it fails with an invalid amount iff the amount is invalid or not positive, and with insufficient funds iff the amount is valid, positive and above the balance |
| `Accounts.CheckDeposit` | src/main/java/BankAccount.java:57-59 | deposit passes iff the amount is valid and positive, and otherwise fails with an invalid amount |
| `Accounts.CheckTransfer` | src/main/java/BankAccount.java:70-78 | transfer passes iff there is a destination and the amount is valid with `0 < amount <= balance`; the destination error occurs exactly when the destination is null; with a destination, the invalid-amount error occurs exactly when the amount is invalid or not positive, and insufficient funds exactly when it is valid, positive and above the balance |
| `Accounts.Apply` | src/main/java/BankAccount.java:48 | a call that passed changes the balance by exactly its delta (`-amount` at :48, `+amount` at :60); a call that failed leaves it unchanged |
| `Accounts.WithdrawKeepsBalanceValid` | src/main/java/BankAccount.java:42-48 | after a withdraw, passed or failed, the balance is still non-negative and valid |
| `Accounts.DepositKeepsBalanceValid` | src/main/java/BankAccount.java:57-60 | after a deposit, passed or failed, the balance is still non-negative and valid |
| `Accounts.WithdrawThenDepositRestores` | src/main/java/BankAccount.java:41-61 | after a successful `withdraw(x)`, `deposit(x)` passes and restores the original balance |
| `Accounts.WithdrawBoundary` | src/main/java/BankAccount.java:45-48 | on a valid balance: withdrawing the whole of a positive balance passes and leaves 0, withdrawing 0 from an empty account is an invalid amount, and withdrawing one cent more than the balance, empty or not, fails with insufficient funds |
| `Accounts.TransferNeedsNoRollback` | src/main/java/BankAccount.java:76-82 | once transfer's checks pass, its withdraw and deposit both pass, both balances stay valid, and the total in cents is conserved |
| `Accounts.BankAccount.Valid` | src/main/java/BankAccount.java:16-20 | the class invariant: the email passes the check (so it has at least six characters) and the balance is a non-negative whole number of cents |
| `Accounts.BankAccount.constructor` | src/main/java/BankAccount.java:22-23 | the new account is valid and holds exactly the given email and balance |
| `Accounts.BankAccount.Open` | src/main/java/BankAccount.java:15-24 | opening succeeds iff the email is valid and the balance is non-negative and valid; the email failure is reported first; on success the fresh account holds exactly the inputs |
| `Accounts.BankAccount.GetBalance` | src/main/java/BankAccount.java:27-29 | returns the balance, which on a valid account is a non-negative whole number of cents |
| `Accounts.BankAccount.GetEmail` | src/main/java/BankAccount.java:32-34 | returns the email, which on a valid account matches the email pattern |
| `Accounts.BankAccount.Withdraw` | src/main/java/BankAccount.java:41-49 | keeps the invariant; the outcome is `CheckWithdraw` of the old balance; the balance drops by the amount on success and is unchanged on failure |
| `Accounts.BankAccount.Deposit` | src/main/java/BankAccount.java:56-61 | keeps the invariant; the outcome is `CheckDeposit`; the balance grows by the amount on success and is unchanged on failure |
| `Accounts.BankAccount.Transfer` | src/main/java/BankAccount.java:69-83 | keeps both invariants; the outcome is `CheckTransfer`; on success the source loses and a distinct destination gains the amount; on failure nothing changes; a self-transfer leaves the balance unchanged; the sum of both balances is conserved |
| `Scenarios.AmountExamples` | BankAccountTest.java:202-230 | 100, 1000.05 and 1000.1 are valid; 100.001, 500.001 and -100 are not |
| `Scenarios.AcceptedEmailExamples` | BankAccountTest.java:170-180 | "a@b.com" and "a@bb.cc" are accepted, and so is the destination email "b@b.com" |
| `Scenarios.RejectedEmailExamples` | BankAccountTest.java:182-198 | "", "testemail.com", "adddcom" and "jbob@jimbo.h" are rejected |
| `Scenarios.TransferScenario` | BankAccountTest.java:18-166 | the withdraw, deposit and transfer tests in sequence on one account holding 200: the final balances are 0 and 200 |
| `Scenarios.OpenScenario` | BankAccountTest.java:88-106 | opening with "adddcom" fails on the email, with -2000 fails on the balance, and with "a@b.com" and 2000 yields exactly those |

## Left out

- Amounts.Round: Java's `Math.round(float)` returns an `int` that saturates at `Integer.MAX_VALUE`; the model rounds without bound. The source therefore rejects every amount above about 21,474,836.47 (for example `isAmountValid(30000000f)` is false), so `new BankAccount(e, 3e7f)` and `deposit(3e7f)` throw there while the model accepts them. For the same reason a `deposit` that takes the balance past that bound (2,000,000 onto 20,000,000) succeeds in the source and leaves a balance its own `isAmountValid` rejects: the source does not keep its balance invariant there, whereas the model's `Deposit`, `Transfer` and `DepositKeepsBalanceValid` prove it is kept for all amounts.
- Amounts.IsAmountValid: the `0.0001f` tolerance and `float` rounding are not modelled; the scaled amount must equal its rounding exactly. The source also accepts amounts within `1e-6` of a whole number of cents, such as `5e-7f` (scaled 5e-5 < 1e-4); the model rejects them and accepts exactly the non-negative whole numbers of cents.
- Accounts.BankAccount.Withdraw, Deposit and Transfer: `balance -= amount` and `balance += amount` are exact. The `float` rounding of large balances is not modelled.
- Exception message text: only the kind of error is kept (the `Error` datatype).
- Java's regular-expression engine: the pattern is stated directly as a predicate on strings.
- Concurrency: the source is single-threaded and has no locking.
