/**
 * The `BankAccount` class: an email fixed at construction and a balance that
 * only `withdraw`, `deposit` and `transfer` change. Every operation runs all of
 * its checks before it touches a balance, so it either applies in full or fails
 * with nothing changed.
 */
module Accounts {
  import opened Wrappers
  import opened Amounts
  import opened Emails

  /**
   * Why an operation was refused. The source throws `IllegalArgumentException`
   * in every case; the messages tell the cases apart.
   */
  datatype Error =
    | InvalidEmail           // "Invalid email"
    | InvalidInitialBalance  // "Invalid initial balance"
    | InvalidAmount          // "Invalid withdrawal/deposit/transfer amount"
    | InvalidDestination     // "Destination account is invalid"
    | InsufficientFunds      // "Insufficient funds", "Insufficient funds for transfer"

  /** How a balance-changing call ended: it returned normally, or it threw. */
  datatype Outcome = Pass | Fail(error: Error)

  /** The checks `withdraw(amount)` makes, in the source's order, on an account holding `balance`. */
  function CheckWithdraw(balance: real, amount: real): (r: Outcome)
    ensures r.Pass? <==> IsAmountValid(amount) && 0.0 < amount <= balance
    ensures r == Fail(InvalidAmount) <==> !(IsAmountValid(amount) && 0.0 < amount)
    ensures r == Fail(InsufficientFunds) <==> IsAmountValid(amount) && 0.0 < amount && amount > balance
  {
    if !IsAmountValid(amount) || amount <= 0.0 then Fail(InvalidAmount)
    else if amount > balance then Fail(InsufficientFunds)
    else Pass
  }

  /** The checks `deposit(amount)` makes. */
  function CheckDeposit(amount: real): (r: Outcome)
    ensures r.Pass? <==> IsAmountValid(amount) && 0.0 < amount
    ensures r.Fail? ==> r.error == InvalidAmount
  {
    if !IsAmountValid(amount) || amount <= 0.0 then Fail(InvalidAmount)
    else Pass
  }

  /** The checks `transfer(amount, destination)` makes; `hasDestination` is `destination != null`. */
  function CheckTransfer(balance: real, amount: real, hasDestination: bool): (r: Outcome)
    ensures r.Pass? <==> hasDestination && IsAmountValid(amount) && 0.0 < amount <= balance
    ensures r == Fail(InvalidDestination) <==> !hasDestination
    ensures r == Fail(InvalidAmount) <==> hasDestination && !(IsAmountValid(amount) && 0.0 < amount)
    ensures r == Fail(InsufficientFunds) <==> hasDestination && IsAmountValid(amount) && 0.0 < amount && amount > balance
  {
    if !hasDestination then Fail(InvalidDestination)
    else if !IsAmountValid(amount) || amount <= 0.0 then Fail(InvalidAmount)
    else if amount > balance then Fail(InsufficientFunds)
    else Pass
  }

  /** The balance after a call whose checks ended in `r`: `balance + delta` if it passed, else unchanged. */
  function Apply(balance: real, r: Outcome, delta: real): (after: real)
    ensures r.Pass? ==> after - balance == delta
    ensures r.Fail? ==> after == balance
  {
    if r.Pass? then balance + delta else balance
  }

  /** A withdrawal, whether it passes or fails, leaves a valid balance valid. */
  lemma WithdrawKeepsBalanceValid(balance: real, amount: real)
    requires IsAmountValid(balance)
    ensures var after := Apply(balance, CheckWithdraw(balance, amount), -amount);
      after >= 0.0 && IsAmountValid(after)
  {
    if CheckWithdraw(balance, amount).Pass? {
      DifferenceIsValid(balance, amount);
    }
  }

  /** A deposit, whether it passes or fails, leaves a valid balance valid. */
  lemma DepositKeepsBalanceValid(balance: real, amount: real)
    requires IsAmountValid(balance)
    ensures var after := Apply(balance, CheckDeposit(amount), amount);
      after >= 0.0 && IsAmountValid(after)
  {
    if CheckDeposit(amount).Pass? {
      SumIsValid(balance, amount);
    }
  }

  /** A successful `withdraw(x)` followed by `deposit(x)` passes and restores the balance. */
  lemma WithdrawThenDepositRestores(balance: real, amount: real)
    requires CheckWithdraw(balance, amount) == Pass
    ensures var between := Apply(balance, Pass, -amount);
      CheckDeposit(amount) == Pass && Apply(between, Pass, amount) == balance
  {
  }

  /**
   * Withdrawing the whole of a positive balance passes and leaves zero (on an
   * empty account that amount is invalid); withdrawing one cent more than the
   * balance, empty or not, fails with insufficient funds.
   */
  lemma WithdrawBoundary(balance: real)
    requires IsAmountValid(balance)
    ensures balance > 0.0 ==> CheckWithdraw(balance, balance) == Pass && Apply(balance, Pass, -balance) == 0.0
    ensures balance == 0.0 ==> CheckWithdraw(balance, balance) == Fail(InvalidAmount)
    ensures CheckWithdraw(balance, balance + FromCents(1)) == Fail(InsufficientFunds)
  {
    CentsAreValid(1);
    SumIsValid(balance, FromCents(1));
  }

  /**
   * Once the checks of `transfer` pass, the `withdraw` and the `deposit` it
   * performs both pass, so no rollback is ever needed; both balances stay
   * valid, and the total number of cents is conserved.
   */
  lemma TransferNeedsNoRollback(source: real, destination: real, amount: real)
    requires IsAmountValid(source) && IsAmountValid(destination)
    requires CheckTransfer(source, amount, true) == Pass
    ensures CheckWithdraw(source, amount) == Pass && CheckDeposit(amount) == Pass
    ensures IsAmountValid(source - amount) && IsAmountValid(destination + amount)
    ensures ToCents(source - amount) + ToCents(destination + amount) == ToCents(source) + ToCents(destination)
  {
    DifferenceIsValid(source, amount);
    SumIsValid(destination, amount);
  }

  class BankAccount {
    /** Final: no method can assign it. */
    const email: string
    var balance: real

    /** The class invariant: a valid email and a non-negative whole number of cents. */
    predicate Valid()
      reads this
      ensures Valid() ==> balance >= 0.0 && FromCents(Round(balance * 100.0)) == balance && |email| >= 6
    {
      IsEmailValid(Some(email)) && balance >= 0.0 && IsAmountValid(balance)
    }

    /** The body of the source's constructor once both checks have passed. */
    constructor (email: string, balance: real)
      requires IsEmailValid(Some(email)) && balance >= 0.0 && IsAmountValid(balance)
      ensures Valid()
      ensures this.email == email && this.balance == balance
    {
      this.email := email;
      this.balance := balance;
    }

    /**
     * `new BankAccount(email, balance)`: checks the email, then the balance,
     * and yields an account holding exactly the arguments; it throws otherwise.
     */
    static method Open(email: Option<string>, balance: real) returns (r: Result<BankAccount, Error>)
      ensures r.Success? <==> IsEmailValid(email) && balance >= 0.0 && IsAmountValid(balance)
      ensures r.Failure? ==> r.error == if !IsEmailValid(email) then InvalidEmail else InvalidInitialBalance
      ensures r.Success? ==> fresh(r.value) && r.value.Valid()
      ensures r.Success? ==> Some(r.value.email) == email && r.value.balance == balance
    {
      if !IsEmailValid(email) {
        return Failure(InvalidEmail);
      }
      if balance < 0.0 || !IsAmountValid(balance) {
        return Failure(InvalidInitialBalance);
      }
      var account := new BankAccount(email.value, balance);
      return Success(account);
    }

    /** `getBalance()`: on a valid account, a non-negative whole number of cents. */
    function GetBalance(): (b: real)
      reads this
      ensures b == balance
      ensures Valid() ==> b >= 0.0 && FromCents(ToCents(b)) == b
    {
      balance
    }

    /** `getEmail()`: on a valid account, an email the check accepts. */
    function GetEmail(): (e: string)
      ensures e == email
      ensures Valid() ==> MatchesEmailPattern(e)
    {
      EmailValidIffPattern(email);
      email
    }

    /**
     * `withdraw(amount)`: a positive valid amount no larger than the balance is
     * taken off; anything else fails and leaves the balance as it was.
     */
    method Withdraw(amount: real) returns (r: Outcome)
      requires Valid()
      modifies this
      ensures Valid()
      ensures r == CheckWithdraw(old(balance), amount)
      ensures balance == Apply(old(balance), r, -amount)
    {
      if !IsAmountValid(amount) || amount <= 0.0 {
        return Fail(InvalidAmount);
      }
      if amount > balance {
        return Fail(InsufficientFunds);
      }
      WithdrawKeepsBalanceValid(balance, amount);
      balance := balance - amount;
      return Pass;
    }

    /** `deposit(amount)`: a positive valid amount is added; anything else fails and changes nothing. */
    method Deposit(amount: real) returns (r: Outcome)
      requires Valid()
      modifies this
      ensures Valid()
      ensures r == CheckDeposit(amount)
      ensures balance == Apply(old(balance), r, amount)
    {
      if !IsAmountValid(amount) || amount <= 0.0 {
        return Fail(InvalidAmount);
      }
      DepositKeepsBalanceValid(balance, amount);
      balance := balance + amount;
      return Pass;
    }

    /**
     * `transfer(amount, destination)`: every check precedes the first change;
     * then a `withdraw` here and a `deposit` on `destination`, which may be this
     * very account. The sum of the two balances never changes.
     */
    method Transfer(amount: real, destination: BankAccount?) returns (r: Outcome)
      requires Valid()
      requires destination != null ==> destination.Valid()
      modifies this, destination
      ensures Valid() && (destination != null ==> destination.Valid())
      ensures r == CheckTransfer(old(balance), amount, destination != null)
      ensures destination != this ==> balance == Apply(old(balance), r, -amount)
      ensures destination != null && destination != this ==>
        destination.balance == Apply(old(destination.balance), r, amount)
      ensures destination == this ==> balance == old(balance)
      ensures destination != null ==> balance + destination.balance == old(balance + destination.balance)
    {
      if destination == null {
        return Fail(InvalidDestination);
      }
      if !IsAmountValid(amount) || amount <= 0.0 {
        return Fail(InvalidAmount);
      }
      if amount > balance {
        return Fail(InsufficientFunds);
      }
      var withdrawn := Withdraw(amount);
      var deposited := destination.Deposit(amount);
      assert withdrawn == Pass && deposited == Pass;
      return Pass;
    }
  }
}
