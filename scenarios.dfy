/**
 * The concrete cases the repository's unit tests exercise, stated as lemmas
 * about the validators and as client methods over `BankAccount` that can be
 * proved from the operations' contracts alone.
 */
module Scenarios {
  import opened Wrappers
  import opened Amounts
  import opened Emails
  import opened Accounts

  /** Whole, one-decimal and two-decimal amounts pass; three decimals and negatives fail. */
  lemma AmountExamples()
    ensures IsAmountValid(100.0) && IsAmountValid(1000.05) && IsAmountValid(1000.1)
    ensures !IsAmountValid(100.001) && !IsAmountValid(500.001) && !IsAmountValid(-100.0)
  {
  }

  lemma FirstTestEmailAccepted()
    ensures IsEmailValid(Some("a@b.com"))
  {
    assert SplitsAt("a@b.com", 1, 3);
    EmailValidIffPattern("a@b.com");
  }

  lemma SecondTestEmailAccepted()
    ensures IsEmailValid(Some("a@bb.cc"))
  {
    assert SplitsAt("a@bb.cc", 1, 4);
    EmailValidIffPattern("a@bb.cc");
  }

  lemma DestinationEmailAccepted()
    ensures IsEmailValid(Some("b@b.com"))
  {
    assert SplitsAt("b@b.com", 1, 3);
    EmailValidIffPattern("b@b.com");
  }

  /** The emails the tests accept, and the email of the transfer tests' destination account. */
  lemma AcceptedEmailExamples()
    ensures IsEmailValid(Some("a@b.com")) && IsEmailValid(Some("a@bb.cc")) && IsEmailValid(Some("b@b.com"))
  {
    FirstTestEmailAccepted();
    SecondTestEmailAccepted();
    DestinationEmailAccepted();
  }

  /** The emails the tests reject: empty, no `'@'` (twice) and a one-letter top-level domain. */
  lemma RejectedEmailExamples()
    ensures !IsEmailValid(Some("")) && !IsEmailValid(Some("testemail.com")) && !IsEmailValid(Some("adddcom"))
    ensures !IsEmailValid(Some("jbob@jimbo.h"))
  {
    RejectsNullOrNoAt("");
    RejectsNullOrNoAt("testemail.com");
    RejectsNullOrNoAt("adddcom");
    assert !IsEmailValid(Some("jbob@jimbo.h")) by {
      var s := "jbob@jimbo.h";
      LastIndexOfIs(s, '.', 10);
      assert !IsTopLevelDomain(s[11..]);
    }
  }

  /**
   * An account opened with "a@b.com" and 200: withdraw 100, deposit 100,
   * then transfer all 200 to an account holding 0. Zero, negative and
   * three-decimal amounts, overdrafts and a null destination all fail on the
   * way. Returns both final balances.
   */
  method TransferScenario() returns (source: real, destination: real)
    ensures source == 0.0 && destination == 200.0
  {
    AmountExamples();
    AcceptedEmailExamples();
    RejectedEmailExamples();
    var first := BankAccount.Open(Some("a@b.com"), 200.0);
    var second := BankAccount.Open(Some("b@b.com"), 0.0);
    var a, b := first.value, second.value;
    var r := a.Withdraw(100.0);
    assert r == Pass && a.balance == 100.0;
    r := a.Deposit(100.0);
    assert r == Pass && a.balance == 200.0;
    r := a.Withdraw(0.0);
    assert r == Fail(InvalidAmount);
    r := a.Withdraw(-50.0);
    assert r == Fail(InvalidAmount);
    r := a.Withdraw(500.001);
    assert r == Fail(InvalidAmount);
    r := a.Withdraw(500.0);
    assert r == Fail(InsufficientFunds);
    r := a.Deposit(-100.0);
    assert r == Fail(InvalidAmount);
    r := a.Deposit(100.001);
    assert r == Fail(InvalidAmount);
    r := a.Transfer(-300.0, b);
    assert r == Fail(InvalidAmount);
    r := a.Transfer(100.001, b);
    assert r == Fail(InvalidAmount);
    r := a.Transfer(300.0, b);
    assert r == Fail(InsufficientFunds);
    r := a.Transfer(100.0, null);
    assert r == Fail(InvalidDestination);
    r := a.Transfer(200.0, b);
    assert r == Pass;
    return a.GetBalance(), b.GetBalance();
  }

  /** Opening fails on an email without '@' and on a negative balance, and succeeds otherwise. */
  method OpenScenario() returns (badEmail: Error, badBalance: Error, email: string, balance: real)
    ensures badEmail == InvalidEmail && badBalance == InvalidInitialBalance
    ensures email == "a@b.com" && balance == 2000.0
  {
    AcceptedEmailExamples();
    RejectedEmailExamples();
    var r := BankAccount.Open(Some("adddcom"), 2000.0);
    badEmail := r.error;
    r := BankAccount.Open(Some("a@b.com"), -2000.0);
    badBalance := r.error;
    CentsAreValid(200000);
    r := BankAccount.Open(Some("a@b.com"), 2000.0);
    email, balance := r.value.GetEmail(), r.value.GetBalance();
  }
}
