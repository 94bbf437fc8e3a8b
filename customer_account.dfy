/**
 * A customer account: a balance that starts at zero, deposits of positive
 * amounts, and withdrawals guarded by a caller-supplied account rule.
 *
 * The two guarded operations are first given as functions of the balance
 * before the call (Deposit, Withdrawal); the class CustomerAccount holds the
 * balance as a mutable field and its methods are proved to follow them.
 */
module Accounts {
  import opened Wrappers
  import opened Rules

  /** Which amount argument was rejected: the one of `add` or of `withdrawAndReportBalance`. */
  datatype AmountArgument = AddedAmount | WithdrawnAmount

  /**
   * The two exceptions of the account. IllegalAmount and MissingRule are the
   * illegal-argument cases; IllegalAmount carries the rejected amount (None for
   * a null amount). IllegalBalance carries the candidate balance the rule refused.
   */
  datatype AccountError =
    | IllegalAmount(argument: AmountArgument, amount: Option<real>)
    | MissingRule
    | IllegalBalance(candidate: real)
  {
    /** True of the errors thrown as an illegal-argument exception. */
    predicate IsIllegalArgument()
    {
      IllegalAmount? || MissingRule?
    }
  }

  /** The outcome of an account operation: a value, or the error that was thrown. */
  datatype Result<+T> = Ok(value: T) | Err(error: AccountError)

  /** The balance of a newly constructed account. */
  const InitialBalance: real := 0.0

  /** isValidAmount: an amount is usable when it is present and strictly positive. */
  predicate IsValidAmount(amount: Option<real>)
  {
    amount.Some? && amount.value > 0.0
  }

  /** isValidAccountRule: a rule is usable when it is present. */
  predicate IsValidAccountRule(rule: Option<Rule>)
  {
    rule.Some?
  }

  /**
   * add, as a function of the balance before the call: the new balance, or the
   * error. A successful deposit strictly raises the balance; the only error is
   * the illegal `add` amount, carrying the rejected value.
   */
  function Deposit(balance: real, addedAmount: Option<real>): (r: Result<real>)
    ensures r.Ok? ==> r.value > balance
    ensures r.Err? ==> r.error == IllegalAmount(AddedAmount, addedAmount) && r.error.IsIllegalArgument()
  {
    if !IsValidAmount(addedAmount) then Err(IllegalAmount(AddedAmount, addedAmount))
    else Ok(balance + addedAmount.value)
  }

  /**
   * withdrawAndReportBalance, as a function of the balance before the call: the
   * new (and reported) balance, or the error. The amount is checked first, then
   * the presence of the rule, then the rule's verdict on the candidate balance.
   * A successful withdrawal strictly lowers the balance to one the rule permits;
   * an illegal balance names a candidate below the balance that the rule refused.
   */
  function Withdrawal(balance: real, withdrawnAmount: Option<real>, rule: Option<Rule>): (r: Result<real>)
    ensures r.Ok? ==> r.value < balance && rule.Some? && rule.value(r.value)
    ensures r.Err? && r.error.IllegalBalance? ==>
      r.error.candidate < balance && rule.Some? && !rule.value(r.error.candidate)
    ensures r.Err? && r.error.IllegalAmount? ==> r.error == IllegalAmount(WithdrawnAmount, withdrawnAmount)
  {
    if !IsValidAmount(withdrawnAmount) then Err(IllegalAmount(WithdrawnAmount, withdrawnAmount))
    else if !IsValidAccountRule(rule) then Err(MissingRule)
    else if !rule.value(balance - withdrawnAmount.value) then Err(IllegalBalance(balance - withdrawnAmount.value))
    else Ok(balance - withdrawnAmount.value)
  }

  /** The balance after an operation with outcome `r`: committed on success, untouched on failure. */
  function Settled(balance: real, r: Result<real>): (after: real)
  {
    if r.Ok? then r.value else balance
  }

  class CustomerAccount {
    var balance: real

    /** A new account holds exactly zero. */
    constructor ()
      ensures balance == InitialBalance
    {
      balance := InitialBalance;
    }

    /** getBalance: the current balance; reading it changes nothing. */
    method GetBalance() returns (b: real)
      ensures b == balance
    {
      b := balance;
    }

    /**
     * add: deposit a present, strictly positive amount. On an invalid amount the
     * call fails with IllegalAmount(AddedAmount, amount) and the balance is kept.
     */
    method Add(addedAmount: Option<real>) returns (outcome: Result<()>)
      modifies this
      ensures Deposit(old(balance), addedAmount) == (if outcome.Ok? then Ok(balance) else Err(outcome.error))
      ensures outcome.Err? ==> balance == old(balance)
      ensures old(balance) >= 0.0 ==> balance >= 0.0
    {
      if !IsValidAmount(addedAmount) {
        return Err(IllegalAmount(AddedAmount, addedAmount));
      }
      balance := balance + addedAmount.value;
      return Ok(());
    }

    /**
     * withdrawAndReportBalance: withdraw a present, strictly positive amount if
     * the rule permits the balance that would remain, and report that balance.
     * Every failure is decided before the balance is touched.
     */
    method WithdrawAndReportBalance(withdrawnAmount: Option<real>, rule: Option<Rule>) returns (r: Result<real>)
      modifies this
      ensures r == Withdrawal(old(balance), withdrawnAmount, rule)
      ensures balance == Settled(old(balance), r)
      ensures r.Ok? ==> r.value == balance
      ensures old(balance) >= 0.0 && rule.Some? && ForbidsOverdraft(rule.value) ==> balance >= 0.0
    {
      if !IsValidAmount(withdrawnAmount) {
        return Err(IllegalAmount(WithdrawnAmount, withdrawnAmount));
      }
      if !IsValidAccountRule(rule) {
        return Err(MissingRule);
      }
      if !rule.value(balance - withdrawnAmount.value) {
        return Err(IllegalBalance(balance - withdrawnAmount.value));
      }
      balance := balance - withdrawnAmount.value;
      return Ok(balance);
    }
  }

  /**
   * The error taxonomy: an illegal amount and a missing rule are illegal
   * arguments; an illegal balance is an error kind of its own.
   */
  lemma ErrorKinds(argument: AmountArgument, amount: Option<real>, candidate: real)
    ensures IllegalAmount(argument, amount).IsIllegalArgument()
    ensures MissingRule.IsIllegalArgument()
    ensures !IllegalBalance(candidate).IsIllegalArgument()
  {
  }

  /** A present, strictly positive deposit raises the balance by exactly that amount. */
  lemma DepositAddsAmount(balance: real, amount: real)
    requires amount > 0.0
    ensures Deposit(balance, Some(amount)) == Ok(balance + amount)
    ensures Settled(balance, Deposit(balance, Some(amount))) - balance == amount
  {
  }

  /** An absent or non-positive deposit is an illegal argument naming that amount, and changes nothing. */
  lemma DepositRejectsInvalidAmount(balance: real, addedAmount: Option<real>)
    requires addedAmount.None? || addedAmount.value <= 0.0
    ensures Deposit(balance, addedAmount) == Err(IllegalAmount(AddedAmount, addedAmount))
    ensures Deposit(balance, addedAmount).error.IsIllegalArgument()
    ensures Settled(balance, Deposit(balance, addedAmount)) == balance
  {
  }

  /** A deposit succeeds exactly when its amount is present and strictly positive. */
  lemma DepositSucceedsIff(balance: real, addedAmount: Option<real>)
    ensures Deposit(balance, addedAmount).Ok? <==> addedAmount.Some? && addedAmount.value > 0.0
  {
  }

  /**
   * The amount is checked first: an absent or non-positive amount is reported,
   * whatever the rule (even an absent one) and whatever the balance.
   */
  lemma WithdrawalChecksAmountFirst(balance: real, withdrawnAmount: Option<real>, rule: Option<Rule>)
    requires withdrawnAmount.None? || withdrawnAmount.value <= 0.0
    ensures Withdrawal(balance, withdrawnAmount, rule) == Err(IllegalAmount(WithdrawnAmount, withdrawnAmount))
    ensures Settled(balance, Withdrawal(balance, withdrawnAmount, rule)) == balance
  {
  }

  /** With a valid amount and no rule, the withdrawal fails with MissingRule, whatever the balance. */
  lemma WithdrawalRequiresRule(balance: real, amount: real)
    requires amount > 0.0
    ensures Withdrawal(balance, Some(amount), None) == Err(MissingRule)
    ensures Settled(balance, Withdrawal(balance, Some(amount), None)) == balance
  {
  }

  /** A rule that refuses `balance - amount` makes the withdrawal fail with exactly that candidate. */
  lemma WithdrawalRefusedByRule(balance: real, amount: real, rule: Rule)
    requires amount > 0.0 && !rule(balance - amount)
    ensures Withdrawal(balance, Some(amount), Some(rule)) == Err(IllegalBalance(balance - amount))
    ensures Settled(balance, Withdrawal(balance, Some(amount), Some(rule))) == balance
  {
  }

  /** A rule that accepts `balance - amount` lets the withdrawal commit and report that balance. */
  lemma WithdrawalAcceptedByRule(balance: real, amount: real, rule: Rule)
    requires amount > 0.0 && rule(balance - amount)
    ensures Withdrawal(balance, Some(amount), Some(rule)) == Ok(balance - amount)
    ensures Settled(balance, Withdrawal(balance, Some(amount), Some(rule))) == balance - amount
  {
  }

  /** The outcome of a withdrawal is always one of the four cases above, only the last one committing. */
  lemma WithdrawalSucceedsIff(balance: real, withdrawnAmount: Option<real>, rule: Option<Rule>)
    ensures Withdrawal(balance, withdrawnAmount, rule).Ok? <==>
      withdrawnAmount.Some? && withdrawnAmount.value > 0.0 && rule.Some? && rule.value(balance - withdrawnAmount.value)
    ensures Withdrawal(balance, withdrawnAmount, rule).Err? ==>
      Settled(balance, Withdrawal(balance, withdrawnAmount, rule)) == balance
  {
  }

  /** Under the default rule a positive withdrawal succeeds exactly when it does not exceed the balance. */
  lemma DefaultWithdrawalSucceedsIff(balance: real, amount: real)
    requires amount > 0.0
    ensures Withdrawal(balance, Some(amount), Some(DefaultRule)).Ok? <==> amount <= balance
    ensures amount > balance ==> Withdrawal(balance, Some(amount), Some(DefaultRule)) == Err(IllegalBalance(balance - amount))
  {
  }

  /** Withdrawing the whole (positive) balance under the default rule succeeds and leaves zero. */
  lemma DefaultWithdrawalOfWholeBalance(balance: real)
    requires balance > 0.0
    ensures Withdrawal(balance, Some(balance), Some(DefaultRule)) == Ok(0.0)
  {
  }

  /**
   * Under a rule that forbids overdraft, no call, successful or not, takes a
   * non-negative balance below zero.
   */
  lemma NonNegativeBalanceKept(balance: real, amount: Option<real>, rule: Option<Rule>)
    requires balance >= 0.0
    requires rule.Some? ==> ForbidsOverdraft(rule.value)
    ensures Settled(balance, Deposit(balance, amount)) >= 0.0
    ensures Settled(balance, Withdrawal(balance, amount, rule)) >= 0.0
  {
  }

  /** A deposit followed by a withdrawal of the same amount under the default rule restores the balance. */
  lemma DepositThenWithdrawRestores(balance: real, amount: real)
    requires balance >= 0.0 && amount > 0.0
    ensures Deposit(balance, Some(amount)) == Ok(balance + amount)
    ensures Withdrawal(balance + amount, Some(amount), Some(DefaultRule)) == Ok(balance)
  {
  }

  /** A successful withdrawal is undone by depositing the same amount again. */
  lemma WithdrawThenDepositRestores(balance: real, amount: Option<real>, rule: Option<Rule>)
    requires Withdrawal(balance, amount, rule).Ok?
    ensures Deposit(Withdrawal(balance, amount, rule).value, amount) == Ok(balance)
  {
  }
}
