/**
 * The account's unit-test scenarios (plus one case implied by the order of the
 * withdrawal checks), each as a client of CustomerAccount that
 * uses only the methods' contracts. Every scenario starts from a fresh account
 * and the default rule, as the test fixture does.
 */
module AccountScenarios {
  import opened Wrappers
  import opened Rules
  import opened Accounts

  /** An account without money has balance 0.0. */
  method AccountWithoutMoneyHasZeroBalance() returns (b: real)
    ensures b == 0.0
  {
    var account := new CustomerAccount();
    b := account.GetBalance();
  }

  /** Adding 20.0 raises the initial balance by 20.0. */
  method AddPositiveAmount() returns (initial: real, after: real)
    ensures initial == 0.0 && after == initial + 20.0
  {
    var account := new CustomerAccount();
    initial := account.GetBalance();
    var _ := account.Add(Some(20.0));
    after := account.GetBalance();
  }

  /** Adding -20.0 or null is an illegal argument naming that amount; the balance stays 0.0. */
  method AddNegativeOrNullAmount() returns (negative: Result<()>, absent: Result<()>, after: real)
    ensures negative == Err(IllegalAmount(AddedAmount, Some(-20.0)))
    ensures absent == Err(IllegalAmount(AddedAmount, None))
    ensures negative.error.IsIllegalArgument() && absent.error.IsIllegalArgument()
    ensures after == 0.0
  {
    var account := new CustomerAccount();
    negative := account.Add(Some(-20.0));
    absent := account.Add(None);
    after := account.GetBalance();
  }

  /** After adding 100.0, withdrawing 20.0 reports 80.0. */
  method WithdrawAndReportBalance() returns (reported: Result<real>)
    ensures reported == Ok(80.0)
  {
    var account := new CustomerAccount();
    var _ := account.Add(Some(100.0));
    reported := account.WithdrawAndReportBalance(Some(20.0), Some(DefaultRule));
  }

  /** Withdrawing 20.0 from an empty account is an illegal balance of -20.0 and leaves 0.0. */
  method WithdrawAndThrowIllegalBalance() returns (refused: Result<real>, after: real)
    ensures refused == Err(IllegalBalance(-20.0))
    ensures !refused.error.IsIllegalArgument()
    ensures after == 0.0
  {
    var account := new CustomerAccount();
    refused := account.WithdrawAndReportBalance(Some(20.0), Some(DefaultRule));
    after := account.GetBalance();
  }

  /**
   * Withdrawing -20.0, withdrawing without a rule and withdrawing null are
   * illegal arguments. One case is added to the test's three: a null amount
   * with a null rule reports the amount, since the amount is checked first.
   */
  method WithdrawAndThrowIllegalArgument() returns (negative: Result<real>, noRule: Result<real>, absent: Result<real>, bothAbsent: Result<real>)
    ensures negative == Err(IllegalAmount(WithdrawnAmount, Some(-20.0)))
    ensures noRule == Err(MissingRule)
    ensures absent == Err(IllegalAmount(WithdrawnAmount, None))
    ensures bothAbsent == Err(IllegalAmount(WithdrawnAmount, None))
  {
    var account := new CustomerAccount();
    negative := account.WithdrawAndReportBalance(Some(-20.0), Some(DefaultRule));
    noRule := account.WithdrawAndReportBalance(Some(20.0), None);
    absent := account.WithdrawAndReportBalance(None, Some(DefaultRule));
    bothAbsent := account.WithdrawAndReportBalance(None, None);
  }
}
