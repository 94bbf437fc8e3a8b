# Customer account with rule-checked withdrawals

A Dafny model of the account core of a small banking exercise. A `CustomerAccount`
holds one balance. The balance starts at zero and changes only through two guarded
operations:

- `add` deposits an amount. The amount must be present and strictly positive.
- `withdrawAndReportBalance` withdraws an amount and reports the new balance. It checks,
  in this order, that the amount is present and positive, that a rule is present, and
  that the rule accepts the balance the withdrawal would leave (the *candidate balance*).

An *account rule* decides whether a candidate balance is acceptable. The default rule,
`CustomerAccountRule`, accepts a candidate exactly when it is at least zero. Every failure
is decided before the balance is touched, so a call that fails leaves the balance unchanged.

Layout:

- `wrappers.dfy`: module `Wrappers`, an `Option` type standing for Java's nullable references.
- `account_rule.dfy`: module `Rules`. `Rule` is the type `real -> bool`, a total function that
  reads no state, so any rule depends only on its argument. The file also holds the default
  rule `WithdrawPermitted` (`DefaultRule` as a value) and its properties.
- `customer_account.dfy`: module `Accounts`. It holds the error taxonomy (`AccountError`), the
  two operations as functions of the balance before the call (`Deposit`, `Withdrawal`), and
  the class `CustomerAccount`. The class stores `balance` as a mutable field, and its methods
  are proved to follow those functions.
- `account_history.dfy`: module `AccountHistory`. `Replay` runs a sequence of calls from a
  given balance, or from construction. Its lemmas are proved by induction over the sequence.
- `account_scenarios.dfy`: module `AccountScenarios`. The repository's unit-test scenarios,
  written as clients of `CustomerAccount`.

Errors are values instead of exceptions:

- `IllegalAmount(argument, amount)` covers an invalid amount in either operation. `argument`
  says which operation's amount it was. `amount` is the rejected value, or `None` for null.
- `MissingRule` covers a withdrawal called without a rule.
- `IllegalBalance(candidate)` covers a candidate balance the rule refused, and carries that
  candidate.

The first two are the illegal-argument exception of the source (`IsIllegalArgument`).

## Model

| member | source | states |
|---|---|---|
| `Rules.WithdrawPermitted` | src/main/java/com/priceminister/account/implementation/CustomerAccountRule.java:25-27 | the default rule: a candidate balance is permitted when it is at least 0 (its properties are stated by the `DefaultRule…` lemmas) |
| `Rules.DefaultRulePermitsExactlyNonNegative` | src/main/java/com/priceminister/account/implementation/CustomerAccountRule.java:25-27 | the default rule permits a candidate balance if and only if it is at least 0 |
| `Rules.DefaultRulePermitsZero` | src/main/java/com/priceminister/account/implementation/CustomerAccountRule.java:26 | the boundary candidate 0 is permitted |
| `Rules.DefaultRuleRejectsNegative` | src/main/java/com/priceminister/account/implementation/CustomerAccountRule.java:26 | every strictly negative candidate is rejected |
| `Rules.DefaultRuleMonotone` | src/main/java/com/priceminister/account/implementation/CustomerAccountRule.java:26 | if a candidate is permitted, every larger candidate is permitted |
| `Rules.DefaultRuleForbidsOverdraft` | src/main/java/com/priceminister/account/implementation/CustomerAccountRule.java:25-26 | nothing the default rule permits is negative |
| `Accounts.IsValidAmount` | src/main/java/com/priceminister/account/implementation/CustomerAccount.java:73-75 | an amount is valid when it is present and strictly positive (used by both operations; see `DepositSucceedsIff` and `WithdrawalSucceedsIff`) |
| `Accounts.IsValidAccountRule` | src/main/java/com/priceminister/account/implementation/CustomerAccount.java:63-65 | a rule is valid when it is present (see `WithdrawalRequiresRule`) |
| `Accounts.Deposit` | src/main/java/com/priceminister/account/implementation/CustomerAccount.java:24-32 | a successful deposit strictly raises the balance; the only error is the illegal `add` amount carrying the rejected value |
| `Accounts.Withdrawal` | src/main/java/com/priceminister/account/implementation/CustomerAccount.java:37-55 | a successful withdrawal strictly lowers the balance to one the rule permits; an illegal balance names a candidate below the balance that the rule refused; an illegal amount names the withdrawn amount |
| `Accounts.ErrorKinds` | src/main/java/com/priceminister/account/implementation/CustomerAccount.java:26-51 | an illegal amount and a missing rule are illegal-argument errors; an illegal balance is an error kind of its own |
| `Accounts.CustomerAccount.constructor` | src/main/java/com/priceminister/account/implementation/CustomerAccount.java:10-12 | a new account's balance is exactly 0 (a `real`, so never absent) |
| `Accounts.CustomerAccount.GetBalance` | src/main/java/com/priceminister/account/implementation/CustomerAccount.java:17-19 | returns the current balance and changes nothing |
| `Accounts.CustomerAccount.Add` | src/main/java/com/priceminister/account/implementation/CustomerAccount.java:24-32 | the outcome and new balance are those of `Deposit` on the old balance; on failure the balance is unchanged; a non-negative balance stays non-negative |
| `Accounts.CustomerAccount.WithdrawAndReportBalance` | src/main/java/com/priceminister/account/implementation/CustomerAccount.java:37-55 | the outcome is that of `Withdrawal` on the old balance; the balance is committed only on success, and the reported value equals the new balance; under a rule forbidding overdraft a non-negative balance stays non-negative |
| `Accounts.DepositAddsAmount` | src/main/java/com/priceminister/account/implementation/CustomerAccount.java:24-31 | a present amount `a > 0` succeeds and raises the balance by exactly `a` |
| `Accounts.DepositRejectsInvalidAmount` | src/main/java/com/priceminister/account/implementation/CustomerAccount.java:25-29 | an absent or non-positive amount fails as an illegal argument naming the `add` amount and that value (or null); the balance is unchanged |
| `Accounts.DepositSucceedsIff` | src/main/java/com/priceminister/account/implementation/CustomerAccount.java:73-75 | a deposit succeeds if and only if its amount is present and strictly positive |
| `Accounts.WithdrawalChecksAmountFirst` | src/main/java/com/priceminister/account/implementation/CustomerAccount.java:38-42 | an absent or non-positive withdrawn amount is reported first, whatever the rule (even a null one) and the balance; the balance is unchanged |
| `Accounts.WithdrawalRequiresRule` | src/main/java/com/priceminister/account/implementation/CustomerAccount.java:44-45 | with a valid amount and no rule, the withdrawal fails with the illegal-argument `MissingRule`; the balance is unchanged |
| `Accounts.WithdrawalRefusedByRule` | src/main/java/com/priceminister/account/implementation/CustomerAccount.java:47-51 | if the rule refuses `balance - amount`, the withdrawal fails with `IllegalBalance` carrying exactly that candidate (its own error kind, not an illegal argument); the balance is unchanged |
| `Accounts.WithdrawalAcceptedByRule` | src/main/java/com/priceminister/account/implementation/CustomerAccount.java:47-54 | if the rule accepts `balance - amount`, the withdrawal reports `balance - amount`, and that becomes the new balance |
| `Accounts.WithdrawalSucceedsIff` | src/main/java/com/priceminister/account/implementation/CustomerAccount.java:37-55 | a withdrawal succeeds if and only if the amount is present and positive, a rule is present, and the rule accepts the candidate; every failure keeps the balance |
| `Accounts.DefaultWithdrawalSucceedsIff` | src/main/java/com/priceminister/account/implementation/CustomerAccount.java:47-54 | under the default rule, a positive withdrawal `w` succeeds if and only if `w <= balance`; otherwise it fails with `IllegalBalance(balance - w)` |
| `Accounts.DefaultWithdrawalOfWholeBalance` | src/main/java/com/priceminister/account/implementation/CustomerAccountRule.java:26 | withdrawing the entire positive balance under the default rule succeeds and leaves 0 |
| `Accounts.NonNegativeBalanceKept` | src/main/java/com/priceminister/account/implementation/CustomerAccount.java:24-55 | under a rule that forbids overdraft, no deposit or withdrawal, successful or not, takes a non-negative balance below 0 |
| `Accounts.DepositThenWithdrawRestores` | src/main/java/com/priceminister/account/implementation/CustomerAccount.java:31-53 | depositing `a` and then withdrawing `a` under the default rule returns to the original non-negative balance |
| `Accounts.WithdrawThenDepositRestores` | src/main/java/com/priceminister/account/implementation/CustomerAccount.java:31-53 | a successful withdrawal of `a` is undone by depositing `a` |
| `AccountHistory.ReplayConcat` | src/main/java/com/priceminister/account/implementation/CustomerAccount.java:24-55 | running two call sequences one after the other is the same as running their concatenation |
| `AccountHistory.FailedCallIsNoOp` | src/main/java/com/priceminister/account/implementation/CustomerAccount.java:25-51 | appending a call that fails leaves the balance reached so far unchanged |
| `AccountHistory.ReplayKeepsNonNegative` | src/main/java/com/priceminister/account/implementation/CustomerAccount.java:24-55 | when every rule used forbids overdraft, any sequence of calls keeps a non-negative balance non-negative |
| `AccountHistory.ConstructedAccountNeverOverdrawn` | src/main/java/com/priceminister/account/implementation/CustomerAccount.java:10-12 | from construction on, with the default rule (or any rule forbidding overdraft), the balance is never negative |
| `AccountHistory.DepositsAddTheirSum` | src/main/java/com/priceminister/account/implementation/CustomerAccount.java:31 | a run of valid deposits raises the balance by exactly the sum of the amounts |
| `AccountScenarios.AccountWithoutMoneyHasZeroBalance` | src/test/java/com/priceminister/account/CustomerAccountTest.java:38-39 | a new account reports balance 0.0 |
| `AccountScenarios.AddPositiveAmount` | src/test/java/com/priceminister/account/CustomerAccountTest.java:46-52 | adding 20.0 to a fresh account raises the balance from 0.0 to 20.0 |
| `AccountScenarios.AddNegativeOrNullAmount` | src/test/java/com/priceminister/account/CustomerAccountTest.java:59-66 | adding -20.0 or null fails as an illegal argument naming -20.0 or null; the balance stays 0.0 |
| `AccountScenarios.WithdrawAndReportBalance` | src/test/java/com/priceminister/account/CustomerAccountTest.java:73-85 | after adding 100.0, withdrawing 20.0 reports 80.0 |
| `AccountScenarios.WithdrawAndThrowIllegalBalance` | src/test/java/com/priceminister/account/CustomerAccountTest.java:93-100 | withdrawing 20.0 from a fresh account fails with `IllegalBalance(-20.0)`; the balance stays 0.0 |
| `AccountScenarios.WithdrawAndThrowIllegalArgument` | src/test/java/com/priceminister/account/CustomerAccountTest.java:107-120 | withdrawing -20.0, withdrawing 20.0 with no rule, and withdrawing null fail with the matching illegal argument; one added case, not in the test: a null amount with a null rule reports the amount, as the check order at CustomerAccount.java:38-45 implies |

## Left out

- Java `Double` arithmetic: amounts and the balance are exact `real`s. Rounding, NaN and infinities are not modelled. Java's `isValidAmount` rejects NaN because `NaN > 0` is false; `real` has no NaN.
- DepositThenWithdrawRestores, WithdrawThenDepositRestores and DepositsAddTheirSum hold in exact arithmetic only. With Java doubles, balance 0.1, then `add(0.2)`, then withdrawing 0.2 reports 0.10000000000000003, not 0.1.
- `IllegalBalanceException` is not part of this model's source files; all they show is that it is unchecked. It is modelled as `IllegalBalance`, an error kind of its own, distinct from the two illegal-argument errors, following the account's two-kind error design. If the Java class extended `IllegalArgumentException`, `ErrorKinds` would not hold of it.
- Error-message text: each error is a datatype value. It carries the rejected argument or candidate, not the `String.valueOf` rendering such as "-20.0".
- `AccountRule` implementations other than the default are modelled as total, pure functions of the candidate balance. A Java rule that throws, keeps state or has side effects is outside the model.
- The `Account` interface (src/main/java/com/priceminister/account/Account.java) has no logic. Its doc comment, that a withdrawal returns the remaining balance, is stated as the `WithdrawAndReportBalance` contract.
- The test fixture's JUnit/AssertJ assertions and slf4j logging are not modelled. The scenarios keep the tests' inputs and expected outcomes.
- Concurrency: the source assumes single-threaded use, and each method is one atomic step here.
