/**
 * Sequences of calls on one customer account, starting from any balance and,
 * in particular, from a freshly constructed account. Each call is settled as
 * CustomerAccount's methods settle it: committed on success, a no-op on failure.
 */
module AccountHistory {
  import opened Wrappers
  import opened Rules
  import opened Accounts

  /** One call on the account, with its (possibly null) arguments. */
  datatype Call =
    | AddCall(addedAmount: Option<real>)
    | WithdrawCall(withdrawnAmount: Option<real>, rule: Option<Rule>)

  /** The outcome of one call on an account holding `balance`. */
  function Outcome(balance: real, call: Call): (r: Result<real>)
  {
    match call
    case AddCall(a) => Deposit(balance, a)
    case WithdrawCall(a, rule) => Withdrawal(balance, a, rule)
  }

  /** The balance after making the calls one after the other. */
  function Replay(balance: real, calls: seq<Call>): (final: real)
    decreases |calls|
  {
    if calls == [] then balance
    else Replay(Settled(balance, Outcome(balance, calls[0])), calls[1..])
  }

  /** A call whose rule, when it has one, forbids overdraft (as the default rule does). */
  ghost predicate KeepsOutOfOverdraft(call: Call)
  {
    call.WithdrawCall? && call.rule.Some? ==> ForbidsOverdraft(call.rule.value)
  }

  /** The sum of a sequence of amounts. */
  function Sum(amounts: seq<real>): (total: real)
    decreases |amounts|
  {
    if amounts == [] then 0.0 else amounts[0] + Sum(amounts[1..])
  }

  /** One `add` call per amount, in order. */
  function Deposits(amounts: seq<real>): (calls: seq<Call>)
    ensures |calls| == |amounts|
    ensures forall i :: 0 <= i < |amounts| ==> calls[i] == AddCall(Some(amounts[i]))
    decreases |amounts|
  {
    if amounts == [] then [] else [AddCall(Some(amounts[0]))] + Deposits(amounts[1..])
  }

  /** Making `first` and then `second` is making the calls of `first + second`. */
  lemma {:induction false} ReplayConcat(balance: real, first: seq<Call>, second: seq<Call>)
    ensures Replay(balance, first + second) == Replay(Replay(balance, first), second)
    decreases |first|
  {
    if first == [] {
      assert first + second == second;
    } else {
      assert (first + second)[1..] == first[1..] + second;
      ReplayConcat(Settled(balance, Outcome(balance, first[0])), first[1..], second);
    }
  }

  /** A call that fails leaves the balance reached so far untouched. */
  lemma FailedCallIsNoOp(balance: real, calls: seq<Call>, call: Call)
    requires Outcome(Replay(balance, calls), call).Err?
    ensures Replay(balance, calls + [call]) == Replay(balance, calls)
  {
    ReplayConcat(balance, calls, [call]);
    assert Replay(Replay(balance, calls), [call]) == Replay(Settled(Replay(balance, calls), Outcome(Replay(balance, calls), call)), []);
  }

  /**
   * When every rule used forbids overdraft, a non-negative balance stays
   * non-negative through any sequence of calls, successful or not.
   */
  lemma {:induction false} ReplayKeepsNonNegative(balance: real, calls: seq<Call>)
    requires balance >= 0.0
    requires forall i :: 0 <= i < |calls| ==> KeepsOutOfOverdraft(calls[i])
    ensures Replay(balance, calls) >= 0.0
    decreases |calls|
  {
    if calls != [] {
      var call := calls[0];
      assert KeepsOutOfOverdraft(call);
      match call {
        case AddCall(a) => NonNegativeBalanceKept(balance, a, None);
        case WithdrawCall(a, rule) => NonNegativeBalanceKept(balance, a, rule);
      }
      assert forall i :: 0 <= i < |calls[1..]| ==> KeepsOutOfOverdraft(calls[1..][i]) by {
        forall i | 0 <= i < |calls[1..]| ensures KeepsOutOfOverdraft(calls[1..][i]) {
          assert calls[1..][i] == calls[i + 1];
        }
      }
      ReplayKeepsNonNegative(Settled(balance, Outcome(balance, call)), calls[1..]);
    }
  }

  /**
   * From construction on, an account whose withdrawals all use the default
   * rule (or a missing rule, or another rule that forbids overdraft) never
   * holds a negative balance.
   */
  lemma ConstructedAccountNeverOverdrawn(calls: seq<Call>)
    requires forall i :: 0 <= i < |calls| ==> KeepsOutOfOverdraft(calls[i])
    ensures Replay(InitialBalance, calls) >= 0.0
  {
    ReplayKeepsNonNegative(InitialBalance, calls);
  }

  /** Valid deposits alone raise the balance by exactly their sum. */
  lemma {:induction false} DepositsAddTheirSum(balance: real, amounts: seq<real>)
    requires forall i :: 0 <= i < |amounts| ==> amounts[i] > 0.0
    ensures Replay(balance, Deposits(amounts)) == balance + Sum(amounts)
    decreases |amounts|
  {
    if amounts != [] {
      var calls := Deposits(amounts);
      assert calls[0] == AddCall(Some(amounts[0]));
      assert calls[1..] == Deposits(amounts[1..]);
      DepositAddsAmount(balance, amounts[0]);
      DepositsAddTheirSum(balance + amounts[0], amounts[1..]);
    }
  }
}
