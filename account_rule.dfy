/**
 * Withdrawal policies (the AccountRule capability) and the default policy of a
 * customer account (CustomerAccountRule).
 */
module Rules {

  /**
   * An account rule: given the balance a withdrawal would leave behind, it says
   * whether that withdrawal is permitted. A Dafny arrow `real -> bool` is total
   * and reads no state, so every rule is a pure function of the candidate
   * balance alone.
   */
  type Rule = real -> bool

  /** CustomerAccountRule.withdrawPermitted: no withdrawal may leave a negative balance. */
  function WithdrawPermitted(resultingAccountBalance: real): (permitted: bool)
  {
    resultingAccountBalance >= 0.0
  }

  /** The default rule, as a value that can be handed to a withdrawal. */
  const DefaultRule: Rule := WithdrawPermitted

  /** A rule that never lets the balance go below zero. */
  ghost predicate ForbidsOverdraft(rule: Rule)
  {
    forall candidate :: rule(candidate) ==> candidate >= 0.0
  }

  /** A rule that, permitting some balance, permits every larger one. */
  ghost predicate Monotone(rule: Rule)
  {
    forall lower, higher :: lower <= higher && rule(lower) ==> rule(higher)
  }

  /** The default rule permits a candidate balance exactly when it is not negative. */
  lemma DefaultRulePermitsExactlyNonNegative(candidate: real)
    ensures DefaultRule(candidate) <==> candidate >= 0.0
  {
  }

  /** The boundary: a withdrawal that leaves exactly zero is permitted. */
  lemma DefaultRulePermitsZero()
    ensures DefaultRule(0.0)
  {
  }

  /** Every strictly negative candidate balance is rejected. */
  lemma DefaultRuleRejectsNegative(candidate: real)
    requires candidate < 0.0
    ensures !DefaultRule(candidate)
  {
  }

  /** Permitting a balance means permitting every larger balance. */
  lemma DefaultRuleMonotone()
    ensures Monotone(DefaultRule)
  {
  }

  /** The default rule is one of the rules that forbid an overdraft. */
  lemma DefaultRuleForbidsOverdraft()
    ensures ForbidsOverdraft(DefaultRule)
  {
  }
}
