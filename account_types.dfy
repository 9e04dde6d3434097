/** The two withdrawal policies of the first bank design
    (design_a_bank/account_type.py): a savings account may not go below
    zero, a current account may go down to minus its overdraft limit. */
module AccountTypes {

  /** The message of the `ValueError` both the constructor and the setter raise. */
  const NegativeLimitMessage := "Overdraft limit cannot be negative."

  /** Which subclass an account is; a current account carries its limit. */
  datatype Policy = Savings | Current(overdraftLimit: int)

  /** The limit is never negative (the constructor and the setter refuse it). */
  predicate ValidPolicy(p: Policy) {
    p.Current? ==> p.overdraftLimit >= 0
  }

  /** How far below zero the balance may go: nothing for a savings account,
      the overdraft limit for a current account. */
  function Allowance(p: Policy): int {
    match p
    case Savings => 0
    case Current(limit) => limit
  }

  /** `can_withdraw`, dispatched on the subclass: `balance >= amount` for a
      savings account, `balance - amount >= -overdraft_limit` for a current
      one. Either way, the withdrawal is allowed exactly when the balance it
      leaves stays at or above minus the allowance. */
  function CanWithdraw(p: Policy, balance: int, amount: int): (ok: bool)
    ensures ok <==> balance - amount >= -Allowance(p)
  {
    match p
    case Savings => balance >= amount
    case Current(limit) =>
      var projectedBalance := balance - amount;
      projectedBalance >= -limit
  }

  /** A savings account may withdraw its whole balance, and no more. */
  lemma SavingsAllowsExactlyTheBalance(balance: int, amount: int)
    ensures CanWithdraw(Savings, balance, amount) <==> amount <= balance
    ensures CanWithdraw(Savings, balance, balance)
  {
  }

  /** A current account with the default limit 0 follows the savings rule. */
  lemma DefaultLimitIsSavingsRule(balance: int, amount: int)
    ensures CanWithdraw(Current(0), balance, amount) == CanWithdraw(Savings, balance, amount)
  {
  }

  /** A larger limit never refuses a withdrawal a smaller one allows. */
  lemma LargerLimitAllowsMore(small: int, large: int, balance: int, amount: int)
    requires small <= large
    requires CanWithdraw(Current(small), balance, amount)
    ensures CanWithdraw(Current(large), balance, amount)
  {
  }

  /** The worked example of the source's docstring: balance 1000 and limit
      500 allow withdrawing 1500, which ends exactly at minus the allowance,
      and refuse 1501. */
  lemma DocstringExample()
    ensures CanWithdraw(Current(500), 1000, 1500) && 1000 - 1500 == -Allowance(Current(500))
    ensures !CanWithdraw(Current(500), 1000, 1501)
  {
  }
}
