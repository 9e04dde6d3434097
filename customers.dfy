/** The customer of the first bank design (design_a_bank/customer.py): an
    identity, an optional e-mail address, and the list of accounts it
    holds. */
module Customers {
  import opened Outcomes
  import opened Accounts

  /** The sum of the balances of the accounts listed, each as often as it
      is listed. */
  function SumBalances(accounts: seq<Account>): int
    reads set a | a in accounts
  {
    if accounts == [] then 0 else accounts[0].balance + SumBalances(accounts[1..])
  }

  lemma {:induction false} SumBalancesAppend(accounts: seq<Account>, a: Account)
    ensures SumBalances(accounts + [a]) == SumBalances(accounts) + a.balance
  {
    if accounts == [] {
      assert accounts + [a] == [a];
      assert [a][1..] == [];
    } else {
      assert (accounts + [a])[1..] == accounts[1..] + [a];
      SumBalancesAppend(accounts[1..], a);
    }
  }

  class Customer {
    var customerId: string
    var name: string
    var email: Option<string>
    var accounts: seq<Account>

    /** The dataclass constructor: no accounts, and no e-mail unless given. */
    constructor (customerId: string, name: string, email: Option<string> := None)
      ensures this.customerId == customerId && this.name == name && this.email == email
      ensures accounts == []
    {
      this.customerId := customerId;
      this.name := name;
      this.email := email;
      accounts := [];
    }

    /** The `accounts` property: a new list with the same accounts in the
        same order. */
    method AccountsCopy() returns (copy: array<Account>)
      ensures fresh(copy)
      ensures copy[..] == accounts
    {
      var held := accounts;
      copy := new Account[|held|](i requires 0 <= i < |held| => held[i]);
    }

    /** `add_account`: appends at the end, without checking whether the
        account is already held. */
    method AddAccount(account: Account)
      modifies this
      ensures accounts == old(accounts) + [account]
      ensures customerId == old(customerId) && name == old(name) && email == old(email)
    {
      accounts := accounts + [account];
    }

    /** `get_total_balance`: the sum of the held accounts' balances, 0 when
        there are none. */
    method GetTotalBalance() returns (total: int)
      ensures total == SumBalances(accounts)
      ensures accounts == [] ==> total == 0
    {
      total := 0;
      var i := 0;
      while i < |accounts|
        invariant 0 <= i <= |accounts|
        invariant total == SumBalances(accounts[..i])
      {
        SumBalancesAppend(accounts[..i], accounts[i]);
        assert accounts[..i + 1] == accounts[..i] + [accounts[i]];
        total := total + accounts[i].balance;
        i := i + 1;
      }
      assert accounts[..i] == accounts;
    }
  }

  /** Holding the same account twice counts its balance twice. */
  method TotalWithDuplicate(customer: Customer, account: Account) returns (before: int, after: int)
    modifies customer
    ensures after == before + 2 * account.balance
  {
    before := customer.GetTotalBalance();
    customer.AddAccount(account);
    customer.AddAccount(account);
    after := customer.GetTotalBalance();
    SumBalancesAppend(old(customer.accounts), account);
    SumBalancesAppend(old(customer.accounts) + [account], account);
  }
}
