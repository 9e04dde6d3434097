/** The customer of the design-patterns bank (1_design_a_bank/customer.py):
    a name, an identifier and a list of accounts. */
module BankCustomers {
  import opened SimpleAccounts

  class Customer {
    var name: string
    var customerId: string
    var accounts: seq<Account>

    constructor (name: string, customerId: string)
      ensures this.name == name && this.customerId == customerId && accounts == []
    {
      this.name := name;
      this.customerId := customerId;
      accounts := [];
    }

    /** `add_account`: appends at the end, without a duplicate check. */
    method AddAccount(account: Account)
      modifies this
      ensures accounts == old(accounts) + [account]
      ensures name == old(name) && customerId == old(customerId)
    {
      accounts := accounts + [account];
    }
  }
}
