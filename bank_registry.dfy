/** The registry of the design-patterns bank (1_design_a_bank/bank.py): a
    dictionary of customers by identifier and one of accounts by number, and
    the deposit, withdrawal and transfer operations over them. The source
    makes the bank a process-wide singleton; here it is one explicitly
    constructed object. The accounts follow SimpleAccounts, whose interface
    is the one bank.py calls. */
module BankRegistry {
  import opened Outcomes
  import opened SimpleAccounts
  import opened BankCustomers

  const CustomerMissingMessage := "Customer does not exist"
  const AccountMissingMessage := "Account not found"
  const TransferMissingMessage := "One or both accounts not found."
  const TransferNonPositiveMessage := "Transfer amount must be positive."
  const TransferInsufficientMessage := "Insufficient funds."

  /** The object stored under `key`, as a set of zero or one objects. */
  function Lookup<V>(m: map<string, V>, key: string): set<V> {
    if key in m then {m[key]} else {}
  }

  class Bank {
    var customers: map<string, Customer>
    var accounts: map<string, Account>

    /** Every account is registered under its own number, so two numbers
        never share an account object. */
    ghost predicate Valid()
      reads this
    {
      forall number :: number in accounts ==> accounts[number].accountNumber == number
    }

    /** `__init__`: both dictionaries start empty. */
    constructor ()
      ensures Valid() && customers == map[] && accounts == map[]
    {
      customers := map[];
      accounts := map[];
    }

    /** `add_customer`: stores the customer under its identifier, replacing
        any earlier customer with that identifier. */
    method AddCustomer(customer: Customer)
      requires Valid()
      modifies this
      ensures Valid()
      ensures customers == old(customers)[customer.customerId := customer]
      ensures accounts == old(accounts)
    {
      customers := customers[customer.customerId := customer];
    }

    /** `open_account`: an unknown customer raises, and so does a type the
        factory does not support, in that order, with nothing changed.
        Otherwise a new account is appended to the customer's list and
        registered under its number, replacing any account registered there. */
    method OpenAccount(customerId: string, tag: TypeTag, accountNumber: string, balance: int := 0)
      returns (s: Status)
      requires Valid()
      modifies this, Lookup(customers, customerId)
      ensures Valid()
      ensures customers == old(customers)
      ensures customerId in customers ==>
        && customers[customerId].name == old(customers[customerId].name)
        && customers[customerId].customerId == old(customers[customerId].customerId)
      ensures customerId !in customers ==>
        s == Raised(ValueError(CustomerMissingMessage)) && accounts == old(accounts)
      ensures customerId in customers && tag.Other? ==>
        && s == Raised(ValueError(UnsupportedTypePrefix + tag.text))
        && accounts == old(accounts)
        && customers[customerId].accounts == old(customers[customerId].accounts)
      ensures customerId in customers && tag.Member? ==>
        && s == Done
        && accountNumber in accounts
        && fresh(accounts[accountNumber])
        && accounts == old(accounts)[accountNumber := accounts[accountNumber]]
        && accounts[accountNumber].accountType == tag.accountType
        && accounts[accountNumber].balance == balance
        && customers[customerId].accounts == old(customers[customerId].accounts) + [accounts[accountNumber]]
    {
      if customerId !in customers {
        return Raised(ValueError(CustomerMissingMessage));
      }
      var customer := customers[customerId];
      var created := CreateAccount(tag, accountNumber, balance);
      if created.Err? {
        return Raised(created.error);
      }
      var account := created.value;
      customer.AddAccount(account);
      accounts := accounts[account.accountNumber := account];
      return Done;
    }

    /** `deposit`: an unknown number raises; otherwise the account's own
        `deposit` runs and no other account changes. */
    method Deposit(accountNumber: string, amount: int) returns (s: Status)
      requires Valid()
      modifies Lookup(accounts, accountNumber)
      ensures Valid()
      ensures accountNumber !in accounts ==> s == Raised(ValueError(AccountMissingMessage))
      ensures accountNumber in accounts ==>
        && s == Done
        && accounts[accountNumber].balance ==
           if amount <= 0 then old(accounts[accountNumber].balance)
           else old(accounts[accountNumber].balance) + amount
    {
      if accountNumber !in accounts {
        return Raised(ValueError(AccountMissingMessage));
      }
      var account := accounts[accountNumber];
      var _ := account.Deposit(amount);
      return Done;
    }

    /** `withdraw`: an unknown number raises; otherwise the account's own
        `withdraw` runs and no other account changes. */
    method Withdraw(accountNumber: string, amount: int) returns (s: Status)
      requires Valid()
      modifies Lookup(accounts, accountNumber)
      ensures Valid()
      ensures accountNumber !in accounts ==> s == Raised(ValueError(AccountMissingMessage))
      ensures accountNumber in accounts ==>
        && s == Done
        && accounts[accountNumber].balance ==
           if 0 < amount <= old(accounts[accountNumber].balance)
           then old(accounts[accountNumber].balance) - amount
           else old(accounts[accountNumber].balance)
    {
      if accountNumber !in accounts {
        return Raised(ValueError(AccountMissingMessage));
      }
      var account := accounts[accountNumber];
      var _ := account.Withdraw(amount);
      return Done;
    }

    /** `transfer`: raises with nothing changed when either account is
        missing, when the amount is not positive, or when it exceeds the
        source balance, checked in that order. Otherwise it withdraws from
        the source, deposits into the target and returns true: between two
        accounts the source loses and the target gains the amount, from an
        account to itself nothing changes, and the sum of the two balances
        is kept either way. No other account is touched. */
    method Transfer(fromNumber: string, toNumber: string, amount: int) returns (r: Result<bool>)
      requires Valid()
      modifies Lookup(accounts, fromNumber), Lookup(accounts, toNumber)
      ensures Valid()
      ensures fromNumber !in accounts || toNumber !in accounts ==>
        r == Err(ValueError(TransferMissingMessage))
      ensures fromNumber in accounts && toNumber in accounts ==>
        r == if amount <= 0 then Err(ValueError(TransferNonPositiveMessage))
             else if amount > old(accounts[fromNumber].balance) then Err(ValueError(TransferInsufficientMessage))
             else Ok(true)
      ensures r.Err? ==> forall a :: a in Lookup(accounts, fromNumber) + Lookup(accounts, toNumber) ==> a.balance == old(a.balance)
      ensures r.Ok? && fromNumber != toNumber ==>
        && accounts[fromNumber].balance == old(accounts[fromNumber].balance) - amount
        && accounts[toNumber].balance == old(accounts[toNumber].balance) + amount
      ensures r.Ok? && fromNumber == toNumber ==>
        accounts[fromNumber].balance == old(accounts[fromNumber].balance)
      ensures r.Ok? ==>
        accounts[fromNumber].balance + accounts[toNumber].balance ==
        old(accounts[fromNumber].balance) + old(accounts[toNumber].balance)
    {
      if fromNumber !in accounts || toNumber !in accounts {
        return Err(ValueError(TransferMissingMessage));
      }
      var source := accounts[fromNumber];
      var target := accounts[toNumber];
      if amount <= 0 {
        return Err(ValueError(TransferNonPositiveMessage));
      }
      if amount > source.balance {
        return Err(ValueError(TransferInsufficientMessage));
      }
      var _ := source.Withdraw(amount);
      var _ := target.Deposit(amount);
      return Ok(true);
    }
  }

  /** The demonstration at the end of bank.py: two savings accounts opened
      with 1000 (A100) and 500 (A200); 200 deposited into A200 gives 700;
      300 moved from A100 to A200 gives 700 and 1000; 100 withdrawn from A100
      gives 600. */
  method DemoScenario() returns (a200AfterDeposit: int, a100AfterTransfer: int, a200AfterTransfer: int, a100AfterWithdraw: int)
    ensures a200AfterDeposit == 700
    ensures a100AfterTransfer == 700 && a200AfterTransfer == 1000
    ensures a100AfterWithdraw == 600
  {
    var bank := new Bank();
    var alice := new Customer("Alice", "C001");
    var bob := new Customer("Bob", "C002");
    bank.AddCustomer(alice);
    bank.AddCustomer(bob);
    var s := bank.OpenAccount("C001", Member(SAVINGS), "A100", 1000);
    s := bank.OpenAccount("C002", Member(SAVINGS), "A200", 500);
    s := bank.Deposit("A200", 200);
    a200AfterDeposit := bank.accounts["A200"].balance;
    var r := bank.Transfer("A100", "A200", 300);
    a100AfterTransfer := bank.accounts["A100"].balance;
    a200AfterTransfer := bank.accounts["A200"].balance;
    s := bank.Withdraw("A100", 100);
    a100AfterWithdraw := bank.accounts["A100"].balance;
  }
}
