/** The account of the design-patterns bank
    (design_patterns/1_design_a_bank/account.py): an account number that
    never changes and a balance. Bad amounts are not exceptions here: the
    operation prints a message and returns the unchanged balance. Savings
    and current accounts have the same code for both operations (the
    current account has no overdraft), so one class models both and keeps
    which one it is in `accountType`. */
module SimpleAccounts {
  import opened Outcomes

  datatype AccountType = SAVINGS | CURRENT

  /** What `create_account` may be passed: a member of the enumeration, or
      any other value, such as the string "savings", which is not equal to
      the member `AccountType.SAVINGS`. */
  datatype TypeTag = Member(accountType: AccountType) | Other(text: string)

  const UnsupportedTypePrefix := "Unsupported account type: "

  class Account {
    /** The private `__account_number`, exposed by a read-only property. */
    const accountNumber: string
    /** Which subclass the object is. */
    const accountType: AccountType
    var balance: int

    /** `__init__`: no check on the opening balance. */
    constructor (accountType: AccountType, accountNumber: string, balance: int := 0)
      ensures this.accountType == accountType && this.accountNumber == accountNumber
      ensures this.balance == balance
    {
      this.accountType := accountType;
      this.accountNumber := accountNumber;
      this.balance := balance;
    }

    /** `_change_balance`: adds a signed amount. */
    method ChangeBalance(amount: int)
      modifies this
      ensures balance == old(balance) + amount
    {
      balance := balance + amount;
    }

    /** `deposit`: a non-positive amount changes nothing; otherwise the
        balance grows by the amount. The balance after the call is returned. */
    method Deposit(amount: int) returns (newBalance: int)
      modifies this
      ensures balance == if amount <= 0 then old(balance) else old(balance) + amount
      ensures newBalance == balance
    {
      if amount <= 0 {
        return balance;
      }
      ChangeBalance(amount);
      return balance;
    }

    /** `withdraw`: a non-positive amount, or one above the balance, changes
        nothing; otherwise the balance drops by the amount, so a balance that
        was not negative stays so. The balance after the call is returned. */
    method Withdraw(amount: int) returns (newBalance: int)
      modifies this
      ensures balance == if 0 < amount <= old(balance) then old(balance) - amount else old(balance)
      ensures old(balance) >= 0 ==> balance >= 0
      ensures newBalance == balance
    {
      if amount <= 0 {
        return balance;
      }
      if amount > balance {
        return balance;
      }
      ChangeBalance(-amount);
      return balance;
    }
  }

  /** `AccountFactory.create_account`: a member of the enumeration yields a
      new account of that type with the given number and balance; any other
      value raises `ValueError`. */
  method CreateAccount(tag: TypeTag, accountNumber: string, balance: int := 0) returns (r: Result<Account>)
    ensures r.Ok? <==> tag.Member?
    ensures tag.Other? ==> r == Err(ValueError(UnsupportedTypePrefix + tag.text))
    ensures r.Ok? ==> fresh(r.value)
    ensures r.Ok? ==> r.value.accountType == tag.accountType
    ensures r.Ok? ==> r.value.accountNumber == accountNumber && r.value.balance == balance
  {
    match tag
    case Member(SAVINGS) =>
      var account := new Account(SAVINGS, accountNumber, balance);
      return Ok(account);
    case Member(CURRENT) =>
      var account := new Account(CURRENT, accountNumber, balance);
      return Ok(account);
    case Other(text) =>
      return Err(ValueError(UnsupportedTypePrefix + text));
  }
}
