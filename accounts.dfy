/** The account of the first bank design (design_a_bank/account.py): a
    balance and an append-only passbook of transactions. The abstract base
    class and its two subclasses (design_a_bank/account_type.py) are one
    class here whose `policy` field says which subclass it is and carries a
    current account's overdraft limit.

    Deviations from the code as written, each modelled as evidently intended:
    - line 33 stores the alias `List[Transaction]` instead of a new list, so
      the first append would fail; the passbook starts empty here;
    - line 53 passes `type=` to the `Transaction` record, whose field is
      `transaction_type`; the record gets the type here;
    - line 64 passes `transaction_type=` to `_add_transaction`, whose
      parameter is `type`; the deposit is recorded with its type here;
    - lines 77 and 83 read `_account_number`, which the constructor never
      sets (it sets `_account_nbr`); the refusal raises
      `InsufficientFundsError` here, without its message text. */
module Accounts {
  import opened Outcomes
  import opened AccountTypes

  /** A wall-clock reading (`datetime.now()`), supplied by the caller. */
  type Timestamp = nat

  /** One passbook record; never changed once appended. */
  datatype Transaction = Transaction(
    timestamp: Timestamp,
    amount: int,
    transactionType: string,
    description: string)

  const DepositType := "deposit"
  const WithdrawalType := "WITHDRAWAL"
  /** `deposit` records this literal description, whatever it is passed. */
  const DepositDescription := "deposit"
  const DefaultWithdrawDescription := "withdraw"

  const NegativeOpeningMessage := "opening balance cannot be negative"
  const NonPositiveDepositMessage := "amount must be greater than 0"
  const NonPositiveWithdrawMessage := "Cannot withdraw negative amount"

  /** What `deposit` and `withdraw` append: a positive amount of one of the
      two types. */
  predicate WellFormed(t: Transaction) {
    t.amount > 0 && (t.transactionType == DepositType || t.transactionType == WithdrawalType)
  }

  /** The sum of the amounts of the records of type `kind`. */
  function TotalOfType(p: seq<Transaction>, kind: string): int {
    if p == [] then 0
    else (if p[0].transactionType == kind then p[0].amount else 0) + TotalOfType(p[1..], kind)
  }

  /** Deposits minus withdrawals over a passbook. */
  function Net(p: seq<Transaction>): int {
    TotalOfType(p, DepositType) - TotalOfType(p, WithdrawalType)
  }

  /** The effect one record has on the balance. */
  function Signed(t: Transaction): int {
    if t.transactionType == DepositType then t.amount
    else if t.transactionType == WithdrawalType then -t.amount
    else 0
  }

  lemma {:induction false} TotalOfTypeAppend(p: seq<Transaction>, t: Transaction, kind: string)
    ensures TotalOfType(p + [t], kind) == TotalOfType(p, kind) + (if t.transactionType == kind then t.amount else 0)
  {
    if p == [] {
      assert p + [t] == [t];
      assert [t][1..] == [];
    } else {
      assert (p + [t])[1..] == p[1..] + [t];
      TotalOfTypeAppend(p[1..], t, kind);
    }
  }

  /** Appending one record moves the net by exactly that record's signed amount. */
  lemma NetAppend(p: seq<Transaction>, t: Transaction)
    ensures Net(p + [t]) == Net(p) + Signed(t)
  {
    TotalOfTypeAppend(p, t, DepositType);
    TotalOfTypeAppend(p, t, WithdrawalType);
  }

  class Account {
    const accountNbr: string
    const ownerId: string
    var balance: int
    var passbook: seq<Transaction>
    var policy: Policy
    /** The opening balance, which the source does not keep; it is what the
        passbook reconciles the balance against. */
    ghost var opening: int

    /** The object invariant: the balance reconciles with the passbook, the
        opening balance and the limit are not negative, every record is
        well formed, and a savings account is never overdrawn. */
    ghost predicate Valid()
      reads this
    {
      && ValidPolicy(policy)
      && opening >= 0
      && balance == opening + Net(passbook)
      && (policy.Savings? ==> balance >= 0)
      && (forall i :: 0 <= i < |passbook| ==> WellFormed(passbook[i]))
    }

    /** The assignments of `__init__` once its check has passed. */
    constructor Init(accountNbr: string, ownerId: string, openingBalance: int, policy: Policy)
      requires openingBalance >= 0 && ValidPolicy(policy)
      ensures Valid()
      ensures this.accountNbr == accountNbr && this.ownerId == ownerId && this.policy == policy
      ensures balance == openingBalance && opening == openingBalance && passbook == []
    {
      this.accountNbr := accountNbr;
      this.ownerId := ownerId;
      balance := openingBalance;
      passbook := [];
      this.policy := policy;
      opening := openingBalance;
    }

    /** `SavingsAccount(...)`: the base constructor, which refuses a
        negative opening balance. */
    static method OpenSavings(accountNbr: string, ownerId: string, openingBalance: int := 0)
      returns (r: Result<Account>)
      ensures r.Err? <==> openingBalance < 0
      ensures r.Err? ==> r.error == ValueError(NegativeOpeningMessage)
      ensures r.Ok? ==> fresh(r.value) && r.value.Valid()
      ensures r.Ok? ==> r.value.accountNbr == accountNbr && r.value.ownerId == ownerId
      ensures r.Ok? ==> r.value.policy == Savings
      ensures r.Ok? ==> r.value.balance == openingBalance && r.value.passbook == []
    {
      if openingBalance < 0 {
        return Err(ValueError(NegativeOpeningMessage));
      }
      var account := new Account.Init(accountNbr, ownerId, openingBalance, Savings);
      return Ok(account);
    }

    /** `CurrentAccount(...)`: the limit is checked first, then the base
        constructor checks the opening balance. */
    static method OpenCurrent(accountNumber: string, ownerId: string, openingBalance: int := 0, overdraftLimit: int := 0)
      returns (r: Result<Account>)
      ensures overdraftLimit < 0 ==> r == Err(ValueError(NegativeLimitMessage))
      ensures overdraftLimit >= 0 && openingBalance < 0 ==> r == Err(ValueError(NegativeOpeningMessage))
      ensures r.Ok? <==> overdraftLimit >= 0 && openingBalance >= 0
      ensures r.Ok? ==> fresh(r.value) && r.value.Valid()
      ensures r.Ok? ==> r.value.accountNbr == accountNumber && r.value.ownerId == ownerId
      ensures r.Ok? ==> r.value.policy == Current(overdraftLimit)
      ensures r.Ok? ==> r.value.balance == openingBalance && r.value.passbook == []
    {
      if overdraftLimit < 0 {
        return Err(ValueError(NegativeLimitMessage));
      }
      if openingBalance < 0 {
        return Err(ValueError(NegativeOpeningMessage));
      }
      var account := new Account.Init(accountNumber, ownerId, openingBalance, Current(overdraftLimit));
      return Ok(account);
    }

    /** The `balance` property: always the opening balance plus the net of
        the passbook, and never negative on a savings account. */
    function Balance(): (b: int)
      reads this
      requires Valid()
      ensures b == opening + Net(passbook)
      ensures policy.Savings? ==> b >= 0
    {
      balance
    }

    /** The `overdraft_limit` property of a current account. */
    function OverdraftLimit(): (limit: int)
      reads this
      requires Valid() && policy.Current?
      ensures limit >= 0
      ensures CanWithdraw(policy, balance, balance + limit)
      ensures !CanWithdraw(policy, balance, balance + limit + 1)
    {
      policy.overdraftLimit
    }

    /** The `passbook_transactions` property: a new list holding the records
        in order, so that the caller cannot change the passbook through it. */
    method PassbookTransactions() returns (copy: array<Transaction>)
      ensures fresh(copy)
      ensures copy[..] == passbook
    {
      var records := passbook;
      copy := new Transaction[|records|](i requires 0 <= i < |records| => records[i]);
    }

    /** `_add_transaction`: appends one record. */
    method AddTransaction(now: Timestamp, amount: int, transactionType: string, description: string)
      modifies this
      ensures passbook == old(passbook) + [Transaction(now, amount, transactionType, description)]
      ensures balance == old(balance) && policy == old(policy) && opening == old(opening)
    {
      passbook := passbook + [Transaction(now, amount, transactionType, description)];
    }

    /** `deposit`: a non-positive amount raises with nothing changed;
        otherwise the balance grows by the amount and one deposit record is
        appended, whose description is always "deposit". */
    method Deposit(now: Timestamp, amount: int, description: string) returns (s: Status)
      requires Valid()
      modifies this
      ensures Valid()
      ensures s == if amount <= 0 then Raised(ValueError(NonPositiveDepositMessage)) else Done
      ensures s.Raised? ==> balance == old(balance) && passbook == old(passbook)
      ensures s.Done? ==> balance == old(balance) + amount
      ensures s.Done? ==> passbook == old(passbook) + [Transaction(now, amount, DepositType, DepositDescription)]
      ensures policy == old(policy) && opening == old(opening)
    {
      if amount <= 0 {
        return Raised(ValueError(NonPositiveDepositMessage));
      }
      balance := balance + amount;
      AddTransaction(now, amount, DepositType, DepositDescription);
      NetAppend(old(passbook), passbook[|passbook| - 1]);
      return Done;
    }

    /** `withdraw`: a non-positive amount raises before the policy is
        consulted; a refusal by the policy raises `InsufficientFundsError`;
        either way nothing changes. Otherwise the balance drops by the amount,
        one withdrawal record with the caller's description is appended, and
        the balance is at or above minus the overdraft allowance. */
    method Withdraw(now: Timestamp, amount: int, description: string := DefaultWithdrawDescription)
      returns (s: Status)
      requires Valid()
      modifies this
      ensures Valid()
      ensures s == if amount <= 0 then Raised(ValueError(NonPositiveWithdrawMessage))
                   else if !CanWithdraw(old(policy), old(balance), amount) then Raised(InsufficientFundsError)
                   else Done
      ensures s.Raised? ==> balance == old(balance) && passbook == old(passbook)
      ensures s.Done? ==> balance == old(balance) - amount
      ensures s.Done? ==> passbook == old(passbook) + [Transaction(now, amount, WithdrawalType, description)]
      ensures s.Done? ==> balance >= -Allowance(policy)
      ensures policy == old(policy) && opening == old(opening)
    {
      if amount <= 0 {
        return Raised(ValueError(NonPositiveWithdrawMessage));
      }
      if !CanWithdraw(policy, balance, amount) {
        return Raised(InsufficientFundsError);
      }
      balance := balance - amount;
      AddTransaction(now, amount, WithdrawalType, description);
      NetAppend(old(passbook), passbook[|passbook| - 1]);
      return Done;
    }

    /** `set_overdraft_limit` of a current account: a negative limit raises
        and keeps the old one; otherwise the limit becomes the new value. */
    method SetOverdraftLimit(newLimit: int) returns (s: Status)
      requires Valid() && policy.Current?
      modifies this
      ensures Valid()
      ensures s == if newLimit < 0 then Raised(ValueError(NegativeLimitMessage)) else Done
      ensures policy == if newLimit < 0 then old(policy) else Current(newLimit)
      ensures balance == old(balance) && passbook == old(passbook) && opening == old(opening)
    {
      if newLimit < 0 {
        return Raised(ValueError(NegativeLimitMessage));
      }
      policy := Current(newLimit);
      return Done;
    }
  }

  /** A caller that overwrites the first entry of the list it got from
      `passbook_transactions` changes that list only. */
  method EditPassbookCopy(account: Account, t: Transaction) returns (edited: seq<Transaction>)
    requires |account.passbook| > 0
    ensures edited == [t] + account.passbook[1..]
    ensures account.passbook == old(account.passbook)
  {
    var copy := account.PassbookTransactions();
    copy[0] := t;
    edited := copy[..];
  }

  /** The overdraft example: a current account with balance 1000 and limit
      500 may withdraw 1500 and ends at -500; withdrawing 1501 is refused and
      leaves the balance at 1000. */
  method OverdraftExample() returns (afterFull: int, refusal: Status, afterRefusal: int)
    ensures afterFull == -500
    ensures refusal == Raised(InsufficientFundsError) && afterRefusal == 1000
  {
    var first := Account.OpenCurrent("C1", "O1", 1000, 500);
    var s := first.value.Withdraw(0, 1500);
    afterFull := first.value.Balance();
    var second := Account.OpenCurrent("C2", "O1", 1000, 500);
    refusal := second.value.Withdraw(0, 1501);
    afterRefusal := second.value.Balance();
  }
}
