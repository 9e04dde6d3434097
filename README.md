# Toy bank and burger factory, modelled in Dafny

This project models the executable core of a small set of object-oriented
design examples written in Python:

- **First bank design** (`design_a_bank/`). An account holds a balance and
  an append-only passbook of transactions. `deposit` and `withdraw` raise on
  bad input. `withdraw` first asks the account's `can_withdraw` policy and
  changes nothing on refusal. A savings account may not be overdrawn. A
  current account may go down to minus its settable, non-negative overdraft
  limit. A customer keeps a list of accounts and reports their total
  balance.
- **Design-patterns bank** (`design_patterns/1_design_a_bank/account.py`
  and `1_design_a_bank/`). Savings and current accounts reject bad amounts
  quietly: they return the unchanged balance and raise nothing. A factory
  builds an account from an enumeration tag. A bank registry keeps
  dictionaries of customers and accounts and offers deposit, withdrawal
  and a checked transfer.
- **Burger factory** (`design_patterns/creational/burger_factory.py`). Two
  stores turn a burger type into a burger, or refuse the type.

Modules, one per source file:

| module | file |
|---|---|
| `Outcomes` | the exceptions raised (`ValueError` with its message, `InsufficientFundsError`) and the `Status`/`Result`/`Option` values that carry them |
| `AccountTypes` | `design_a_bank/account_type.py`: the two withdrawal policies |
| `Accounts` | `design_a_bank/account.py`: `Transaction` and `Account` |
| `Customers` | `design_a_bank/customer.py` |
| `SimpleAccounts` | `design_patterns/1_design_a_bank/account.py` |
| `BankCustomers` | `1_design_a_bank/customer.py` |
| `BankRegistry` | `1_design_a_bank/bank.py` |
| `BurgerFactory` | `design_patterns/creational/burger_factory.py` |

Money is an exact `int` (think cents). A raised exception becomes a
returned `Raised(...)` or `Err(...)` value that holds the source's literal
message. Accounts and customers are classes whose methods change their
fields in place. The first design's `Account` and the bank registry carry
their object invariants as `Valid()` predicates; the customers and the
design-patterns account have no invariant beyond their field types.

The abstract `Account` with its two subclasses in `design_a_bank/` is a
single class `Accounts.Account`. Its `policy` field (`Savings` or
`Current(overdraftLimit)`) names the subclass. `can_withdraw` dispatches on
that field. Python constructors that raise become static methods that
return a `Result`. The first design's `Account.Valid()` carries the
reconciliation invariant: the balance equals the opening balance (a ghost
field) plus the deposits minus the withdrawals in the passbook. The public
operations that change an account (`Deposit`, `Withdraw` and
`SetOverdraftLimit`) each require and keep `Valid()`, so the invariant holds
after any series of them. `AddTransaction` models the private helper
`_add_transaction`: it only appends a record and does not keep `Valid()` on
its own; `Deposit` and `Withdraw` change the balance together with it.

`design_a_bank/account.py` cannot run as written. The model follows the
evident intent at each of these points, and the module comment repeats
them:

- line 33 stores the type alias `List[Transaction]` instead of a new list,
  so here the passbook starts empty;
- line 53 passes `type=` to the record, whose field is `transaction_type`;
- line 64 passes `transaction_type=` to a parameter named `type`. Here both
  operations append a record with its type;
- lines 77 and 83 read `_account_number`, which is never set. Here the
  refusal raises `InsufficientFundsError` without its message text.

Four behaviours of the code worth noting:

- `deposit` records the literal description `"deposit"` and ignores its
  `description` argument (line 64);
- the two transaction types are the strings `"deposit"` and `"WITHDRAWAL"`;
- the design-patterns factory does not check the opening balance. A
  negative balance is accepted;
- a current account of the design-patterns bank has no overdraft.

## Model

| member | source | states |
|---|---|---|
| `AccountTypes.CanWithdraw` | design_a_bank/account_type.py:46-56 | a withdrawal is allowed iff the balance left is at least minus the allowance (0 for savings, the overdraft limit for a current account) |
| `AccountTypes.SavingsAllowsExactlyTheBalance` | design_a_bank/account_type.py:11-12 | a savings account may withdraw an amount iff it is at most the balance; withdrawing exactly the balance is allowed |
| `AccountTypes.DefaultLimitIsSavingsRule` | design_a_bank/account_type.py:20-31 | a current account with the default limit 0 has the same withdraw rule as a savings account |
| `AccountTypes.LargerLimitAllowsMore` | design_a_bank/account_type.py:55-56 | raising the limit never refuses a withdrawal a lower limit allowed |
| `AccountTypes.DocstringExample` | design_a_bank/account_type.py:50-53 | with balance 1000 and limit 500, withdrawing 1500 is allowed and ends at -500, and 1501 is refused |
| `Accounts.TotalOfTypeAppend` | design_a_bank/account.py:49-56 | appending a record adds its amount to the total of its own type and leaves the totals of the other types unchanged |
| `Accounts.NetAppend` | design_a_bank/account.py:58-80 | appending a record changes deposits minus withdrawals by exactly that record's signed amount |
| `Accounts.Account.Init` | design_a_bank/account.py:30-33 | the fields after the constructor's check: given number, owner and balance, an empty passbook, and the reconciliation invariant |
| `Accounts.Account.OpenSavings` | design_a_bank/account.py:25-33 | a negative opening balance raises `ValueError`; otherwise a new savings account with that balance and an empty passbook |
| `Accounts.Account.OpenCurrent` | design_a_bank/account_type.py:20-31 | a negative limit raises first, then a negative opening balance raises; otherwise a new current account with that limit |
| `Accounts.Account.Balance` | design_a_bank/account.py:39-41 | the balance is always the opening balance plus deposits minus withdrawals in the passbook, and is never negative on a savings account |
| `Accounts.Account.OverdraftLimit` | design_a_bank/account_type.py:37-39 | the limit is non-negative and is exactly how far below zero a withdrawal may take the balance |
| `Accounts.Account.PassbookTransactions` | design_a_bank/account.py:43-45 | returns a newly allocated list holding the passbook's records in order |
| `Accounts.Account.AddTransaction` | design_a_bank/account.py:49-56 | appends exactly one record with the given fields and changes nothing else |
| `Accounts.Account.Deposit` | design_a_bank/account.py:58-65 | amount <= 0 raises with balance and passbook unchanged; otherwise balance + amount and one appended record (amount, "deposit", "deposit"); the invariant is kept |
| `Accounts.Account.Withdraw` | design_a_bank/account.py:71-80 | amount <= 0 raises before the policy is asked; a policy refusal raises `InsufficientFundsError`; both leave everything unchanged; otherwise balance - amount, one appended "WITHDRAWAL" record with the caller's description (default "withdraw"), and a balance at or above minus the limit |
| `Accounts.Account.SetOverdraftLimit` | design_a_bank/account_type.py:41-44 | a negative limit raises and keeps the old one; otherwise the limit becomes exactly the new value; balance and passbook unchanged |
| `Accounts.EditPassbookCopy` | design_a_bank/account.py:44-45 | a caller overwriting an entry of the returned list changes that list only, not the account's passbook |
| `Accounts.OverdraftExample` | design_a_bank/account_type.py:46-56 | on real accounts with balance 1000 and limit 500: withdrawing 1500 ends at -500; withdrawing 1501 raises `InsufficientFundsError` and leaves 1000 |
| `Customers.SumBalancesAppend` | design_a_bank/customer.py:27-28 | appending an account adds its balance to the sum of balances |
| `Customers.Customer.constructor` | design_a_bank/customer.py:8-12 | a new customer has the given id and name, no accounts, and no e-mail unless given |
| `Customers.Customer.AccountsCopy` | design_a_bank/customer.py:16-19 | returns a newly allocated list with the same accounts in order |
| `Customers.Customer.AddAccount` | design_a_bank/customer.py:21-25 | appends at the end with no duplicate check; the earlier entries and the other fields are unchanged |
| `Customers.Customer.GetTotalBalance` | design_a_bank/customer.py:27-28 | the sum of the held accounts' balances, 0 when there are none |
| `Customers.TotalWithDuplicate` | design_a_bank/customer.py:21-28 | adding the same account twice adds its balance twice to the total |
| `SimpleAccounts.Account.constructor` | design_patterns/1_design_a_bank/account.py:5-7 | stores the number, the type and the balance (unchecked); the number is a constant that never changes |
| `SimpleAccounts.Account.ChangeBalance` | design_patterns/1_design_a_bank/account.py:17-18 | adds the signed amount to the balance |
| `SimpleAccounts.Account.Deposit` | design_patterns/1_design_a_bank/account.py:29-34 | amount <= 0 leaves the balance unchanged; otherwise balance + amount; returns the balance after the call. The current account's copy at lines 47-52 is identical |
| `SimpleAccounts.Account.Withdraw` | design_patterns/1_design_a_bank/account.py:36-44 | amount <= 0 or amount > balance leaves the balance unchanged; otherwise balance - amount; a non-negative balance stays non-negative; returns the balance after the call. The current account's copy at lines 54-63 is identical (no overdraft) |
| `SimpleAccounts.CreateAccount` | design_patterns/1_design_a_bank/account.py:69-77 | a `SAVINGS` or `CURRENT` member yields a new account of that type with the given number and balance; any other value raises `ValueError` |
| `BankCustomers.Customer.constructor` | 1_design_a_bank/customer.py:2-5 | stores name and id, with an empty account list |
| `BankCustomers.Customer.AddAccount` | 1_design_a_bank/customer.py:7-8 | appends at the end with no duplicate check; name and id unchanged |
| `BankRegistry.Bank.constructor` | 1_design_a_bank/bank.py:12-16 | both dictionaries start empty |
| `BankRegistry.Bank.AddCustomer` | 1_design_a_bank/bank.py:18-19 | stores the customer under its id, replacing any earlier one; accounts unchanged |
| `BankRegistry.Bank.OpenAccount` | 1_design_a_bank/bank.py:21-27 | an unknown customer raises, then an unsupported type raises, both with nothing changed; otherwise a new account is appended to the customer's list and registered under its number, replacing any earlier entry |
| `BankRegistry.Bank.Deposit` | 1_design_a_bank/bank.py:29-33 | an unknown number raises; otherwise the account's deposit rule, and only that account may change |
| `BankRegistry.Bank.Withdraw` | 1_design_a_bank/bank.py:35-39 | an unknown number raises; otherwise the account's withdraw rule, and only that account may change |
| `BankRegistry.Bank.Transfer` | 1_design_a_bank/bank.py:41-53 | a missing account, an amount <= 0, or an amount above the source balance raise in that order with nothing changed; otherwise returns true, the source loses and the target gains the amount (a self-transfer changes nothing), their sum is kept, and no other account changes |
| `BankRegistry.DemoScenario` | 1_design_a_bank/bank.py:67-86 | A100 opened with 1000 and A200 with 500; depositing 200 gives 700; moving 300 gives 700 and 1000; withdrawing 100 gives 600 |
| `BurgerFactory.NewBurger` | design_patterns/creational/burger_factory.py:12-17 | a new burger has an empty name, no toppings, an empty sauce and price 0 |
| `BurgerFactory.CreateBurger` | design_patterns/creational/burger_factory.py:78-93 | succeeds iff the store's menu lists the type (cheese store: cheese and deluxe cheese; veggie store: veggie), building the class the menu names; otherwise `ValueError` with the store's message |
| `BurgerFactory.Prepare` | design_patterns/creational/burger_factory.py:33-34 | `prepare` does nothing: the burger is returned unchanged (the same for every concrete class, lines 33-62) |
| `BurgerFactory.Cook` | design_patterns/creational/burger_factory.py:36-37 | `cook` does nothing: the burger is returned unchanged (the same for every concrete class) |
| `BurgerFactory.Serve` | design_patterns/creational/burger_factory.py:39-40 | `serve` does nothing: the burger is returned unchanged (the same for every concrete class) |
| `BurgerFactory.OrderBurger` | design_patterns/creational/burger_factory.py:70-75 | returns exactly what `create_burger` made, with the fields as constructed |
| `BurgerFactory.ChickenBurgerRefusedEverywhere` | design_patterns/creational/burger_factory.py:79-93 | every store refuses a chicken burger |
| `BurgerFactory.StoresDoNotOverlap` | design_patterns/creational/burger_factory.py:79-93 | no burger type is sold by both stores |

## Left out

- The `__main__` demonstration blocks and every `print` call are console output only. The bank demonstration is restated as `BankRegistry.DemoScenario`.
- `datetime.now()` reads the clock. Each transaction's timestamp is a parameter supplied by the caller.
- The singleton machinery of `Bank` (`__new__` and the `hasattr` guards) is hidden global state. The model uses one explicitly constructed registry.
- The `__repr__` methods only format strings.
- The message text of `InsufficientFundsError` is left out. As written it reads an attribute that does not exist.
- Python's abstract-base-class machinery has no counterpart. The subclasses are the `policy` tag in the first design and the `accountType` constant in the design-patterns bank.
- Floating-point money is modelled as exact integers, so rounding is not modelled.
- 1_design_a_bank/account.py is not part of this model. `BankRegistry` uses `SimpleAccounts` (design_patterns/1_design_a_bank/account.py), whose interface matches what bank.py calls.
- The `balance` and `account_number` properties of the design-patterns account, and the `account_nbr` property of the first design's account, are not separate members. Each returns a field that the model reads directly; the number fields are constants.
- Accounts.Account.SetOverdraftLimit: requires a current account, because the setter exists only on `CurrentAccount`.
- The dataclass `Customer` in `design_a_bank/customer.py` also accepts an initial account list as a fourth constructor argument. That argument is not modelled; a new customer always starts with no accounts.
- `create_account` accepts any Python value. The model takes either an enumeration member or some other value with its printed form (`TypeTag.Other`). That form goes into the error message.
- Transfers are not atomic in the source: a withdrawal, then a deposit. After the transfer's own checks neither step can fail, so no partial transfer arises. Concurrency is out of scope.
