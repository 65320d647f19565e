# Banking ledger, modelled in Dafny

A model of the banking ledger of `banking_system.py`: bank accounts whose
balance is changed in place by `deposit`, `withdraw` and `transfer`, a ledger
(`BankSystem`) that maps generated account ids to account objects and creates
and looks up accounts, the snapshot persistence of that map as rows of a
tabular store, and the two validators `is_valid_name` and `is_valid_amount`.

Modules, one per component:

- `Wrappers` (`wrappers.dfy`): `Option`, `Result`, `Outcome`; the source's
  `ValueError`s become `Fail`/`Err` values carrying an `Accounts.Error` kind.
- `Validation` (`validation.dfy`): the pattern `^[A-Za-z\s]+$` (ASCII letters
  and Unicode whitespace, at least one character) and the amount check. The
  type `Amount` is what `float(amount)` yields: a number, NaN, or a
  conversion error.
- `Accounts` (`accounts.dfy`): the pure functions `Deposited`, `Withdrawn`,
  `Transferred` and `SelfTransferred` that say what each call does to the
  balances, the lemmas about them, and the class `BankAccount` whose methods
  are proved against those functions.
- `Persistence` (`persistence.dfy`): the store as a header row and one row
  `account_id, name, balance` per account; `Serialise` (save) and `LoadStore`
  (load), with the round trip proved for every order in which the accounts
  are visited.
- `Bank` (`bank_system.dfy`): the class `BankSystem` (create, look up, save,
  load), a ledger-level step function for sequences of calls with the
  non-negativity lemma, and two client methods that replay the unit tests'
  scenarios against the class contracts.
- `NanGuard` (`nan_guard.dfy`): the amount guards as written over floats that
  may be NaN; see "Findings".

Money is an `int` in whole smallest units. The generated `uuid4` id is a
parameter `freshId` of `CreateAccount`, required to be absent from the map.
The store is given to `LoadAccounts` as `Option<seq<Row>>` (None when the file
does not exist) and returned by `SaveAccounts` as `seq<Row>`; each row is its
list of text fields.

## Model

| member | source | states |
|---|---|---|
| `Validation.IsWhitespace` | banking_system.py:75 | `\s` over `str`: exactly the characters `str.isspace` accepts; space, tab, line feed, carriage return and no-break space are among them, and no ASCII letter, digit or underscore is |
| `Validation.MatchesToEnd` | banking_system.py:75 | the repetition `[A-Za-z\s]*` followed by `$` consumes the whole string exactly when every character is an ASCII letter or whitespace (the empty string included); the `+`, at least one character, is added by `IsValidName` |
| `Validation.IsValidName` | banking_system.py:74-75 | a name is valid exactly when it is non-empty and every character is an ASCII letter or Unicode whitespace; a valid name holds no digit |
| `Validation.AcceptedName` | banking_system.py:74-75 | "Alice Smith" is accepted |
| `Validation.LettersOnlyIsValid` | banking_system.py:74-75 | every non-empty name made of ASCII letters only is accepted |
| `Validation.CreateTestNames` | unit_test.py:11-19 | "Alice" and "Bob" are accepted, so those tests fail or succeed on the balance alone |
| `Validation.DepositTestNames` | unit_test.py:21-31 | "Charlie", "David" and "Mike" (also unit_test.py:72) are accepted |
| `Validation.WithdrawTestNames` | unit_test.py:33-43 | "Eve", "Frank" and "Lily" (also unit_test.py:82) are accepted |
| `Validation.TransferTestNames` | unit_test.py:45-60 | "Grace", "Hannah", "Ivy", "Jack" and "John", "Paul" (unit_test.py:92-93) are accepted |
| `Validation.RejectedNames` | unit_test.py:62-68 | "Alice123", the name of unit_test.py:68 (U+0111, the controls U+009F and U+0092, U+00B0, then "Bob") and the empty name are rejected |
| `Validation.IsValidAmount` | banking_system.py:77-82 | an amount is accepted exactly when it is a number greater than zero (so at least one unit); NaN and a failed conversion are refused |
| `Accounts.CheckAmount` | banking_system.py:13-18 | the amount guard shared by deposit and withdraw passes exactly the amounts `is_valid_amount` accepts; a failed conversion fails with NotANumber, any other refusal with NotPositive |
| `Accounts.Deposited` | banking_system.py:12-19 | a deposit succeeds exactly for an amount `is_valid_amount` accepts and then raises the balance by that amount; otherwise it fails with the guard's error (NotANumber for a failed conversion, NotPositive for NaN or an amount <= 0) |
| `Accounts.Withdrawn` | banking_system.py:21-30 | a withdrawal succeeds exactly for a valid amount not above the balance and then lowers the balance by that amount to a value >= 0; InsufficientFunds exactly for a valid amount above the balance; otherwise the guard's error |
| `Accounts.Transferred` | banking_system.py:32-36 | between distinct accounts: succeeds exactly when the withdrawal does, then the sender ends lower, the recipient higher and the sum unchanged; a failure carries the withdrawal's error |
| `Accounts.SelfTransferred` | banking_system.py:32-36 | withdrawing from and depositing to the same account: succeeds exactly when the withdrawal does, then leaves the balance as it was; a failure carries the withdrawal's error |
| `Accounts.ValidAmountIsDepositable` | banking_system.py:77-82 | `is_valid_amount` holds exactly when a deposit of that amount succeeds, and together with "not above the balance" exactly when a withdrawal succeeds |
| `Accounts.DepositSpec` | banking_system.py:12-19 | a deposit succeeds exactly for a numeric amount > 0 and adds it; a non-numeric amount fails with NotANumber, an amount <= 0 with NotPositive |
| `Accounts.WithdrawSpec` | banking_system.py:21-30 | a withdrawal succeeds exactly when 0 < amount <= balance and subtracts it; a non-numeric amount fails with NotANumber, an amount <= 0 with NotPositive, and InsufficientFunds is raised exactly when a positive amount exceeds the balance |
| `Accounts.SingleCallsKeepNonNegative` | banking_system.py:17-30 | a successful deposit or withdrawal on a non-negative balance leaves it non-negative |
| `Accounts.DepositThenWithdrawRestores` | banking_system.py:12-30 | withdrawing the amount just deposited on a non-negative balance succeeds and restores the balance exactly |
| `Accounts.TransferSpec` | banking_system.py:32-36 | a transfer between distinct accounts succeeds exactly when the withdrawal does, moves exactly the amount and preserves the sum; on failure the error is the withdrawal's, never the deposit's |
| `Accounts.TransferKeepsNonNegative` | banking_system.py:32-36 | a successful transfer between non-negative balances leaves both non-negative |
| `Accounts.SelfTransferSpec` | banking_system.py:32-36 | a transfer to the same account succeeds exactly when the withdrawal does and never changes the balance |
| `Accounts.TransferExamples` | unit_test.py:45-60 | 1000/500 moving 200 gives 800/700; 2000 fails with InsufficientFunds; non-numeric and -100 fail |
| `Accounts.BankAccount.constructor` | banking_system.py:7-10 | a new account holds the given id, name and balance |
| `Accounts.BankAccount.Deposit` | banking_system.py:12-19 | on success the balance becomes `Deposited` of the old one; on failure the error is returned and the balance is unchanged |
| `Accounts.BankAccount.Withdraw` | banking_system.py:21-30 | on success the balance becomes `Withdrawn` of the old one; on failure the error is returned and the balance is unchanged |
| `Accounts.BankAccount.Transfer` | banking_system.py:32-36 | no recipient fails with NoRecipient and changes nothing; distinct accounts get `Transferred` of the old balances or, on failure, keep both balances; a self-transfer gets `SelfTransferred` |
| `Persistence.FormatInt` | banking_system.py:62 | the balance column is non-empty, starts with a minus sign exactly for a negative balance, and is otherwise decimal digits |
| `Persistence.ParseInt` | banking_system.py:72 | `float(balance)` on the balance column: a value is read only from an optional minus sign followed by digits, a negative value only after a minus sign, and a lone minus sign is refused |
| `Persistence.FormatNat` | banking_system.py:62 | the balance column is a non-empty string of decimal digits |
| `Persistence.ParseFormatNat` | banking_system.py:62 | reading the written digits gives back the number |
| `Persistence.ParseFormatInt` | banking_system.py:72 | every balance written, negative ones included, reads back as the same number |
| `Persistence.EncodeRow` | banking_system.py:62 | the row written for an account has the header's three fields: the id, the name, and a balance column that reads back as the balance |
| `Persistence.DecodeRow` | banking_system.py:71-72 | a row unpacks exactly when it has three fields and its balance column reads as a number, giving its id and the account with its name and that balance; any other field count fails with WrongFieldCount |
| `Persistence.DecodeEncodeRow` | banking_system.py:71-72 | a row written for an account unpacks into the same id, name and balance |
| `Persistence.Rows` | banking_system.py:61-62 | one row per visited account |
| `Persistence.Serialise` | banking_system.py:57-62 | the store is the header followed by one row per account |
| `Persistence.InsertRows` | banking_system.py:70-72 | the loop over the data rows never removes an account; when it completes, every row unpacked and its id is filed; when it fails, the error is that of one of the rows |
| `Persistence.LoadStore` | banking_system.py:64-72 | loading never removes an account; with no file nothing changes and nothing fails; a successful load had a header row and filed the id of every row after it; a failure is MissingHeader or the error of a row after the header |
| `Persistence.InsertRowsStopsAtError` | banking_system.py:70-72 | once a row fails to load, the rows after it are never read and the accounts inserted before it stay |
| `Persistence.InsertRowsOfSnapshot` | banking_system.py:70-72 | loading the rows written for some ids adds exactly those accounts |
| `Persistence.SaveLoadRoundTrip` | banking_system.py:57-72 | saving a snapshot in any order of its ids and loading it into an empty ledger reproduces the snapshot without error |
| `Persistence.TwoAccountRoundTrip` | banking_system.py:57-72 | two accounts with balances 1000 and 500 survive a save and reload |
| `Bank.Step` | banking_system.py:120-175 | the effect on the ledger of the shell's deposit, withdrawal and transfer on accounts looked up by id (the calls of banking_system.py:12-36); it never adds or removes an account |
| `Bank.DepositById` | banking_system.py:120-136 | looking the id up and depositing into the account found reports whether the id is filed, returns the deposit's outcome, and changes the ledger exactly as `Step` does |
| `Bank.WithdrawById` | banking_system.py:138-154 | looking the id up and withdrawing from the account found reports whether the id is filed, returns the withdrawal's outcome, and changes the ledger exactly as `Step` does |
| `Bank.TransferById` | banking_system.py:156-175 | looking both ids up and transferring between the accounts found, the same one included, reports whether both are filed, returns the outcome (that of the withdrawal), and changes the ledger exactly as `Step` does |
| `Bank.StepKeepsNonNegative` | banking_system.py:12-36 | one deposit, withdrawal or transfer, failed or not, keeps every balance of a non-negative ledger non-negative |
| `Bank.Run` | banking_system.py:12-36 | a sequence of calls never adds or removes an account |
| `Bank.RunKeepsNonNegative` | banking_system.py:12-36 | every sequence of deposits, withdrawals and transfers keeps every balance non-negative and the set of accounts unchanged |
| `Bank.BankSystem.constructor` | banking_system.py:39-40 | a new ledger holds no accounts |
| `Bank.BankSystem.CreateAccount` | banking_system.py:44-52 | an invalid name or a negative balance fails and leaves the map unchanged; otherwise exactly the fresh id is added, mapped to a new account with that name and balance, every other entry is untouched, and the id is returned |
| `Bank.BankSystem.GetAccountById` | banking_system.py:54-55 | the lookup finds an account exactly when the id is filed, and the account found carries that id |
| `Bank.BankSystem.SaveAccounts` | banking_system.py:57-62 | the rows are the serialised snapshot of all accounts, each id visited exactly once |
| `Bank.BankSystem.LoadAccounts` | banking_system.py:64-72 | the ledger afterwards and the outcome are those of `LoadStore` on the ledger before, and every account stays filed under its own id |
| `Bank.CreateScenario` | unit_test.py:11-19 | a balance of -100 and the name "Alice123" create nothing; "Alice" with 1000 is created and its id looks up an account named "Alice" with balance 1000 |
| `Bank.TransferScenario` | unit_test.py:45-60 | Grace (1000) paying Hannah (500) 200 ends at 800/700; the refused transfers of 2000, of a non-numeric amount and of -100 (unit_test.py:90-100), to no account, and to oneself change nothing |
| `NanGuard.DepositAsWritten` | banking_system.py:12-19 | as written: a NaN amount is never refused; a finite amount is refused exactly when <= 0, else added |
| `NanGuard.WithdrawAsWritten` | banking_system.py:21-30 | as written: a NaN amount is never refused; a finite amount succeeds exactly when 0 < amount <= balance, and is subtracted |
| `NanGuard.NanAmountPassesGuards` | banking_system.py:12-30 | as written, a NaN amount passes the guards of deposit and withdraw and leaves a balance that is not >= 0 |
| `NanGuard.CorrectedGuardsAgreeOnFinite` | banking_system.py:12-30 | the model's deposit and withdraw agree with the code on every finite amount, refuse NaN, and keep a non-negative balance non-negative |

## Findings

| source | as written | input that shows it | evidently intended | confidence | as-written member | corrected member |
|---|---|---|---|---|---|---|
| banking_system.py:17-19, 26-30 | the guards test `amount <= 0` and `amount > self.balance`, and every comparison with NaN is false | `account.deposit(float("nan"))` or `account.withdraw("nan")` on a balance of 100 succeeds and the balance becomes NaN | refuse every amount that is not greater than zero, as `is_valid_amount` does with `value > 0` | medium, not executed | `NanGuard.NanAmountPassesGuards` | `NanGuard.CorrectedGuardsAgreeOnFinite` |

The shell only passes amounts that `is_valid_amount` accepted, so the menu
cannot reach this; callers of `BankAccount` directly (as the unit tests are)
can. The rest of the model uses the corrected guard: `Accounts.CheckAmount`
refuses NaN with NotPositive.

## Left out

- `main()` (banking_system.py:84-193), the interactive menu: input, printing, the retry loops, the `is_valid_amount` pre-check (it refuses a NaN amount, which the code's `deposit` and `withdraw` accept and the model's refuse, see Findings; before `create_account` it also refuses an initial balance of 0, which `create_account` accepts; otherwise it refuses only what the account methods refuse) and the `save_accounts()` after each change are left out. `Bank.DepositById`, `Bank.WithdrawById` and `Bank.TransferById` model its lookup-then-call steps, and `Bank.Step` and `Bank.Run` their effect on the accounts.
- File handling: `open`, `os.path.exists`, the fixed file name and the CSV quoting rules of `csv.writer`/`csv.reader`. The store is the list of rows, each a list of fields.
- `Persistence.SaveLoadRoundTrip`: holds at the level of rows of fields only. On the file, `save_accounts` writes with `newline=""` (banking_system.py:58) but `load_accounts` opens the file without it (banking_system.py:67), so a carriage return inside a name, which the name pattern admits as whitespace, would come back as a line feed; this is not modelled.
- `uuid.uuid4()`: replaced by the `freshId` parameter of `CreateAccount`, required to be unused.
- Floating point: money is an `int`; fractional amounts, rounding of `+=`/`-=`, infinities and the text form Python gives floats are not modelled. NaN is modelled only as an amount (see Findings).
- `Persistence.ParseInt`: reads only an optional minus sign and decimal digits; `float()` also accepts a plus sign, surrounding whitespace, a decimal point, exponents, underscores, "inf" and "nan".
- The text-to-number step of `float(amount)` and of `is_valid_amount(amount)`: taken as the `Amount` the conversion yields.
- `Bank.BankSystem.CreateAccount`: does not write the store after inserting the account (`save_accounts()` at banking_system.py:51); `Bank.BankSystem.SaveAccounts` gives what that write contains.
- `Bank.BankSystem.CreateAccount`: the initial balance is an `int`; a NaN initial balance, which the `< 0` test would let through, is not modelled.
- `Bank.BankSystem.SaveAccounts`: visits the accounts in an unspecified order of their ids; Python visits them in insertion order.
- `Bank.BankSystem.constructor`: starts empty; Python's `__init__` then calls `load_accounts`, modelled separately as `LoadAccounts`, whose failure in Python aborts the construction.
- `Accounts.BankAccount`: `account_id` and `name` are constants; the source never reassigns them, though Python would allow it.
- Recipients of a type other than `BankAccount` or `None` are not modelled.
- savant.py, the statistics converter, is not part of this model.
