/**
  The ledger: a map from account id to the account object, with account
  creation, lookup, and the snapshot save and load of the backing store.
 */
module Bank {
  import opened Wrappers
  import opened Validation
  import opened Accounts
  import opened Persistence

  /** A call on accounts looked up by id, as the shell makes them. */
  datatype Call =
    | DepositCall(id: Id, amount: Amount)
    | WithdrawCall(id: Id, amount: Amount)
    | TransferCall(sender: Id, recipient: Id, amount: Amount)

  function WithBalance(s: map<Id, Record>, id: Id, balance: int): map<Id, Record>
    requires id in s
  {
    s[id := s[id].(balance := balance)]
  }

  /**
    The accounts after one call. A call on an id that is not filed, or one
    that raises, leaves every account as it was.
   */
  function Step(s: map<Id, Record>, c: Call): (s': map<Id, Record>)
    ensures s'.Keys == s.Keys
  {
    match c
    case DepositCall(id, a) =>
      if id in s && Deposited(s[id].balance, a).Ok?
      then WithBalance(s, id, Deposited(s[id].balance, a).value) else s
    case WithdrawCall(id, a) =>
      if id in s && Withdrawn(s[id].balance, a).Ok?
      then WithBalance(s, id, Withdrawn(s[id].balance, a).value) else s
    case TransferCall(from, to, a) =>
      if from !in s || to !in s then s
      else if from == to then
        if SelfTransferred(s[from].balance, a).Ok?
        then WithBalance(s, from, SelfTransferred(s[from].balance, a).value) else s
      else
        match Transferred(s[from].balance, s[to].balance, a)
        case Err(_) => s
        case Ok((b, t)) => WithBalance(WithBalance(s, from, b), to, t)
  }

  /** The accounts after a sequence of calls, each failed call skipped. */
  function Run(s: map<Id, Record>, calls: seq<Call>): (s': map<Id, Record>)
    ensures s'.Keys == s.Keys
  {
    if calls == [] then s else Run(Step(s, calls[0]), calls[1..])
  }

  ghost predicate AllNonNegative(s: map<Id, Record>) {
    forall k | k in s :: s[k].balance >= 0
  }

  lemma StepKeepsNonNegative(s: map<Id, Record>, c: Call)
    requires AllNonNegative(s)
    ensures AllNonNegative(Step(s, c))
  {
    match c
    case DepositCall(id, a) =>
      if id in s { SingleCallsKeepNonNegative(s[id].balance, a); }
    case WithdrawCall(id, a) =>
      if id in s { SingleCallsKeepNonNegative(s[id].balance, a); }
    case TransferCall(from, to, a) =>
      if from in s && to in s {
        if from == to {
          SelfTransferSpec(s[from].balance, a);
        } else if Transferred(s[from].balance, s[to].balance, a).Ok? {
          TransferKeepsNonNegative(s[from].balance, s[to].balance, a);
        }
      }
  }

  /**
    No sequence of deposits, withdrawals and transfers, failed ones included,
    makes a non-negative balance negative.
   */
  lemma {:induction false} RunKeepsNonNegative(s: map<Id, Record>, calls: seq<Call>)
    requires AllNonNegative(s)
    ensures AllNonNegative(Run(s, calls))
    ensures Run(s, calls).Keys == s.Keys
  {
    if calls != [] {
      StepKeepsNonNegative(s, calls[0]);
      RunKeepsNonNegative(Step(s, calls[0]), calls[1..]);
    }
  }

  class BankSystem {
    var accounts: map<Id, BankAccount>

    /** Every account is filed under its own id, so distinct ids hold distinct objects. */
    ghost predicate Valid()
      reads this
    {
      forall k | k in accounts :: accounts[k].id == k
    }

    /** The name and balance of every account, by id: what a save writes. */
    ghost function Snapshot(): map<Id, Record>
      reads this, accounts.Values
    {
      map k | k in accounts :: Record(accounts[k].name, accounts[k].balance)
    }

    /** A ledger with no accounts, before `load_accounts` runs. */
    constructor ()
      ensures Valid() && accounts == map[]
    {
      accounts := map[];
    }

    /**
      `create_account`: the name must match the pattern and the initial
      balance must not be negative; then one new account is filed under
      `freshId`, which stands for the generated `uuid4` and is not yet taken.
     */
    method CreateAccount(name: string, initialBalance: int, freshId: Id) returns (r: Result<Id, Error>)
      requires Valid() && freshId !in accounts
      modifies this
      ensures Valid()
      ensures !IsValidName(name) ==> r == Err(InvalidName) && accounts == old(accounts)
      ensures IsValidName(name) && initialBalance < 0 ==>
        r == Err(NegativeInitialBalance) && accounts == old(accounts)
      ensures IsValidName(name) && initialBalance >= 0 ==>
        && r == Ok(freshId)
        && accounts.Keys == old(accounts.Keys) + {freshId}
        && fresh(accounts[freshId])
        && (forall k | k in old(accounts) :: accounts[k] == old(accounts[k]))
        && Snapshot() == old(Snapshot())[freshId := Record(name, initialBalance)]
    {
      if !IsValidName(name) {
        return Err(InvalidName);
      }
      if initialBalance < 0 {
        return Err(NegativeInitialBalance);
      }
      var account := new BankAccount(freshId, name, initialBalance);
      accounts := accounts[freshId := account];
      return Ok(freshId);
    }

    /** `get_account_by_id`: the account filed under `id`, or nothing. */
    function GetAccountById(id: Id): (r: Option<BankAccount>)
      reads this
      requires Valid()
      ensures r.Some? <==> id in accounts
      ensures r.Some? ==> r.value == accounts[id] && r.value.id == id
    {
      if id in accounts then Some(accounts[id]) else None
    }

    /**
      `save_accounts`: the header, then one row per account. The accounts are
      visited in some order of their ids, given back as the ghost `order`.
     */
    method SaveAccounts() returns (rows: seq<Row>, ghost order: seq<Id>)
      requires Valid()
      ensures IsOrdering(order, accounts.Keys)
      ensures rows == Serialise(Snapshot(), order)
    {
      rows := [Header];
      order := [];
      var left := accounts.Keys;
      while left != {}
        invariant left <= accounts.Keys
        invariant forall i | 0 <= i < |order| :: order[i] in accounts && order[i] !in left
        invariant forall i, j | 0 <= i < j < |order| :: order[i] != order[j]
        invariant forall k | k in accounts :: k in left || k in order
        invariant rows == Serialise(Snapshot(), order)
        decreases left
      {
        var k :| k in left;
        var account := accounts[k];
        rows := rows + [EncodeRow(account.id, Record(account.name, account.balance))];
        order := order + [k];
        left := left - {k};
      }
    }

    /**
      `load_accounts`: `store` is the file's rows, or None when the file does
      not exist. Each row after the first files a new account under the id it
      names; a malformed row stops the load, keeping the rows before it.
     */
    method LoadAccounts(store: Option<seq<Row>>) returns (r: Outcome<LoadError>)
      requires Valid()
      modifies this
      ensures Valid()
      ensures (Snapshot(), r) == LoadStore(old(Snapshot()), store)
    {
      if store.None? {
        return Pass;
      }
      var rows := store.value;
      if rows == [] {
        return Fail(MissingHeader);
      }
      var i := 1;
      while i < |rows|
        invariant 1 <= i <= |rows|
        invariant Valid()
        invariant (Snapshot(), Pass) == InsertRows(old(Snapshot()), rows[1..i])
      {
        ghost var before := Snapshot();
        ghost var done := rows[1..i + 1];
        assert |done| == i;
        assert done[..i - 1] == rows[1..i];
        assert done[i - 1] == rows[i];
        match DecodeRow(rows[i]) {
          case Err(e) =>
            assert done == rows[1..][..i];
            InsertRowsStopsAtError(old(Snapshot()), rows[1..], i);
            return Fail(e);
          case Ok((id, record)) =>
            var account := new BankAccount(id, record.name, record.balance);
            accounts := accounts[id := account];
            assert Snapshot() == before[id := record];
        }
        i := i + 1;
      }
      assert rows[1..i] == rows[1..];
      r := Pass;
    }
  }

  /**
    The shell's deposit: look the account up by id and, if it is filed,
    deposit into it. The ledger changes exactly as `Step` says.
   */
  method DepositById(bank: BankSystem, id: Id, amount: Amount) returns (found: bool, r: Outcome<Error>)
    requires bank.Valid()
    modifies bank.accounts.Values
    ensures found <==> id in bank.accounts
    ensures found ==> r == (match Deposited(old(bank.Snapshot())[id].balance, amount)
                            case Ok(_) => Pass case Err(e) => Fail(e))
    ensures bank.Snapshot() == Step(old(bank.Snapshot()), DepositCall(id, amount))
  {
    var account := bank.GetAccountById(id);
    found, r := account.Some?, Pass;
    if found {
      r := account.value.Deposit(amount);
    }
  }

  /** The shell's withdrawal: look up, then withdraw, with the effect `Step` says. */
  method WithdrawById(bank: BankSystem, id: Id, amount: Amount) returns (found: bool, r: Outcome<Error>)
    requires bank.Valid()
    modifies bank.accounts.Values
    ensures found <==> id in bank.accounts
    ensures found ==> r == (match Withdrawn(old(bank.Snapshot())[id].balance, amount)
                            case Ok(_) => Pass case Err(e) => Fail(e))
    ensures bank.Snapshot() == Step(old(bank.Snapshot()), WithdrawCall(id, amount))
  {
    var account := bank.GetAccountById(id);
    found, r := account.Some?, Pass;
    if found {
      r := account.value.Withdraw(amount);
    }
  }

  /**
    The shell's transfer: look both accounts up and, if both are filed,
    transfer between them; the two ids may name the same account.
   */
  method TransferById(bank: BankSystem, sender: Id, recipient: Id, amount: Amount) returns (found: bool, r: Outcome<Error>)
    requires bank.Valid()
    modifies bank.accounts.Values
    ensures found <==> sender in bank.accounts && recipient in bank.accounts
    ensures found ==> r == (match Withdrawn(old(bank.Snapshot())[sender].balance, amount)
                            case Ok(_) => Pass case Err(e) => Fail(e))
    ensures bank.Snapshot() == Step(old(bank.Snapshot()), TransferCall(sender, recipient, amount))
  {
    var from := bank.GetAccountById(sender);
    var to := bank.GetAccountById(recipient);
    found, r := from.Some? && to.Some?, Pass;
    if found {
      TransferSpec(from.value.balance, to.value.balance, amount);
      SelfTransferSpec(from.value.balance, amount);
      r := from.value.Transfer(to.value, amount);
    }
  }

  /**
    The unit tests' account creation against the class contracts: a negative
    balance or a bad name creates nothing; "Alice" with 1000 files an account
    that the returned id looks up, and its name and balance are returned.
   */
  method CreateScenario(idAlice: Id, idOther: Id) returns (name: string, balance: int)
    requires idAlice != idOther
    ensures name == "Alice" && balance == 1000
  {
    LettersOnlyIsValid("Alice");
    assert !IsValidName("Alice123") by { assert !IsNameChar("Alice123"[5]); }
    var bank := new BankSystem();
    var r := bank.CreateAccount("Bob", -100, idOther);
    assert r == Err(NegativeInitialBalance) && bank.accounts == map[];
    r := bank.CreateAccount("Alice123", 500, idOther);
    assert r == Err(InvalidName) && bank.accounts == map[];
    r := bank.CreateAccount("Alice", 1000, idAlice);
    assert r == Ok(idAlice);
    var account := bank.GetAccountById(r.value);
    assert bank.GetAccountById(idOther) == None;
    name, balance := account.value.name, account.value.balance;
  }

  /**
    The unit tests' transfers against the class contracts: Grace (1000) pays
    Hannah (500) 200; a transfer of 2000, of a non-numeric amount, of -100,
    one to no account and one to oneself change nothing. The two final
    balances are returned.
   */
  method TransferScenario() returns (senderBalance: int, recipientBalance: int)
    ensures senderBalance == 800 && recipientBalance == 700
  {
    var grace := new BankAccount("g", "Grace", 1000);
    var hannah := new BankAccount("h", "Hannah", 500);
    var o := grace.Transfer(hannah, Number(200));
    assert o == Pass;
    o := grace.Transfer(hannah, Number(2000));
    assert o == Fail(InsufficientFunds);
    o := grace.Transfer(hannah, NotNumeric);
    assert o == Fail(NotANumber);
    o := grace.Transfer(hannah, Number(-100));
    assert o == Fail(NotPositive);
    o := grace.Transfer(null, Number(10));
    assert o == Fail(NoRecipient);
    o := grace.Transfer(grace, Number(300));
    assert o == Pass;
    senderBalance, recipientBalance := grace.balance, hannah.balance;
  }
}
