/**
  One bank account: a balance changed in place by deposit, withdraw and
  transfer. The pure functions Deposited, Withdrawn and Transferred say what
  each call does to the balances; the class methods are proved against them.
 */
module Accounts {
  import opened Wrappers
  import opened Validation

  type Id = string

  /** The ways a call into the ledger core can fail (each a `ValueError` in the source). */
  datatype Error =
    | NotANumber              // "... amount must be a valid number."
    | NotPositive             // "... amount must be positive."
    | InsufficientFunds       // "Insufficient funds."
    | NoRecipient             // "Recipient account does not exist."
    | InvalidName             // "Invalid name. Only letters and spaces allowed."
    | NegativeInitialBalance  // "Initial balance cannot be negative."

  /** The amount check shared by deposit and withdraw. */
  function CheckAmount(amount: Amount): (o: Outcome<Error>)
    ensures o.Pass? <==> IsValidAmount(amount)
    ensures o == Fail(NotANumber) <==> amount.NotNumeric?
    ensures o.Fail? ==> o.error == NotANumber || o.error == NotPositive
  {
    match amount
    case NotNumeric => Fail(NotANumber)
    case NaN => Fail(NotPositive)
    case Number(a) => if a <= 0 then Fail(NotPositive) else Pass
  }

  /** The balance after `deposit(amount)` on `balance`, or the error it raises. */
  function Deposited(balance: int, amount: Amount): (r: Result<int, Error>)
    ensures r.Ok? <==> IsValidAmount(amount)
    ensures r.Ok? ==> r.value > balance && r.value - balance == amount.value
    ensures r.Err? ==> Fail(r.error) == CheckAmount(amount)
  {
    match CheckAmount(amount)
    case Fail(e) => Err(e)
    case Pass => Ok(balance + amount.value)
  }

  /** The balance after `withdraw(amount)` on `balance`, or the error it raises. */
  function Withdrawn(balance: int, amount: Amount): (r: Result<int, Error>)
    ensures r.Ok? <==> IsValidAmount(amount) && amount.value <= balance
    ensures r.Ok? ==> 0 <= r.value < balance && balance - r.value == amount.value
    ensures r == Err(InsufficientFunds) <==> IsValidAmount(amount) && amount.value > balance
    ensures r.Err? && r.error != InsufficientFunds ==> Fail(r.error) == CheckAmount(amount)
  {
    match CheckAmount(amount)
    case Fail(e) => Err(e)
    case Pass =>
      if amount.value > balance then Err(InsufficientFunds)
      else Ok(balance - amount.value)
  }

  /**
    The two balances after `sender.transfer(recipient, amount)` between two
    distinct accounts: withdraw from the sender, then deposit to the recipient.
   */
  function Transferred(sender: int, recipient: int, amount: Amount): (r: Result<(int, int), Error>)
    ensures r.Ok? <==> Withdrawn(sender, amount).Ok?
    ensures r.Ok? ==> r.value.0 < sender && r.value.1 > recipient
    ensures r.Ok? ==> r.value.0 + r.value.1 == sender + recipient
    ensures r.Err? ==> r.error == Withdrawn(sender, amount).error
  {
    match Withdrawn(sender, amount)
    case Err(e) => Err(e)
    case Ok(s) =>
      match Deposited(recipient, amount)
      case Err(e) => Err(e)
      case Ok(t) => Ok((s, t))
  }

  /** `a.transfer(a, amount)`: the withdrawal and the deposit hit the same balance. */
  function SelfTransferred(balance: int, amount: Amount): (r: Result<int, Error>)
    ensures r.Ok? <==> Withdrawn(balance, amount).Ok?
    ensures r.Ok? ==> r.value == balance
    ensures r.Err? ==> r.error == Withdrawn(balance, amount).error
  {
    match Withdrawn(balance, amount)
    case Err(e) => Err(e)
    case Ok(s) => Deposited(s, amount)
  }

  /** A deposit succeeds exactly for a numeric, positive amount and adds it. */
  lemma DepositSpec(balance: int, amount: Amount)
    ensures Deposited(balance, amount).Ok? <==> amount.Number? && amount.value > 0
    ensures Deposited(balance, amount).Ok? ==> Deposited(balance, amount).value == balance + amount.value
    ensures amount.NotNumeric? ==> Deposited(balance, amount) == Err(NotANumber)
    ensures amount.Number? && amount.value <= 0 ==> Deposited(balance, amount) == Err(NotPositive)
  {
  }

  /**
    A withdrawal succeeds exactly for `0 < amount <= balance` and subtracts
    it; "Insufficient funds" is raised exactly when a positive amount exceeds
    the balance.
   */
  lemma WithdrawSpec(balance: int, amount: Amount)
    ensures Withdrawn(balance, amount).Ok? <==> amount.Number? && 0 < amount.value <= balance
    ensures Withdrawn(balance, amount).Ok? ==> Withdrawn(balance, amount).value == balance - amount.value
    ensures Withdrawn(balance, amount) == Err(InsufficientFunds)
            <==> amount.Number? && 0 < amount.value && amount.value > balance
    ensures amount.NotNumeric? ==> Withdrawn(balance, amount) == Err(NotANumber)
    ensures amount.Number? && amount.value <= 0 ==> Withdrawn(balance, amount) == Err(NotPositive)
  {
  }

  /** The shell's `is_valid_amount` accepts exactly the amounts a deposit accepts. */
  lemma ValidAmountIsDepositable(balance: int, amount: Amount)
    ensures IsValidAmount(amount) <==> Deposited(balance, amount).Ok?
    ensures IsValidAmount(amount) && amount.value <= balance <==> Withdrawn(balance, amount).Ok?
  {
  }

  /** Successful deposits and withdrawals keep a non-negative balance non-negative. */
  lemma SingleCallsKeepNonNegative(balance: int, amount: Amount)
    requires balance >= 0
    ensures Deposited(balance, amount).Ok? ==> Deposited(balance, amount).value >= 0
    ensures Withdrawn(balance, amount).Ok? ==> Withdrawn(balance, amount).value >= 0
  {
  }

  /**
    Withdrawing what was just deposited restores the balance exactly, when
    the amount does not exceed the balance after the deposit (that is, when
    the balance was not negative).
   */
  lemma DepositThenWithdrawRestores(balance: int, amount: Amount)
    requires balance >= 0 && Deposited(balance, amount).Ok?
    ensures Withdrawn(Deposited(balance, amount).value, amount) == Ok(balance)
  {
  }

  /**
    A transfer between distinct accounts moves exactly the amount, so the sum
    of the two balances is preserved; when it fails it fails with the
    withdrawal's error (the deposit can never be what fails), and both
    balances are left alone.
   */
  lemma TransferSpec(sender: int, recipient: int, amount: Amount)
    ensures Transferred(sender, recipient, amount).Ok? <==> Withdrawn(sender, amount).Ok?
    ensures Transferred(sender, recipient, amount).Ok? ==>
      var (s, t) := Transferred(sender, recipient, amount).value;
      s == sender - amount.value && t == recipient + amount.value && s + t == sender + recipient
    ensures Transferred(sender, recipient, amount).Err? ==>
      Transferred(sender, recipient, amount).error == Withdrawn(sender, amount).error
  {
  }

  /** A successful transfer from a non-negative sender leaves both sides non-negative. */
  lemma TransferKeepsNonNegative(sender: int, recipient: int, amount: Amount)
    requires sender >= 0 && recipient >= 0
    requires Transferred(sender, recipient, amount).Ok?
    ensures Transferred(sender, recipient, amount).value.0 >= 0
    ensures Transferred(sender, recipient, amount).value.1 >= 0
  {
  }

  /** Transferring to oneself never changes the balance and fails as the withdrawal would. */
  lemma SelfTransferSpec(balance: int, amount: Amount)
    ensures SelfTransferred(balance, amount).Ok? <==> Withdrawn(balance, amount).Ok?
    ensures SelfTransferred(balance, amount).Ok? ==> SelfTransferred(balance, amount).value == balance
    ensures SelfTransferred(balance, amount).Err? ==>
      SelfTransferred(balance, amount).error == Withdrawn(balance, amount).error
  {
  }

  /** The unit tests' transfers: 1000/500 moving 200 gives 800/700; 2000 is refused. */
  lemma TransferExamples()
    ensures Transferred(1000, 500, Number(200)) == Ok((800, 700))
    ensures Transferred(1000, 500, Number(2000)) == Err(InsufficientFunds)
    ensures Transferred(1000, 500, NotNumeric) == Err(NotANumber)
    ensures Transferred(1000, 500, Number(-100)) == Err(NotPositive)
  {
  }

  class BankAccount {
    const id: Id
    const name: string
    var balance: int

    constructor (id: Id, name: string, balance: int)
      ensures this.id == id && this.name == name && this.balance == balance
    {
      this.id := id;
      this.name := name;
      this.balance := balance;
    }

    /** `deposit`: on success the balance grows by the amount; on failure nothing changes. */
    method Deposit(amount: Amount) returns (r: Outcome<Error>)
      modifies this`balance
      ensures match Deposited(old(balance), amount)
              case Ok(b) => r == Pass && balance == b
              case Err(e) => r == Fail(e) && balance == old(balance)
    {
      match CheckAmount(amount)
      case Fail(e) =>
        return Fail(e);
      case Pass =>
        balance := balance + amount.value;
        return Pass;
    }

    /** `withdraw`: on success the balance shrinks by the amount; on failure nothing changes. */
    method Withdraw(amount: Amount) returns (r: Outcome<Error>)
      modifies this`balance
      ensures match Withdrawn(old(balance), amount)
              case Ok(b) => r == Pass && balance == b
              case Err(e) => r == Fail(e) && balance == old(balance)
    {
      match CheckAmount(amount)
      case Fail(e) =>
        return Fail(e);
      case Pass =>
        if amount.value > balance {
          return Fail(InsufficientFunds);
        }
        balance := balance - amount.value;
        return Pass;
    }

    /**
      `transfer`: a missing recipient is refused; otherwise withdraw from this
      account, and only if that succeeded deposit to the recipient, which may
      be this very account.
     */
    method Transfer(recipient: BankAccount?, amount: Amount) returns (r: Outcome<Error>)
      modifies this, recipient
      ensures recipient == null ==> r == Fail(NoRecipient) && balance == old(balance)
      ensures recipient != null && recipient != this ==>
        match Transferred(old(balance), old(recipient.balance), amount)
        case Ok((s, t)) => r == Pass && balance == s && recipient.balance == t
        case Err(e) => r == Fail(e) && balance == old(balance) && recipient.balance == old(recipient.balance)
      ensures recipient == this ==>
        match SelfTransferred(old(balance), amount)
        case Ok(b) => r == Pass && balance == b
        case Err(e) => r == Fail(e) && balance == old(balance)
    {
      if recipient == null {
        return Fail(NoRecipient);
      }
      r := Withdraw(amount);
      if r.Fail? {
        return;
      }
      r := recipient.Deposit(amount);
    }
  }
}
