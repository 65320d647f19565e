/**
  The amount guards of `deposit` and `withdraw` as written, over Python
  floats that may be NaN. Every comparison with NaN is false, so the guards
  `amount <= 0` and `amount > self.balance` let a NaN amount through and the
  balance becomes NaN. The main model (Accounts.Deposited, Accounts.Withdrawn)
  instead rejects NaN, as `is_valid_amount` does with its test `value > 0`.
 */
module NanGuard {
  import opened Wrappers
  import Validation
  import opened Accounts

  /** A Python float as the guards see it: a finite value or NaN. */
  datatype PyFloat = Finite(v: int) | NaN

  /** Python's `<=`, `>`, `>=` on floats: false whenever NaN takes part. */
  predicate AtMost(a: PyFloat, b: PyFloat) {
    a.Finite? && b.Finite? && a.v <= b.v
  }

  predicate Above(a: PyFloat, b: PyFloat) {
    a.Finite? && b.Finite? && a.v > b.v
  }

  predicate NonNegative(a: PyFloat) {
    a.Finite? && a.v >= 0
  }

  /** `+` and `-`: NaN in, NaN out. */
  function Plus(a: PyFloat, b: PyFloat): PyFloat {
    if a.Finite? && b.Finite? then Finite(a.v + b.v) else NaN
  }

  function Minus(a: PyFloat, b: PyFloat): PyFloat {
    if a.Finite? && b.Finite? then Finite(a.v - b.v) else NaN
  }

  /** `deposit` as written: refuse when `amount <= 0`, else add. None is the `ValueError`. */
  function DepositAsWritten(balance: PyFloat, amount: PyFloat): (r: Option<PyFloat>)
    ensures amount.NaN? ==> r == Some(NaN)
    ensures balance.Finite? && amount.Finite? ==>
      (r.Some? <==> amount.v > 0) && (r.Some? ==> r.value == Finite(balance.v + amount.v))
  {
    if AtMost(amount, Finite(0)) then None else Some(Plus(balance, amount))
  }

  /** `withdraw` as written: refuse when `amount <= 0` or `amount > balance`, else subtract. */
  function WithdrawAsWritten(balance: PyFloat, amount: PyFloat): (r: Option<PyFloat>)
    ensures amount.NaN? ==> r == Some(NaN)
    ensures balance.Finite? && amount.Finite? ==>
      (r.Some? <==> 0 < amount.v <= balance.v) && (r.Some? ==> r.value == Finite(balance.v - amount.v))
  {
    if AtMost(amount, Finite(0)) then None
    else if Above(amount, balance) then None
    else Some(Minus(balance, amount))
  }

  /**
    The counterexample: from a balance of 100, `deposit(float("nan"))` and
    `withdraw(float("nan"))` both succeed and leave a balance that is not
    `>= 0`.
   */
  lemma NanAmountPassesGuards()
    ensures NonNegative(Finite(100))
    ensures DepositAsWritten(Finite(100), NaN) == Some(NaN) && !NonNegative(NaN)
    ensures WithdrawAsWritten(Finite(100), NaN) == Some(NaN)
  {
  }

  /** The amount `float()` yields, as the main model takes it. */
  function AsAmount(a: PyFloat): Validation.Amount {
    match a
    case Finite(v) => Validation.Number(v)
    case NaN => Validation.NaN
  }

  /**
    The corrected model agrees with the code as written on every finite
    balance and amount, differs only by refusing NaN, and keeps a
    non-negative balance non-negative for every amount, NaN included.
   */
  lemma CorrectedGuardsAgreeOnFinite(balance: int, amount: PyFloat)
    ensures amount.Finite? ==>
      && (DepositAsWritten(Finite(balance), amount).Some? <==> Deposited(balance, AsAmount(amount)).Ok?)
      && (DepositAsWritten(Finite(balance), amount).Some? ==>
            DepositAsWritten(Finite(balance), amount).value == Finite(Deposited(balance, AsAmount(amount)).value))
      && (WithdrawAsWritten(Finite(balance), amount).Some? <==> Withdrawn(balance, AsAmount(amount)).Ok?)
      && (WithdrawAsWritten(Finite(balance), amount).Some? ==>
            WithdrawAsWritten(Finite(balance), amount).value == Finite(Withdrawn(balance, AsAmount(amount)).value))
    ensures amount.NaN? ==>
      Deposited(balance, AsAmount(amount)) == Err(NotPositive) && Withdrawn(balance, AsAmount(amount)) == Err(NotPositive)
    ensures balance >= 0 && Deposited(balance, AsAmount(amount)).Ok? ==> Deposited(balance, AsAmount(amount)).value >= 0
    ensures balance >= 0 && Withdrawn(balance, AsAmount(amount)).Ok? ==> Withdrawn(balance, AsAmount(amount)).value >= 0
  {
  }
}
