/**
 * The wallet contract: a `uint` balance that transfers lower and accepts raise, with checked
 * arithmetic.
 */
module Wallet {
  import opened Wrappers
  import opened GoInts
  import opened GoErrors

  /** The error text assumed for `safemath.Sub` when the amount exceeds the balance. */
  const SubUnderflow: Error := Error("underflow")
  /** The error text assumed for `safemath.Add` when the sum does not fit. */
  const AddOverflow: Error := Error("overflow")

  /**
   * `safemath.Sub`, whose package is not part of this model: assumed to give the difference,
   * or zero with an error when it would be negative.
   */
  function SafeSub(a: uint64, b: uint64): (r: (uint64, Option<Error>))
    ensures b <= a ==> r == (a - b, None)
    ensures b > a ==> r == (0, Some(SubUnderflow))
  {
    if b > a then (0, Some(SubUnderflow)) else (a - b, None)
  }

  /**
   * `safemath.Add`, whose package is not part of this model: assumed to give the sum, or zero
   * with an error when it exceeds the `uint` range.
   */
  function SafeAdd(a: uint64, b: uint64): (r: (uint64, Option<Error>))
    ensures a + b < TwoTo64 ==> r == (a + b, None)
    ensures a + b >= TwoTo64 ==> r == (0, Some(AddOverflow))
  {
    if a + b >= TwoTo64 then (0, Some(AddOverflow)) else (a + b, None)
  }

  class Wallet {
    var balance: uint64

    /** `New`: a wallet holding `balance`. */
    constructor (balance: uint64)
      ensures this.balance == balance
    {
      this.balance := balance;
    }

    /** `GetBalance`: the balance, never an error. */
    method GetBalance() returns (b: uint64, err: Option<Error>)
      ensures b == balance && err == None
    {
      return balance, None;
    }

    /**
     * `Accept`: adds the amount. On overflow the error is reported and, because the result of
     * `safemath.Add` is assigned before the check, the balance becomes zero.
     */
    method Accept(amount: uint64) returns (err: Option<Error>)
      modifies this
      ensures balance == SafeAdd(old(balance), amount).0
      ensures err.None? <==> old(balance) + amount < TwoTo64
      ensures err.Some? ==> err.value == Error("[ Accept ] Couldn't add amount to balance: " + AddOverflow.message)
    {
      var e;
      balance, e := SafeAdd(balance, amount).0, SafeAdd(balance, amount).1;
      if e.Some? {
        return Some(Error("[ Accept ] Couldn't add amount to balance: " + e.value.message));
      }
      return None;
    }

    /**
     * `Transfer`: fails before touching the balance when the target cannot be resolved or the
     * balance is too small; otherwise deducts the amount and then calls the target's `Accept`,
     * whose error is returned without undoing the deduction.
     */
    method Transfer(amount: uint64, to: Result<Wallet, Error>) returns (err: Option<Error>)
      modifies this, if to.Success? then {to.value} else {}
      ensures to.Failure? ==> (balance == old(balance)
        && err == Some(Error("[ Transfer ] Can't get implementation: " + to.error.message)))
      ensures to.Success? && amount > old(balance) ==> (balance == old(balance) && to.value.balance == old(to.value.balance)
        && err == Some(Error("[ Transfer ] Not enough balance for transfer: " + SubUnderflow.message)))
      ensures to.Success? && amount <= old(balance) && to.value != this ==> (
        balance == old(balance) - amount && to.value.balance == SafeAdd(old(to.value.balance), amount).0
        && (err.None? <==> old(to.value.balance) + amount < TwoTo64))
      ensures to.Success? && amount <= old(balance) && to.value == this ==> balance == old(balance) && err == None
    {
      if to.Failure? {
        return Some(Error("[ Transfer ] Can't get implementation: " + to.error.message));
      }
      var toWallet := to.value;
      var newBalance, e := SafeSub(balance, amount).0, SafeSub(balance, amount).1;
      if e.Some? {
        return Some(Error("[ Transfer ] Not enough balance for transfer: " + e.value.message));
      }
      balance := newBalance;
      err := toWallet.Accept(amount);
    }
  }

  /** A successful transfer between two wallets moves the amount and keeps the total. */
  method TransferConserves(from: Wallet, to: Wallet, amount: uint64) returns (err: Option<Error>)
    requires from != to
    modifies from, to
    ensures err.None? ==> from.balance + to.balance == old(from.balance) + old(to.balance)
    ensures err.None? <==> amount <= old(from.balance) && old(to.balance) + amount < TwoTo64
  {
    err := from.Transfer(amount, Success(to));
  }

  /** A failed `Accept` on the target loses the money: the sender is debited and the target reset to zero. */
  method TransferIntoFullWallet() returns (from: Wallet, to: Wallet, err: Option<Error>)
    ensures from.balance == 0 && to.balance == 0 && err.Some?
  {
    from := new Wallet(5);
    to := new Wallet(TwoTo64 - 1);
    err := from.Transfer(5, Success(to));
  }
}
