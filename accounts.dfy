/**
 * One bank account: an identifier fixed at opening, the holder's name and
 * the funds, which only deposits and withdrawals change.
 *
 * Amounts are exact reals: the program keeps them in binary floating point,
 * but only compares, adds and subtracts them, and the model does the same
 * without rounding.
 */
module Accounts {

  /** Smallest opening balance an account accepts. */
  const StartingMinimum: real := 1000.0

  /** Identifiers as the random generator draws them: 10000 up to, not including, 99999. */
  type AccountId = id: int | 10000 <= id < 99999 witness 10000

  /** The exceptions the account raises, one per failure path. */
  datatype Error =
    | BelowStartingMinimum   // opening amount under StartingMinimum
    | NonPositiveDeposit     // deposit of zero or less
    | NonPositiveWithdrawal  // withdrawal of zero or less
    | InsufficientBalance    // withdrawal larger than the funds

  /** How a mutator ended: it completed, or it threw before changing anything. */
  datatype Outcome = Pass | Fail(error: Error)

  datatype Result<T> = Success(value: T) | Failure(error: Error)

  /** The balance a deposit of `amount` on `funds` produces, or the error it raises. */
  function Credit(funds: real, amount: real): (r: Result<real>)
    ensures r.Success? <==> amount > 0.0
    ensures r.Success? ==> r.value > funds && r.value - funds == amount
    ensures r.Failure? ==> r.error == NonPositiveDeposit
  {
    if amount <= 0.0 then Failure(NonPositiveDeposit) else Success(funds + amount)
  }

  /** The balance a withdrawal of `amount` from `funds` produces, or the error it raises. */
  function Debit(funds: real, amount: real): (r: Result<real>)
    ensures r.Success? <==> 0.0 < amount <= funds
    ensures r.Success? ==> 0.0 <= r.value < funds && funds - r.value == amount
    ensures r.Failure? ==> r.error == (if amount <= 0.0 then NonPositiveWithdrawal else InsufficientBalance)
  {
    if amount <= 0.0 then Failure(NonPositiveWithdrawal)
    else if amount > funds then Failure(InsufficientBalance)
    else Success(funds - amount)
  }

  /** The funds after an attempted operation: a failed one leaves them as they were. */
  function Settle(attempt: Result<real>, funds: real): real
  {
    if attempt.Success? then attempt.value else funds
  }

  function OutcomeOf(attempt: Result<real>): Outcome
  {
    if attempt.Success? then Pass else Fail(attempt.error)
  }

  /** A withdrawal of what was just deposited restores the balance. */
  lemma DebitUndoesCredit(funds: real, amount: real)
    requires funds >= 0.0
    requires Credit(funds, amount).Success?
    ensures Debit(Credit(funds, amount).value, amount) == Success(funds)
  {
  }

  /** A deposit of what was just withdrawn restores the balance. */
  lemma CreditUndoesDebit(funds: real, amount: real)
    requires Debit(funds, amount).Success?
    ensures Credit(Debit(funds, amount).value, amount) == Success(funds)
  {
  }

  /** A deposit or a withdrawal, as a step of an account's history. */
  datatype Transaction = Deposit(amount: real) | Withdrawal(amount: real)

  function Apply(funds: real, t: Transaction): Result<real>
  {
    match t
    case Deposit(amount) => Credit(funds, amount)
    case Withdrawal(amount) => Debit(funds, amount)
  }

  /** The funds after the transactions of `history`, in order; failed ones change nothing. */
  function Replay(funds: real, history: seq<Transaction>): real
    decreases |history|
  {
    if history == [] then funds
    else Replay(Settle(Apply(funds, history[0]), funds), history[1..])
  }

  /** No history of deposits and withdrawals, accepted or refused, makes solvent funds negative. */
  lemma {:induction false} ReplayKeepsSolvent(funds: real, history: seq<Transaction>)
    requires funds >= 0.0
    ensures Replay(funds, history) >= 0.0
    decreases |history|
  {
    if history != [] {
      ReplayKeepsSolvent(Settle(Apply(funds, history[0]), funds), history[1..]);
    }
  }

  class BankAccount {
    /** Assigned once, when the account is opened (its setter is private). */
    const Id: AccountId
    var HolderName: string
    var Funds: real

    /** The account invariant: the funds are never negative. */
    ghost predicate Valid()
      reads this
    {
      Funds >= 0.0
    }

    /** Sets up an account whose opening amount has passed the check in Open. */
    constructor (name: string, openingAmount: real, id: AccountId)
      requires openingAmount >= StartingMinimum
      ensures Valid()
      ensures Id == id && HolderName == name && Funds == openingAmount
    {
      Id := id;
      HolderName := name;
      Funds := openingAmount;
    }

    /**
     * Opening an account: refused below StartingMinimum, in which case no
     * account exists; otherwise a new account holding the opening amount.
     */
    static method Open(name: string, openingAmount: real, id: AccountId) returns (r: Result<BankAccount>)
      ensures r.Success? <==> openingAmount >= StartingMinimum
      ensures r.Failure? ==> r.error == BelowStartingMinimum
      ensures r.Success? ==> fresh(r.value) && r.value.Valid()
      ensures r.Success? ==> r.value.Id == id && r.value.HolderName == name
      ensures r.Success? ==> r.value.Funds == openingAmount >= StartingMinimum
    {
      if openingAmount < StartingMinimum {
        return Failure(BelowStartingMinimum);
      }
      var account := new BankAccount(name, openingAmount, id);
      r := Success(account);
    }

    /** Deposits `amount`; a non-positive amount is refused and changes nothing. */
    method AddFunds(amount: real) returns (outcome: Outcome)
      requires Valid()
      modifies this`Funds
      ensures Valid()
      ensures outcome.Pass? <==> amount > 0.0
      ensures outcome.Fail? ==> outcome.error == NonPositiveDeposit && Funds == old(Funds)
      ensures outcome.Pass? ==> Funds == old(Funds) + amount
      ensures outcome == OutcomeOf(Credit(old(Funds), amount))
      ensures Funds == Replay(old(Funds), [Deposit(amount)])
      ensures HolderName == old(HolderName)
    {
      if amount <= 0.0 {
        return Fail(NonPositiveDeposit);
      }
      Funds := Funds + amount;
      outcome := Pass;
    }

    /**
     * Withdraws `amount`; a non-positive amount or one larger than the funds
     * is refused and changes nothing.
     */
    method RemoveFunds(amount: real) returns (outcome: Outcome)
      requires Valid()
      modifies this`Funds
      ensures Valid()
      ensures outcome.Pass? <==> 0.0 < amount <= old(Funds)
      ensures outcome == Fail(NonPositiveWithdrawal) <==> amount <= 0.0
      ensures outcome == Fail(InsufficientBalance) <==> 0.0 < amount && amount > old(Funds)
      ensures outcome.Fail? ==> Funds == old(Funds)
      ensures outcome.Pass? ==> Funds == old(Funds) - amount
      ensures outcome == OutcomeOf(Debit(old(Funds), amount))
      ensures Funds == Replay(old(Funds), [Withdrawal(amount)])
      ensures HolderName == old(HolderName)
    {
      if amount <= 0.0 {
        return Fail(NonPositiveWithdrawal);
      }
      if amount > Funds {
        return Fail(InsufficientBalance);
      }
      Funds := Funds - amount;
      outcome := Pass;
    }
  }
}
