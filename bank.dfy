/**
 * The bank: an ordered list of accounts that only grows, a first-match
 * lookup by identifier, and the deposit and withdrawal procedures built on
 * top of them.
 *
 * The console is replaced by its input: a prompt that re-reads until it gets
 * an acceptable line consumes a finite script of lines. Each line is either
 * missing (end of input, or text that did not parse) or carries its value.
 * When the script runs out before an acceptable line the program would still
 * be prompting; the model then reports that it is waiting and changes nothing.
 */
module Bank {
  import opened Wrappers
  import opened Accounts
  import opened Text

  /** The least amount the amount prompt accepts when no other minimum is given. */
  const DefaultMinimum: real := 0.01

  /** Position of the first account with identifier `id`, if any. */
  function IndexOfId(accounts: seq<BankAccount>, id: int): (r: Option<nat>)
    ensures r.Some? ==> r.value < |accounts| && accounts[r.value].Id == id
    ensures r.Some? ==> forall j :: 0 <= j < r.value ==> accounts[j].Id != id
    ensures r.None? <==> forall j :: 0 <= j < |accounts| ==> accounts[j].Id != id
  {
    if accounts == [] then None
    else if accounts[0].Id == id then Some(0)
    else match IndexOfId(accounts[1..], id)
      case None => None
      case Some(k) => Some(k + 1)
  }

  /** The account a lookup of `id` yields: the first match, or none. */
  function FirstWithId(accounts: seq<BankAccount>, id: int): Option<BankAccount>
  {
    match IndexOfId(accounts, id)
    case None => None
    case Some(k) => Some(accounts[k])
  }

  /** An account appended after the others is found by its identifier unless an earlier account already has it. */
  lemma {:induction false} FirstWithIdAfterAppend(accounts: seq<BankAccount>, account: BankAccount, id: int)
    ensures FirstWithId(accounts + [account], id) ==
      if FirstWithId(accounts, id).Some? then FirstWithId(accounts, id)
      else if account.Id == id then Some(account)
      else None
    decreases |accounts|
  {
    if accounts != [] && accounts[0].Id != id {
      assert (accounts + [account])[1..] == accounts[1..] + [account];
      FirstWithIdAfterAppend(accounts[1..], account, id);
    }
  }

  /** A trimmed line, as `Console.ReadLine()?.Trim()` yields it. */
  function Trimmed(line: Option<string>): (r: Option<string>)
    ensures r.Some? <==> line.Some?
    ensures r.Some? ==> r.value == Trim(line.value)
  {
    match line
    case None => None
    case Some(s) => Some(Trim(s))
  }

  /** string.IsNullOrWhiteSpace: null, or nothing but white space; that is, nothing is left once trimmed. */
  predicate IsNullOrWhiteSpace(s: Option<string>)
    ensures IsNullOrWhiteSpace(s) <==> s.None? || Trim(s.value) == []
  {
    s.None? || (TrimEmptyIffBlank(s.value); IsBlank(s.value))
  }

  /** The condition the name prompt applies to each line: once trimmed, it is neither null nor blank. */
  predicate IsNameLine(line: Option<string>)
  {
    !IsNullOrWhiteSpace(Trimmed(line))
  }

  /** The name the name prompt settles on: the first line that is not blank, trimmed. */
  function FirstValidName(lines: seq<Option<string>>): (r: Option<string>)
    ensures r.Some? ==> !IsNullOrWhiteSpace(r)
    ensures r.None? <==> forall i :: 0 <= i < |lines| ==> !IsNameLine(lines[i])
  {
    if lines == [] then None
    else if IsNameLine(lines[0]) then Trimmed(lines[0])
    else FirstValidName(lines[1..])
  }

  /** A name as the name prompt leaves it: non-empty, no white space at either end, fixed by Trim. */
  predicate IsTrimmedName(name: string)
  {
    name != [] && !IsWhiteSpace(name[0]) && !IsWhiteSpace(name[|name| - 1]) && Trim(name) == name
  }

  /** The prompt settles on line `k`, trimmed, when it is a name line and no earlier line is. */
  lemma {:induction false} FirstValidNameIsFirst(lines: seq<Option<string>>, k: nat)
    requires k < |lines| && IsNameLine(lines[k])
    requires forall j :: 0 <= j < k ==> !IsNameLine(lines[j])
    ensures FirstValidName(lines) == Trimmed(lines[k])
    decreases k
  {
    if k > 0 {
      FirstValidNameIsFirst(lines[1..], k - 1);
    }
  }

  /** The settled name is trimmed and not empty: it starts and ends with a character that is not white space. */
  lemma {:induction false} SettledNameIsTrimmed(lines: seq<Option<string>>)
    ensures FirstValidName(lines).Some? ==> IsTrimmedName(FirstValidName(lines).value)
    decreases |lines|
  {
    if lines != [] {
      if IsNameLine(lines[0]) {
        TrimmedNameLine(lines[0].value);
      } else {
        assert FirstValidName(lines) == FirstValidName(lines[1..]);
        SettledNameIsTrimmed(lines[1..]);
      }
    }
  }

  /** A line accepted as a name, trimmed, is non-empty, has no white space at either end and is fixed by Trim. */
  lemma TrimmedNameLine(line: string)
    ensures IsNameLine(Some(line)) ==> IsTrimmedName(Trim(line))
  {
    TrimIdempotent(line);
    TrimEmptyIffBlank(line);
  }

  /** The condition the amount prompt applies to each line: it parsed and is at least `minimum`. */
  predicate Acceptable(line: Option<real>, minimum: real)
  {
    line.Some? && line.value >= minimum
  }

  /** The amount the amount prompt settles on: the first acceptable line. */
  function FirstAcceptableAmount(lines: seq<Option<real>>, minimum: real): (r: Option<real>)
    ensures r.Some? ==> r.value >= minimum && r in lines
    ensures r.None? <==> forall i :: 0 <= i < |lines| ==> !Acceptable(lines[i], minimum)
  {
    if lines == [] then None
    else if Acceptable(lines[0], minimum) then lines[0]
    else FirstAcceptableAmount(lines[1..], minimum)
  }

  /** The prompt settles on line `k` when it is acceptable and no earlier line is. */
  lemma {:induction false} FirstAcceptableAmountIsFirst(lines: seq<Option<real>>, minimum: real, k: nat)
    requires k < |lines| && Acceptable(lines[k], minimum)
    requires forall j :: 0 <= j < k ==> !Acceptable(lines[j], minimum)
    ensures FirstAcceptableAmount(lines, minimum) == lines[k]
    decreases k
  {
    if k > 0 {
      FirstAcceptableAmountIsFirst(lines[1..], minimum, k - 1);
    }
  }

  /** Once the prompt has settled on a line, the lines typed after it are never read. */
  lemma {:induction false} FirstAcceptableAmountIgnoresRest(lines: seq<Option<real>>, rest: seq<Option<real>>, minimum: real)
    requires FirstAcceptableAmount(lines, minimum).Some?
    ensures FirstAcceptableAmount(lines + rest, minimum) == FirstAcceptableAmount(lines, minimum)
    decreases |lines|
  {
    assert (lines + rest)[0] == lines[0];
    if !Acceptable(lines[0], minimum) {
      assert (lines + rest)[1..] == lines[1..] + rest;
      FirstAcceptableAmountIgnoresRest(lines[1..], rest, minimum);
    }
  }

  /** What registering an account from console input led to. */
  datatype Registration =
    | Registered(account: BankAccount)
    | Rejected(error: Error)  // the account refused its opening amount
    | AwaitingInput           // the input ran out while a prompt was still waiting

  /** What a deposit or a withdrawal from console input led to. */
  datatype Report =
    | InvalidIdFormat                             // the identifier line did not parse
    | NoSuchAccount                               // no account has that identifier
    | AwaitingAmount                              // the input ran out at the amount prompt
    | Completed(account: BankAccount)
    | Declined(account: BankAccount, error: Error)

  class BankSystem {
    /** The accounts, in the order they were opened; the list is only ever appended to. */
    var customers: seq<BankAccount>

    /** Every account keeps its own invariant. */
    ghost predicate Valid()
      reads this, customers
    {
      forall i :: 0 <= i < |customers| ==> customers[i].Valid()
    }

    constructor ()
      ensures Valid() && customers == []
    {
      customers := [];
    }

    /** List.Find: a scan from the front for the first account with identifier `id`. */
    method Find(id: int) returns (found: BankAccount?)
      ensures found == null <==> forall i :: 0 <= i < |customers| ==> customers[i].Id != id
      ensures found != null ==> found in customers && found.Id == id
      ensures found != null ==> FirstWithId(customers, id) == Some(found)
    {
      var i := 0;
      while i < |customers|
        invariant 0 <= i <= |customers|
        invariant forall j :: 0 <= j < i ==> customers[j].Id != id
      {
        if customers[i].Id == id {
          return customers[i];
        }
        i := i + 1;
      }
      return null;
    }

    /** Looks up the account for an identifier line; a line that did not parse finds nothing. */
    method LocateAccount(idLine: Option<int>) returns (found: BankAccount?)
      ensures idLine.None? ==> found == null
      ensures idLine.Some? ==> (found == null <==> FirstWithId(customers, idLine.value).None?)
      ensures found != null ==> idLine.Some? && FirstWithId(customers, idLine.value) == Some(found)
    {
      if idLine.None? {
        return null;
      }
      found := Find(idLine.value);
    }

    /** The name prompt: reads lines until one is not blank once trimmed. */
    method ReadName(lines: seq<Option<string>>) returns (name: Option<string>)
      ensures name == FirstValidName(lines)
      ensures name.Some? ==> !IsNullOrWhiteSpace(name)
    {
      var i := 0;
      name := None;
      while IsNullOrWhiteSpace(name) && i < |lines|
        invariant 0 <= i <= |lines|
        invariant IsNullOrWhiteSpace(name) ==> FirstValidName(lines) == FirstValidName(lines[i..])
        invariant !IsNullOrWhiteSpace(name) ==> name == FirstValidName(lines)
      {
        assert lines[i..][1..] == lines[i + 1..];
        name := Trimmed(lines[i]);
        i := i + 1;
      }
      if IsNullOrWhiteSpace(name) {
        name := None;
      }
    }

    /** The amount prompt: reads lines until one parses to a value of at least `minimum`. */
    method GetValidAmount(lines: seq<Option<real>>, minimum: real) returns (amount: Option<real>)
      ensures amount == FirstAcceptableAmount(lines, minimum)
      ensures amount.Some? ==> amount.value >= minimum
    {
      var i := 0;
      while i < |lines|
        invariant 0 <= i <= |lines|
        invariant FirstAcceptableAmount(lines, minimum) == FirstAcceptableAmount(lines[i..], minimum)
      {
        assert lines[i..][1..] == lines[i + 1..];
        if lines[i].Some? && lines[i].value >= minimum {
          return Some(lines[i].value);
        }
        i := i + 1;
      }
      return None;
    }

    /**
     * Opens an account and appends it; when the account refuses the opening
     * amount the list is left as it was.
     */
    method Register(name: string, openingAmount: real, id: AccountId) returns (r: Result<BankAccount>)
      requires Valid()
      modifies this
      ensures Valid()
      ensures r.Success? <==> openingAmount >= StartingMinimum
      ensures r.Failure? ==> r.error == BelowStartingMinimum && customers == old(customers)
      ensures r.Success? ==> fresh(r.value) && customers == old(customers) + [r.value]
      ensures r.Success? ==> r.value.Id == id && r.value.HolderName == name && r.value.Funds == openingAmount
    {
      r := BankAccount.Open(name, openingAmount, id);
      if r.Success? {
        customers := customers + [r.value];
      }
    }

    /**
     * Account registration from console input: the name prompt, then the
     * amount prompt with StartingMinimum as its minimum, then Register.
     * The amount prompt already enforces the minimum, so the account never
     * refuses the amount it is given.
     */
    method RegisterNewAccount(nameLines: seq<Option<string>>, amountLines: seq<Option<real>>, id: AccountId)
      returns (r: Registration)
      requires Valid()
      modifies this
      ensures Valid()
      ensures !r.Rejected?
      ensures r.Registered? <==>
        FirstValidName(nameLines).Some? && FirstAcceptableAmount(amountLines, StartingMinimum).Some?
      ensures r.Registered? ==> fresh(r.account) && customers == old(customers) + [r.account]
      ensures r.Registered? ==> r.account.Id == id && r.account.HolderName == FirstValidName(nameLines).value
      ensures r.Registered? ==> r.account.Funds == FirstAcceptableAmount(amountLines, StartingMinimum).value
      ensures !r.Registered? ==> customers == old(customers)
    {
      var name := ReadName(nameLines);
      if name.None? {
        return AwaitingInput;
      }
      var startingAmount := GetValidAmount(amountLines, StartingMinimum);
      if startingAmount.None? {
        return AwaitingInput;
      }
      var registered := Register(name.value, startingAmount.value, id);
      match registered
      case Success(account) => r := Registered(account);
      case Failure(error) => r := Rejected(error);
    }

    /**
     * Deposit from console input: locate the account, read an amount of at
     * least DefaultMinimum, add it. Only the located account changes.
     */
    method ProcessDeposit(idLine: Option<int>, amountLines: seq<Option<real>>) returns (report: Report)
      requires Valid()
      modifies customers
      ensures Valid() && customers == old(customers)
      ensures report == InvalidIdFormat <==> idLine.None?
      ensures report == NoSuchAccount <==> (idLine.Some? && FirstWithId(customers, idLine.value).None?)
      ensures report == AwaitingAmount <==>
        (idLine.Some? && FirstWithId(customers, idLine.value).Some?
         && FirstAcceptableAmount(amountLines, DefaultMinimum).None?)
      ensures !report.Declined?
      ensures report.Completed? ==> idLine.Some? && FirstWithId(customers, idLine.value) == Some(report.account)
      ensures report.Completed? ==>
        report.account.Funds == old(report.account.Funds) + FirstAcceptableAmount(amountLines, DefaultMinimum).value
      ensures forall a :: a in customers && report != Completed(a) ==> a.Funds == old(a.Funds)
      ensures forall a :: a in customers ==> a.HolderName == old(a.HolderName)
    {
      var account := LocateAccount(idLine);
      if account == null {
        return if idLine.None? then InvalidIdFormat else NoSuchAccount;
      }
      var deposit := GetValidAmount(amountLines, DefaultMinimum);
      if deposit.None? {
        return AwaitingAmount;
      }
      var outcome := account.AddFunds(deposit.value);
      // The amount prompt only returns positive amounts, so AddFunds never throws here.
      assert outcome == Pass;
      report := Completed(account);
    }

    /**
     * Withdrawal from console input: locate the account, read an amount of
     * at least DefaultMinimum, remove it; a refused withdrawal is reported
     * and changes nothing.
     */
    method ProcessWithdrawal(idLine: Option<int>, amountLines: seq<Option<real>>) returns (report: Report)
      requires Valid()
      modifies customers
      ensures Valid() && customers == old(customers)
      ensures report == InvalidIdFormat <==> idLine.None?
      ensures report == NoSuchAccount <==> (idLine.Some? && FirstWithId(customers, idLine.value).None?)
      ensures report == AwaitingAmount <==>
        (idLine.Some? && FirstWithId(customers, idLine.value).Some?
         && FirstAcceptableAmount(amountLines, DefaultMinimum).None?)
      ensures report.Completed? || report.Declined? ==>
        idLine.Some? && FirstWithId(customers, idLine.value) == Some(report.account)
      ensures report.Completed? || report.Declined? ==>
        var amount := FirstAcceptableAmount(amountLines, DefaultMinimum).value;
        && (report.Completed? <==> amount <= old(report.account.Funds))
        && (report.Completed? ==> report.account.Funds == old(report.account.Funds) - amount)
        && (report.Declined? ==> report.error == InsufficientBalance && report.account.Funds == old(report.account.Funds))
      ensures forall a :: a in customers && report != Completed(a) ==> a.Funds == old(a.Funds)
      ensures forall a :: a in customers ==> a.HolderName == old(a.HolderName)
    {
      var account := LocateAccount(idLine);
      if account == null {
        return if idLine.None? then InvalidIdFormat else NoSuchAccount;
      }
      var withdrawal := GetValidAmount(amountLines, DefaultMinimum);
      if withdrawal.None? {
        return AwaitingAmount;
      }
      var outcome := account.RemoveFunds(withdrawal.value);
      match outcome
      case Pass => report := Completed(account);
      case Fail(error) => report := Declined(account, error);
    }
  }

  /** A newly registered account is what a lookup of its identifier finds, unless an earlier account already has that identifier. */
  lemma NewAccountFoundUnlessShadowed(accounts: seq<BankAccount>, account: BankAccount)
    requires account !in accounts
    ensures FirstWithId(accounts + [account], account.Id) == Some(account) <==>
      forall i :: 0 <= i < |accounts| ==> accounts[i].Id != account.Id
  {
    FirstWithIdAfterAppend(accounts, account, account.Id);
  }

  /**
   * A client of the contracts above: Alice opens with 1000, deposits 500,
   * is refused a withdrawal of 2000 and withdraws 1500; Bob's opening with
   * 500 is refused and leaves the list as it was.
   */
  method ExampleSession()
  {
    var bank := new BankSystem();
    var created := bank.Register("Alice", 1000.0, 12345);
    var alice := created.value;
    assert bank.customers == [alice] && alice.Valid();
    var outcome := alice.AddFunds(500.0);
    assert alice.Funds == 1500.0;
    outcome := alice.RemoveFunds(2000.0);
    assert outcome == Fail(InsufficientBalance) && alice.Funds == 1500.0;
    outcome := alice.RemoveFunds(1500.0);
    assert outcome == Pass && alice.Funds == 0.0;
    var refused := bank.Register("Bob", 500.0, 23456);
    assert refused == Failure(BelowStartingMinimum) && bank.customers == [alice];
  }
}
