# Banking console: a verified model of the account ledger

The program keeps bank accounts in memory. Each account has an identifier, a holder name and its funds. Users open accounts with at least 1000, deposit, withdraw and list the accounts from a text menu. This project models the ledger behind that menu in Dafny and proves its contracts:

- `accounts.dfy` (module `Accounts`) models the `BankAccount` class. It covers opening with the `StartingMinimum` check, `AddFunds` and `RemoveFunds`, and the exceptions they throw, modelled as `Outcome`/`Result` values. It also holds `Credit` and `Debit`, pure versions of the two mutators on a balance, and `Replay`, which gives the funds after any history of deposits and withdrawals. For finite amounts, the account invariant `Funds >= 0` holds after opening. Both mutators preserve it, and so does every history. Infinite and NaN amounts are outside the model; see "## Left out".
- `bank.dfy` (module `Bank`) models `BankSystem`. Its `customers` list only grows. `Find` is a first-match scan by identifier, as `List.Find` is. The module also models the name and amount prompts and the deposit, withdrawal and registration procedures that are built from them.
- `text.dfy` (module `Text`) models .NET's `char.IsWhiteSpace` and `string.Trim`, which decide what counts as a name.
- `wrappers.dfy` holds `Option`.

`Bank.ExampleSession` is a verified client. It walks through opening an account with 1000, depositing 500, being refused a withdrawal of 2000 and withdrawing 1500. It ends with an opening of 500 that is refused and leaves the list unchanged.

Modelling choices:

- Amounts are exact `real`s. The program stores them as `double` but only compares, adds and subtracts them, so IEEE rounding is not modelled. `StartingMinimum` is 1000.0. The amount prompt's default minimum is 0.01.
- The random generator draws identifiers with `rng.Next(10000, 99999)`, whose upper bound is exclusive. Here an identifier is a parameter of subset type `AccountId`, the range [10000, 99999). Identifiers are not assumed unique: nothing checks for collisions. A lookup returns the first account with the identifier. `NewAccountFoundUnlessShadowed` proves that an account opened with an identifier already in use can never be found by a lookup.
- `Id` is a `const`: its setter is private and only the constructor assigns it. `AddFunds` and `RemoveFunds` may modify only `Funds` (`modifies this`Funds`), so `Id` and `HolderName` stay unchanged.
- Console input is a parameter. A prompt that re-reads until it gets an acceptable line consumes a finite script of lines. Each line is `None` (end of input, or text that `int.TryParse`/`double.TryParse` rejected) or `Some` of its value. If the script runs out first, the real program would still be prompting. The model then reports `AwaitingInput` or `AwaitingAmount` and changes nothing. The name lines and the amount lines are separate scripts. In the program they are successive parts of one console stream.

## Model

| member | source | states |
|---|---|---|
| `Accounts.Credit` | Program.cs:24-29 | a deposit succeeds exactly when the amount is positive; the balance then grows by exactly the amount; otherwise the error is the non-positive-deposit one |
| `Accounts.Debit` | Program.cs:31-38 | a withdrawal succeeds exactly when 0 < amount <= funds, and leaves a balance that is non-negative and lower by exactly the amount; a non-positive amount fails with the non-positive-withdrawal error, a larger one with insufficient balance |
| `Accounts.DebitUndoesCredit` | Program.cs:24-38 | on non-negative funds, withdrawing what was just deposited succeeds and restores the balance |
| `Accounts.CreditUndoesDebit` | Program.cs:24-38 | depositing what was just withdrawn succeeds and restores the balance |
| `Accounts.ReplayKeepsSolvent` | Program.cs:24-38 | starting from non-negative funds, no sequence of deposits and withdrawals, accepted or refused, makes the funds negative |
| `Accounts.BankAccount.constructor` | Program.cs:19-21 | an account built from an accepted opening amount has the given identifier, holder name and funds, and satisfies `Funds >= 0` |
| `Accounts.BankAccount.Open` | Program.cs:14-22 | opening fails (no account exists) exactly when the amount is below `StartingMinimum`; otherwise a fresh account holding the amount, the name and the identifier |
| `Accounts.BankAccount.AddFunds` | Program.cs:24-29 | a non-positive deposit is refused and leaves `Funds` unchanged; otherwise `Funds` becomes `old(Funds) + amount`; `Funds >= 0` is preserved; `Id` and `HolderName` are unchanged |
| `Accounts.BankAccount.RemoveFunds` | Program.cs:31-38 | a non-positive amount fails with one error and an amount above `Funds` with insufficient balance, both leaving `Funds` unchanged; otherwise `Funds` becomes `old(Funds) - amount`; `Funds >= 0` is preserved; `Id` and `HolderName` are unchanged |
| `Text.IsWhiteSpace` | Program.cs:69 | the ASCII space, tab, line feed and carriage return are white space, and letters and digits are not; the full set is .NET's `char.IsWhiteSpace` (U+0009 to U+000D, U+0085 and the Unicode space, line and paragraph separators) |
| `Text.SkipBlanks` | Program.cs:67 | the leading scan of `Trim` stops at the first character that is not white space, having passed only white space, or at the end |
| `Text.SkipBlanksBack` | Program.cs:67 | the trailing scan of `Trim` stops after the last character that is not white space, having passed only white space, or at the start of the text |
| `Text.Trim` | Program.cs:67 | the result is a contiguous part `s[a..b]` of the input, and everything removed before `a` and after `b` is white space; the result is empty or starts and ends with a non-blank character |
| `Text.TrimEmptyIffBlank` | Program.cs:67-69 | trimming leaves nothing exactly when the string was all white space |
| `Text.TrimIdempotent` | Program.cs:67-72 | a trimmed name is unchanged by trimming it again |
| `Bank.Trimmed` | Program.cs:67 | a missing line stays missing; a present line becomes its `Trim` |
| `Bank.IsNullOrWhiteSpace` | Program.cs:69 | a name is refused exactly when it is null or nothing is left of it once trimmed |
| `Bank.FirstValidName` | Program.cs:66-73 | the settled name is neither null nor white space; there is none exactly when every line is missing or blank once trimmed |
| `Bank.FirstValidNameIsFirst` | Program.cs:67-73 | the prompt settles on the first line that is a name once trimmed, and the name is that line trimmed |
| `Bank.TrimmedNameLine` | Program.cs:67-69 | a line the prompt accepts, once trimmed, is non-empty, has no white space at either end and is unchanged by trimming again |
| `Bank.SettledNameIsTrimmed` | Program.cs:66-73 | the name the prompt settles on is non-empty, starts and ends with a character that is not white space, and is unchanged by trimming again |
| `Bank.FirstAcceptableAmount` | Program.cs:143-154 | the settled amount is one of the lines and is at least the minimum; there is none exactly when no line parsed to a value at least the minimum |
| `Bank.FirstAcceptableAmountIsFirst` | Program.cs:146-153 | the prompt settles on the first acceptable line |
| `Bank.FirstAcceptableAmountIgnoresRest` | Program.cs:146-153 | lines typed after the settled one do not change the amount |
| `Bank.IndexOfId` | Program.cs:128 | the position of the first account with the identifier: that account matches and no earlier one does; there is none exactly when no account matches |
| `Bank.FirstWithIdAfterAppend` | Program.cs:128 | after an append, a lookup finds what it found before; if it found nothing, it finds the new account when its identifier matches, or nothing |
| `Bank.NewAccountFoundUnlessShadowed` | Program.cs:128-134 | a lookup of a newly appended account's identifier finds that account exactly when no earlier account has the same identifier |
| `Bank.BankSystem.constructor` | Program.cs:48 | the bank starts with no accounts |
| `Bank.BankSystem.Find` | Program.cs:128 | returns null exactly when no account has the identifier; otherwise the first account in `customers` with it |
| `Bank.BankSystem.LocateAccount` | Program.cs:123-141 | an identifier line that did not parse finds nothing; a parsed one finds the first matching account or nothing; the list is not modified |
| `Bank.BankSystem.ReadName` | Program.cs:66-73 | the name loop ends with the first line that is not blank once trimmed, and that name is neither null nor white space |
| `Bank.BankSystem.GetValidAmount` | Program.cs:143-154 | returns the first line that parsed to a value at least `minimum`, so any amount it returns is `>= minimum` |
| `Bank.BankSystem.Register` | Program.cs:77-87 | if the opening amount is refused, `customers` is unchanged; otherwise exactly one fresh account is appended at the end and earlier entries keep their order; every account keeps `Funds >= 0` |
| `Bank.BankSystem.RegisterNewAccount` | Program.cs:64-88 | registration appends exactly when a name and an amount of at least `StartingMinimum` were entered; the account holds that name and amount; the constructor's refusal can never happen here; otherwise `customers` is unchanged |
| `Bank.BankSystem.ProcessDeposit` | Program.cs:90-101 | a bad identifier line, an unknown identifier and missing amount input are told apart; otherwise the first matching account gains exactly the entered amount (at least 0.01, so `AddFunds` never throws); no other account's funds and no holder name change; the list is unchanged |
| `Bank.BankSystem.ProcessWithdrawal` | Program.cs:103-121 | as for deposits; the located account loses the amount when it is at most its funds; otherwise the withdrawal is declined for insufficient balance and nothing changes; no other account's funds and no holder name change |

## Left out

- Console output: every `Console.Write`/`WriteLine` message. Where the branch matters, the model returns it as a `Report` or `Registration` value.
- `ShowAllAccounts` (Program.cs:50-62): it only prints `customers` in order. The model exposes `customers` directly.
- `ToString` (Program.cs:40-43): .NET number formatting of a `double` is presentation only.
- The menu loop in `Main` (Program.cs:159-199): it only dispatches on the choice the user typed.
- `int.TryParse` and `double.TryParse`: each line reaches the model already parsed, or marked as not parsed.
- The `System.Random` generator: the identifier is a parameter in its range.
- IEEE `double` semantics: rounding, overflow, infinities and NaN. Amounts are exact finite reals, so `Funds >= 0` is proved for finite amounts only. In the program, `double.TryParse` accepts "Infinity" or "1e400" as +∞, which passes the amount prompt (Program.cs:149). A deposit of +∞ makes `Funds` infinite (Program.cs:28). A later withdrawal of +∞ passes the check at Program.cs:35, because ∞ > ∞ is false, and line 37 then sets `Funds` to NaN, for which `Funds >= 0` is false. Deposits near 1.7e308 can also overflow `Funds += amount`.
- The public setter of `HolderName`: nothing in the program calls it after construction.
- Re-prompting forever: the prompts read a finite script. Running out of input is reported as still waiting, with nothing changed.
