# ATM transaction engine, modelled in Dafny

This project models the transaction engine of a small ATM application
(`ATMApp/Class1.cs`). It covers three classes:

- an `Account` whose `Balance` the machine updates in place;
- an `AutomatedTellerMachine` with a cash float (`TotalCash`) and an operation
  event channel. Its operations are `Authenticate`, `CheckBalance`,
  `Withdraw`, `Deposit`, `Transfer` and `SendEmailNotification`;
- a `Bank` that keeps an ordered list of machines (`AddATM`).

Two files make up the project:

- `atm_app.dfy` (module `AtmApp`) holds the classes. Their methods carry
  field-level `modifies` frames that name only the fields they may change.
  The helpers `WithdrawAt`, `DepositAt` and `TransferAt` share one frame
  (balances, cash and log), and their ensures say which of these change. The event
  channel is a ghost `Events` log, and each operation appends exactly one
  outcome tag to it.
- `ledger.dfy` (module `Ledger`) is a value-level reference model. A
  `Snapshot` records each account's PIN and balance, addressed by position,
  together with the machine's cash. `Step` is one call into the engine and
  `Run` is a sequence of calls. `AtmApp.Apply` proves that one call on the
  objects has exactly the effect of `Step` on their view, and logs exactly the
  event `Step` reports. `AtmApp.Session` makes a whole list of calls on the
  same objects and proves that they end in `Run`'s final state, with `Run`'s
  events appended to the log. Both hold when the account list holds each
  account object once. The lemmas about `Run` therefore describe any session
  of calls on the objects.

Amounts are integers in the smallest currency unit. The source uses C#
`decimal`, which is exact, so no rounding is lost.

The engine checks no amount for sign. `Withdraw` is guarded only by
`amount > balance || amount > TotalCash`. `Transfer` is guarded only by
`amount > sender.Balance`. `Deposit` has no guard at all. The console
front-end passes an amount on only when it is positive (`ATMConsoleApp/Program.cs`,
lines 95, 108 and 131). The WinForms front-end checks only the withdrawal
amount (`ATMWindowsApp/Form1.cs`, line 118). Its deposit and transfer
handlers pass any amount that parses. The model therefore proves two kinds
of fact:

- Facts that hold for every amount:
  - each operation's exact effect;
  - the invariant `Gap`, which is account money minus machine cash;
  - a `Withdraw` keeps balances and cash non-negative.
- Facts that need the console's check on amounts: every other operation
  keeps balances and cash non-negative (`StepKeepsNonNegative`,
  `RunKeepsNonNegative`). These lemmas do not cover the WinForms front-end.
  Two concrete lemmas show that without the check a negative deposit or a
  negative transfer drives a balance below zero, and `FormSessionOverdraws`
  shows a session the WinForms handlers let through doing so.

The code has no account directory or lookup and no duplicate-card check.
`Withdraw`, `Deposit` and `Transfer` do not check the sign of the amount,
and `Authenticate` compares PINs with plain `==`. The model follows the code.

## Model

| member | source | states |
|---|---|---|
| AtmApp.Account.constructor | ATMApp/Class1.cs:16-22 | the new account holds exactly the given card number, PIN, name and opening balance |
| AtmApp.AutomatedTellerMachine.constructor | ATMApp/Class1.cs:31-36 | the new machine holds the given id, address and cash, and has raised no event yet |
| AtmApp.AutomatedTellerMachine.Authenticate | ATMApp/Class1.cs:40-45 | returns true iff the entered PIN equals the account's PIN; changes only the log, to which it appends one success or failure event matching the result |
| AtmApp.AutomatedTellerMachine.CheckBalance | ATMApp/Class1.cs:47-51 | returns the account's balance; changes only the log, to which it appends one event carrying that balance |
| AtmApp.AutomatedTellerMachine.Withdraw | ATMApp/Class1.cs:53-65 | refused exactly when the amount exceeds the balance or the cash; on refusal nothing but the log changes; on success balance and cash both drop by exactly the amount; one matching event; non-negative balance and cash stay non-negative for any amount |
| AtmApp.AutomatedTellerMachine.Deposit | ATMApp/Class1.cs:67-72 | never refused: balance and cash both rise by exactly the amount, with one success event; non-negativity is kept when the amount is not negative |
| AtmApp.AutomatedTellerMachine.Transfer | ATMApp/Class1.cs:74-86 | refused exactly when the amount exceeds the sender's balance; otherwise the sender loses and the receiver gains the amount; a self-transfer leaves the balance where it was; the pair's sum is conserved; a non-negative sender stays non-negative; cash never changes; one matching event |
| AtmApp.AutomatedTellerMachine.SendEmailNotification | ATMApp/Class1.cs:88-106 | appends "sent" or "failed" according to the transport's outcome and changes no balance or cash; a delivery failure is never raised to the caller |
| AtmApp.Bank.constructor | ATMApp/Class1.cs:114-118 | a new bank has the given name and no machines |
| AtmApp.Bank.AddATM | ATMApp/Class1.cs:120-123 | the machine is appended at the end, earlier entries and their order are unchanged, and duplicates are not rejected |
| AtmApp.Apply | ATMApp/Class1.cs:40-106 | any one call on objects from a list of distinct accounts changes the balances, PINs and cash exactly as `Ledger.Step` does on their view, and logs exactly `Step`'s event; its frame allows no field other than balances, cash and the log to change |
| AtmApp.Session | ATMConsoleApp/Program.cs:59-90 | a list of calls made one after another on the same objects leaves them in `Ledger.Run`'s final state and appends `Run`'s events to the log, so every lemma about `Run` holds of the objects |
| AtmApp.WithdrawAt | ATMApp/Class1.cs:53-65 | a withdrawal from one account of the list changes that account's balance and the cash as `Step` says; the frame leaves every other field of every object unchanged |
| AtmApp.DepositAt | ATMApp/Class1.cs:67-72 | a deposit to one account of the list changes that account's balance and the cash as `Step` says; the frame leaves every other field of every object unchanged |
| AtmApp.TransferAt | ATMApp/Class1.cs:74-86 | a transfer between two positions of the list, possibly the same one, changes exactly the sender's and receiver's balances as `Step` says; the ensures, through `Step`, leaves the cash unchanged, and the frame leaves every field other than balances, cash and the log unchanged |
| AtmApp.View | ATMApp/Class1.cs:9-29 | the view of a machine and an account list has one PIN and one balance per account |
| Ledger.Step | ATMApp/Class1.cs:40-106 | each call reports one event, and the event is an outcome of that call; a refused or failed call changes nothing; PINs and the number of accounts never change |
| Ledger.Run | ATMApp/Class1.cs:38-106 | a session of calls raises exactly one event per call, in order, each an outcome of its call |
| Ledger.RunSnoc | ATMConsoleApp/Program.cs:62-89 | one more call after a session acts on the session's final state, and its single event goes at the end of the log |
| Ledger.SumUpdate | ATMApp/Class1.cs:61-83 | replacing one balance changes the total of all balances by exactly the difference |
| Ledger.StepPreservesGap | ATMApp/Class1.cs:53-86 | for any amount, no call changes total account money minus machine cash: withdrawals and deposits move both by the same amount, and transfers move money only between accounts |
| Ledger.TransferPreservesTotal | ATMApp/Class1.cs:74-86 | a transfer, whether it succeeds or is refused, leaves the total of all balances unchanged |
| Ledger.RunPreservesGap | ATMApp/Class1.cs:53-86 | over any session of calls, total account money minus machine cash is invariant |
| Ledger.RunCashIsLogged | ATMApp/Class1.cs:53-72 | after any session, the cash float equals the opening cash plus the deposits and minus the withdrawals that the event log reports |
| Ledger.WithdrawKeepsNonNegative | ATMApp/Class1.cs:55-62 | a withdrawal of any amount, even a negative one, keeps balances and cash non-negative |
| Ledger.StepKeepsNonNegative | ATMConsoleApp/Program.cs:92-139 | with the console's positive-amount check, every call keeps all balances and the cash float non-negative |
| Ledger.RunKeepsNonNegative | ATMConsoleApp/Program.cs:59-139 | no session of calls that pass the console's check ever drives a balance or the cash float negative |
| Ledger.FormSessionOverdraws | ATMWindowsApp/Form1.cs:141-151 | from the form's own start (John at 1000, the receiver the transfer handler builds at 500, cash 10000), a transfer of -501 that the handler lets through leaves the receiver at -1, so the non-negativity lemmas do not extend to that caller |
| Ledger.NegativeDepositOverdraws | ATMApp/Class1.cs:67-72 | the engine accepts a negative deposit, and it can leave a balance and the cash below zero |
| Ledger.NegativeTransferDrainsReceiver | ATMApp/Class1.cs:74-86 | a negative transfer passes the sender guard and drives the receiver below zero |

## Left out

- The amount type is modelled as an unbounded integer. The source's `decimal` throws `OverflowException` beyond about 7.9e28, and the model does not capture that. Fractions finer than the chosen smallest currency unit are not represented.
- The event text is reduced to tags that carry the amount. The culture-dependent currency formatting (`{amount:C}`) and the exception message in the email-failure event are dropped.
- Event subscribers are not modelled. In the source the event is raised only when some listener is attached (`?.Invoke`). The ghost log records every outcome, which is what any attached listener receives.
- `SendEmailNotification` is modelled without SMTP. Its hard-coded host, port and credentials are left out. The transport's success or failure arrives as the `delivered` parameter.
- Null references are not modelled. Accounts, machines and strings are non-null here, while the source would throw `NullReferenceException` on a null account.
- The public setters of `CardNumber`, `FullName`, `ATMId`, `Address` and `Name` are plain field writes. No operation of the engine uses them, so no methods model them.
- AtmApp.Apply requires that the account list holds each object once. With the same object at two positions, the positional view would double-count it.
- AtmApp.Session requires the same of its account list, for the same reason.
- The console front-end's input parsing, menus and account lookup are left out. The lookup goes through `ATMService.GetAccountByCardNumber`, and ATMService is not part of this model. Its positive-amount check is kept, as `CallerFiltered`. Its menu loop is kept only as `AtmApp.Session`, over calls that are already chosen.
- The WinForms front-end's message boxes and event handlers are left out. Its amount checks are kept, as `FormFiltered`. Its Deposit and Transfer handlers do not check amounts, so the non-negativity lemmas do not cover that caller. `NegativeDepositOverdraws`, `NegativeTransferDrainsReceiver` and `FormSessionOverdraws` show the consequence.
- Concurrency is left out. The engine is sequential, and the model is too.

## Findings

| source | as written | input that shows it | evidently intended | confidence | as-written member | corrected member |
|---|---|---|---|---|---|---|
| ATMWindowsApp/Form1.cs:141-151 | the WinForms deposit and transfer handlers pass any parsed amount to the engine; only the withdrawal handler rejects amounts that are not positive | transfer of -501 from John's account (1000) to the receiver `GetReceiverAccount` builds (500): accepted, and the receiver ends at -1 | the console's check: only positive amounts reach the engine, for all three operations | medium, not executed; that file does not compile as shown | Ledger.FormSessionOverdraws | Ledger.RunKeepsNonNegative |
