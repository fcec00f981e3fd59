/** The transaction engine's classes: accounts whose balance the machine
    updates in place, the machine with its cash float and its event channel,
    and the bank's list of machines.  The event channel is a ghost log of the
    outcomes the machine reports; who listens to it is not modelled. */
module AtmApp {
  import opened Ledger

  class Account {
    var CardNumber: string
    var PinCode: string
    var FullName: string
    var Balance: int

    constructor (cardNumber: string, pinCode: string, fullName: string, balance: int)
      ensures CardNumber == cardNumber && PinCode == pinCode && FullName == fullName
      ensures Balance == balance
    {
      CardNumber := cardNumber;
      PinCode := pinCode;
      FullName := fullName;
      Balance := balance;
    }
  }

  class AutomatedTellerMachine {
    var ATMId: string
    var Address: string
    var TotalCash: int
    /** Every message raised on the operation event, oldest first. */
    ghost var Events: seq<Event>

    constructor (atmId: string, address: string, totalCash: int)
      ensures ATMId == atmId && Address == address && TotalCash == totalCash
      ensures Events == []
    {
      ATMId := atmId;
      Address := address;
      TotalCash := totalCash;
      Events := [];
    }

    /** A plain PIN comparison; only the log changes. */
    method Authenticate(account: Account, enteredPin: string) returns (isAuthenticated: bool)
      modifies this`Events
      ensures isAuthenticated <==> account.PinCode == enteredPin
      ensures Events == old(Events) + [if isAuthenticated then AuthSucceeded else AuthFailed]
    {
      isAuthenticated := account.PinCode == enteredPin;
      Events := Events + [if isAuthenticated then AuthSucceeded else AuthFailed];
    }

    /** Reports and returns the balance; only the log changes. */
    method CheckBalance(account: Account) returns (balance: int)
      modifies this`Events
      ensures balance == account.Balance
      ensures Events == old(Events) + [BalanceChecked(balance)]
    {
      Events := Events + [BalanceChecked(account.Balance)];
      balance := account.Balance;
    }

    /** Refused, with nothing changed, when the amount exceeds the account's
        balance or the machine's cash; otherwise both drop by the amount. */
    method Withdraw(account: Account, amount: int) returns (ok: bool)
      modifies this`TotalCash, this`Events, account`Balance
      ensures ok <==> amount <= old(account.Balance) && amount <= old(TotalCash)
      ensures account.Balance == old(account.Balance) - (if ok then amount else 0)
      ensures TotalCash == old(TotalCash) - (if ok then amount else 0)
      ensures Events == old(Events) + [if ok then WithdrawSucceeded(amount) else WithdrawFailed]
      ensures old(account.Balance) >= 0 && old(TotalCash) >= 0 ==> account.Balance >= 0 && TotalCash >= 0
    {
      if amount > account.Balance || amount > TotalCash {
        Events := Events + [WithdrawFailed];
        return false;
      }
      account.Balance := account.Balance - amount;
      TotalCash := TotalCash - amount;
      Events := Events + [WithdrawSucceeded(amount)];
      return true;
    }

    /** Always accepted: balance and cash both rise by the amount, whatever
        its sign. */
    method Deposit(account: Account, amount: int)
      modifies this`TotalCash, this`Events, account`Balance
      ensures account.Balance == old(account.Balance) + amount
      ensures TotalCash == old(TotalCash) + amount
      ensures Events == old(Events) + [DepositSucceeded(amount)]
      ensures amount >= 0 && old(account.Balance) >= 0 && old(TotalCash) >= 0 ==> account.Balance >= 0 && TotalCash >= 0
    {
      account.Balance := account.Balance + amount;
      TotalCash := TotalCash + amount;
      Events := Events + [DepositSucceeded(amount)];
    }

    /** Refused, with nothing changed, when the amount exceeds the sender's
        balance; otherwise the sender loses and the receiver gains the amount.
        The cash float is never touched.  Sender and receiver may be the same
        account, whose balance then ends where it started. */
    method Transfer(sender: Account, receiver: Account, amount: int) returns (ok: bool)
      modifies this`Events, sender`Balance, receiver`Balance
      ensures ok <==> amount <= old(sender.Balance)
      ensures sender != receiver ==>
        sender.Balance == old(sender.Balance) - (if ok then amount else 0) &&
        receiver.Balance == old(receiver.Balance) + (if ok then amount else 0)
      ensures sender == receiver ==> sender.Balance == old(sender.Balance)
      ensures sender.Balance + receiver.Balance == old(sender.Balance) + old(receiver.Balance)
      ensures old(sender.Balance) >= 0 ==> sender.Balance >= 0
      ensures TotalCash == old(TotalCash)
      ensures Events == old(Events) + [if ok then TransferSucceeded(amount) else TransferFailed]
    {
      if amount > sender.Balance {
        Events := Events + [TransferFailed];
        return false;
      }
      sender.Balance := sender.Balance - amount;
      receiver.Balance := receiver.Balance + amount;
      Events := Events + [TransferSucceeded(amount)];
      return true;
    }

    /** Sends a message through the SMTP transport, whose outcome arrives as
        `delivered`; a failure is reported on the log and never raised. */
    method SendEmailNotification(toEmail: string, subject: string, body: string, delivered: bool)
      modifies this`Events
      ensures Events == old(Events) + [if delivered then EmailSent else EmailFailed]
    {
      Events := Events + [if delivered then EmailSent else EmailFailed];
    }
  }

  class Bank {
    var Name: string
    var ATMs: seq<AutomatedTellerMachine>

    constructor (name: string)
      ensures Name == name && ATMs == []
    {
      Name := name;
      ATMs := [];
    }

    /** Registers a machine at the end of the list; duplicates are kept. */
    method AddATM(atm: AutomatedTellerMachine)
      modifies this`ATMs
      ensures ATMs == old(ATMs) + [atm]
    {
      ATMs := ATMs + [atm];
    }
  }

  // ---------------------------------------------------------------------------
  // The objects against the value-level model

  /** No account object appears twice in the list. */
  predicate Distinct(accounts: seq<Account>)
  {
    forall i, j :: 0 <= i < j < |accounts| ==> accounts[i] != accounts[j]
  }

  /** What the engine sees of `atm` and `accounts`. */
  ghost function View(atm: AutomatedTellerMachine, accounts: seq<Account>): (s: Snapshot)
    reads atm, set a | a in accounts
    ensures s.Fits() && |s.balances| == |accounts|
  {
    Snapshot(seq(|accounts|, i requires 0 <= i < |accounts| reads accounts => accounts[i].PinCode),
             seq(|accounts|, i requires 0 <= i < |accounts| reads accounts => accounts[i].Balance),
             atm.TotalCash)
  }

  /** One call into the machine, chosen by `op`, on accounts taken from a list
      of distinct accounts.  Its effect on the objects is exactly `Step` on
      their view, and it logs exactly the event `Step` reports. */
  method Apply(atm: AutomatedTellerMachine, accounts: seq<Account>, op: Op)
    requires Distinct(accounts) && Refers(op, |accounts|)
    modifies atm`TotalCash, atm`Events, (set a | a in accounts)`Balance
    ensures View(atm, accounts) == Step(old(View(atm, accounts)), op).after
    ensures atm.Events == old(atm.Events) + [Step(old(View(atm, accounts)), op).event]
  {
    match op
    case Authenticate(who, enteredPin) =>
      var _ := atm.Authenticate(accounts[who], enteredPin);
    case CheckBalance(who) =>
      var _ := atm.CheckBalance(accounts[who]);
    case Withdraw(who, amount) =>
      WithdrawAt(atm, accounts, who, amount);
    case Deposit(who, amount) =>
      DepositAt(atm, accounts, who, amount);
    case Transfer(sender, receiver, amount) =>
      TransferAt(atm, accounts, sender, receiver, amount);
    case SendEmail(toEmail, subject, body, delivered) =>
      atm.SendEmailNotification(toEmail, subject, body, delivered);
  }

  /** The calls `ops` made one after the other on the same machine and
      accounts: the objects end in `Run`'s final state and the log grows by
      `Run`'s events, so every lemma about `Run` holds of the objects. */
  method Session(atm: AutomatedTellerMachine, accounts: seq<Account>, ops: seq<Op>)
    requires Distinct(accounts) && AllRefer(ops, |accounts|)
    modifies atm`TotalCash, atm`Events, (set a | a in accounts)`Balance
    ensures View(atm, accounts) == Run(old(View(atm, accounts)), ops).after
    ensures atm.Events == old(atm.Events) + Run(old(View(atm, accounts)), ops).events
  {
    ghost var start := View(atm, accounts);
    ghost var log := atm.Events;
    var i := 0;
    while i < |ops|
      invariant 0 <= i <= |ops| && AllRefer(ops[..i], |accounts|)
      invariant View(atm, accounts) == Run(start, ops[..i]).after
      invariant atm.Events == log + Run(start, ops[..i]).events
    {
      RunSnoc(start, ops[..i], ops[i]);
      Apply(atm, accounts, ops[i]);
      assert ops[..i + 1] == ops[..i] + [ops[i]];
      i := i + 1;
    }
    assert ops[..i] == ops;
  }

  /** `Withdraw` on the account at position `who`. */
  method WithdrawAt(atm: AutomatedTellerMachine, accounts: seq<Account>, who: nat, amount: int)
    requires Distinct(accounts) && who < |accounts|
    modifies atm`TotalCash, atm`Events, (set a | a in accounts)`Balance
    ensures View(atm, accounts) == Step(old(View(atm, accounts)), Withdraw(who, amount)).after
    ensures atm.Events == old(atm.Events) + [Step(old(View(atm, accounts)), Withdraw(who, amount)).event]
  {
    ghost var before := View(atm, accounts);
    var _ := atm.Withdraw(accounts[who], amount);
    ghost var after := View(atm, accounts);
    forall j | 0 <= j < |accounts| && j != who
      ensures after.balances[j] == before.balances[j]
    {
      assert accounts[j] != accounts[who];
    }
    assert after.pins == before.pins;
    assert after.balances == before.balances[who := after.balances[who]];
  }

  /** `Deposit` on the account at position `who`. */
  method DepositAt(atm: AutomatedTellerMachine, accounts: seq<Account>, who: nat, amount: int)
    requires Distinct(accounts) && who < |accounts|
    modifies atm`TotalCash, atm`Events, (set a | a in accounts)`Balance
    ensures View(atm, accounts) == Step(old(View(atm, accounts)), Deposit(who, amount)).after
    ensures atm.Events == old(atm.Events) + [Step(old(View(atm, accounts)), Deposit(who, amount)).event]
  {
    ghost var before := View(atm, accounts);
    atm.Deposit(accounts[who], amount);
    ghost var after := View(atm, accounts);
    forall j | 0 <= j < |accounts| && j != who
      ensures after.balances[j] == before.balances[j]
    {
      assert accounts[j] != accounts[who];
    }
    assert after.pins == before.pins;
    assert after.balances == before.balances[who := after.balances[who]];
  }

  /** `Transfer` between the accounts at positions `sender` and `receiver`,
      which may be the same position. */
  method TransferAt(atm: AutomatedTellerMachine, accounts: seq<Account>, sender: nat, receiver: nat, amount: int)
    requires Distinct(accounts) && sender < |accounts| && receiver < |accounts|
    modifies atm`TotalCash, atm`Events, (set a | a in accounts)`Balance
    ensures View(atm, accounts) == Step(old(View(atm, accounts)), Transfer(sender, receiver, amount)).after
    ensures atm.Events == old(atm.Events) + [Step(old(View(atm, accounts)), Transfer(sender, receiver, amount)).event]
  {
    ghost var before := View(atm, accounts);
    var _ := atm.Transfer(accounts[sender], accounts[receiver], amount);
    ghost var after := View(atm, accounts);
    forall j | 0 <= j < |accounts| && j != sender && j != receiver
      ensures after.balances[j] == before.balances[j]
    {
      assert accounts[j] != accounts[sender] && accounts[j] != accounts[receiver];
    }
    assert after.pins == before.pins;
    assert sender == receiver <==> accounts[sender] == accounts[receiver];
  }

  /** A session on the console's start-up data: one machine holding 10000
      and an account holding 5000.  Everything asserted follows from the
      contracts above alone. */
  method CashWalkthrough()
  {
    var bank := new Bank("My Bank");
    var atm := new AutomatedTellerMachine("ATM001", "Main Street", 10000);
    bank.AddATM(atm);
    assert bank.ATMs == [atm];
    var john := new Account("1234567890123456", "1234", "John Doe", 5000);

    var authenticated := atm.Authenticate(john, "1234");
    assert authenticated && atm.Events == [AuthSucceeded];
    authenticated := atm.Authenticate(john, "4321");
    assert !authenticated && john.Balance == 5000 && atm.TotalCash == 10000;

    var ok := atm.Withdraw(john, 6000);
    assert !ok && john.Balance == 5000 && atm.TotalCash == 10000;
    assert atm.Events == [AuthSucceeded, AuthFailed, WithdrawFailed];
    ok := atm.Withdraw(john, 2000);
    assert ok && john.Balance == 3000 && atm.TotalCash == 8000;

    atm.Deposit(john, 500);
    assert john.Balance == 3500 && atm.TotalCash == 8500;
  }

  /** Transfers between the console's two start-up accounts. */
  method TransferWalkthrough()
  {
    var atm := new AutomatedTellerMachine("ATM001", "Main Street", 10000);
    var john := new Account("1234567890123456", "1234", "John Doe", 5000);
    var jane := new Account("9876543210987654", "5678", "Jane Smith", 3000);

    var ok := atm.Transfer(jane, john, 3000);
    assert ok && jane.Balance == 0 && john.Balance == 8000 && atm.TotalCash == 10000;
    ok := atm.Transfer(jane, john, 200);
    assert !ok && jane.Balance == 0 && john.Balance == 8000;
    ok := atm.Transfer(john, john, 1000);
    assert ok && john.Balance == 8000;
    assert atm.Events == [TransferSucceeded(3000), TransferFailed, TransferSucceeded(1000)];
  }
}
