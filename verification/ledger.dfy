/** A value-level reference model of the ATM transaction engine.

    A `Snapshot` is what the engine can see of the world: the stored PIN and
    the balance of every account (addressed by position) and the machine's
    cash float.  `Step` is one call into the engine and `Run` is a sequence of
    calls.  Amounts are integers in the smallest currency unit, which keeps the
    exact arithmetic of the source's decimal amounts.  The classes in module
    AtmApp are proved to follow `Step` (see AtmApp.Apply). */
module Ledger {

  /** The outcome an operation reports on the machine's event channel.  The
      currency-formatted message text is reduced to a tag and its amount. */
  datatype Event =
    | AuthSucceeded
    | AuthFailed
    | BalanceChecked(balance: int)
    | WithdrawSucceeded(amount: int)
    | WithdrawFailed
    | DepositSucceeded(amount: int)
    | TransferSucceeded(amount: int)
    | TransferFailed
    | EmailSent
    | EmailFailed

  /** The events that report a refused or failed operation. */
  predicate IsFailure(e: Event)
  {
    e.AuthFailed? || e.WithdrawFailed? || e.TransferFailed? || e.EmailFailed?
  }

  /** One call into the machine; accounts are named by their position in the
      snapshot.  `delivered` stands for the outcome of the SMTP transport,
      which the model does not see; the message itself changes nothing. */
  datatype Op =
    | Authenticate(who: nat, enteredPin: string)
    | CheckBalance(who: nat)
    | Withdraw(who: nat, amount: int)
    | Deposit(who: nat, amount: int)
    | Transfer(sender: nat, receiver: nat, amount: int)
    | SendEmail(toEmail: string, subject: string, body: string, delivered: bool)

  /** Every account the operation names is one of the `n` accounts. */
  predicate Refers(op: Op, n: nat)
  {
    match op
    case Authenticate(who, _) => who < n
    case CheckBalance(who) => who < n
    case Withdraw(who, _) => who < n
    case Deposit(who, _) => who < n
    case Transfer(sender, receiver, _) => sender < n && receiver < n
    case SendEmail(_, _, _, _) => true
  }

  /** The console front-end hands an amount to the engine only when it is
      positive, for withdrawals, deposits and transfers alike. */
  predicate CallerFiltered(op: Op)
  {
    match op
    case Withdraw(_, amount) => amount > 0
    case Deposit(_, amount) => amount > 0
    case Transfer(_, _, amount) => amount > 0
    case _ => true
  }

  /** `e` is one of the two outcomes `op` can report. */
  predicate Answers(e: Event, op: Op)
  {
    match op
    case Authenticate(_, _) => e.AuthSucceeded? || e.AuthFailed?
    case CheckBalance(_) => e.BalanceChecked?
    case Withdraw(_, amount) => e == WithdrawSucceeded(amount) || e.WithdrawFailed?
    case Deposit(_, amount) => e == DepositSucceeded(amount)
    case Transfer(_, _, amount) => e == TransferSucceeded(amount) || e.TransferFailed?
    case SendEmail(_, _, _, _) => e.EmailSent? || e.EmailFailed?
  }

  datatype Snapshot = Snapshot(pins: seq<string>, balances: seq<int>, cash: int)
  {
    /** One PIN per balance. */
    predicate Fits()
    {
      |pins| == |balances|
    }

    /** The state the source's invariants ask for: no negative balance, no
        negative cash float. */
    predicate NonNegative()
    {
      cash >= 0 && forall i :: 0 <= i < |balances| ==> balances[i] >= 0
    }
  }

  datatype Outcome = Outcome(after: Snapshot, event: Event)

  /** One call into the engine.  The guards are the source's own: a withdrawal
      is refused when the amount exceeds the balance or the cash float, a
      transfer when it exceeds the sender's balance; deposits are never
      refused.  No amount is checked for sign.  A transfer updates the sender
      first and then the receiver, so a transfer to oneself nets out. */
  function Step(s: Snapshot, op: Op): (r: Outcome)
    requires s.Fits() && Refers(op, |s.balances|)
    ensures r.after.Fits() && r.after.pins == s.pins && |r.after.balances| == |s.balances|
    ensures Answers(r.event, op)
    ensures IsFailure(r.event) ==> r.after == s
  {
    match op
    case Authenticate(who, enteredPin) =>
      Outcome(s, if s.pins[who] == enteredPin then AuthSucceeded else AuthFailed)
    case CheckBalance(who) =>
      Outcome(s, BalanceChecked(s.balances[who]))
    case Withdraw(who, amount) =>
      if amount > s.balances[who] || amount > s.cash then
        Outcome(s, WithdrawFailed)
      else
        Outcome(s.(balances := s.balances[who := s.balances[who] - amount], cash := s.cash - amount),
                WithdrawSucceeded(amount))
    case Deposit(who, amount) =>
      Outcome(s.(balances := s.balances[who := s.balances[who] + amount], cash := s.cash + amount),
              DepositSucceeded(amount))
    case Transfer(sender, receiver, amount) =>
      if amount > s.balances[sender] then
        Outcome(s, TransferFailed)
      else
        var debited := s.balances[sender := s.balances[sender] - amount];
        Outcome(s.(balances := debited[receiver := debited[receiver] + amount]),
                TransferSucceeded(amount))
    case SendEmail(_, _, _, delivered) =>
      Outcome(s, if delivered then EmailSent else EmailFailed)
  }

  /** Every operation of `ops` names an account of a snapshot with `n` accounts. */
  predicate AllRefer(ops: seq<Op>, n: nat)
  {
    forall k :: 0 <= k < |ops| ==> Refers(ops[k], n)
  }

  datatype Trace = Trace(after: Snapshot, events: seq<Event>)

  /** The calls `ops` made one after the other, with the events they emit.
      Each call emits exactly one event, and it is an outcome of that call. */
  function Run(s: Snapshot, ops: seq<Op>): (r: Trace)
    requires s.Fits() && AllRefer(ops, |s.balances|)
    ensures r.after.Fits() && r.after.pins == s.pins && |r.after.balances| == |s.balances|
    ensures |r.events| == |ops|
    ensures forall k :: 0 <= k < |ops| ==> Answers(r.events[k], ops[k])
    decreases |ops|
  {
    if ops == [] then
      Trace(s, [])
    else
      var first := Step(s, ops[0]);
      var rest := Run(first.after, ops[1..]);
      Trace(rest.after, [first.event] + rest.events)
  }

  /** A session followed by one more call is that call on the session's
      final state, and its event goes at the end of the log. */
  lemma {:induction false} RunSnoc(s: Snapshot, ops: seq<Op>, op: Op)
    requires s.Fits() && AllRefer(ops, |s.balances|) && Refers(op, |s.balances|)
    ensures AllRefer(ops + [op], |s.balances|)
    ensures Run(s, ops + [op]).after == Step(Run(s, ops).after, op).after
    ensures Run(s, ops + [op]).events == Run(s, ops).events + [Step(Run(s, ops).after, op).event]
    decreases |ops|
  {
    assert AllRefer(ops + [op], |s.balances|);
    if ops != [] {
      var first := Step(s, ops[0]);
      assert (ops + [op])[1..] == ops[1..] + [op];
      assert AllRefer(ops[1..], |first.after.balances|);
      RunSnoc(first.after, ops[1..], op);
    }
  }

  // ---------------------------------------------------------------------------
  // Money in the accounts against cash in the machine

  function Sum(s: seq<int>): int
  {
    if s == [] then 0 else s[0] + Sum(s[1..])
  }

  lemma {:induction false} SumUpdate(s: seq<int>, i: nat, v: int)
    requires i < |s|
    ensures Sum(s[i := v]) == Sum(s) - s[i] + v
  {
    if i == 0 {
      assert s[i := v][1..] == s[1..];
    } else {
      SumUpdate(s[1..], i - 1, v);
      assert s[i := v][1..] == s[1..][i - 1 := v];
    }
  }

  /** The account money that is not matched by cash in this machine.
      Withdrawals and deposits move balance and cash by the same amount, and
      transfers move money between accounts, so no operation changes it. */
  function Gap(s: Snapshot): int
  {
    Sum(s.balances) - s.cash
  }

  lemma StepPreservesGap(s: Snapshot, op: Op)
    requires s.Fits() && Refers(op, |s.balances|)
    ensures Gap(Step(s, op).after) == Gap(s)
  {
    match op
    case Withdraw(who, amount) =>
      SumUpdate(s.balances, who, s.balances[who] - amount);
    case Deposit(who, amount) =>
      SumUpdate(s.balances, who, s.balances[who] + amount);
    case Transfer(sender, receiver, amount) =>
      var debited := s.balances[sender := s.balances[sender] - amount];
      SumUpdate(s.balances, sender, s.balances[sender] - amount);
      SumUpdate(debited, receiver, debited[receiver] + amount);
    case _ =>
  }

  /** A transfer, successful or not, leaves the total of all balances alone. */
  lemma TransferPreservesTotal(s: Snapshot, sender: nat, receiver: nat, amount: int)
    requires s.Fits() && sender < |s.balances| && receiver < |s.balances|
    ensures Sum(Step(s, Transfer(sender, receiver, amount)).after.balances) == Sum(s.balances)
  {
    StepPreservesGap(s, Transfer(sender, receiver, amount));
  }

  lemma {:induction false} RunPreservesGap(s: Snapshot, ops: seq<Op>)
    requires s.Fits() && AllRefer(ops, |s.balances|)
    ensures Gap(Run(s, ops).after) == Gap(s)
    decreases |ops|
  {
    if ops != [] {
      var first := Step(s, ops[0]);
      StepPreservesGap(s, ops[0]);
      assert AllRefer(ops[1..], |first.after.balances|);
      RunPreservesGap(first.after, ops[1..]);
    }
  }

  // ---------------------------------------------------------------------------
  // The event log accounts for every movement of cash

  /** The change to the cash float an event reports. */
  function CashDelta(e: Event): int
  {
    match e
    case WithdrawSucceeded(amount) => -amount
    case DepositSucceeded(amount) => amount
    case _ => 0
  }

  function NetCash(events: seq<Event>): int
  {
    if events == [] then 0 else CashDelta(events[0]) + NetCash(events[1..])
  }

  lemma {:induction false} RunCashIsLogged(s: Snapshot, ops: seq<Op>)
    requires s.Fits() && AllRefer(ops, |s.balances|)
    ensures Run(s, ops).after.cash == s.cash + NetCash(Run(s, ops).events)
    decreases |ops|
  {
    if ops != [] {
      var first := Step(s, ops[0]);
      assert AllRefer(ops[1..], |first.after.balances|);
      RunCashIsLogged(first.after, ops[1..]);
      var events := Run(s, ops).events;
      assert events[1..] == Run(first.after, ops[1..]).events;
    }
  }

  // ---------------------------------------------------------------------------
  // Non-negativity

  /** A withdrawal keeps a non-negative balance and cash float non-negative
      whatever the amount: its guard bounds the amount by both. */
  lemma WithdrawKeepsNonNegative(s: Snapshot, who: nat, amount: int)
    requires s.Fits() && who < |s.balances| && s.NonNegative()
    ensures Step(s, Withdraw(who, amount)).after.NonNegative()
  {
  }

  /** With the console front-end's check on amounts, every operation keeps
      the balances and the cash float non-negative. */
  lemma StepKeepsNonNegative(s: Snapshot, op: Op)
    requires s.Fits() && Refers(op, |s.balances|) && s.NonNegative()
    requires CallerFiltered(op)
    ensures Step(s, op).after.NonNegative()
  {
  }

  /** No sequence of calls that pass the console's check drives a balance or
      the cash float negative. */
  lemma {:induction false} RunKeepsNonNegative(s: Snapshot, ops: seq<Op>)
    requires s.Fits() && AllRefer(ops, |s.balances|) && s.NonNegative()
    requires forall k :: 0 <= k < |ops| ==> CallerFiltered(ops[k])
    ensures Run(s, ops).after.NonNegative()
    decreases |ops|
  {
    if ops != [] {
      var first := Step(s, ops[0]);
      StepKeepsNonNegative(s, ops[0]);
      assert AllRefer(ops[1..], |first.after.balances|);
      RunKeepsNonNegative(first.after, ops[1..]);
    }
  }

  /** The engine itself does not check signs: a negative deposit is accepted
      and can leave a balance below zero. */
  lemma NegativeDepositOverdraws()
    ensures Step(Snapshot(["1234"], [0], 0), Deposit(0, -1))
         == Outcome(Snapshot(["1234"], [-1], -1), DepositSucceeded(-1))
  {
  }

  /** A negative transfer passes the sender-balance guard and takes money from
      the receiver, whatever the receiver holds. */
  lemma NegativeTransferDrainsReceiver()
    ensures Step(Snapshot(["1234", "5678"], [0, 0], 0), Transfer(0, 1, -5))
         == Outcome(Snapshot(["1234", "5678"], [5, -5], 0), TransferSucceeded(-5))
  {
  }

  /** The WinForms front-end checks the sign of a withdrawal only; deposits
      and transfers reach the engine with any amount that parses. */
  predicate FormFiltered(op: Op)
  {
    match op
    case Withdraw(_, amount) => amount > 0
    case _ => true
  }

  /** A session that the WinForms handlers let through can drive a balance
      negative from the form's own starting state: John's account holds 1000,
      the receiver the transfer handler builds holds 500, and the machine
      10000.  One transfer of -501 leaves the receiver at -1. */
  lemma FormSessionOverdraws()
    ensures var s := Snapshot(["1234", "5678"], [1000, 500], 10000);
            var ops := [Transfer(0, 1, -501)];
            s.NonNegative() && FormFiltered(ops[0]) && AllRefer(ops, |s.balances|) &&
            Run(s, ops).after.balances == [1501, -1] && !Run(s, ops).after.NonNegative()
  {
    var s := Snapshot(["1234", "5678"], [1000, 500], 10000);
    var ops := [Transfer(0, 1, -501)];
    assert Run(s, ops).after == Step(s, ops[0]).after;
    assert Run(s, ops).after.balances[1] == -1;
  }
}
