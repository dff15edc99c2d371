/** The run that the service is for: a day booked, confirmed by HCM, and later cancelled and given back on both sides. */
module Confirmation {
  import opened Common
  import opened StateMachine
  import opened Entities
  import opened Outbox
  import opened Hcm
  import opened Protocol
  import opened Ledgers
  import opened Convergence
  import opened Divergence
  import opened Attempts

  function ConfirmSteps(): seq<Step> {
    Handled(0, NORMAL, "t", 0) + [Receive(false)] + [Settle(0, 0.0)] + [Close] + [Advance]
  }

  function RefundSteps(): seq<Step> {
    Handled(1, NORMAL, "u", 0) + [Receive(false)] + [Settle(0, 0.0)] + [Advance]
  }

  function ConfirmedRun(day: string): seq<Step> {
    Booking(day) + ConfirmSteps()
  }

  function CancelledRun(day: string): seq<Step> {
    ConfirmedRun(day) + [Step.Cancel("r", None, 0)] + RefundSteps()
  }

  function DebitTx(): HcmTransaction {
    HcmTransaction("t", SubmitKey("r"), Payload("E", "L", 1.0, DEBIT), 0)
  }

  function CreditTx(): HcmTransaction {
    HcmTransaction("u", RefundKey("r"), Payload("E", "L", 1.0, CREDIT), 0)
  }

  function Stored(days: real): map<string, HcmBalance> {
    map[KeyString(K) := HcmBalance("E", "L", days, 0)]
  }

  function SentDebit(): OutboxEvent {
    OutboxEvent("r", HCM_SUBMIT_DEBIT, SubmitKey("r"), Payload("E", "L", 1.0, DEBIT), SENT, 0, Some(0))
  }

  function CreditRow(status: OutboxStatus): OutboxEvent {
    OutboxEvent("r", HCM_SUBMIT_CREDIT, RefundKey("r"), Payload("E", "L", 1.0, CREDIT), status, 0, Some(0))
  }

  function ConfirmedState(day: string): State {
    var r := Booked(day, HcmConfirmed).(hcmTransactionId := Some("t"));
    Opening().(tables := Tables([r], map[K := Balance(4.0, None, OK, 2)], [SentDebit()], {"L"}),
               hcm := Store(Stored(4.0), map["t" := DebitTx()], map[SubmitKey("r") := "t"]), wire := {0})
  }

  lemma RunConfirm(day: string)
    ensures Run(AfterApprove(day), ConfirmSteps()) == ConfirmedState(day)
  {
    var s := AfterApprove(day);
    var pre := Handled(0, NORMAL, "t", 0);
    KeysApart("r", "r");
    RunHandled(s, 0, NORMAL, "t", 0);
    var s1 := Run(s, pre);
    assert PayloadString(Payload("E", "L", 1.0, DEBIT)) == KeyString(K);
    assert BalanceString(HcmBalance("E", "L", 4.0, 0)) == KeyString(K);
    assert s1.hcm == ConfirmedState(day).hcm;
    ConfirmTells(day, s1);
    RunThree(s, pre, Receive(false), Settle(0, 0.0), Close);
    RunAppend(s, pre + [Receive(false)] + [Settle(0, 0.0)] + [Close], Advance);
    assert {} + {0} == {0};
  }

  lemma ConfirmTells(day: string, s: State)
    requires s.worker == Working([], Submitting(Claimed(0, InFlight(DebitEvent(Booked(day, Approved), 0))), Some(Ok(DebitTx()))))
    requires s.tables == AfterApprove(day).tables.(events := [InFlight(DebitEvent(Booked(day, Approved), 0))])
    ensures Next(Next(Next(Next(s, Receive(false)), Settle(0, 0.0)), Close), Advance) ==
            s.(tables := ConfirmedState(day).tables, worker := Idle)
  {
    var c := s.worker.phase.current;
    var t := SetRow(s, 0, Outbox.Sent(c.ev)).tables;
    assert t.requests == [Booked(day, Approved)] && t.events == [SentDebit()];
    assert IndexOf(t.requests, "r") == 0;
    var t' := CloseRequest(t, "r", Ok(DebitTx())).value;
    assert t'.requests == ConfirmedState(day).tables.requests;
    AcceptanceEnds(s, c, DebitTx(), 0, ConfirmedState(day).tables);
  }

  lemma ConfirmedEnd(day: string)
    ensures Run(Opening(), ConfirmedRun(day)) == ConfirmedState(day)
  {
    RunBooking(day, Opening());
    RunConfirm(day);
    RunOnto(Opening(), Booking(day), AfterApprove(day), ConfirmSteps(), ConfirmedState(day));
  }

  // ---- and back ----

  function CancelledState(day: string): State {
    var r := Booked(day, Cancelled).(hcmTransactionId := Some("t"));
    ConfirmedState(day).(tables := Tables([r], map[K := Balance(5.0, None, OK, 3)], [SentDebit(), CreditRow(PENDING)], {"L"}))
  }

  function RefundedState(day: string): State {
    var s := CancelledState(day);
    s.(tables := s.tables.(events := [SentDebit(), CreditRow(SENT)]),
       hcm := Store(Stored(5.0), map["t" := DebitTx(), "u" := CreditTx()],
                    map[SubmitKey("r") := "t", RefundKey("r") := "u"]), wire := {0, 1})
  }

  lemma RunCancel(day: string)
    ensures Next(ConfirmedState(day), Step.Cancel("r", None, 0)) == CancelledState(day)
  {
    var s := ConfirmedState(day);
    assert IndexOf(s.tables.requests, "r") == 0;
    var s' := Next(s, Step.Cancel("r", None, 0));
    assert s'.tables.requests == CancelledState(day).tables.requests;
    assert s'.tables.balances == CancelledState(day).tables.balances;
    assert s'.tables.events == CancelledState(day).tables.events;
  }

  lemma CreditIsBooked(day: string)
    ensures Submit(CancelledState(day).hcm, NORMAL, false, RefundKey("r"), CreditTx().payload, "u", 0) ==
            (RefundedState(day).hcm, Created(CreditTx()))
  {
    var h := CancelledState(day).hcm;
    KeysApart("r", "r");
    assert PayloadString(CreditTx().payload) == KeyString(K);
    assert BalanceString(HcmBalance("E", "L", 5.0, 0)) == KeyString(K);
    assert h.balances[KeyString(K) := HcmBalance("E", "L", 5.0, 0)] == Stored(5.0);
  }

  lemma RunRefund(day: string)
    ensures Run(CancelledState(day), RefundSteps()) == RefundedState(day)
  {
    var s := CancelledState(day);
    var pre := Handled(1, NORMAL, "u", 0);
    RunHandled(s, 1, NORMAL, "u", 0);
    CreditIsBooked(day);
    var s1 := Run(s, pre);
    RefundEnds(s1, s1.worker.phase.current, CreditTx(), 0);
    RunThree(s, pre, Receive(false), Settle(0, 0.0), Advance);
    assert {0} + {1} == {0, 1};
    assert Outbox.Sent(InFlight(CreditRow(PENDING))) == CreditRow(SENT);
    assert [SentDebit(), InFlight(CreditRow(PENDING))][1 := CreditRow(SENT)] == [SentDebit(), CreditRow(SENT)];
  }

  lemma CancelledEnd(day: string)
    ensures Run(Opening(), CancelledRun(day)) == RefundedState(day)
  {
    ConfirmedEnd(day);
    RunCancel(day);
    RunAppend(Opening(), ConfirmedRun(day), Step.Cancel("r", None, 0));
    RunRefund(day);
    RunOnto(Opening(), ConfirmedRun(day) + [Step.Cancel("r", None, 0)], CancelledState(day), RefundSteps(), RefundedState(day));
  }

  /**
   * A run from the start confirms its request, with the day taken on both sides; a longer one cancels it and gives the
   * day back on both sides, with every event SENT.
   */
  lemma BookConfirmCancel(day: string)
    ensures Init(Opening()) && HcmDays(Opening(), K) == 5.0 == LocalDays(Opening().tables, K)
    ensures var s := Run(Opening(), ConfirmedRun(day));
            && |s.tables.requests| == 1 && s.tables.requests[0].status == HcmConfirmed
            && s.tables.requests[0].hcmTransactionId == Some("t") && "t" in s.hcm.transactions
            && HcmDays(s, K) == 4.0 == LocalDays(s.tables, K) && Quiescent(s.tables)
    ensures var s := Run(Opening(), CancelledRun(day));
            && |s.tables.requests| == 1 && s.tables.requests[0].status == Cancelled
            && HcmDays(s, K) == 5.0 == LocalDays(s.tables, K) && Quiescent(s.tables)
  {
    OpeningIsEqual();
    ConfirmedEnd(day);
    CancelledEnd(day);
  }
}
