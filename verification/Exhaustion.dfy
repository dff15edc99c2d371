/** A calm run without drift that ends with unequal ledgers: an exhausted debit whose request is cancelled. */
module Exhaustion {
  import opened Common
  import opened StateMachine
  import opened Entities
  import opened Outbox
  import opened Hcm
  import opened Protocol
  import opened Ledgers
  import opened Convergence
  import opened Divergence
  import opened Attempts

  function Start(limit: nat): State {
    Opening().(maxAttempts := limit)
  }

  /** Every submission of the debit is lost until it is given up, the employee cancels, and the refund goes through. */
  function BeforeRefund(day: string, limit: nat, due: nat -> int): seq<Step> {
    Booking(day) + Tries(due, limit) + [Step.Cancel("r", None, 0)] + Send(0)
  }

  function ExhaustedRun(day: string, limit: nat, due: nat -> int): seq<Step> {
    BeforeRefund(day, limit, due) + [Deliver(1, NORMAL, false, "t", 0)]
    + [Receive(false)] + [Settle(0, 0.0)] + [Advance]
  }

  /** Given up at HCM, cancelled and refunded here, with the refund still to be sent. */
  function AfterCancel(day: string, limit: nat, due: nat -> int): State
    requires limit >= 1
  {
    var row := GivenUpLast(DebitEvent(Booked(day, Approved), 0), limit, due);
    Start(limit).(tables := Tables([Booked(day, Cancelled)], map[K := Balance(5.0, None, OK, 3)],
                                   [row, CreditEvent(Booked(day, Cancelled), 0)], {"L"}),
                  wire := {0})
  }

  lemma CancelGivenUp(day: string, limit: nat, due: nat -> int, s: State)
    requires limit >= 1
    requires s == AfterTries(Start(limit).(tables := AfterApprove(day).tables), 0, limit, due)
    ensures Next(s, Step.Cancel("r", None, 0)) == AfterCancel(day, limit, due)
  {
    assert s.tables.requests == [Booked(day, Approved)];
    assert IndexOf(s.tables.requests, "r") == 0;
    var s' := Next(s, Step.Cancel("r", None, 0));
    assert s'.tables.requests == [Booked(day, Cancelled)];
    assert s'.tables.balances == map[K := Balance(5.0, None, OK, 3)];
    assert s'.tables.events == AfterCancel(day, limit, due).tables.events;
  }

  lemma RunToCancel(day: string, limit: nat, due: nat -> int)
    requires limit >= 1 && Schedule(due)
    ensures Run(Start(limit), Booking(day) + Tries(due, limit) + [Step.Cancel("r", None, 0)]) == AfterCancel(day, limit, due)
  {
    var s0, s1 := Start(limit), Start(limit).(tables := AfterApprove(day).tables);
    RunBooking(day, s0);
    RunTries(s1, 0, limit, due);
    var s2 := AfterTries(s1, 0, limit, due);
    RunOnto(s0, Booking(day), s1, Tries(due, limit), s2);
    CancelGivenUp(day, limit, due, s2);
    RunAppend(s0, Booking(day) + Tries(due, limit), Step.Cancel("r", None, 0));
  }

  lemma RunToRefund(day: string, limit: nat, due: nat -> int)
    requires limit >= 1 && Schedule(due)
    ensures Run(Start(limit), BeforeRefund(day, limit, due)) == Sending(AfterCancel(day, limit, due), 1)
  {
    var s := AfterCancel(day, limit, due);
    RunToCancel(day, limit, due);
    RunSend(s, 1, 0);
    RunOnto(Start(limit), Booking(day) + Tries(due, limit) + [Step.Cancel("r", None, 0)], s, Send(0), Sending(s, 1));
  }

  /** HCM adds the refunded day to a balance it never took one from. */
  function AfterRefund(day: string, limit: nat, due: nat -> int): State
    requires limit >= 1
  {
    var s := AfterCancel(day, limit, due);
    var tx := HcmTransaction("t", RefundKey("r"), Payload("E", "L", 1.0, CREDIT), 0);
    SetRow(s, 1, Outbox.Sent(InFlight(s.tables.events[1]))).(
      hcm := Store(map[KeyString(K) := HcmBalance("E", "L", 6.0, 0)], map["t" := tx], map[RefundKey("r") := "t"]),
      wire := {0, 1})
  }

  lemma RefundArrives(day: string, limit: nat, due: nat -> int)
    requires limit >= 1
    ensures var s := Sending(AfterCancel(day, limit, due), 1);
            Next(Next(Next(Next(s, Deliver(1, NORMAL, false, "t", 0)), Receive(false)), Settle(0, 0.0)), Advance)
            == AfterRefund(day, limit, due)
  {
    var s := Sending(AfterCancel(day, limit, due), 1);
    var s1 := Next(s, Deliver(1, NORMAL, false, "t", 0));
    var tx := HcmTransaction("t", RefundKey("r"), Payload("E", "L", 1.0, CREDIT), 0);
    KeysApart("r", "r");
    assert PayloadString(tx.payload) == KeyString(K);
    assert BalanceString(HcmBalance("E", "L", 6.0, 0)) == KeyString(K);
    assert s1.hcm == AfterRefund(day, limit, due).hcm;
    RefundEnds(s1, s.worker.phase.current, tx, 0);
    assert {0} + {1} == {0, 1};
  }

  lemma ExhaustedEnd(day: string, limit: nat, due: nat -> int)
    requires limit >= 1 && Schedule(due)
    ensures Run(Start(limit), ExhaustedRun(day, limit, due)) == AfterRefund(day, limit, due)
  {
    RunToRefund(day, limit, due);
    RefundArrives(day, limit, due);
    RunAppend(Start(limit), BeforeRefund(day, limit, due), Deliver(1, NORMAL, false, "t", 0));
    RunThree(Start(limit), BeforeRefund(day, limit, due) + [Deliver(1, NORMAL, false, "t", 0)], Receive(false), Settle(0, 0.0), Advance);
  }

  lemma ExhaustedIsCalm(day: string, limit: nat, due: nat -> int)
    requires limit >= 1 && Schedule(due)
    ensures CalmRun(Start(limit), ExhaustedRun(day, limit, due)) && PlainSteps(ExhaustedRun(day, limit, due))
    ensures forall i :: 0 <= i < |ExhaustedRun(day, limit, due)| ==> DriftFree(ExhaustedRun(day, limit, due)[i])
  {
    var pre, steps := BeforeRefund(day, limit, due), ExhaustedRun(day, limit, due);
    TriesAreHarmless(due, limit);
    assert AllHarmless(pre);
    assert HarmlessBut(steps, {|pre|});
    HarmlessRun(Start(limit), steps, {|pre|});
    assert steps[..|pre|] == pre && steps[|pre|] == Deliver(1, NORMAL, false, "t", 0);
    RunToRefund(day, limit, due);
    assert Calm(Run(Start(limit), steps[..|pre|]), steps[|pre|]);
  }

  /**
   * Whatever the attempt limit: from equal ledgers a calm run without drift ends with nothing left to submit and HCM one
   * day above the local balance.
   */
  lemma ExhaustedThenCancelled(day: string, limit: nat) returns (steps: seq<Step>)
    requires limit >= 1
    ensures var s0 := Start(limit);
            && Init(s0) && PlainSteps(steps) && CalmRun(s0, steps) && Gap(s0, K) == 0.0
            && LocalDrifts(s0, steps, K) == 0.0 && HcmDrifts(s0, steps, K) == 0.0
            && Finished(Run(s0, steps).tables) && !Quiescent(Run(s0, steps).tables)
            && HcmDays(Run(s0, steps), K) == 6.0 && LocalDays(Run(s0, steps).tables, K) == 5.0
  {
    var due := DueTimes();
    steps := ExhaustedRun(day, limit, due);
    OpeningIsEqual();
    ExhaustedIsCalm(day, limit, due);
    NoDrift(Start(limit), steps, K);
    ExhaustedEnd(day, limit, due);
    EndIsUnequal(day, limit, due);
  }

  lemma EndIsUnequal(day: string, limit: nat, due: nat -> int)
    requires limit >= 1
    ensures var s := AfterRefund(day, limit, due);
            Finished(s.tables) && !Quiescent(s.tables) && HcmDays(s, K) == 6.0 && LocalDays(s.tables, K) == 5.0
  {
    var t := AfterRefund(day, limit, due).tables;
    assert t.requests == [Booked(day, Cancelled)];
    assert IndexOf(t.requests, "r") == 0;
    assert t.events[0].status.FAILED_PERMANENT? && !OfRejected(t.requests, t.events[0]);
  }
}
