/** A run outside the calm conditions in which a debit is stranded: why convergence needs them. */
module Divergence {
  import opened Common
  import opened StateMachine
  import opened DateUtils
  import opened Sums
  import opened Entities
  import opened Outbox
  import opened Requests
  import opened Hcm
  import opened Protocol
  import opened Ledgers
  import opened Convergence

  const K: Key := Key("E", "L")

  function Opening(): State {
    State(Tables([], map[K := Balance(5.0, None, OK, 1)], [], {"L"}),
          Store(map[KeyString(K) := HcmBalance("E", "L", 5.0, 0)], map[], map[]),
          Idle, {}, 8)
  }

  /** One approved day is refused while HCM is in a refusing mode, and a copy of its submission is handled afterwards. */
  function LateCopy(day: string): seq<Step> {
    [Step.Create(NewRequest("E", "L", day, day, 1.0), "r"), Step.Approve("r", 0), Claim(0), Advance,
     Deliver(0, INSUFFICIENT_BALANCE, false, "t", 0), Receive(false), Settle(0, 0.0), Close, Advance]
    + [Deliver(0, NORMAL, false, "t", 0)]
  }

  /** The request after its rejection, and its given-up event. */
  function RejectedRequest(day: string): Request {
    Request("r", "E", "L", day, day, 1.0, HcmRejected, false, None, Some(CodeText(Insufficient)))
  }

  function GivenUpEvent(): OutboxEvent {
    OutboxEvent("r", HCM_SUBMIT_DEBIT, SubmitKey("r"), Payload("E", "L", 1.0, DEBIT), FAILED_PERMANENT, 1, Some(0))
  }

  function Booked(day: string, status: Status): Request {
    Request("r", "E", "L", day, day, 1.0, status, Debited(status), None, None)
  }

  function AfterCreate(day: string): State {
    Opening().(tables := Opening().tables.(requests := [Booked(day, PendingApproval)]))
  }

  function AfterApprove(day: string): State {
    var debit := DebitEvent(Booked(day, Approved), 0);
    Opening().(tables := Tables([Booked(day, Approved)], map[K := Balance(4.0, None, OK, 2)], [debit], {"L"}))
  }

  lemma Created(day: string)
    ensures Next(Opening(), Step.Create(NewRequest("E", "L", day, day, 1.0), "r")) == AfterCreate(day)
  {
    var reqs: seq<Request> := [];
    assert IndexOf(reqs, "r") == 0;
    assert Total(reqs, InflightDays(K)) == 0.0;
    assert FindOverlapping(reqs, "E", day, day) == 0;
    LexLeTotal(day, day);
  }

  lemma ApprovedNext(day: string)
    ensures Next(AfterCreate(day), Step.Approve("r", 0)) == AfterApprove(day)
  {
    var r := Booked(day, PendingApproval);
    assert IndexOf([r], "r") == 0;
    assert [r][0 := Booked(day, Approved)] == [Booked(day, Approved)];
  }

  /** Creating and approving, under any attempt limit. */
  lemma RunBooking(day: string, s: State)
    requires s.tables == Opening().tables
    ensures Run(s, Booking(day)) == s.(tables := AfterApprove(day).tables)
  {
    RunAppend(s, [], Step.Create(NewRequest("E", "L", day, day, 1.0), "r"));
    RunAppend(s, [Step.Create(NewRequest("E", "L", day, day, 1.0), "r")], Step.Approve("r", 0));
    Created(day);
    ApprovedNext(day);
  }

  function Booking(day: string): seq<Step> {
    [Step.Create(NewRequest("E", "L", day, day, 1.0), "r")] + [Step.Approve("r", 0)]
  }

  lemma SentOnce(day: string)
    ensures var ev := DebitEvent(Booked(day, Approved), 0);
            Next(Next(AfterApprove(day), Claim(0)), Advance) ==
            AfterApprove(day).(tables := AfterApprove(day).tables.(events := [InFlight(ev)]),
                            worker := Working([], Submitting(Claimed(0, InFlight(ev)), None)), wire := {0})
  {
    var ev := DebitEvent(Booked(day, Approved), 0);
    assert ClaimBatch([ev][..0], 0, 20) == [];
    assert ClaimBatch([ev], 0, 20) == [Claimed(0, ev)];
    assert [ev][0 := InFlight(ev)] == [InFlight(ev)];
    var claimed := Next(AfterApprove(day), Claim(0));
    assert claimed.worker == Working([Claimed(0, ev)], BetweenEvents);
    assert claimed.worker.queue[1..] == [];
    assert claimed.wire + {0} == {0};
  }

  lemma FirstHalf(day: string) returns (steps: seq<Step>)
    ensures steps == [Step.Create(NewRequest("E", "L", day, day, 1.0), "r"), Step.Approve("r", 0), Claim(0), Advance]
    ensures var ev := InFlight(DebitEvent(Booked(day, Approved), 0));
            Run(Opening(), steps) ==
            State(Tables([Booked(day, Approved)], map[K := Balance(4.0, None, OK, 2)], [ev], {"L"}), Opening().hcm,
                  Working([], Submitting(Claimed(0, ev), None)), {0}, 8)
  {
    var s0 := Opening();
    var c1, c2, c3, c4 := Step.Create(NewRequest("E", "L", day, day, 1.0), "r"), Step.Approve("r", 0), Claim(0), Advance;
    steps := [c1] + [c2] + [c3] + [c4];
    assert Run(s0, []) == s0 && [c1] == [] + [c1];
    RunAppend(s0, [], c1);
    RunAppend(s0, [c1], c2);
    RunAppend(s0, [c1] + [c2], c3);
    RunAppend(s0, [c1] + [c2] + [c3], c4);
    Created(day);
    ApprovedNext(day);
    SentOnce(day);
  }

  lemma SecondHalf(day: string, s4: State)
    requires var ev := InFlight(DebitEvent(Booked(day, Approved), 0));
             s4 == State(Tables([Booked(day, Approved)], map[K := Balance(4.0, None, OK, 2)], [ev], {"L"}), Opening().hcm,
                         Working([], Submitting(Claimed(0, ev), None)), {0}, 8)
    ensures var s5 := Next(s4, Deliver(0, INSUFFICIENT_BALANCE, false, "t", 0));
            var s6 := Next(s5, Receive(false));
            var s7 := Next(s6, Settle(0, 0.0));
            var s8 := Next(s7, Close);
            Next(s8, Advance) ==
            State(Tables([RejectedRequest(day)], map[K := Balance(5.0, None, OK, 3)], [GivenUpEvent()], {"L"}), Opening().hcm, Idle, {0}, 8)
  {
    KeysApart("r", "r");
    var s5 := Next(s4, Deliver(0, INSUFFICIENT_BALANCE, false, "t", 0));
    assert s5 == s4.(worker := Working([], Submitting(s4.worker.phase.current, Some(Refused(Insufficient)))));
    var s7 := Next(Next(s5, Receive(false)), Settle(0, 0.0));
    assert s7.tables.events == [GivenUpEvent()];
    assert IndexOf(s7.tables.requests, "r") == 0;
    var s8 := Next(s7, Close);
    assert s8.tables.requests == [RejectedRequest(day)];
  }

  function Rejected9(day: string): State {
    State(Tables([RejectedRequest(day)], map[K := Balance(5.0, None, OK, 3)], [GivenUpEvent()], {"L"}), Opening().hcm, Idle, {0}, 8)
  }

  function Stranded10(day: string): State {
    var tx := HcmTransaction("t", SubmitKey("r"), Payload("E", "L", 1.0, DEBIT), 0);
    Rejected9(day).(hcm := Store(map[KeyString(K) := HcmBalance("E", "L", 4.0, 0)], map["t" := tx], map[SubmitKey("r") := "t"]))
  }

  lemma LateCopyRuns(day: string)
    ensures Run(Opening(), LateCopy(day)[..9]) == Rejected9(day)
    ensures Run(Opening(), LateCopy(day)) == Next(Rejected9(day), Deliver(0, NORMAL, false, "t", 0))
  {
    var s0 := Opening();
    var first := FirstHalf(day);
    SecondHalf(day, Run(s0, first));
    var c5, c6, c7 := Deliver(0, INSUFFICIENT_BALANCE, false, "t", 0), Receive(false), Settle(0, 0.0);
    var c8, c9, c10 := Close, Advance, Deliver(0, NORMAL, false, "t", 0);
    var nine := first + [c5] + [c6] + [c7] + [c8] + [c9];
    RunAppend(s0, first, c5);
    RunAppend(s0, first + [c5], c6);
    RunAppend(s0, first + [c5] + [c6], c7);
    RunAppend(s0, first + [c5] + [c6] + [c7], c8);
    RunAppend(s0, first + [c5] + [c6] + [c7] + [c8], c9);
    RunAppend(s0, nine, c10);
    assert LateCopy(day) == nine + [c10];
    assert LateCopy(day)[..9] == nine;
  }

  lemma LateDelivery(day: string)
    ensures Next(Rejected9(day), Deliver(0, NORMAL, false, "t", 0)) == Stranded10(day)
  {
    KeysApart("r", "r");
    assert PayloadString(GivenUpEvent().payload) == KeyString(K);
    assert BalanceString(HcmBalance("E", "L", 4.0, 0)) == KeyString(K);
  }

  lemma OpeningIsEqual()
    ensures Init(Opening()) && Gap(Opening(), K) == 0.0
  {
    assert BalanceString(HcmBalance("E", "L", 5.0, 0)) == KeyString(K);
  }

  lemma StrandedIsQuiet(day: string)
    ensures Quiescent(Stranded10(day).tables) && HcmDays(Stranded10(day), K) == 4.0 && LocalDays(Stranded10(day).tables, K) == 5.0
  {
    assert IndexOf([RejectedRequest(day)], "r") == 0;
  }

  lemma LateCopyIsPlain(day: string)
    ensures PlainSteps(LateCopy(day)) && forall i :: 0 <= i < |LateCopy(day)| ==> DriftFree(LateCopy(day)[i])
  {
  }

  lemma LateCopyEnd(day: string)
    ensures Run(Opening(), LateCopy(day)) == Stranded10(day)
  {
    LateCopyRuns(day);
    LateDelivery(day);
  }

  /** From equal ledgers and without drift, a run ends quiescent with HCM one day short of the local balance. */
  lemma LateCopyDiverges(day: string, s0: State, steps: seq<Step>)
    requires s0 == Opening() && steps == LateCopy(day)
    ensures Init(s0) && PlainSteps(steps) && Gap(s0, K) == 0.0
    ensures LocalDrifts(s0, steps, K) == 0.0 && HcmDrifts(s0, steps, K) == 0.0
    ensures !CalmRun(s0, steps)
    ensures Quiescent(Run(s0, steps).tables) && HcmDays(Run(s0, steps), K) == 4.0 && LocalDays(Run(s0, steps).tables, K) == 5.0
  {
    OpeningIsEqual();
    LateCopyIsPlain(day);
    NoDrift(s0, steps, K);
    NotCalm(day);
    LateCopyEnd(day);
    StrandedIsQuiet(day);
  }

  lemma NotCalm(day: string)
    ensures !CalmRun(Opening(), LateCopy(day))
  {
    LateCopyRuns(day);
    var last := Deliver(0, NORMAL, false, "t", 0);
    assert LateCopy(day)[9] == last;
    assert !Calm(Rejected9(day), last);
    assert !Calm(Run(Opening(), LateCopy(day)[..9]), LateCopy(day)[9]);
  }
}
