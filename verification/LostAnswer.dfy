/** The other way to strand a debit: its answer is lost, and the retry meets an HCM that rejects everything. */
module LostAnswer {
  import opened Common
  import opened StateMachine
  import opened Entities
  import opened Backoff
  import opened Outbox
  import opened Hcm
  import opened Protocol
  import opened Ledgers
  import opened Convergence
  import opened Divergence
  import opened Attempts

  /** When the retry is due. */
  function Later(): int {
    ComputeBackoffMs(1, 0.0)
  }

  /** HCM records the debit, its answer is lost, and the worker sends it again. */
  function UntilRetry(day: string): seq<Step> {
    Booking(day) + FirstAttempt() + Send(Later())
  }

  function FirstAttempt(): seq<Step> {
    Handled(0, NORMAL, "t", 0) + [Receive(true)] + [Settle(0, 0.0)] + [Advance]
  }

  function LostAnswerRun(day: string): seq<Step> {
    UntilRetry(day) + [Deliver(0, REJECT_ALL, false, "u", Later())]
    + [Receive(false)] + [Settle(Later(), 0.0)] + [Close] + [Advance]
  }

  function Recorded(): Store {
    var tx := HcmTransaction("t", SubmitKey("r"), Payload("E", "L", 1.0, DEBIT), 0);
    Store(map[KeyString(K) := HcmBalance("E", "L", 4.0, 0)], map["t" := tx], map[SubmitKey("r") := "t"])
  }

  function AfterFirst(day: string): State {
    var s := AfterApprove(day);
    SetRow(s, 0, RetryAt(InFlight(s.tables.events[0]), Later())).(hcm := Recorded(), wire := {0})
  }

  lemma RunFirst(day: string)
    ensures Run(AfterApprove(day), FirstAttempt()) == AfterFirst(day)
  {
    var s := AfterApprove(day);
    KeysApart("r", "r");
    RunHandled(s, 0, NORMAL, "t", 0);
    var s1 := Run(s, Handled(0, NORMAL, "t", 0));
    assert PayloadString(Payload("E", "L", 1.0, DEBIT)) == KeyString(K);
    assert BalanceString(HcmBalance("E", "L", 4.0, 0)) == KeyString(K);
    assert s1.hcm == Recorded();
    LostEnds(s1, s1.worker.phase.current, s1.worker.phase.reply, 0);
    RunThree(s, Handled(0, NORMAL, "t", 0), Receive(true), Settle(0, 0.0), Advance);
    assert {} + {0} == {0};
  }

  lemma RunToRetry(day: string)
    ensures Run(Opening(), UntilRetry(day)) == Attempts.Sending(AfterFirst(day), 0)
  {
    RunBooking(day, Opening());
    RunFirst(day);
    RunOnto(Opening(), Booking(day), AfterApprove(day), FirstAttempt(), AfterFirst(day));
    RunSend(AfterFirst(day), 0, Later());
    RunOnto(Opening(), Booking(day) + FirstAttempt(), AfterFirst(day), Send(Later()), Attempts.Sending(AfterFirst(day), 0));
  }

  function RejectedTables(day: string): Tables {
    var s := Attempts.Sending(AfterFirst(day), 0);
    Tables([Booked(day, HcmRejected).(rejectionReason := Some(CodeText(ByMode)))], map[K := Balance(5.0, None, OK, 3)],
           [GivenUp(s.tables.events[0])], {"L"})
  }

  lemma RetryRefused(day: string)
    ensures var s := Attempts.Sending(AfterFirst(day), 0);
            var s1 := Next(s, Deliver(0, REJECT_ALL, false, "u", Later()));
            Next(Next(Next(Next(s1, Receive(false)), Settle(Later(), 0.0)), Close), Advance) ==
            AfterFirst(day).(tables := RejectedTables(day), wire := {0})
  {
    var s := Attempts.Sending(AfterFirst(day), 0);
    var s1 := Next(s, Deliver(0, REJECT_ALL, false, "u", Later()));
    KeysApart("r", "r");
    assert s1 == s.(worker := Working([], Submitting(s.worker.phase.current, Some(Refused(ByMode)))));
    var t := SetRow(s1, 0, GivenUp(s.worker.phase.current.ev)).tables;
    assert t.requests == [Booked(day, Approved)];
    assert IndexOf(t.requests, "r") == 0;
    assert t.events == RejectedTables(day).events;
    var t' := CloseRequest(t, "r", Refused(ByMode)).value;
    assert t'.requests == RejectedTables(day).requests && t'.balances == RejectedTables(day).balances;
    RefusalEnds(s1, s.worker.phase.current, ByMode, Later(), t');
    assert {0} + {0} == {0};
  }

  lemma LostAnswerEnd(day: string)
    ensures Run(Opening(), LostAnswerRun(day)) == AfterFirst(day).(tables := RejectedTables(day), wire := {0})
  {
    var pre := UntilRetry(day) + [Deliver(0, REJECT_ALL, false, "u", Later())];
    RunToRetry(day);
    RetryRefused(day);
    RunAppend(Opening(), UntilRetry(day), Deliver(0, REJECT_ALL, false, "u", Later()));
    RunThree(Opening(), pre, Receive(false), Settle(Later(), 0.0), Close);
    RunAppend(Opening(), pre + [Receive(false)] + [Settle(Later(), 0.0)] + [Close], Advance);
  }

  /** Where the two deliveries stand. */
  const FIRST: nat := 4

  lemma LostAnswerShape(day: string)
    ensures var steps, n := LostAnswerRun(day), |UntilRetry(day)|;
            && FIRST < n < |steps| && steps[..n] == UntilRetry(day) && steps[n] == Deliver(0, REJECT_ALL, false, "u", Later())
            && steps[..FIRST] == Booking(day) + Send(0) && steps[FIRST] == Deliver(0, NORMAL, false, "t", 0)
            && HarmlessBut(steps, {FIRST, n})
  {
  }

  lemma FirstIsCalm(day: string)
    ensures Calm(Run(Opening(), Booking(day) + Send(0)), Deliver(0, NORMAL, false, "t", 0))
  {
    RunBooking(day, Opening());
    RunSend(AfterApprove(day), 0, 0);
    RunOnto(Opening(), Booking(day), AfterApprove(day), Send(0), Attempts.Sending(AfterApprove(day), 0));
  }

  lemma CalmButOne(day: string)
    ensures var steps := LostAnswerRun(day);
            && PlainSteps(steps) && (forall i :: 0 <= i < |steps| ==> DriftFree(steps[i]))
            && forall i :: 0 <= i < |steps| && i != |UntilRetry(day)| ==> Calm(Run(Opening(), steps[..i]), steps[i])
  {
    var steps, n := LostAnswerRun(day), |UntilRetry(day)|;
    LostAnswerShape(day);
    HarmlessRun(Opening(), steps, {FIRST, n});
    FirstIsCalm(day);
    assert Calm(Run(Opening(), steps[..FIRST]), steps[FIRST]);
  }

  /**
   * From equal ledgers and without drift, a run that is calm but for one delivery under REJECT_ALL ends quiescent with
   * HCM one day short of the local balance.
   */
  lemma LostAnswerDiverges(day: string, s0: State, steps: seq<Step>) returns (n: nat)
    requires s0 == Opening() && steps == LostAnswerRun(day)
    ensures Init(s0) && PlainSteps(steps) && Gap(s0, K) == 0.0
    ensures LocalDrifts(s0, steps, K) == 0.0 && HcmDrifts(s0, steps, K) == 0.0
    ensures n < |steps| && steps[n].Deliver? && steps[n].mode.REJECT_ALL?
    ensures forall i :: 0 <= i < |steps| && i != n ==> Calm(Run(s0, steps[..i]), steps[i])
    ensures Quiescent(Run(s0, steps).tables) && HcmDays(Run(s0, steps), K) == 4.0 && LocalDays(Run(s0, steps).tables, K) == 5.0
  {
    n := |UntilRetry(day)|;
    OpeningIsEqual();
    LostAnswerShape(day);
    CalmButOne(day);
    NoDrift(s0, steps, K);
    LostAnswerEnd(day);
    RejectedIsQuiet(day);
  }

  lemma RejectedIsQuiet(day: string)
    ensures Quiescent(RejectedTables(day)) && LocalDays(RejectedTables(day), K) == 5.0
    ensures DaysAt(Recorded(), KeyString(K)) == 4.0
  {
    assert IndexOf(RejectedTables(day).requests, "r") == 0;
  }
}
