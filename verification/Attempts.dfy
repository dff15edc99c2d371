/** Whole delivery attempts as runs: one ready row at the end of the table, taken up by an idle worker. */
module Attempts {
  import opened Common
  import opened Entities
  import opened Backoff
  import opened Outbox
  import opened Hcm
  import opened Protocol
  import opened Ledgers
  import opened Convergence

  function SetRow(s: State, e: nat, ev: OutboxEvent): State
    requires e < |s.tables.events|
  {
    s.(tables := s.tables.(events := s.tables.events[e := ev]))
  }

  /** e is the last row, it is ready, and no other is. */
  predicate OnlyReady(events: seq<OutboxEvent>, e: nat, now: int) {
    |events| == e + 1 && Ready(events[e], now) && forall i :: 0 <= i < e ==> !Ready(events[i], now)
  }

  lemma {:induction false} NothingReady(events: seq<OutboxEvent>, now: int, limit: nat)
    requires forall i :: 0 <= i < |events| ==> !Ready(events[i], now)
    ensures ClaimBatch(events, now, limit) == []
  {
    if events != [] {
      NothingReady(events[..|events| - 1], now, limit);
    }
  }

  /** The state in which row e has just been sent. */
  function Sending(s: State, e: nat): State
    requires e < |s.tables.events|
  {
    var ev := InFlight(s.tables.events[e]);
    SetRow(s, e, ev).(worker := Working([], Submitting(Claimed(e, ev), None)), wire := s.wire + {e})
  }

  function Send(now: int): seq<Step> {
    [Claim(now)] + [Advance]
  }

  lemma RunSend(s: State, e: nat, now: int)
    requires s.worker.Idle? && OnlyReady(s.tables.events, e, now)
    ensures Run(s, Send(now)) == Sending(s, e)
  {
    var ev := s.tables.events[e];
    NothingReady(s.tables.events[..e], now, BATCH_LIMIT);
    assert ClaimBatch(s.tables.events, now, BATCH_LIMIT) == [Claimed(e, ev)];
    assert [Claimed(e, ev)][1..] == [];
    RunAppend(s, [], Claim(now));
    RunAppend(s, [Claim(now)], Advance);
  }

  // ---- attempts without an answer ----

  /** One attempt whose submission never arrives anywhere. */
  function Try(now: int): seq<Step> {
    Send(now) + [Receive(true)] + [Settle(now, 0.0)] + [Advance]
  }

  /** The client gives up waiting, the row is settled as unanswered and the tick ends. */
  lemma LostEnds(s: State, c: Claimed, reply: Option<SubmitResult>, now: int)
    requires s.worker == Working([], Submitting(c, reply)) && c.pos < |s.tables.events|
    ensures Next(Next(Next(s, Receive(true)), Settle(now, 0.0)), Advance) ==
            SetRow(s, c.pos, Settled(c.ev, NoAnswer, s.maxAttempts, now, 0.0)).(worker := Idle)
  {
  }

  lemma RunTry(s: State, e: nat, now: int)
    requires s.worker.Idle? && OnlyReady(s.tables.events, e, now)
    ensures Run(s, Try(now)) ==
            SetRow(s, e, Settled(InFlight(s.tables.events[e]), NoAnswer, s.maxAttempts, now, 0.0)).(wire := s.wire + {e})
  {
    RunSend(s, e, now);
    LostEnds(Sending(s, e), Claimed(e, InFlight(s.tables.events[e])), None, now);
    RunThree(s, Send(now), Receive(true), Settle(now, 0.0), Advance);
  }

  /** Attempt number n + 1 is due at due(n), the first at 0, each later one as soon as its backoff has passed. */
  predicate Waits(due: nat -> int, n: nat) {
    due(n + 1) == due(n) + ComputeBackoffMs(n + 1, 0.0)
  }

  ghost predicate Schedule(due: nat -> int) {
    due(0) == 0 && forall n: nat :: Waits(due, n)
  }

  function TryNumber(due: nat -> int): nat -> seq<Step> {
    (i: nat) => Try(due(i))
  }

  function Tries(due: nat -> int, n: nat): seq<Step> {
    Concat(TryNumber(due), n)
  }

  function Failed(ev: OutboxEvent, n: nat, due: nat -> int): OutboxEvent {
    if n == 0 then ev else ev.(status := FAILED, attempts := n, nextAttemptAt := Some(due(n)))
  }

  function GivenUpLast(ev: OutboxEvent, maxAttempts: nat, due: nat -> int): OutboxEvent
    requires maxAttempts >= 1
  {
    Failed(ev, maxAttempts - 1, due).(status := FAILED_PERMANENT, attempts := maxAttempts)
  }

  /** A fresh row due at 0, which nothing before it in the table competes with. */
  predicate FreshLast(events: seq<OutboxEvent>, e: nat) {
    && |events| == e + 1 && events[e].status.PENDING? && events[e].attempts == 0 && events[e].nextAttemptAt == Some(0)
    && forall i :: 0 <= i < e ==> !Claimable(events[i])
  }

  function Tried(ev: OutboxEvent, n: nat, maxAttempts: nat, due: nat -> int): OutboxEvent
    requires maxAttempts >= 1
  {
    if n < maxAttempts then Failed(ev, n, due) else GivenUpLast(ev, maxAttempts, due)
  }

  /** The state after n <= maxAttempts unanswered attempts: the last of them gives the row up. */
  function AfterTries(s: State, e: nat, n: nat, due: nat -> int): State
    requires e < |s.tables.events| && 1 <= s.maxAttempts
  {
    SetRow(s, e, Tried(s.tables.events[e], n, s.maxAttempts, due)).(wire := if n == 0 then s.wire else s.wire + {e})
  }

  lemma SettledTry(ev: OutboxEvent, n: nat, maxAttempts: nat, due: nat -> int)
    requires ev.attempts == 0 && n < maxAttempts && Waits(due, n)
    ensures Settled(InFlight(Tried(ev, n, maxAttempts, due)), NoAnswer, maxAttempts, due(n), 0.0) ==
            Tried(ev, n + 1, maxAttempts, due)
  {
    assert InFlight(Failed(ev, n, due)).attempts == n;
  }

  lemma TryAgain(s: State, e: nat, n: nat, due: nat -> int)
    requires s.worker.Idle? && FreshLast(s.tables.events, e) && n < s.maxAttempts && due(0) == 0 && Waits(due, n)
    ensures Run(AfterTries(s, e, n, due), Try(due(n))) == AfterTries(s, e, n + 1, due)
  {
    var s1 := AfterTries(s, e, n, due);
    assert OnlyReady(s1.tables.events, e, due(n));
    RunTry(s1, e, due(n));
    SettledTry(s.tables.events[e], n, s.maxAttempts, due);
    assert s1.wire + {e} == s.wire + {e};
  }

  lemma NoTryYet(s: State, e: nat, due: nat -> int)
    requires e < |s.tables.events| && 1 <= s.maxAttempts
    ensures AfterTries(s, e, 0, due) == s
  {
    assert s.tables.events[e := s.tables.events[e]] == s.tables.events;
  }

  lemma RunTries(s: State, e: nat, n: nat, due: nat -> int)
    requires s.worker.Idle? && FreshLast(s.tables.events, e) && 1 <= s.maxAttempts && n <= s.maxAttempts && Schedule(due)
    ensures Run(s, Tries(due, n)) == AfterTries(s, e, n, due)
  {
    var states := (i: nat) => AfterTries(s, e, i, due);
    forall i: nat | i < n ensures PartLeads(TryNumber(due), states, i) {
      assert Waits(due, i);
      TryAgain(s, e, i, due);
    }
    NoTryYet(s, e, due);
    RunParts(TryNumber(due), states, n);
  }

  /** The schedule exists. */
  function DueAt(n: nat): int {
    if n == 0 then 0 else DueAt(n - 1) + ComputeBackoffMs(n, 0.0)
  }

  lemma DueTimes() returns (due: nat -> int)
    ensures Schedule(due)
  {
    due := (n: nat) => DueAt(n);
  }

  // ---- an attempt that HCM handles ----

  function Response(s: State, e: nat, mode: FailureMode, txId: string, now: int): (Store, Response)
    requires e < |s.tables.events|
  {
    Submit(s.hcm, mode, false, s.tables.events[e].idempotencyKey, s.tables.events[e].payload, txId, now)
  }

  function Handled(e: nat, mode: FailureMode, txId: string, now: int): seq<Step> {
    Send(now) + [Deliver(e, mode, false, txId, now)]
  }

  lemma RunHandled(s: State, e: nat, mode: FailureMode, txId: string, now: int)
    requires s.worker.Idle? && OnlyReady(s.tables.events, e, now) && FreshId(s.hcm, txId)
    ensures var (h, r) := Response(s, e, mode, txId, now);
            Run(s, Handled(e, mode, txId, now)) ==
            Sending(s, e).(hcm := h, worker := Working([], Submitting(Claimed(e, InFlight(s.tables.events[e])), Some(Classify(r)))))
  {
    RunSend(s, e, now);
    RunAppend(s, Send(now), Deliver(e, mode, false, txId, now));
  }

  /** A refund that HCM accepts is settled as SENT and the tick ends. */
  lemma RefundEnds(s: State, c: Claimed, tx: HcmTransaction, now: int)
    requires s.worker == Working([], Submitting(c, Some(Ok(tx)))) && c.pos < |s.tables.events|
    requires c.ev.eventType.HCM_SUBMIT_CREDIT?
    ensures Next(Next(Next(s, Receive(false)), Settle(now, 0.0)), Advance) ==
            SetRow(s, c.pos, Outbox.Sent(c.ev)).(worker := Idle)
  {
  }

  /** A debit that HCM accepts is settled as SENT, its request is told and the tick ends. */
  lemma AcceptanceEnds(s: State, c: Claimed, tx: HcmTransaction, now: int, t: Tables)
    requires s.worker == Working([], Submitting(c, Some(Ok(tx)))) && c.pos < |s.tables.events|
    requires c.ev.eventType.HCM_SUBMIT_DEBIT?
    requires CloseRequest(SetRow(s, c.pos, Outbox.Sent(c.ev)).tables, c.ev.aggregateId, Ok(tx)) == Success(t)
    ensures Next(Next(Next(Next(s, Receive(false)), Settle(now, 0.0)), Close), Advance) == s.(tables := t, worker := Idle)
  {
  }

  /** A refused debit is given up, its request is told and the tick ends. */
  lemma RefusalEnds(s: State, c: Claimed, code: Refusal, now: int, t: Tables)
    requires s.worker == Working([], Submitting(c, Some(Refused(code)))) && c.pos < |s.tables.events|
    requires c.ev.eventType.HCM_SUBMIT_DEBIT?
    requires CloseRequest(SetRow(s, c.pos, GivenUp(c.ev)).tables, c.ev.aggregateId, Refused(code)) == Success(t)
    ensures Next(Next(Next(Next(s, Receive(false)), Settle(now, 0.0)), Close), Advance) == s.(tables := t, worker := Idle)
  {
  }

  // ---- steps that disturb nothing ----

  /** A step that no run has to fear: neither a delivery nor a replay, nothing inbound, no operator, no crash. */
  predicate Harmless(step: Step) {
    || (step.Create? && Plain(step.dto.BalanceKey()))
    || step.Approve? || step.Cancel? || step.Claim? || step.Advance? || step.Receive? || step.Settle? || step.Close?
  }

  predicate AllHarmless(steps: seq<Step>) {
    forall i :: 0 <= i < |steps| ==> Harmless(steps[i])
  }

  lemma {:induction false} HarmlessParts(parts: nat -> seq<Step>, n: nat)
    requires forall i: nat :: i < n ==> AllHarmless(parts(i))
    ensures AllHarmless(Concat(parts, n))
  {
    if n > 0 {
      HarmlessParts(parts, n - 1);
    }
  }

  lemma TryIsHarmless(now: int)
    ensures AllHarmless(Try(now))
  {
  }

  lemma TriesAreHarmless(due: nat -> int, n: nat)
    ensures AllHarmless(Tries(due, n))
  {
    forall i: nat | i < n ensures AllHarmless(TryNumber(due)(i)) {
      TryIsHarmless(due(i));
    }
    HarmlessParts(TryNumber(due), n);
  }

  /** A run of harmless steps around deliveries is calm where the deliveries are, and has no drift outside SILENT_ACCEPT. */
  predicate HarmlessBut(steps: seq<Step>, deliveries: set<nat>) {
    forall i :: 0 <= i < |steps| ==>
      if i in deliveries then steps[i].Deliver? && !steps[i].mode.SILENT_ACCEPT? else Harmless(steps[i])
  }

  lemma HarmlessRun(s: State, steps: seq<Step>, deliveries: set<nat>)
    requires HarmlessBut(steps, deliveries)
    ensures PlainSteps(steps) && (forall i :: 0 <= i < |steps| ==> DriftFree(steps[i]))
    ensures forall i :: 0 <= i < |steps| && i !in deliveries ==> Calm(Run(s, steps[..i]), steps[i])
  {
    forall i | 0 <= i < |steps| ensures PlainStep(steps[i]) && DriftFree(steps[i]) {
    }
    forall i | 0 <= i < |steps| && i !in deliveries ensures Calm(Run(s, steps[..i]), steps[i]) {
      assert Harmless(steps[i]);
    }
  }
}
