/** What becomes of a request when HCM has answered its debit, and of a row when an operator replays it. */
module Outcomes {
  import opened Common
  import opened StateMachine
  import opened Entities
  import opened Balances
  import opened Outbox
  import opened Requests
  import opened Hcm
  import opened Protocol
  import opened Invariant
  import opened Reachable

  /** A 2xx is an acceptance, a 4xx a refusal, and anything else no answer. */
  lemma AnswerKinds(r: Response)
    ensures Classify(r).Ok? <==> r.Created?
    ensures Classify(r).Refused? <==> r.ClientError?
    ensures Classify(r).NoAnswer? <==> r.ServerError?
    ensures r.Created? ==> Classify(r).tx == r.tx
    ensures r.ClientError? ==> Classify(r).code == r.code
  {
  }

  /**
   * A copy of a submitted row that reaches HCM is handled like any other call; the client hears the answer if it is
   * waiting for this row, and nobody does otherwise.
   */
  lemma DeliveryOutcome(s: State, e: nat, mode: FailureMode, flaky: bool, txId: string, now: int)
    requires e in s.wire && e < |s.tables.events| && FreshId(s.hcm, txId)
    ensures var ev, s' := s.tables.events[e], Next(s, Deliver(e, mode, flaky, txId, now));
            var (hcm, answer) := Submit(s.hcm, mode, flaky, ev.idempotencyKey, ev.payload, txId, now);
            && s' == s.(hcm := hcm, worker := s'.worker)
            && if s.worker.Working? && s.worker.phase.Submitting? && s.worker.phase.current.pos == e
               then s'.worker == Working(s.worker.queue, Submitting(s.worker.phase.current, Some(Classify(answer))))
               else s'.worker == s.worker
  {
  }

  /** The client settles for the answer it has, unless that or the answer's way back was lost. */
  lemma ReceiveOutcome(s: State, lost: bool)
    requires s.worker.Working? && s.worker.phase.Submitting?
    ensures var s' := Next(s, Receive(lost));
            && s' == s.(worker := s'.worker) && s'.worker.Working? && s'.worker.queue == s.worker.queue
            && s'.worker.phase.Settling? && s'.worker.phase.current == s.worker.phase.current
            && (s'.worker.phase.result.NoAnswer? <==>
                  lost || s.worker.phase.reply == None || s.worker.phase.reply == Some(NoAnswer))
            && (!s'.worker.phase.result.NoAnswer? ==> s.worker.phase.reply == Some(s'.worker.phase.result))
  {
  }

  /** The request that a row being closed is about. */
  function Told(s: State): nat
    requires s.worker.Working? && s.worker.phase.Closing?
  {
    IndexOf(s.tables.requests, s.worker.phase.current.ev.aggregateId)
  }

  lemma ToldIsStored(s: State)
    requires Inv(s) && s.worker.Working? && s.worker.phase.Closing?
    ensures Told(s) < |s.tables.requests|
    ensures RequestOk(s.tables.requests[Told(s)], s.tables) && s.tables.requests[Told(s)].status != PendingApproval
  {
    var pos := s.worker.phase.current.pos;
    assert Snap(Outstanding(s.worker)[0], s.tables.events);
    assert Linked(s.tables.requests, s.tables.events[pos]);
    EventKeysContain(s.tables.events, pos);
    assert Corresponds(s.tables.requests[Told(s)], EventKeys(s.tables.events));
  }

  /**
   * HCM accepted the debit: its request, if still APPROVED, is HCM_CONFIRMED under the transaction's id; no balance, no
   * event and no other request changes, and in any other status nothing does.
   */
  lemma AcceptanceConfirms(s: State)
    requires Inv(s) && s.worker.Working? && s.worker.phase.Closing? && s.worker.phase.result.Ok?
    ensures var s', i := Next(s, Close), Told(s);
            && i < |s.tables.requests| && s'.worker == Working(s.worker.queue, BetweenEvents) && s'.hcm == s.hcm
            && s'.tables == s.tables.(requests := s'.tables.requests)
            && if s.tables.requests[i].status != Approved then s'.tables == s.tables
               else
                 && Redecided(s.tables.requests, s'.tables.requests, i)
                 && s'.tables.requests[i].status == HcmConfirmed
                 && s'.tables.requests[i].hcmTransactionId == Some(s.worker.phase.result.tx.transactionId)
                 && s'.tables.requests[i].balanceDecremented
  {
    ToldIsStored(s);
    ConfirmOutcome(s.tables, Told(s), s.worker.phase.result.tx.transactionId);
    NextIsClosed(s);
  }

  /** The codes of the 4xx answers; an answer without one reads as HCM_REJECTED. */
  function RefusalText(code: Refusal): string {
    if code == Conflict then "IDEMPOTENCY_CONFLICT"
    else if code == Insufficient then "INSUFFICIENT_BALANCE"
    else if code == UnknownBalance then "UNKNOWN_LOCATION"
    else "HCM_REJECTED"
  }

  /**
   * HCM refused the debit: its request, if still APPROVED, is HCM_REJECTED and its days are back on the balance, unless
   * that balance is STALE: then nothing changes and the rest of the batch is dropped. In any other status nothing changes.
   */
  lemma RefusalRejects(s: State)
    requires Inv(s) && s.worker.Working? && s.worker.phase.Closing? && s.worker.phase.result.Refused?
    requires NonNegative(s.tables.balances)
    ensures var s', i := Next(s, Close), Told(s);
            && i < |s.tables.requests| && s'.hcm == s.hcm && s'.tables.events == s.tables.events
            && var r, k := s.tables.requests[i], s.tables.requests[i].BalanceKey();
               if r.status != Approved then s' == s.(worker := Working(s.worker.queue, BetweenEvents))
               else if s.tables.balances[k].status == STALE then s' == s.(worker := Idle)
               else
                 && s'.worker == Working(s.worker.queue, BetweenEvents)
                 && Redecided(s.tables.requests, s'.tables.requests, i)
                 && s'.tables.requests[i].status == HcmRejected && !s'.tables.requests[i].balanceDecremented
                 && s'.tables.requests[i].rejectionReason == Some(RefusalText(s.worker.phase.result.code))
                 && MovesDays(s.tables.balances, s'.tables.balances, k, r.days)
  {
    ToldIsStored(s);
    RefusedRequest(s.tables, Told(s), s.worker.phase.result.code);
    NextIsClosed(s);
  }

  lemma NextIsClosed(s: State)
    requires s.worker.Working? && s.worker.phase.Closing?
    ensures Next(s, Close) ==
            match CloseRequest(s.tables, s.worker.phase.current.ev.aggregateId, s.worker.phase.result)
            case Success(t) => s.(tables := t, worker := Working(s.worker.queue, BetweenEvents))
            case Failure(_) => s.(worker := Idle)
  {
  }

  lemma RefusedRequest(t: Tables, i: nat, code: Refusal)
    requires i < |t.requests| && IndexOf(t.requests, t.requests[i].id) == i
    requires RequestOk(t.requests[i], t) && t.requests[i].status != PendingApproval && NonNegative(t.balances)
    ensures var closed := CloseRequest(t, t.requests[i].id, Refused(code));
            var r, k := t.requests[i], t.requests[i].BalanceKey();
            if r.status != Approved then closed == Success(t)
            else if t.balances[k].status == STALE then closed.Failure?
            else
              && closed.Success? && closed.value.events == t.events
              && Redecided(t.requests, closed.value.requests, i)
              && closed.value.requests[i].status == HcmRejected && !closed.value.requests[i].balanceDecremented
              && closed.value.requests[i].rejectionReason == Some(RefusalText(code))
              && MovesDays(t.balances, closed.value.balances, k, r.days)
  {
    RejectByHcmOutcome(t, i, CodeText(code));
  }

  /** A replay makes one stored row PENDING and due now, with its attempts kept, whatever it was. */
  lemma ReplayOutcome(s: State, e: nat, now: int)
    ensures var s' := Next(s, Replay(e, now));
            if e >= |s.tables.events| then s' == s
            else
              && s' == s.(tables := s.tables.(events := s'.tables.events)) && |s'.tables.events| == |s.tables.events|
              && (forall j :: 0 <= j < |s.tables.events| && j != e ==> s'.tables.events[j] == s.tables.events[j])
              && var row := s'.tables.events[e];
                 && SameEvent(row, s.tables.events[e]) && row.attempts == s.tables.events[e].attempts
                 && row.status == PENDING && row.nextAttemptAt == Some(now)
  {
  }
}
