/** What HCM holds in every reachable state, and how requests, events and records correspond. */
module ExactlyOnce {
  import opened Entities
  import opened Outbox
  import opened Hcm
  import opened Protocol
  import opened Invariant
  import opened Reachable

  /** The transaction carries the data of a stored request, as its debit or as its refund. */
  predicate Originates(tx: HcmTransaction, r: Request) {
    && tx.payload.employeeId == r.employeeId && tx.payload.locationId == r.locationId && tx.payload.days == r.days
    && (if tx.payload.txType.DEBIT? then tx.idempotencyKey == SubmitKey(r.id) else tx.idempotencyKey == RefundKey(r.id))
  }

  /**
   * Exactly once: in every reachable state a key has at most one transaction, and every transaction at HCM is the debit
   * or the refund of exactly one stored request, with that request's employee, location and days.
   */
  lemma RecordedOnce(s0: State, steps: seq<Step>, id: string) returns (i: nat)
    requires Init(s0) && id in Run(s0, steps).hcm.transactions
    ensures var s := Run(s0, steps);
            && i < |s.tables.requests| && Originates(s.hcm.transactions[id], s.tables.requests[i])
            && (forall j :: 0 <= j < |s.tables.requests| && Originates(s.hcm.transactions[id], s.tables.requests[j]) ==> j == i)
            && (forall other :: other in s.hcm.transactions && other != id ==>
                  s.hcm.transactions[other].idempotencyKey != s.hcm.transactions[id].idempotencyKey)
  {
    InitInv(s0);
    RunKeepsInv(s0, steps);
    var s := Run(s0, steps);
    var tx := s.hcm.transactions[id];
    var e := EventKeysWitness(s.tables.events, tx.idempotencyKey);
    assert Linked(s.tables.requests, s.tables.events[e]);
    i := IndexOf(s.tables.requests, s.tables.events[e].aggregateId);
    forall j | 0 <= j < |s.tables.requests| && Originates(tx, s.tables.requests[j]) ensures j == i {
      KeysApart(s.tables.requests[j].id, s.tables.requests[i].id);
    }
    forall other | other in s.hcm.transactions && other != id
      ensures s.hcm.transactions[other].idempotencyKey != tx.idempotencyKey
    {
      if s.hcm.transactions[other].idempotencyKey == tx.idempotencyKey {
        OneTransactionPerKey(s.hcm, other, id);
      }
    }
  }

  /** No delivery in any run is ever answered with the idempotency conflict. */
  lemma NeverConflicts(s0: State, steps: seq<Step>, e: nat, mode: FailureMode, flaky: bool, txId: string, now: int)
    requires Init(s0) && e < |Run(s0, steps).tables.events|
    ensures var s := Run(s0, steps);
            var ev := s.tables.events[e];
            Submit(s.hcm, mode, flaky, ev.idempotencyKey, ev.payload, txId, now).1 != ClientError(Conflict)
  {
    InitInv(s0);
    RunKeepsInv(s0, steps);
    var s := Run(s0, steps);
    var ev := s.tables.events[e];
    assert Linked(s.tables.requests, ev);
    KeysApart(ev.aggregateId, ev.aggregateId);
  }

  /** An HCM_CONFIRMED request carries the id of the transaction recorded under its own submit key with its own data. */
  lemma ConfirmedIsRecorded(s0: State, steps: seq<Step>, i: nat)
    requires Init(s0) && i < |Run(s0, steps).tables.requests| && Run(s0, steps).tables.requests[i].status.HcmConfirmed?
    ensures var s := Run(s0, steps);
            var r := s.tables.requests[i];
            && r.hcmTransactionId.Some? && r.hcmTransactionId.value in s.hcm.transactions
            && var tx := s.hcm.transactions[r.hcmTransactionId.value];
               tx.idempotencyKey == SubmitKey(r.id) && tx.payload == Payload(r.employeeId, r.locationId, r.days, DEBIT)
  {
    InitInv(s0);
    RunKeepsInv(s0, steps);
    var s := Run(s0, steps);
    var r := s.tables.requests[i];
    assert ConfirmedBy(r, s.hcm);
    var j := EventKeysWitness(s.tables.events, SubmitKey(r.id));
    assert Linked(s.tables.requests, s.tables.events[j]);
    KeysApart(s.tables.events[j].aggregateId, r.id);
    KeysApart(r.id, s.tables.events[j].aggregateId);
    IndexOfOwn(s.tables.requests, i);
  }

  // ---- status and outbox ----

  /** Number of stored events of one type for a request id. */
  function EventCount(events: seq<OutboxEvent>, id: string, eventType: EventType): nat {
    if events == [] then 0
    else
      var ev := events[|events| - 1];
      EventCount(events[..|events| - 1], id, eventType) + if ev.aggregateId == id && ev.eventType == eventType then 1 else 0
  }

  function KeyOf(id: string, eventType: EventType): string {
    if eventType.HCM_SUBMIT_DEBIT? then SubmitKey(id) else RefundKey(id)
  }

  /** Events carry the key of their request and type, and keys are distinct, so there is at most one of each. */
  lemma {:induction false} CountIsMembership(events: seq<OutboxEvent>, id: string, eventType: EventType)
    requires DistinctKeys(events)
    requires forall j :: 0 <= j < |events| ==> events[j].idempotencyKey == KeyOf(events[j].aggregateId, events[j].eventType)
    ensures EventCount(events, id, eventType) == if KeyOf(id, eventType) in EventKeys(events) then 1 else 0
  {
    if events != [] {
      var n := |events| - 1;
      CountIsMembership(events[..n], id, eventType);
      var ev := events[n];
      KeysApart(ev.aggregateId, id);
      KeysApart(id, ev.aggregateId);
      if ev.idempotencyKey in EventKeys(events[..n]) {
        var j := EventKeysWitness(events[..n], ev.idempotencyKey);
      }
    }
  }

  /** How many debits and refunds a request has, by status, in every reachable state. */
  lemma EventsByStatus(s0: State, steps: seq<Step>, i: nat)
    requires Init(s0) && i < |Run(s0, steps).tables.requests|
    ensures var t := Run(s0, steps).tables;
            var debits := EventCount(t.events, t.requests[i].id, HCM_SUBMIT_DEBIT);
            var credits := EventCount(t.events, t.requests[i].id, HCM_SUBMIT_CREDIT);
            match t.requests[i].status
            case PendingApproval => debits == 0 && credits == 0
            case Rejected => debits == 0 && credits == 0
            case Approved => debits == 1 && credits == 0
            case HcmConfirmed => debits == 1 && credits == 0
            case HcmRejected => debits <= 1 && credits == 0
            case Cancelled => debits == credits <= 1
  {
    InitInv(s0);
    RunKeepsInv(s0, steps);
    var t := Run(s0, steps).tables;
    forall j | 0 <= j < |t.events| ensures t.events[j].idempotencyKey == KeyOf(t.events[j].aggregateId, t.events[j].eventType) {
      assert Linked(t.requests, t.events[j]);
    }
    CountIsMembership(t.events, t.requests[i].id, HCM_SUBMIT_DEBIT);
    CountIsMembership(t.events, t.requests[i].id, HCM_SUBMIT_CREDIT);
    assert Corresponds(t.requests[i], EventKeys(t.events));
  }

  // ---- HCM balances stay non-negative ----

  predicate HcmNonNegative(h: Store) {
    forall ks :: ks in h.balances ==> h.balances[ks].balanceDays >= 0.0
  }

  lemma SubmitNonNegative(h: Store, mode: FailureMode, flaky: bool, key: string, body: Payload, txId: string, now: int)
    requires HcmNonNegative(h) && body.days >= 0.0
    ensures HcmNonNegative(Submit(h, mode, flaky, key, body, txId, now).0)
  {
  }

  lemma StepHcmNonNegative(s: State, step: Step)
    requires Inv(s) && HcmNonNegative(s.hcm) && (step.EditHcm? ==> step.balance.balanceDays >= 0.0)
    ensures HcmNonNegative(Next(s, step).hcm)
  {
    if step.Deliver? && step.event < |s.tables.events| {
      var ev := s.tables.events[step.event];
      assert Linked(s.tables.requests, ev);
      assert RequestOk(s.tables.requests[IndexOf(s.tables.requests, ev.aggregateId)], s.tables);
      SubmitNonNegative(s.hcm, step.mode, step.flaky, ev.idempotencyKey, ev.payload, step.txId, step.now);
    }
  }

  /** With non-negative seeds and edits no HCM balance ever goes negative, whatever the failure modes. */
  lemma {:induction false} HcmStaysNonNegative(s0: State, steps: seq<Step>)
    requires Init(s0) && forall i :: 0 <= i < |steps| && steps[i].EditHcm? ==> steps[i].balance.balanceDays >= 0.0
    ensures HcmNonNegative(Run(s0, steps).hcm)
  {
    if steps != [] {
      var n := |steps| - 1;
      assert forall i :: 0 <= i < n ==> steps[..n][i] == steps[i];
      HcmStaysNonNegative(s0, steps[..n]);
      InitInv(s0);
      RunKeepsInv(s0, steps[..n]);
      StepHcmNonNegative(Run(s0, steps[..n]), steps[n]);
    }
  }
}
