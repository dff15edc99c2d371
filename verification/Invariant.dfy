/** The inductive invariant of the protocol: tables, outbox, worker and HCM store agree in every reachable state. */
module Invariant {
  import opened Common
  import opened StateMachine
  import opened Entities
  import opened Balances
  import opened Outbox
  import opened Requests
  import opened Hcm
  import opened Sync
  import opened Protocol

  // ---- requests change only forward ----

  predicate SameRequest(a: Request, b: Request) {
    a.id == b.id && a.employeeId == b.employeeId && a.locationId == b.locationId &&
    a.startDate == b.startDate && a.endDate == b.endDate && a.days == b.days && Reaches(a.status, b.status)
  }

  /** Rows are only appended, and an existing row only moves forward in its lifecycle. */
  predicate Evolves(a: seq<Request>, b: seq<Request>) {
    |a| <= |b| && forall i :: 0 <= i < |a| ==> SameRequest(a[i], b[i])
  }

  lemma EvolvesTransitive(a: seq<Request>, b: seq<Request>, c: seq<Request>)
    requires Evolves(a, b) && Evolves(b, c)
    ensures Evolves(a, c)
  {
    forall i | 0 <= i < |a| ensures SameRequest(a[i], c[i]) {
      assert SameRequest(a[i], b[i]) && SameRequest(b[i], c[i]);
    }
  }

  lemma IndexStable(a: seq<Request>, b: seq<Request>, id: string)
    requires Evolves(a, b) && IndexOf(a, id) < |a|
    ensures IndexOf(b, id) == IndexOf(a, id)
  {
    var i := IndexOf(a, id);
    forall j | 0 <= j <= i ensures b[j].id == a[j].id {
      assert SameRequest(a[j], b[j]);
    }
  }

  // ---- tables ----

  function EventKeys(events: seq<OutboxEvent>): set<string> {
    if events == [] then {} else EventKeys(events[..|events| - 1]) + {events[|events| - 1].idempotencyKey}
  }

  lemma {:induction false} EventKeysContain(events: seq<OutboxEvent>, i: nat)
    requires i < |events|
    ensures events[i].idempotencyKey in EventKeys(events)
  {
    if i < |events| - 1 {
      EventKeysContain(events[..|events| - 1], i);
    }
  }

  lemma {:induction false} EventKeysWitness(events: seq<OutboxEvent>, key: string) returns (i: nat)
    requires key in EventKeys(events)
    ensures i < |events| && events[i].idempotencyKey == key
  {
    var n := |events| - 1;
    if events[n].idempotencyKey == key {
      i := n;
    } else {
      i := EventKeysWitness(events[..n], key);
    }
  }

  lemma {:induction false} EventKeysSame(a: seq<OutboxEvent>, b: seq<OutboxEvent>)
    requires |a| == |b| && forall i :: 0 <= i < |a| ==> a[i].idempotencyKey == b[i].idempotencyKey
    ensures EventKeys(a) == EventKeys(b)
  {
    if a != [] {
      EventKeysSame(a[..|a| - 1], b[..|b| - 1]);
    }
  }

  lemma EventKeysAppend(events: seq<OutboxEvent>, ev: OutboxEvent)
    ensures EventKeys(events + [ev]) == EventKeys(events) + {ev.idempotencyKey}
  {
    assert (events + [ev])[..|events|] == events;
  }

  /** The event was enqueued for a stored request, with that request's data and the key of its direction. */
  predicate Linked(reqs: seq<Request>, ev: OutboxEvent) {
    var i := IndexOf(reqs, ev.aggregateId);
    i < |reqs| &&
    SameEvent(ev, if ev.eventType.HCM_SUBMIT_DEBIT? then DebitEvent(reqs[i], 0) else CreditEvent(reqs[i], 0))
  }

  /** Which of its two events a request has, by status. */
  predicate Corresponds(r: Request, keys: set<string>) {
    var debit, credit := SubmitKey(r.id) in keys, RefundKey(r.id) in keys;
    match r.status
    case PendingApproval => !debit && !credit
    case Rejected => !debit && !credit
    case Approved => debit && !credit
    case HcmConfirmed => debit && !credit
    case HcmRejected => !credit
    case Cancelled => debit == credit
  }

  predicate RequestOk(r: Request, t: Tables) {
    r.days > 0.0 && (r.balanceDecremented <==> Debited(r.status)) && r.BalanceKey() in t.balances
  }

  predicate DistinctKeys(events: seq<OutboxEvent>) {
    forall i, j :: 0 <= i < j < |events| ==> events[i].idempotencyKey != events[j].idempotencyKey
  }

  predicate RequestsInv(t: Tables) {
    DistinctIds(t.requests) && forall i :: 0 <= i < |t.requests| ==> RequestOk(t.requests[i], t)
  }

  predicate EventsInv(t: Tables) {
    && DistinctKeys(t.events)
    && (forall i :: 0 <= i < |t.requests| ==> Corresponds(t.requests[i], EventKeys(t.events)))
    && (forall j :: 0 <= j < |t.events| ==> Linked(t.requests, t.events[j]))
  }

  predicate TablesInv(t: Tables) {
    RequestsInv(t) && EventsInv(t)
  }

  /** What every operation on the tables leaves behind: requests forward, rows appended or kept, balances kept. */
  predicate TablesStep(t: Tables, t': Tables) {
    && TablesInv(t')
    && Evolves(t.requests, t'.requests)
    && t.events <= t'.events
    && t.balances.Keys <= t'.balances.Keys
    && (forall j :: |t.events| <= j < |t'.events| ==>
          t'.events[j].status.PENDING? && t'.events[j].attempts == 0 && t'.events[j].idempotencyKey !in EventKeys(t.events))
  }

  /** One request moves along a legal transition that needs no event. */
  lemma MoveKeeps(t: Tables, i: nat, r: Request, balances: map<Key, Balance>)
    requires TablesInv(t) && i < |t.requests| && balances.Keys == t.balances.Keys
    requires SameRequest(t.requests[i], r) && RequestOk(r, t) && Corresponds(r, EventKeys(t.events))
    ensures TablesStep(t, t.(requests := t.requests[i := r], balances := balances))
  {
    var t' := t.(requests := t.requests[i := r], balances := balances);
    assert Evolves(t.requests, t'.requests);
    LinksStay(t.requests, t'.requests, t.events);
  }

  lemma LinksStay(a: seq<Request>, b: seq<Request>, events: seq<OutboxEvent>)
    requires Evolves(a, b) && forall j :: 0 <= j < |events| ==> Linked(a, events[j])
    ensures forall j :: 0 <= j < |events| ==> Linked(b, events[j])
  {
    forall j | 0 <= j < |events| ensures Linked(b, events[j]) {
      var i := IndexOf(a, events[j].aggregateId);
      IndexStable(a, b, events[j].aggregateId);
      assert SameRequest(a[i], b[i]);
    }
  }

  lemma IndexOfOwn(reqs: seq<Request>, i: nat)
    requires DistinctIds(reqs) && i < |reqs|
    ensures IndexOf(reqs, reqs[i].id) == i
  {
  }

  function NewEvent(r: Request, eventType: EventType, now: int): OutboxEvent {
    if eventType.HCM_SUBMIT_DEBIT? then DebitEvent(r, now) else CreditEvent(r, now)
  }

  /** Appending an event of one request leaves the others' correspondence alone. */
  lemma OthersCorrespond(r: Request, other: Request, keys: set<string>, ev: OutboxEvent)
    requires r.id != other.id && (ev.idempotencyKey == SubmitKey(r.id) || ev.idempotencyKey == RefundKey(r.id))
    requires Corresponds(other, keys)
    ensures Corresponds(other, keys + {ev.idempotencyKey})
  {
    KeysApart(r.id, other.id);
    KeysApart(other.id, r.id);
  }

  lemma EnqueueKeepsKeys(events: seq<OutboxEvent>, ev: OutboxEvent)
    requires DistinctKeys(events) && ev.idempotencyKey !in EventKeys(events)
    ensures DistinctKeys(events + [ev])
  {
    forall j | 0 <= j < |events| ensures events[j].idempotencyKey != ev.idempotencyKey {
      EventKeysContain(events, j);
    }
  }

  /** One request moves and its event for one direction is appended. */
  lemma MoveAndEnqueueKeeps(t: Tables, i: nat, r: Request, balances: map<Key, Balance>, eventType: EventType, now: int)
    requires TablesInv(t) && i < |t.requests| && balances.Keys == t.balances.Keys
    requires SameRequest(t.requests[i], r) && RequestOk(r, t)
    requires NewEvent(r, eventType, now).idempotencyKey !in EventKeys(t.events)
    requires Corresponds(r, EventKeys(t.events) + {NewEvent(r, eventType, now).idempotencyKey})
    ensures TablesStep(t, t.(requests := t.requests[i := r], balances := balances, events := t.events + [NewEvent(r, eventType, now)]))
  {
    MovedRequestsInv(t, i, r, balances, t.events + [NewEvent(r, eventType, now)]);
    AppendedEventsInv(t, i, r, balances, eventType, now);
  }

  lemma MovedRequestsInv(t: Tables, i: nat, r: Request, balances: map<Key, Balance>, events: seq<OutboxEvent>)
    requires RequestsInv(t) && i < |t.requests| && balances.Keys == t.balances.Keys
    requires SameRequest(t.requests[i], r) && RequestOk(r, t)
    ensures RequestsInv(t.(requests := t.requests[i := r], balances := balances, events := events))
    ensures Evolves(t.requests, t.requests[i := r])
  {
    var t' := t.(requests := t.requests[i := r], balances := balances, events := events);
    forall j | 0 <= j < |t.requests| ensures RequestOk(t'.requests[j], t') {
      assert RequestOk(t.requests[j], t);
    }
  }

  lemma AppendedEventsInv(t: Tables, i: nat, r: Request, balances: map<Key, Balance>, eventType: EventType, now: int)
    requires TablesInv(t) && i < |t.requests| && SameRequest(t.requests[i], r)
    requires NewEvent(r, eventType, now).idempotencyKey !in EventKeys(t.events)
    requires Corresponds(r, EventKeys(t.events) + {NewEvent(r, eventType, now).idempotencyKey})
    ensures EventsInv(t.(requests := t.requests[i := r], balances := balances, events := t.events + [NewEvent(r, eventType, now)]))
  {
    var ev := NewEvent(r, eventType, now);
    EventKeysAppend(t.events, ev);
    EnqueueKeepsKeys(t.events, ev);
    LinkedAfter(t, i, r, eventType, now);
    CorrespondAfter(t, i, r, ev);
  }

  lemma LinkedAfter(t: Tables, i: nat, r: Request, eventType: EventType, now: int)
    requires TablesInv(t) && i < |t.requests| && SameRequest(t.requests[i], r)
    ensures var reqs, events := t.requests[i := r], t.events + [NewEvent(r, eventType, now)];
            forall j :: 0 <= j < |events| ==> Linked(reqs, events[j])
  {
    var reqs := t.requests[i := r];
    LinksStay(t.requests, reqs, t.events);
    NewEventLinked(reqs, i, eventType, now);
  }

  lemma NewEventLinked(reqs: seq<Request>, i: nat, eventType: EventType, now: int)
    requires DistinctIds(reqs) && i < |reqs|
    ensures Linked(reqs, NewEvent(reqs[i], eventType, now))
  {
    IndexOfOwn(reqs, i);
  }

  lemma CorrespondAfter(t: Tables, i: nat, r: Request, ev: OutboxEvent)
    requires TablesInv(t) && i < |t.requests| && r.id == t.requests[i].id
    requires ev.idempotencyKey == SubmitKey(r.id) || ev.idempotencyKey == RefundKey(r.id)
    requires Corresponds(r, EventKeys(t.events) + {ev.idempotencyKey})
    ensures var reqs := t.requests[i := r];
            forall j :: 0 <= j < |reqs| ==> Corresponds(reqs[j], EventKeys(t.events) + {ev.idempotencyKey})
  {
    forall j | 0 <= j < |t.requests| && j != i
      ensures Corresponds(t.requests[j], EventKeys(t.events) + {ev.idempotencyKey})
    {
      OthersCorrespond(r, t.requests[j], EventKeys(t.events), ev);
    }
  }

  /** No event carries a key of an id that is not stored. */
  lemma UnusedId(t: Tables, id: string)
    requires TablesInv(t) && IndexOf(t.requests, id) == |t.requests|
    ensures SubmitKey(id) !in EventKeys(t.events) && RefundKey(id) !in EventKeys(t.events)
  {
    forall j | 0 <= j < |t.events|
      ensures t.events[j].idempotencyKey != SubmitKey(id) && t.events[j].idempotencyKey != RefundKey(id)
    {
      assert Linked(t.requests, t.events[j]);
      KeysApart(id, t.events[j].aggregateId);
      KeysApart(t.events[j].aggregateId, id);
    }
    if SubmitKey(id) in EventKeys(t.events) {
      var j := EventKeysWitness(t.events, SubmitKey(id));
    }
    if RefundKey(id) in EventKeys(t.events) {
      var j := EventKeysWitness(t.events, RefundKey(id));
    }
  }

  lemma AppendKeepsEvents(t: Tables, r: Request)
    requires TablesInv(t) && IndexOf(t.requests, r.id) == |t.requests| && r.status.PendingApproval?
    ensures EventsInv(t.(requests := t.requests + [r]))
  {
    LinksStay(t.requests, t.requests + [r], t.events);
    UnusedId(t, r.id);
  }

  lemma AppendKeepsRequests(t: Tables, r: Request)
    requires RequestsInv(t) && IndexOf(t.requests, r.id) == |t.requests| && RequestOk(r, t)
    ensures RequestsInv(t.(requests := t.requests + [r]))
  {
    var t' := t.(requests := t.requests + [r]);
    forall i | 0 <= i < |t'.requests| ensures RequestOk(t'.requests[i], t') {
      assert i < |t.requests| ==> RequestOk(t.requests[i], t);
    }
  }

  /** A created request is appended as a waiting one, with positive days and an existing balance. */
  lemma CreateAppends(t: Tables, dto: NewRequest, id: string)
    requires DoCreate(t, dto, id) != t
    ensures DoCreate(t, dto, id) == t.(requests := t.requests + [Fresh(dto, id)])
    ensures IndexOf(t.requests, id) == |t.requests| && RequestOk(Fresh(dto, id), t)
  {
  }

  lemma CreateKeeps(t: Tables, dto: NewRequest, id: string)
    requires TablesInv(t)
    ensures TablesStep(t, DoCreate(t, dto, id))
  {
    if DoCreate(t, dto, id) == t {
      BalancesOnlyKeeps(t, t.balances);
    } else {
      CreateAppends(t, dto, id);
      AppendKeeps(t, Fresh(dto, id));
    }
  }

  lemma AppendKeeps(t: Tables, r: Request)
    requires TablesInv(t) && IndexOf(t.requests, r.id) == |t.requests| && r.status.PendingApproval? && RequestOk(r, t)
    ensures TablesStep(t, t.(requests := t.requests + [r]))
  {
    AppendKeepsEvents(t, r);
    AppendKeepsRequests(t, r);
    AppendEvolves(t.requests, r);
  }

  lemma AppendEvolves(a: seq<Request>, r: Request)
    ensures Evolves(a, a + [r])
  {
  }

  lemma ApproveKeeps(t: Tables, id: string, now: int)
    requires TablesInv(t)
    ensures TablesStep(t, OrSame(t, ApproveRequest(t, id, now)))
  {
    var t' := OrSame(t, ApproveRequest(t, id, now));
    if t' != t {
      var i := IndexOf(t.requests, id);
      var r' := t.requests[i].(status := Approved, balanceDecremented := true);
      KeysApart(id, id);
      MoveAndEnqueueKeeps(t, i, r', t'.balances, HCM_SUBMIT_DEBIT, now);
    }
  }

  lemma RejectKeeps(t: Tables, id: string, reason: string)
    requires TablesInv(t)
    ensures TablesStep(t, OrSame(t, RejectRequest(t, id, reason)))
  {
    var t' := OrSame(t, RejectRequest(t, id, reason));
    if t' != t {
      var i := IndexOf(t.requests, id);
      MoveKeeps(t, i, t'.requests[i], t.balances);
    }
  }

  lemma CancelKeeps(t: Tables, id: string, reason: Option<string>, now: int)
    requires TablesInv(t)
    ensures TablesStep(t, OrSame(t, CancelRequest(t, id, reason, now)))
  {
    var t' := OrSame(t, CancelRequest(t, id, reason, now));
    if t' != t {
      var i := IndexOf(t.requests, id);
      var r := t.requests[i];
      var r' := t'.requests[i];
      KeysApart(id, id);
      if Debited(r.status) {
        MoveAndEnqueueKeeps(t, i, r', t'.balances, HCM_SUBMIT_CREDIT, now);
      } else {
        MoveKeeps(t, i, r', t'.balances);
      }
    }
  }

  lemma ConfirmKeeps(t: Tables, id: string, transactionId: string)
    requires TablesInv(t)
    ensures TablesStep(t, OrSame(t, ConfirmRequest(t, id, transactionId)))
  {
    var i := IndexOf(t.requests, id);
    if i < |t.requests| && t.requests[i].status.Approved? {
      var r := t.requests[i].(status := HcmConfirmed, hcmTransactionId := Some(transactionId));
      assert RequestOk(t.requests[i], t) && Corresponds(t.requests[i], EventKeys(t.events));
      MoveKeeps(t, i, r, t.balances);
    }
  }

  lemma RejectByHcmKeeps(t: Tables, id: string, reason: string)
    requires TablesInv(t)
    ensures TablesStep(t, OrSame(t, RejectByHcm(t, id, reason)))
  {
    var t' := OrSame(t, RejectByHcm(t, id, reason));
    if t' != t {
      var i := IndexOf(t.requests, id);
      assert RequestOk(t.requests[i], t) && Corresponds(t.requests[i], EventKeys(t.events));
      MoveKeeps(t, i, t'.requests[i], t'.balances);
    }
  }

  lemma CloseKeeps(t: Tables, id: string, result: SubmitResult)
    requires TablesInv(t)
    ensures TablesStep(t, OrSame(t, CloseRequest(t, id, result)))
  {
    match result
    case Ok(tx) => ConfirmKeeps(t, id, tx.transactionId);
    case Refused(code) => RejectByHcmKeeps(t, id, CodeText(code));
    case NoAnswer => BalancesOnlyKeeps(t, t.balances);
  }

  lemma BalancesOnlyKeeps(t: Tables, balances: map<Key, Balance>)
    requires TablesInv(t) && t.balances.Keys <= balances.Keys
    ensures TablesStep(t, t.(balances := balances))
  {
  }

  lemma RevalidateKeeps(t: Tables, k: Key)
    requires TablesInv(t)
    ensures TablesStep(t, Revalidate(t, k))
  {
    if k in t.balances {
      var balance := t.balances[k].balanceDays;
      var t' := Revalidate(t, k);
      forall i | 0 <= i < |t.requests|
        ensures SameRequest(t.requests[i], t'.requests[i]) && RequestOk(t'.requests[i], t')
        ensures Corresponds(t'.requests[i], EventKeys(t.events))
      {
        GreedyTouches(t.requests, k, balance, i);
      }
      LinksStay(t.requests, t'.requests, t.events);
    }
  }

  /** Steps on tables compose when neither enqueues. */
  lemma QuietStepsCompose(a: Tables, b: Tables, c: Tables)
    requires TablesStep(a, b) && TablesStep(b, c) && b.events == a.events && c.events == a.events
    ensures TablesStep(a, c)
  {
    EvolvesTransitive(a.requests, b.requests, c.requests);
  }

  lemma WebhookKeeps(t: Tables, u: BalanceUpdate)
    requires TablesInv(t)
    ensures TablesStep(t, ApplyWebhook(t, u))
  {
    BalancesOnlyKeeps(t, ApplyHcm(t.balances, u));
    RevalidateKeeps(Apply(t, u), u.key);
    QuietStepsCompose(t, Apply(t, u), ApplyWebhook(t, u));
  }

  lemma RowKeeps(t: Tables, u: BalanceUpdate)
    requires TablesInv(t)
    ensures TablesStep(t, BatchRow(t, u))
  {
    if Drifts(t, u) {
      WebhookKeeps(t, u);
    } else {
      BalancesOnlyKeeps(t, ApplyHcm(t.balances, u));
    }
  }

  /** The steps that are service operations, and their effect on the tables. */
  predicate Local(step: Step) {
    !(step.Claim? || step.Advance? || step.Deliver? || step.Receive? || step.Settle? || step.Close? || step.Crash? ||
      step.Replay? || step.EditHcm?)
  }

  lemma DecisionKeeps(s: State, step: Step)
    requires TablesInv(s.tables) && (step.Create? || step.Approve? || step.Reject? || step.Cancel?)
    ensures TablesStep(s.tables, Next(s, step).tables)
  {
    match step
    case Create(dto, id) => CreateKeeps(s.tables, dto, id);
    case Approve(id, now) => ApproveKeeps(s.tables, id, now);
    case Reject(id, reason) => RejectKeeps(s.tables, id, reason);
    case Cancel(id, reason, now) => CancelKeeps(s.tables, id, reason, now);
  }

  lemma SweepKeeps(t: Tables, seen: set<string>)
    requires TablesInv(t)
    ensures TablesStep(t, t.(balances := Sweep(t.balances, seen)))
  {
    BalancesOnlyKeeps(t, Sweep(t.balances, seen));
  }

  lemma RefreshKeeps(t: Tables, k: Key, fetch: Fetch)
    requires TablesInv(t)
    ensures TablesStep(t, DoRefresh(t, k, fetch))
  {
    var t' := DoRefresh(t, k, fetch);
    assert t' == t.(balances := t'.balances);
    BalancesOnlyKeeps(t, t'.balances);
  }

  lemma InboundStepKeeps(s: State, step: Step)
    requires TablesInv(s.tables) && (step.Webhook? || step.Row?)
    ensures TablesStep(s.tables, Next(s, step).tables)
  {
    match step
    case Webhook(u) => WebhookKeeps(s.tables, u);
    case Row(u) => RowKeeps(s.tables, u);
  }

  lemma CacheStepKeeps(s: State, step: Step)
    requires TablesInv(s.tables) && (step.SweepStale? || step.RefreshKey?)
    ensures TablesStep(s.tables, Next(s, step).tables)
  {
    match step
    case SweepStale(seen) => SweepKeeps(s.tables, seen);
    case RefreshKey(k, fetch) => RefreshKeeps(s.tables, k, fetch);
  }

  lemma LocalTouchesTables(s: State, step: Step)
    requires Local(step)
    ensures Next(s, step) == s.(tables := Next(s, step).tables)
  {
  }

  lemma LocalKeeps(s: State, step: Step)
    requires TablesInv(s.tables) && Local(step)
    ensures TablesStep(s.tables, Next(s, step).tables)
    ensures Next(s, step) == s.(tables := Next(s, step).tables)
  {
    LocalTouchesTables(s, step);
    if step.Create? || step.Approve? || step.Reject? || step.Cancel? {
      DecisionKeeps(s, step);
    } else if step.Webhook? || step.Row? {
      InboundStepKeeps(s, step);
    } else {
      CacheStepKeeps(s, step);
    }
  }
}
