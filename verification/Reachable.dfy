/** Every reachable state satisfies the invariant, whatever the interleaving. */
module Reachable {
  import opened Common
  import opened Entities
  import opened Outbox
  import opened Requests
  import opened Hcm
  import opened Sync
  import opened Protocol
  import opened Invariant

  // ---- HCM, worker and outbox agree ----

  predicate RecordedAs(h: Store, key: string, tx: HcmTransaction) {
    key in h.idempotencyIndex && h.idempotencyIndex[key] in h.transactions && h.transactions[h.idempotencyIndex[key]] == tx
  }

  /** HCM has recorded only what outbox events asked for, with their payloads. */
  predicate HcmInv(h: Store, events: seq<OutboxEvent>) {
    && WellFormed(h)
    && h.idempotencyIndex.Keys <= EventKeys(events)
    && forall j :: 0 <= j < |events| && events[j].idempotencyKey in h.idempotencyIndex ==>
         h.transactions[h.idempotencyIndex[events[j].idempotencyKey]].payload == events[j].payload
  }

  /** The rows the worker has loaded and not yet finished with, the current one first. */
  function Outstanding(w: Worker): seq<Claimed> {
    match w
    case Idle => []
    case Working(queue, phase) => if phase.BetweenEvents? then queue else [phase.current] + queue
  }

  /** Those of them whose attempt is not yet settled. */
  function Unsettled(w: Worker): seq<Claimed> {
    if w.Working? && w.phase.Closing? then w.queue else Outstanding(w)
  }

  /** A loaded row still agrees with the stored one. */
  predicate Snap(c: Claimed, events: seq<OutboxEvent>) {
    c.pos < |events| && SameEvent(c.ev, events[c.pos]) && c.ev.attempts == events[c.pos].attempts
  }

  function ResultOf(p: Phase): Option<SubmitResult> {
    match p
    case BetweenEvents => None
    case Submitting(_, reply) => reply
    case Settling(_, result) => Some(result)
    case Closing(_, result) => Some(result)
  }

  predicate SnapAll(out: seq<Claimed>, events: seq<OutboxEvent>) {
    && (forall i :: 0 <= i < |out| ==> Snap(out[i], events))
    && (forall i, j :: 0 <= i < j < |out| ==> out[i].pos != out[j].pos)
  }

  /** A positive answer in hand is recorded at HCM, and only debits are closed. */
  predicate PhaseInv(w: Worker, h: Store) {
    w.Working? ==>
      && (match ResultOf(w.phase)
          case Some(Ok(tx)) => RecordedAs(h, w.phase.current.ev.idempotencyKey, tx)
          case _ => true)
      && (w.phase.Closing? ==> w.phase.current.ev.eventType.HCM_SUBMIT_DEBIT?)
  }

  predicate WorkerInv(w: Worker, events: seq<OutboxEvent>, h: Store) {
    SnapAll(Outstanding(w), events) && PhaseInv(w, h)
  }

  /** Saving the current row keeps the other loaded rows in agreement. */
  lemma SnapAfterSave(out: seq<Claimed>, events: seq<OutboxEvent>, c: Claimed)
    requires SnapAll(out, events) && out != [] && c.pos == out[0].pos && SameEvent(c.ev, out[0].ev)
    ensures SnapAll([c] + out[1..], events[c.pos := c.ev])
    ensures SnapAll(out[1..], events[c.pos := c.ev])
  {
    forall i | 1 <= i < |out| ensures Snap(out[i], events[c.pos := c.ev]) {
      assert out[i].pos != out[0].pos;
    }
  }

  /** SENT means recorded at HCM. */
  predicate SentInv(events: seq<OutboxEvent>, h: Store) {
    forall j :: 0 <= j < |events| && events[j].status.SENT? ==> events[j].idempotencyKey in h.idempotencyIndex
  }

  predicate ConfirmedBy(r: Request, h: Store) {
    r.hcmTransactionId.Some? && SubmitKey(r.id) in h.idempotencyIndex &&
    h.idempotencyIndex[SubmitKey(r.id)] == r.hcmTransactionId.value
  }

  /** HCM_CONFIRMED means the request carries the transaction recorded under its own submit key. */
  predicate ConfirmedInv(reqs: seq<Request>, h: Store) {
    forall i :: 0 <= i < |reqs| && reqs[i].status.HcmConfirmed? ==> ConfirmedBy(reqs[i], h)
  }

  predicate Inv(s: State) {
    && TablesInv(s.tables)
    && HcmInv(s.hcm, s.tables.events)
    && WorkerInv(s.worker, s.tables.events, s.hcm)
    && SentInv(s.tables.events, s.hcm)
    && ConfirmedInv(s.tables.requests, s.hcm)
    && (forall e :: e in s.wire ==> e < |s.tables.events|)
  }

  lemma InitInv(s: State)
    requires Init(s)
    ensures Inv(s)
  {
  }

  // ---- service operations ----

  predicate KeepsConfirmed(a: seq<Request>, b: seq<Request>) {
    forall i :: 0 <= i < |b| && b[i].status.HcmConfirmed? ==>
      i < |a| && a[i].status.HcmConfirmed? && b[i].id == a[i].id && b[i].hcmTransactionId == a[i].hcmTransactionId
  }

  lemma RevalidateKeepsConfirmed(t: Tables, k: Key)
    ensures KeepsConfirmed(t.requests, Revalidate(t, k).requests)
  {
    if k in t.balances {
      forall i | 0 <= i < |t.requests|
        ensures var out := Greedy(t.requests, k, t.balances[k].balanceDays).requests[i];
                out.status.HcmConfirmed? ==> out == t.requests[i]
      {
        GreedyTouches(t.requests, k, t.balances[k].balanceDays, i);
      }
    }
  }

  /** Creating and deciding confirm nothing and touch no confirmation. */
  lemma DecisionKeepsConfirmed(s: State, step: Step)
    requires step.Create? || step.Approve? || step.Reject? || step.Cancel?
    ensures KeepsConfirmed(s.tables.requests, Next(s, step).tables.requests)
  {
  }

  lemma LocalKeepsConfirmed(s: State, step: Step)
    requires Local(step)
    ensures KeepsConfirmed(s.tables.requests, Next(s, step).tables.requests)
  {
    match step
    case Webhook(u) => RevalidateKeepsConfirmed(Apply(s.tables, u), u.key);
    case Row(u) => RevalidateKeepsConfirmed(Apply(s.tables, u), u.key);
    case SweepStale(_) =>
    case RefreshKey(_, _) =>
    case _ => DecisionKeepsConfirmed(s, step);
  }

  lemma GrowKeepsHcm(h: Store, a: Tables, b: Tables)
    requires HcmInv(h, a.events) && TablesStep(a, b) && SentInv(a.events, h)
    ensures HcmInv(h, b.events) && SentInv(b.events, h)
  {
    forall key | key in h.idempotencyIndex ensures key in EventKeys(b.events) {
      var j := EventKeysWitness(a.events, key);
      assert b.events[j] == a.events[j];
      EventKeysContain(b.events, j);
    }
    forall j | 0 <= j < |a.events| ensures b.events[j] == a.events[j] {
    }
  }

  lemma GrowKeepsWorker(w: Worker, h: Store, a: Tables, b: Tables)
    requires WorkerInv(w, a.events, h) && a.events <= b.events
    ensures WorkerInv(w, b.events, h)
  {
    assert forall j :: 0 <= j < |a.events| ==> b.events[j] == a.events[j];
  }

  lemma GrowKeepsInv(s: State, t: Tables)
    requires Inv(s) && TablesStep(s.tables, t) && KeepsConfirmed(s.tables.requests, t.requests)
    ensures Inv(s.(tables := t))
  {
    GrowKeepsHcm(s.hcm, s.tables, t);
    GrowKeepsWorker(s.worker, s.hcm, s.tables, t);
  }

  lemma LocalKeepsInv(s: State, step: Step)
    requires Inv(s) && Local(step)
    ensures Inv(Next(s, step))
  {
    LocalKeeps(s, step);
    LocalKeepsConfirmed(s, step);
    GrowKeepsInv(s, Next(s, step).tables);
  }

  // ---- worker steps ----

  /** Saving the same event at its own position keeps tables and HCM agreement. */
  lemma SaveKeeps(t: Tables, h: Store, pos: nat, ev: OutboxEvent)
    requires TablesInv(t) && HcmInv(h, t.events) && pos < |t.events| && SameEvent(ev, t.events[pos])
    ensures TablesInv(t.(events := t.events[pos := ev])) && HcmInv(h, t.events[pos := ev])
  {
    var events := t.events[pos := ev];
    EventKeysSame(t.events, events);
    forall j | 0 <= j < |events| ensures Linked(t.requests, events[j]) {
      assert Linked(t.requests, t.events[j]);
    }
  }

  lemma ClaimKeeps(s: State, now: int)
    requires Inv(s)
    ensures Inv(Next(s, Claim(now)))
  {
    ClaimOldestFirst(s.tables.events, now, BATCH_LIMIT);
  }

  /** The first queued row is saved as in flight and becomes the current one, its submission on the wire. */
  lemma TakenKeeps(s: State, c: Claimed)
    requires Inv(s) && s.worker.Working? && s.worker.phase.BetweenEvents? && s.worker.queue != []
    requires c == s.worker.queue[0].(ev := InFlight(s.worker.queue[0].ev))
    ensures c.pos < |s.tables.events|
    ensures Inv(s.(tables := s.tables.(events := s.tables.events[c.pos := c.ev]),
                   worker := Working(s.worker.queue[1..], Submitting(c, None)), wire := s.wire + {c.pos}))
  {
    assert Snap(Outstanding(s.worker)[0], s.tables.events);
    SaveKeeps(s.tables, s.hcm, c.pos, c.ev);
    SnapAfterSave(Outstanding(s.worker), s.tables.events, c);
    assert Outstanding(Working(s.worker.queue[1..], Submitting(c, None))) == [c] + Outstanding(s.worker)[1..];
  }

  lemma AdvanceKeeps(s: State)
    requires Inv(s)
    ensures Inv(Next(s, Advance))
  {
    if s.worker.Working? && s.worker.phase.BetweenEvents? && s.worker.queue != [] {
      TakenKeeps(s, s.worker.queue[0].(ev := InFlight(s.worker.queue[0].ev)));
    }
  }

  lemma SettledIsSame(ev: OutboxEvent, result: SubmitResult, maxAttempts: nat, now: int, jitter: real)
    ensures var ev' := Settled(ev, result, maxAttempts, now, jitter);
            SameEvent(ev', ev) && (ev'.status.SENT? <==> result.Ok?)
  {
  }

  /** The current row is saved under its own key, as SENT only with a recorded answer, and the worker moves on. */
  lemma SavedKeeps(s: State, c: Claimed, w: Worker)
    requires Inv(s) && s.worker.Working? && s.worker.phase.Settling?
    requires c.pos == s.worker.phase.current.pos && SameEvent(c.ev, s.worker.phase.current.ev)
    requires c.ev.status.SENT? ==> s.worker.phase.result.Ok?
    requires w.Working? && w.queue == s.worker.queue
    requires w.phase.BetweenEvents? || (w.phase == Closing(c, s.worker.phase.result) && c.ev.eventType.HCM_SUBMIT_DEBIT?)
    ensures Inv(SaveEvent(s, c).(worker := w))
  {
    var out := Outstanding(s.worker);
    assert Snap(out[0], s.tables.events);
    SaveKeeps(s.tables, s.hcm, c.pos, c.ev);
    SnapAfterSave(out, s.tables.events, c);
    assert out[1..] == s.worker.queue;
    assert SentInv(s.tables.events[c.pos := c.ev], s.hcm);
  }

  lemma SettleKeeps(s: State, now: int, jitter: real)
    requires Inv(s)
    ensures Inv(Next(s, Settle(now, jitter)))
  {
    if s.worker.Working? && s.worker.phase.Settling? {
      var p, s' := s.worker.phase, DoSettle(s, now, jitter);
      var c := p.current.(ev := Settled(p.current.ev, p.result, s.maxAttempts, now, jitter));
      SettledIsSame(p.current.ev, p.result, s.maxAttempts, now, jitter);
      SavedKeeps(s, c, s'.worker);
    }
  }

  lemma ReplayKeeps(s: State, e: nat, now: int)
    requires Inv(s)
    ensures Inv(s.(tables := DoReplay(s.tables, e, now)))
  {
    if e < |s.tables.events| {
      SaveKeeps(s.tables, s.hcm, e, Replayed(s.tables.events[e], now));
    }
  }

  /** HCM only adds records. */
  predicate HcmGrows(a: Store, b: Store) {
    forall key :: key in a.idempotencyIndex ==>
      key in b.idempotencyIndex && b.idempotencyIndex[key] == a.idempotencyIndex[key] &&
      (a.idempotencyIndex[key] in a.transactions ==>
         a.idempotencyIndex[key] in b.transactions &&
         b.transactions[a.idempotencyIndex[key]] == a.transactions[a.idempotencyIndex[key]])
  }

  /** What one delivery does to the records and what it answers. */
  lemma SubmitRecords(h: Store, mode: FailureMode, flaky: bool, key: string, body: Payload, txId: string, now: int)
    requires WellFormed(h) && FreshId(h, txId)
    ensures var (h', r) := Submit(h, mode, flaky, key, body, txId, now);
            && HcmGrows(h, h')
            && h'.idempotencyIndex.Keys <= h.idempotencyIndex.Keys + {key}
            && (r.Created? ==> RecordedAs(h', key, r.tx))
            && (key !in h.idempotencyIndex && key in h'.idempotencyIndex ==>
                  r.Created? && h'.transactions[h'.idempotencyIndex[key]].payload == body)
  {
  }

  lemma DeliverKeeps(s: State, e: nat, mode: FailureMode, flaky: bool, txId: string, now: int)
    requires Inv(s)
    ensures Inv(DoDeliver(s, e, mode, flaky, txId, now))
    ensures HcmGrows(s.hcm, DoDeliver(s, e, mode, flaky, txId, now).hcm)
  {
    var s' := DoDeliver(s, e, mode, flaky, txId, now);
    if e in s.wire && FreshId(s.hcm, txId) {
      var ev := s.tables.events[e];
      SubmitKeepsMaps(s.hcm, mode, flaky, ev.idempotencyKey, ev.payload, txId, now);
      SubmitRecords(s.hcm, mode, flaky, ev.idempotencyKey, ev.payload, txId, now);
      EventKeysContain(s.tables.events, e);
      DeliverKeepsRecords(s, s'.hcm, e);
      assert Outstanding(s'.worker) == if s'.worker == s.worker then Outstanding(s.worker)
                                       else [s.worker.phase.current] + s.worker.queue;
      if s'.worker != s.worker {
        assert Snap(Outstanding(s.worker)[0], s.tables.events);
      }
    }
  }

  lemma DeliverKeepsRecords(s: State, h: Store, e: nat)
    requires Inv(s) && e < |s.tables.events| && WellFormed(h) && HcmGrows(s.hcm, h)
    requires h.idempotencyIndex.Keys <= s.hcm.idempotencyIndex.Keys + {s.tables.events[e].idempotencyKey}
    requires var key := s.tables.events[e].idempotencyKey;
             key !in s.hcm.idempotencyIndex && key in h.idempotencyIndex ==>
               h.transactions[h.idempotencyIndex[key]].payload == s.tables.events[e].payload
    ensures HcmInv(h, s.tables.events) && SentInv(s.tables.events, h) && ConfirmedInv(s.tables.requests, h)
  {
    EventKeysContain(s.tables.events, e);
    forall j | 0 <= j < |s.tables.events| && s.tables.events[j].idempotencyKey in h.idempotencyIndex
      ensures h.transactions[h.idempotencyIndex[s.tables.events[j].idempotencyKey]].payload == s.tables.events[j].payload
    {
      RecordMatches(s, h, e, j);
    }
  }

  lemma RecordMatches(s: State, h: Store, e: nat, j: nat)
    requires HcmInv(s.hcm, s.tables.events) && DistinctKeys(s.tables.events) && HcmGrows(s.hcm, h)
    requires e < |s.tables.events| && j < |s.tables.events| && WellFormed(h)
    requires s.tables.events[j].idempotencyKey in h.idempotencyIndex
    requires h.idempotencyIndex.Keys <= s.hcm.idempotencyIndex.Keys + {s.tables.events[e].idempotencyKey}
    requires var key := s.tables.events[e].idempotencyKey;
             key !in s.hcm.idempotencyIndex && key in h.idempotencyIndex ==>
               h.transactions[h.idempotencyIndex[key]].payload == s.tables.events[e].payload
    ensures h.transactions[h.idempotencyIndex[s.tables.events[j].idempotencyKey]].payload == s.tables.events[j].payload
  {
    assert j != e ==> s.tables.events[j].idempotencyKey != s.tables.events[e].idempotencyKey;
  }

  lemma CloseConfirms(s: State)
    requires Inv(s) && s.worker.Working? && s.worker.phase.Closing?
    ensures ConfirmedInv(DoClose(s).tables.requests, s.hcm)
  {
    var p := s.worker.phase;
    assert Snap(Outstanding(s.worker)[0], s.tables.events);
    assert Linked(s.tables.requests, s.tables.events[p.current.pos]);
  }

  /** The row being closed is done with, and no event changed. */
  lemma ClosedKeeps(s: State, t: Tables, w: Worker)
    requires Inv(s) && s.worker.Working? && s.worker.phase.Closing?
    requires TablesInv(t) && t.events == s.tables.events && ConfirmedInv(t.requests, s.hcm)
    requires w == Idle || w == Working(s.worker.queue, BetweenEvents)
    ensures Inv(s.(tables := t, worker := w))
  {
    assert Outstanding(s.worker)[1..] == s.worker.queue;
  }

  lemma CloseKeepsEvents(t: Tables, id: string, result: SubmitResult)
    ensures OrSame(t, CloseRequest(t, id, result)).events == t.events
  {
  }

  lemma ClosedWorker(s: State)
    requires s.worker.Working? && s.worker.phase.Closing?
    ensures var s' := DoClose(s);
            && (s'.worker == Idle || s'.worker == Working(s.worker.queue, BetweenEvents))
            && s' == s.(tables := s'.tables).(worker := s'.worker)
            && s'.tables == OrSame(s.tables, CloseRequest(s.tables, s.worker.phase.current.ev.aggregateId, s.worker.phase.result))
  {
  }

  lemma CloseStepKeeps(s: State)
    requires Inv(s)
    ensures Inv(Next(s, Close))
  {
    if s.worker.Working? && s.worker.phase.Closing? {
      var c, result := s.worker.phase.current, s.worker.phase.result;
      CloseKeeps(s.tables, c.ev.aggregateId, result);
      CloseKeepsEvents(s.tables, c.ev.aggregateId, result);
      CloseConfirms(s);
      ClosedWorker(s);
      ClosedKeeps(s, DoClose(s).tables, DoClose(s).worker);
    }
  }

  lemma ReceiveKeeps(s: State, lost: bool)
    requires Inv(s)
    ensures Inv(Next(s, Receive(lost)))
  {
    if s.worker.Working? && s.worker.phase.Submitting? {
      assert Outstanding(DoReceive(s, lost).worker) == Outstanding(s.worker);
    }
  }

  lemma CrashKeeps(s: State)
    requires Inv(s)
    ensures Inv(s.(worker := Idle))
  {
  }

  lemma EditKeeps(s: State, b: HcmBalance)
    requires Inv(s)
    ensures Inv(s.(hcm := UpsertBalance(s.hcm, b)))
  {
  }

  /** Every step keeps the invariant. */
  lemma StepKeepsInv(s: State, step: Step)
    requires Inv(s)
    ensures Inv(Next(s, step))
  {
    if Local(step) {
      LocalKeepsInv(s, step);
    } else if step.Deliver? || step.Crash? || step.Replay? || step.EditHcm? {
      EnvironmentKeepsInv(s, step);
    } else {
      WorkerKeepsInv(s, step);
    }
  }

  lemma EnvironmentKeepsInv(s: State, step: Step)
    requires Inv(s) && (step.Deliver? || step.Crash? || step.Replay? || step.EditHcm?)
    ensures Inv(Next(s, step))
  {
    match step
    case Deliver(e, mode, flaky, txId, now) => DeliverKeeps(s, e, mode, flaky, txId, now);
    case Crash => CrashKeeps(s);
    case Replay(e, now) => ReplayKeeps(s, e, now);
    case EditHcm(b) => EditKeeps(s, b);
  }

  lemma WorkerKeepsInv(s: State, step: Step)
    requires Inv(s) && (step.Claim? || step.Advance? || step.Receive? || step.Settle? || step.Close?)
    ensures Inv(Next(s, step))
  {
    match step
    case Claim(now) => ClaimKeeps(s, now);
    case Advance => AdvanceKeeps(s);
    case Receive(lost) => ReceiveKeeps(s, lost);
    case Settle(now, jitter) => SettleKeeps(s, now, jitter);
    case Close => CloseStepKeeps(s);
  }

  lemma {:induction false} RunKeepsInv(s: State, steps: seq<Step>)
    requires Inv(s)
    ensures Inv(Run(s, steps))
  {
    if steps != [] {
      RunKeepsInv(s, steps[..|steps| - 1]);
      StepKeepsInv(Run(s, steps[..|steps| - 1]), steps[|steps| - 1]);
    }
  }
}
