/** When the outbox has gone quiet, do the two ledgers agree? */
module Convergence {
  import opened Common
  import opened Sums
  import opened Entities
  import opened Outbox
  import opened Requests
  import opened Hcm
  import opened Sync
  import opened Protocol
  import opened Invariant
  import opened Reachable
  import opened Ledgers

  /** The event belongs to a request that HCM rejected. */
  predicate OfRejected(reqs: seq<Request>, ev: OutboxEvent) {
    var i := IndexOf(reqs, ev.aggregateId);
    i < |reqs| && reqs[i].status.HcmRejected?
  }

  /** Every event is SENT, or is the given-up DEBIT of an HCM_REJECTED request. */
  predicate Quiescent(t: Tables) {
    forall j :: 0 <= j < |t.events| ==>
      t.events[j].status.SENT? ||
      (t.events[j].status.FAILED_PERMANENT? && t.events[j].eventType.HCM_SUBMIT_DEBIT? && OfRejected(t.requests, t.events[j]))
  }

  /** A debit that HCM keeps although its request was refunded as HCM_REJECTED. */
  predicate Stranded(r: Request, h: Store) {
    r.status.HcmRejected? && SubmitKey(r.id) in h.idempotencyIndex
  }

  function StrandedDays(k: Key, h: Store): Request -> real {
    (r: Request) => if r.BalanceKey() == k && Stranded(r, h) then r.days else 0.0
  }

  /** At quiescence, HCM has recorded exactly the events that exist, except for given-up debits. */
  lemma QuietEvent(s: State, i: nat, key: string)
    requires Inv(s) && Quiescent(s.tables) && i < |s.tables.requests| && !s.tables.requests[i].status.HcmRejected?
    requires key == SubmitKey(s.tables.requests[i].id) || key == RefundKey(s.tables.requests[i].id)
    ensures key in s.hcm.idempotencyIndex <==> key in EventKeys(s.tables.events)
  {
    if key in EventKeys(s.tables.events) {
      var j := EventKeysWitness(s.tables.events, key);
      EventOwner(s.tables, j, i);
    }
  }

  /** An event under a request's key belongs to that request. */
  lemma EventOwner(t: Tables, j: nat, i: nat)
    requires TablesInv(t) && j < |t.events| && i < |t.requests|
    requires t.events[j].idempotencyKey == SubmitKey(t.requests[i].id) || t.events[j].idempotencyKey == RefundKey(t.requests[i].id)
    ensures IndexOf(t.requests, t.events[j].aggregateId) == i
    ensures t.events[j].eventType.HCM_SUBMIT_DEBIT? <==> t.events[j].idempotencyKey == SubmitKey(t.requests[i].id)
  {
    assert Linked(t.requests, t.events[j]);
    KeysApart(t.events[j].aggregateId, t.requests[i].id);
    KeysApart(t.requests[i].id, t.events[j].aggregateId);
    IndexOfOwn(t.requests, i);
  }

  lemma QuietRequest(s: State, i: nat, k: Key)
    requires Inv(s) && Quiescent(s.tables) && i < |s.tables.requests|
    ensures Owed(k, s.hcm)(s.tables.requests[i]) == 0.0 - StrandedDays(k, s.hcm)(s.tables.requests[i])
  {
    var r := s.tables.requests[i];
    assert RequestOk(r, s.tables) && Corresponds(r, EventKeys(s.tables.events));
    if !r.status.HcmRejected? {
      QuietEvent(s, i, SubmitKey(r.id));
      QuietEvent(s, i, RefundKey(r.id));
    }
  }

  /**
   * The exact gap at quiescence, for every run: HCM minus local is the opening gap plus drift, minus the days of
   * rejected requests whose debit HCM nevertheless keeps.
   */
  lemma QuiescentGap(s0: State, steps: seq<Step>, k: Key)
    requires Init(s0) && PlainSteps(steps) && Plain(k) && Quiescent(Run(s0, steps).tables)
    ensures var s := Run(s0, steps);
            Gap(s, k) == Gap(s0, k) + HcmDrifts(s0, steps, k) - LocalDrifts(s0, steps, k)
                         - Total(s.tables.requests, StrandedDays(k, s.hcm))
  {
    var s := Run(s0, steps);
    InitInv(s0);
    RunKeepsInv(s0, steps);
    TwoLedgerIdentity(s0, steps, k);
    forall i | 0 <= i < |s.tables.requests|
      ensures Owed(k, s.hcm)(s.tables.requests[i]) == Nothing(s.tables.requests[i]) - StrandedDays(k, s.hcm)(s.tables.requests[i])
    {
      QuietRequest(s, i, k);
    }
    TotalDifference(s.tables.requests, Owed(k, s.hcm), Nothing, StrandedDays(k, s.hcm));
    TotalZero(s.tables.requests, Nothing);
  }

  function Nothing(r: Request): real { 0.0 }

  // ---- any state, quiescent or not ----

  /** What one request contributes to HCM minus local, by its status and what HCM has recorded of it. */
  function Imbalance(k: Key, h: Store): Request -> real {
    (r: Request) =>
      var debit, credit := SubmitKey(r.id) in h.idempotencyIndex, RefundKey(r.id) in h.idempotencyIndex;
      if r.BalanceKey() != k then 0.0
      else
        match r.status
        case PendingApproval => 0.0
        case Rejected => 0.0
        case Approved => if debit then 0.0 else r.days
        case HcmConfirmed => 0.0
        case HcmRejected => if debit then -r.days else 0.0
        case Cancelled => if debit == credit then 0.0 else if credit then r.days else -r.days
  }

  lemma RequestImbalance(s: State, i: nat, k: Key)
    requires Inv(s) && i < |s.tables.requests|
    ensures Owed(k, s.hcm)(s.tables.requests[i]) == Imbalance(k, s.hcm)(s.tables.requests[i])
  {
    var r := s.tables.requests[i];
    assert RequestOk(r, s.tables) && Corresponds(r, EventKeys(s.tables.events));
    if r.status.HcmConfirmed? {
      assert ConfirmedBy(r, s.hcm);
    }
  }

  /**
   * The gap of every run, request by request: an approved debit that HCM has not recorded, a rejected one that it has,
   * and a cancelled one whose debit or refund it has without the other.
   */
  lemma GapByStatus(s0: State, steps: seq<Step>, k: Key)
    requires Init(s0) && PlainSteps(steps) && Plain(k)
    ensures var s := Run(s0, steps);
            Gap(s, k) == Gap(s0, k) + HcmDrifts(s0, steps, k) - LocalDrifts(s0, steps, k)
                         + Total(s.tables.requests, Imbalance(k, s.hcm))
  {
    var s := Run(s0, steps);
    InitInv(s0);
    RunKeepsInv(s0, steps);
    TwoLedgerIdentity(s0, steps, k);
    forall i | 0 <= i < |s.tables.requests|
      ensures Owed(k, s.hcm)(s.tables.requests[i]) == Imbalance(k, s.hcm)(s.tables.requests[i])
    {
      RequestImbalance(s, i, k);
    }
    TotalSame(s.tables.requests, s.tables.requests, Owed(k, s.hcm), Imbalance(k, s.hcm));
  }

  /** Nothing is left to submit: every event is SENT or given up. */
  predicate Finished(t: Tables) {
    forall j :: 0 <= j < |t.events| ==> t.events[j].status.SENT? || t.events[j].status.FAILED_PERMANENT?
  }

  /** The event under this key was given up without HCM having recorded it. */
  predicate Exhausted(events: seq<OutboxEvent>, h: Store, key: string) {
    key !in h.idempotencyIndex &&
    exists j :: 0 <= j < |events| && events[j].idempotencyKey == key && events[j].status.FAILED_PERMANENT?
  }

  /** What a request contributes once nothing is left to submit, read off its events. */
  function FinalShare(k: Key, events: seq<OutboxEvent>, h: Store): Request -> real {
    (r: Request) =>
      if r.BalanceKey() != k then 0.0
      else if r.status.HcmRejected? then 0.0 - Held(SubmitKey(r.id) in h.idempotencyIndex, r.days)
      else if r.status.Approved? || r.status.Cancelled?
      then Held(Exhausted(events, h, SubmitKey(r.id)), r.days) - Held(Exhausted(events, h, RefundKey(r.id)), r.days)
      else 0.0
  }

  lemma UnrecordedIsExhausted(s: State, key: string)
    requires SentInv(s.tables.events, s.hcm) && Finished(s.tables)
    ensures key in EventKeys(s.tables.events) ==> (key !in s.hcm.idempotencyIndex <==> Exhausted(s.tables.events, s.hcm, key))
    ensures key !in EventKeys(s.tables.events) ==> !Exhausted(s.tables.events, s.hcm, key)
  {
    if key in EventKeys(s.tables.events) {
      var j := EventKeysWitness(s.tables.events, key);
    } else if Exhausted(s.tables.events, s.hcm, key) {
      var j :| 0 <= j < |s.tables.events| && s.tables.events[j].idempotencyKey == key;
      EventKeysContain(s.tables.events, j);
      assert false;
    }
  }

  lemma FinalImbalance(s: State, i: nat, k: Key)
    requires Inv(s) && Finished(s.tables) && i < |s.tables.requests|
    ensures Imbalance(k, s.hcm)(s.tables.requests[i]) == FinalShare(k, s.tables.events, s.hcm)(s.tables.requests[i])
  {
    var r := s.tables.requests[i];
    assert Corresponds(r, EventKeys(s.tables.events));
    UnrecordedIsExhausted(s, SubmitKey(r.id));
    UnrecordedIsExhausted(s, RefundKey(r.id));
  }

  /**
   * The exact gap whenever nothing is left to submit, for every run: the opening gap plus drift, plus the days of
   * approved or cancelled requests with an exhausted debit, minus those of cancelled ones with an exhausted refund,
   * minus those of rejected ones whose debit HCM keeps.
   */
  lemma FinishedGap(s0: State, steps: seq<Step>, k: Key)
    requires Init(s0) && PlainSteps(steps) && Plain(k) && Finished(Run(s0, steps).tables)
    ensures var s := Run(s0, steps);
            Gap(s, k) == Gap(s0, k) + HcmDrifts(s0, steps, k) - LocalDrifts(s0, steps, k)
                         + Total(s.tables.requests, FinalShare(k, s.tables.events, s.hcm))
  {
    var s := Run(s0, steps);
    var v, w := Imbalance(k, s.hcm), FinalShare(k, s.tables.events, s.hcm);
    InitInv(s0);
    RunKeepsInv(s0, steps);
    GapByStatus(s0, steps, k);
    forall i | 0 <= i < |s.tables.requests| ensures v(s.tables.requests[i]) == w(s.tables.requests[i]) {
      FinalImbalance(s, i, k);
    }
    TotalSame(s.tables.requests, s.tables.requests, v, w);
  }

  /** Starting equal and without drift, the ledgers agree on k in any reachable state iff its imbalances cancel out. */
  lemma AgreeIffBalanced(s0: State, steps: seq<Step>, k: Key)
    requires Init(s0) && PlainSteps(steps) && Plain(k)
    requires Gap(s0, k) == 0.0 && HcmDrifts(s0, steps, k) == 0.0 && LocalDrifts(s0, steps, k) == 0.0
    ensures var s := Run(s0, steps);
            HcmDays(s, k) == LocalDays(s.tables, k) <==> Total(s.tables.requests, Imbalance(k, s.hcm)) == 0.0
  {
    GapByStatus(s0, steps, k);
  }

  /** Starting equal and without drift, the ledgers agree on k at quiescence iff no rejected request of k has its debit at HCM. */
  lemma ConvergesIffNothingStranded(s0: State, steps: seq<Step>, k: Key)
    requires Init(s0) && PlainSteps(steps) && Plain(k) && Quiescent(Run(s0, steps).tables)
    requires Gap(s0, k) == 0.0 && HcmDrifts(s0, steps, k) == 0.0 && LocalDrifts(s0, steps, k) == 0.0
    ensures var s := Run(s0, steps);
            HcmDays(s, k) == LocalDays(s.tables, k) <==>
            forall i :: 0 <= i < |s.tables.requests| && s.tables.requests[i].BalanceKey() == k ==> !Stranded(s.tables.requests[i], s.hcm)
  {
    var s := Run(s0, steps);
    var w := StrandedDays(k, s.hcm);
    QuiescentGap(s0, steps, k);
    InitInv(s0);
    RunKeepsInv(s0, steps);
    assert forall i :: 0 <= i < |s.tables.requests| ==> RequestOk(s.tables.requests[i], s.tables);
    if i :| 0 <= i < |s.tables.requests| && s.tables.requests[i].BalanceKey() == k && Stranded(s.tables.requests[i], s.hcm) {
      TotalAtLeast(s.tables.requests, w, i);
    } else {
      TotalZero(s.tables.requests, w);
    }
  }

  // ---- runs in which nothing gets stranded ----

  /** HCM handles a submission while the client waits for it or not at all, REJECT_ALL is off, and operators replay
      only while the worker is idle and never an event of an HCM_REJECTED request. */
  predicate Calm(s: State, step: Step) {
    match step
    case Deliver(e, mode, _, _, _) =>
      !mode.REJECT_ALL? && s.worker.Working? && s.worker.phase.Submitting? && s.worker.phase.current.pos == e &&
      (s.worker.phase.reply.None? || s.worker.phase.reply.value.NoAnswer?)
    case Replay(e, _) => s.worker.Idle? && (e < |s.tables.events| ==> !OfRejected(s.tables.requests, s.tables.events[e]))
    case _ => true
  }

  predicate CalmRun(s: State, steps: seq<Step>) {
    forall i :: 0 <= i < |steps| ==> Calm(Run(s, steps[..i]), steps[i])
  }

  predicate NothingStranded(s: State) {
    forall i :: 0 <= i < |s.tables.requests| ==> !Stranded(s.tables.requests[i], s.hcm)
  }

  /** Events of rejected requests are given up for good. */
  predicate RejectedGivenUp(t: Tables) {
    forall j :: 0 <= j < |t.events| && OfRejected(t.requests, t.events[j]) ==> t.events[j].status.FAILED_PERMANENT?
  }

  /** Rows still to be submitted or settled do not belong to rejected requests. */
  predicate LiveRows(reqs: seq<Request>, rows: seq<Claimed>) {
    forall i :: 0 <= i < |rows| ==> !OfRejected(reqs, rows[i].ev)
  }

  /** A refused submission is not recorded, and while its request is being closed its row is given up. */
  predicate RefusedUnrecorded(s: State) {
    s.worker.Working? && ResultOf(s.worker.phase).Some? && ResultOf(s.worker.phase).value.Refused? ==>
      && s.worker.phase.current.ev.idempotencyKey !in s.hcm.idempotencyIndex
      && (s.worker.phase.Closing? && s.worker.phase.current.pos < |s.tables.events| ==>
            s.tables.events[s.worker.phase.current.pos].status.FAILED_PERMANENT?)
  }

  predicate CalmInv(s: State) {
    NothingStranded(s) && RejectedGivenUp(s.tables) && LiveRows(s.tables.requests, Unsettled(s.worker)) && RefusedUnrecorded(s)
  }

  /** Between two tables only waiting requests became rejected, and no row arrived rejected. */
  predicate OnlyWaitingRejected(a: seq<Request>, b: seq<Request>) {
    && Evolves(a, b)
    && (forall i :: 0 <= i < |a| && b[i].status.HcmRejected? ==> a[i].status.HcmRejected? || a[i].status.PendingApproval?)
    && (forall i :: |a| <= i < |b| ==> !b[i].status.HcmRejected?)
  }

  lemma LocalRejectsOnlyWaiting(s: State, step: Step)
    requires Inv(s) && Local(step)
    ensures OnlyWaitingRejected(s.tables.requests, Next(s, step).tables.requests)
  {
    var a, b := s.tables.requests, Next(s, step).tables.requests;
    StepEvolves(s, step);
    forall i | 0 <= i < |b| && b[i].status.HcmRejected?
      ensures i < |a| && (a[i].status.HcmRejected? || a[i].status.PendingApproval?)
    {
      LocalRejectsOnlyPending(s, step, i);
    }
  }

  lemma LocalRejectsOnlyPending(s: State, step: Step, i: nat)
    requires Local(step) && i < |Next(s, step).tables.requests| && Next(s, step).tables.requests[i].status.HcmRejected?
    ensures i < |s.tables.requests|
    ensures s.tables.requests[i].status.PendingApproval? || s.tables.requests[i].status.HcmRejected?
  {
    match step
    case Webhook(u) =>
      GreedyTouches(s.tables.requests, u.key, Apply(s.tables, u).balances[u.key].balanceDays, i);
    case Row(u) =>
      GreedyTouches(s.tables.requests, u.key, Apply(s.tables, u).balances[u.key].balanceDays, i);
    case _ =>
  }

  /** A waiting request has no events, so no stored event becomes one of a rejected request. */
  lemma StoredEventsStayLive(t: Tables, b: seq<Request>, ev: OutboxEvent)
    requires TablesInv(t) && OnlyWaitingRejected(t.requests, b)
    requires Linked(t.requests, ev) && ev.idempotencyKey in EventKeys(t.events)
    ensures OfRejected(b, ev) ==> OfRejected(t.requests, ev)
  {
    IndexStable(t.requests, b, ev.aggregateId);
    assert Corresponds(t.requests[IndexOf(t.requests, ev.aggregateId)], EventKeys(t.events));
  }

  lemma StrandsNothing(t: Tables, b: seq<Request>, h: Store)
    requires TablesInv(t) && OnlyWaitingRejected(t.requests, b) && HcmInv(h, t.events)
    requires forall i :: 0 <= i < |t.requests| ==> !Stranded(t.requests[i], h)
    ensures forall i :: 0 <= i < |b| ==> !Stranded(b[i], h)
  {
    forall i | 0 <= i < |t.requests| ensures !Stranded(b[i], h) {
      assert SameRequest(t.requests[i], b[i]) && Corresponds(t.requests[i], EventKeys(t.events));
    }
  }

  lemma ApproveEnqueuesLive(t: Tables, id: string, now: int, j: nat)
    requires TablesInv(t)
    ensures var t' := OrSame(t, ApproveRequest(t, id, now));
            |t.events| <= j < |t'.events| ==> !OfRejected(t'.requests, t'.events[j])
  {
    ApproveKeeps(t, id, now);
    var t' := OrSame(t, ApproveRequest(t, id, now));
    if t' != t {
      IndexOfOwn(t'.requests, IndexOf(t.requests, id));
    }
  }

  lemma CancelEnqueuesLive(t: Tables, id: string, reason: Option<string>, now: int, j: nat)
    requires TablesInv(t)
    ensures var t' := OrSame(t, CancelRequest(t, id, reason, now));
            |t.events| <= j < |t'.events| ==> !OfRejected(t'.requests, t'.events[j])
  {
    CancelKeeps(t, id, reason, now);
    var t' := OrSame(t, CancelRequest(t, id, reason, now));
    if t' != t {
      IndexOfOwn(t'.requests, IndexOf(t.requests, id));
    }
  }

  lemma OnlyDecisionsEnqueue(s: State, step: Step)
    requires Local(step) && !step.Approve? && !step.Cancel?
    ensures Next(s, step).tables.events == s.tables.events
  {
  }

  lemma NewEventsAreLive(s: State, step: Step, j: nat)
    requires Inv(s) && Local(step) && |s.tables.events| <= j < |Next(s, step).tables.events|
    ensures !OfRejected(Next(s, step).tables.requests, Next(s, step).tables.events[j])
  {
    if step.Approve? {
      ApproveEnqueuesLive(s.tables, step.id, step.now, j);
    } else if step.Cancel? {
      CancelEnqueuesLive(s.tables, step.id, step.cancelReason, step.now, j);
    } else {
      OnlyDecisionsEnqueue(s, step);
    }
  }

  lemma RowIsStored(s: State, c: Claimed)
    requires Inv(s) && c in Outstanding(s.worker)
    ensures Linked(s.tables.requests, c.ev) && c.ev.idempotencyKey in EventKeys(s.tables.events)
  {
    var n :| 0 <= n < |Outstanding(s.worker)| && Outstanding(s.worker)[n] == c;
    assert Snap(Outstanding(s.worker)[n], s.tables.events);
    assert Linked(s.tables.requests, s.tables.events[c.pos]);
    EventKeysContain(s.tables.events, c.pos);
  }

  lemma LiveRowsStay(s: State, b: seq<Request>)
    requires Inv(s) && OnlyWaitingRejected(s.tables.requests, b) && LiveRows(s.tables.requests, Unsettled(s.worker))
    ensures LiveRows(b, Unsettled(s.worker))
  {
    var rows := Unsettled(s.worker);
    forall n | 0 <= n < |rows| ensures !OfRejected(b, rows[n].ev) {
      RowIsStored(s, rows[n]);
      StoredEventsStayLive(s.tables, b, rows[n].ev);
    }
  }

  lemma GivenUpStays(s: State, step: Step)
    requires Inv(s) && Local(step) && RejectedGivenUp(s.tables)
    ensures RejectedGivenUp(Next(s, step).tables)
  {
    var t, t' := s.tables, Next(s, step).tables;
    LocalKeeps(s, step);
    LocalRejectsOnlyWaiting(s, step);
    forall j | 0 <= j < |t'.events| && OfRejected(t'.requests, t'.events[j])
      ensures t'.events[j].status.FAILED_PERMANENT?
    {
      if j < |t.events| {
        assert t'.events[j] == t.events[j];
        EventKeysContain(t.events, j);
        StoredEventsStayLive(t, t'.requests, t.events[j]);
      } else {
        NewEventsAreLive(s, step, j);
      }
    }
  }

  lemma LocalKeepsCalm(s: State, step: Step)
    requires Inv(s) && CalmInv(s) && Local(step)
    ensures CalmInv(Next(s, step))
  {
    var t' := Next(s, step).tables;
    LocalKeeps(s, step);
    LocalRejectsOnlyWaiting(s, step);
    StrandsNothing(s.tables, t'.requests, s.hcm);
    LiveRowsStay(s, t'.requests);
    GivenUpStays(s, step);
    if s.worker.Working? && s.worker.phase.Closing? {
      assert Snap(Outstanding(s.worker)[0], s.tables.events);
    }
  }

  // ---- worker steps of a calm run ----

  /** A ready row is not given up, so it does not belong to a rejected request. */
  lemma ClaimIsLive(t: Tables, now: int)
    requires RejectedGivenUp(t)
    ensures LiveRows(t.requests, ClaimBatch(t.events, now, BATCH_LIMIT))
  {
    ClaimOldestFirst(t.events, now, BATCH_LIMIT);
    var batch := ClaimBatch(t.events, now, BATCH_LIMIT);
    forall n | 0 <= n < |batch| ensures !OfRejected(t.requests, batch[n].ev) {
      assert batch[n].ev == t.events[batch[n].pos] && Ready(batch[n].ev, now);
    }
  }

  lemma ClaimKeepsCalm(s: State, now: int)
    requires CalmInv(s)
    ensures CalmInv(DoClaim(s, now))
  {
    ClaimIsLive(s.tables, now);
  }

  lemma SaveKeepsGivenUp(t: Tables, pos: nat, ev: OutboxEvent)
    requires RejectedGivenUp(t) && pos < |t.events| && SameEvent(ev, t.events[pos])
    requires !OfRejected(t.requests, t.events[pos]) || ev.status.FAILED_PERMANENT?
    ensures RejectedGivenUp(t.(events := t.events[pos := ev]))
  {
  }

  /** Being in flight does not change which request a row belongs to. */
  lemma HeadInFlightStaysLive(reqs: seq<Request>, rows: seq<Claimed>)
    requires rows != [] && LiveRows(reqs, rows)
    ensures LiveRows(reqs, [rows[0].(ev := InFlight(rows[0].ev))] + rows[1..])
    ensures !OfRejected(reqs, rows[0].ev)
  {
    var out := [rows[0].(ev := InFlight(rows[0].ev))] + rows[1..];
    forall n | 0 <= n < |out| ensures !OfRejected(reqs, out[n].ev) {
      assert out[n].ev.aggregateId == rows[n].ev.aggregateId && !OfRejected(reqs, rows[n].ev);
    }
  }

  lemma AdvanceKeepsCalm(s: State)
    requires Inv(s) && CalmInv(s)
    ensures CalmInv(DoAdvance(s))
  {
    if s.worker.Working? && s.worker.phase.BetweenEvents? && s.worker.queue != [] {
      var rows, s' := s.worker.queue, DoAdvance(s);
      var c := rows[0];
      assert Snap(Outstanding(s.worker)[0], s.tables.events);
      HeadInFlightStaysLive(s.tables.requests, rows);
      SaveKeepsGivenUp(s.tables, c.pos, InFlight(c.ev));
      assert Unsettled(s'.worker) == [c.(ev := InFlight(c.ev))] + rows[1..];
      assert RejectedGivenUp(s'.tables);
      assert RefusedUnrecorded(s');
    }
  }

  lemma SettleKeepsCalm(s: State, now: int, jitter: real)
    requires Inv(s) && CalmInv(s)
    ensures CalmInv(DoSettle(s, now, jitter))
  {
    if s.worker.Working? && s.worker.phase.Settling? {
      var c := s.worker.phase.current;
      assert Snap(Outstanding(s.worker)[0], s.tables.events);
      assert Unsettled(s.worker)[0] == c;
      SaveKeepsGivenUp(s.tables, c.pos, Settled(c.ev, s.worker.phase.result, s.maxAttempts, now, jitter));
      assert Unsettled(s.worker)[1..] == s.worker.queue;
      assert LiveRows(s.tables.requests, s.worker.queue);
    }
  }

  /** Outside REJECT_ALL a refusal means that HCM has not recorded the key. */
  lemma RefusalMeansUnrecorded(h: Store, events: seq<OutboxEvent>, e: nat, mode: FailureMode, flaky: bool, txId: string, now: int)
    requires HcmInv(h, events) && e < |events| && events[e].idempotencyKey != "" && !mode.REJECT_ALL?
    ensures var (h', r) := Submit(h, mode, flaky, events[e].idempotencyKey, events[e].payload, txId, now);
            r.ClientError? ==> events[e].idempotencyKey !in h'.idempotencyIndex
  {
    if events[e].idempotencyKey in h.idempotencyIndex {
      assert h.transactions[h.idempotencyIndex[events[e].idempotencyKey]].payload == events[e].payload;
    }
  }

  lemma DeliverKeepsCalm(s: State, step: Step)
    requires Inv(s) && CalmInv(s) && step.Deliver? && Calm(s, step)
    ensures CalmInv(Next(s, step))
  {
    var s', e := Next(s, step), step.event;
    if e in s.wire && FreshId(s.hcm, step.txId) {
      var c := s.worker.phase.current;
      var ev := s.tables.events[e];
      assert Snap(Outstanding(s.worker)[0], s.tables.events);
      assert Linked(s.tables.requests, ev);
      KeysApart(ev.aggregateId, ev.aggregateId);
      RefusalMeansUnrecorded(s.hcm, s.tables.events, e, step.mode, step.flaky, step.txId, step.now);
      assert Unsettled(s.worker)[0] == c;
      assert !OfRejected(s.tables.requests, ev);
      forall i | 0 <= i < |s.tables.requests| ensures !Stranded(s.tables.requests[i], s'.hcm) {
        KeysApart(s.tables.requests[i].id, ev.aggregateId);
        if SubmitKey(s.tables.requests[i].id) == ev.idempotencyKey {
          EventOwner(s.tables, e, i);
        }
      }
      assert Unsettled(s'.worker) == Unsettled(s.worker);
    }
  }

  /** Requests that only move without being rejected by HCM leave everything calm. */
  lemma QuietMoveKeepsCalm(s: State, t: Tables)
    requires Inv(s) && CalmInv(s) && OnlyWaitingRejected(s.tables.requests, t.requests) && t.events == s.tables.events
    ensures CalmInv(s.(tables := t))
  {
    StrandsNothing(s.tables, t.requests, s.hcm);
    LiveRowsStay(s, t.requests);
    GivenUpAfterMove(s.tables, t.requests);
  }

  lemma GivenUpAfterMove(t: Tables, b: seq<Request>)
    requires TablesInv(t) && RejectedGivenUp(t) && OnlyWaitingRejected(t.requests, b)
    ensures RejectedGivenUp(t.(requests := b))
  {
    forall j | 0 <= j < |t.events| && OfRejected(b, t.events[j]) ensures t.events[j].status.FAILED_PERMANENT? {
      assert Linked(t.requests, t.events[j]);
      EventKeysContain(t.events, j);
      StoredEventsStayLive(t, b, t.events[j]);
    }
  }

  /** A worker that forgets its result and keeps at most the rows it had leaves everything calm. */
  lemma LooserWorkerKeepsCalm(s: State, w: Worker)
    requires CalmInv(s) && (w.Idle? || (w.phase.BetweenEvents? && Unsettled(w) == Unsettled(s.worker)))
    ensures CalmInv(s.(worker := w))
  {
  }

  lemma ConfirmRejectsNothing(t: Tables, id: string, result: SubmitResult)
    requires TablesInv(t)
    requires !result.Refused? || OrSame(t, CloseRequest(t, id, result)) == t
    ensures OnlyWaitingRejected(t.requests, OrSame(t, CloseRequest(t, id, result)).requests)
    ensures OrSame(t, CloseRequest(t, id, result)).events == t.events
  {
    CloseKeeps(t, id, result);
  }

  /** Confirming, or doing nothing, rejects no request. */
  lemma CloseWithoutRejection(s: State)
    requires Inv(s) && CalmInv(s) && s.worker.Working? && s.worker.phase.Closing?
    requires !s.worker.phase.result.Refused? || DoClose(s).tables == s.tables
    ensures CalmInv(DoClose(s))
  {
    ClosedWorker(s);
    ConfirmRejectsNothing(s.tables, s.worker.phase.current.ev.aggregateId, s.worker.phase.result);
    QuietMoveKeepsCalm(s, DoClose(s).tables);
    LooserWorkerKeepsCalm(s.(tables := DoClose(s).tables), DoClose(s).worker);
  }

  /** Two live events of a request that has a debit and no credit are the same event. */
  lemma OnlyEvent(t: Tables, i: nat, j: nat, n: nat)
    requires TablesInv(t) && i < |t.requests| && j < |t.events| && n < |t.events|
    requires t.requests[i].status.Approved? || t.requests[i].status.HcmConfirmed?
    requires IndexOf(t.requests, t.events[j].aggregateId) == i && IndexOf(t.requests, t.events[n].aggregateId) == i
    ensures j == n
  {
    assert Linked(t.requests, t.events[j]) && Linked(t.requests, t.events[n]);
    EventKeysContain(t.events, j);
    EventKeysContain(t.events, n);
    assert Corresponds(t.requests[i], EventKeys(t.events));
  }

  /** Request i, which had a debit and no refund, became rejected; nothing else changed. */
  predicate RejectedAt(a: seq<Request>, b: seq<Request>, i: nat) {
    && i < |a| == |b| && b == a[i := b[i]] && Evolves(a, b) && b[i].status.HcmRejected? && a[i].status.Approved?
  }

  lemma OfRejectedAfter(t: Tables, b: seq<Request>, i: nat, ev: OutboxEvent)
    requires RejectedAt(t.requests, b, i) && Linked(t.requests, ev)
    ensures OfRejected(b, ev) ==> OfRejected(t.requests, ev) || IndexOf(t.requests, ev.aggregateId) == i
  {
    IndexStable(t.requests, b, ev.aggregateId);
  }

  /** If i's only event is given up, every event of a rejected request still is. */
  lemma GivenUpAfterRejection(t: Tables, b: seq<Request>, i: nat, pos: nat)
    requires TablesInv(t) && RejectedGivenUp(t) && RejectedAt(t.requests, b, i)
    requires pos < |t.events| && IndexOf(t.requests, t.events[pos].aggregateId) == i && t.events[pos].status.FAILED_PERMANENT?
    ensures RejectedGivenUp(t.(requests := b))
  {
    forall j | 0 <= j < |t.events| && OfRejected(b, t.events[j]) ensures t.events[j].status.FAILED_PERMANENT? {
      assert Linked(t.requests, t.events[j]);
      OfRejectedAfter(t, b, i, t.events[j]);
      if IndexOf(t.requests, t.events[j].aggregateId) == i {
        OnlyEvent(t, i, j, pos);
      }
    }
  }

  /** If i's only event is loaded first, the rows behind it stay live. */
  lemma LiveRowsAfterRejection(t: Tables, b: seq<Request>, i: nat, rows: seq<Claimed>)
    requires TablesInv(t) && RejectedAt(t.requests, b, i) && SnapAll(rows, t.events) && rows != []
    requires IndexOf(t.requests, rows[0].ev.aggregateId) == i && LiveRows(t.requests, rows[1..])
    ensures LiveRows(b, rows[1..])
  {
    forall n | 1 <= n < |rows| ensures !OfRejected(b, rows[n].ev) {
      assert Snap(rows[n], t.events) && Snap(rows[0], t.events) && rows[n].pos != rows[0].pos;
      assert Linked(t.requests, t.events[rows[n].pos]) && !OfRejected(t.requests, rows[1..][n - 1].ev);
      OfRejectedAfter(t, b, i, rows[n].ev);
      if IndexOf(t.requests, rows[n].ev.aggregateId) == i {
        OnlyEvent(t, i, rows[n].pos, rows[0].pos);
      }
    }
  }

  lemma RefusalRejectsOne(t: Tables, id: string, pos: nat, result: SubmitResult)
    requires TablesInv(t) && result.Refused? && pos < |t.events| && t.events[pos].aggregateId == id
    requires OrSame(t, CloseRequest(t, id, result)) != t
    ensures RejectedAt(t.requests, OrSame(t, CloseRequest(t, id, result)).requests, IndexOf(t.requests, id))
    ensures OrSame(t, CloseRequest(t, id, result)).events == t.events
  {
    CloseKeeps(t, id, result);
    assert Linked(t.requests, t.events[pos]);
    PendingHasNoEvents(t, IndexOf(t.requests, id), pos);
  }

  lemma StrandsNothingAfterRejection(a: seq<Request>, b: seq<Request>, i: nat, h: Store)
    requires RejectedAt(a, b, i) && SubmitKey(a[i].id) !in h.idempotencyIndex
    requires forall n :: 0 <= n < |a| ==> !Stranded(a[n], h)
    ensures forall n :: 0 <= n < |b| ==> !Stranded(b[n], h)
  {
    assert SameRequest(a[i], b[i]);
  }

  /** Closing a refusal rejects the request of the current row, whose debit is neither recorded nor live. */
  lemma CloseRejects(s: State)
    requires Inv(s) && CalmInv(s) && s.worker.Working? && s.worker.phase.Closing? && s.worker.phase.result.Refused?
    requires DoClose(s).tables != s.tables
    ensures CalmInv(DoClose(s))
  {
    var t, b := s.tables, DoClose(s).tables.requests;
    var c := s.worker.phase.current;
    var i := IndexOf(t.requests, c.ev.aggregateId);
    ClosedWorker(s);
    assert Snap(Outstanding(s.worker)[0], t.events) && Outstanding(s.worker)[1..] == s.worker.queue;
    assert Linked(t.requests, t.events[c.pos]);
    RefusalRejectsOne(t, c.ev.aggregateId, c.pos, s.worker.phase.result);
    GivenUpAfterRejection(t, b, i, c.pos);
    LiveRowsAfterRejection(t, b, i, Outstanding(s.worker));
    StrandsNothingAfterRejection(t.requests, b, i, s.hcm);
    RejectionKeepsCalm(s, DoClose(s).tables);
    LooserWorkerKeepsCalm(s.(tables := DoClose(s).tables), DoClose(s).worker);
  }

  lemma RejectionKeepsCalm(s: State, t: Tables)
    requires CalmInv(s) && t.events == s.tables.events && RejectedGivenUp(s.tables.(requests := t.requests))
    requires LiveRows(t.requests, Unsettled(s.worker)) && forall n :: 0 <= n < |t.requests| ==> !Stranded(t.requests[n], s.hcm)
    ensures CalmInv(s.(tables := t))
  {
  }

  lemma PendingHasNoEvents(t: Tables, i: nat, j: nat)
    requires TablesInv(t) && i < |t.requests| && j < |t.events| && IndexOf(t.requests, t.events[j].aggregateId) == i
    ensures !t.requests[i].status.PendingApproval?
  {
    assert Linked(t.requests, t.events[j]);
    EventKeysContain(t.events, j);
    assert Corresponds(t.requests[i], EventKeys(t.events));
  }

  lemma ReceiveKeepsCalm(s: State, lost: bool)
    requires CalmInv(s)
    ensures CalmInv(DoReceive(s, lost))
  {
    if s.worker.Working? && s.worker.phase.Submitting? {
      assert Unsettled(DoReceive(s, lost).worker) == Unsettled(s.worker);
    }
  }

  lemma CloseKeepsCalm(s: State)
    requires Inv(s) && CalmInv(s)
    ensures CalmInv(DoClose(s))
  {
    if s.worker.Working? && s.worker.phase.Closing? {
      if s.worker.phase.result.Refused? && DoClose(s).tables != s.tables {
        CloseRejects(s);
      } else {
        CloseWithoutRejection(s);
      }
    }
  }

  lemma WorkerKeepsCalm(s: State, step: Step)
    requires Inv(s) && CalmInv(s) && (step.Claim? || step.Advance? || step.Receive? || step.Settle? || step.Close?)
    ensures CalmInv(Next(s, step))
  {
    match step
    case Claim(now) => ClaimKeepsCalm(s, now);
    case Advance => AdvanceKeepsCalm(s);
    case Receive(lost) => ReceiveKeepsCalm(s, lost);
    case Settle(now, jitter) => SettleKeepsCalm(s, now, jitter);
    case Close => CloseKeepsCalm(s);
  }

  lemma OperatorKeepsCalm(s: State, step: Step)
    requires CalmInv(s) && Calm(s, step) && (step.Crash? || step.Replay? || step.EditHcm?)
    ensures CalmInv(Next(s, step))
  {
    if step.Replay? && step.event < |s.tables.events| {
      SaveKeepsGivenUp(s.tables, step.event, Replayed(s.tables.events[step.event], step.now));
    }
  }

  lemma StepKeepsCalm(s: State, step: Step)
    requires Inv(s) && CalmInv(s) && Calm(s, step)
    ensures CalmInv(Next(s, step))
  {
    if Local(step) {
      LocalKeepsCalm(s, step);
    } else if step.Deliver? {
      DeliverKeepsCalm(s, step);
    } else if step.Crash? || step.Replay? || step.EditHcm? {
      OperatorKeepsCalm(s, step);
    } else {
      WorkerKeepsCalm(s, step);
    }
  }

  lemma CalmPrefix(s: State, steps: seq<Step>)
    requires CalmRun(s, steps) && steps != []
    ensures CalmRun(s, steps[..|steps| - 1]) && Calm(Run(s, steps[..|steps| - 1]), steps[|steps| - 1])
  {
    var n := |steps| - 1;
    forall i | 0 <= i < n ensures Calm(Run(s, steps[..n][..i]), steps[..n][i]) {
      assert steps[..n][..i] == steps[..i];
    }
  }

  lemma {:induction false} CalmRunStrandsNothing(s: State, steps: seq<Step>)
    requires Inv(s) && CalmInv(s) && CalmRun(s, steps)
    ensures CalmInv(Run(s, steps))
  {
    if steps != [] {
      var n := |steps| - 1;
      CalmPrefix(s, steps);
      CalmRunStrandsNothing(s, steps[..n]);
      RunKeepsInv(s, steps[..n]);
      StepKeepsCalm(Run(s, steps[..n]), steps[n]);
    }
  }

  /**
   * Convergence: in a calm run that starts with equal ledgers and has no drift, the ledgers are equal for every key
   * whenever the outbox is quiescent.
   */
  lemma Converges(s0: State, steps: seq<Step>, k: Key)
    requires Init(s0) && PlainSteps(steps) && Plain(k) && CalmRun(s0, steps) && Quiescent(Run(s0, steps).tables)
    requires Gap(s0, k) == 0.0 && HcmDrifts(s0, steps, k) == 0.0 && LocalDrifts(s0, steps, k) == 0.0
    ensures HcmDays(Run(s0, steps), k) == LocalDays(Run(s0, steps).tables, k)
  {
    InitInv(s0);
    CalmRunStrandsNothing(s0, steps);
    ConvergesIffNothingStranded(s0, steps, k);
  }
}
