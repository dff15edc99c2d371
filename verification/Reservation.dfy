/** Local safety over whole runs: balances stay non-negative, waiting requests stay covered, timestamps only grow. */
module Reservation {
  import opened Common
  import opened StateMachine
  import opened Sums
  import opened Entities
  import opened Balances
  import opened Requests
  import opened Sync
  import opened Protocol
  import opened Invariant
  import opened Reachable

  // ---- balances stay non-negative ----

  /** The @Min(0) of the inbound payloads, and the same of what a refresh fetches. */
  predicate NonNegativeStep(step: Step) {
    match step
    case Webhook(u) => u.balanceDays >= 0.0
    case Row(u) => u.balanceDays >= 0.0
    case RefreshKey(_, Fetched(u)) => u.balanceDays >= 0.0
    case _ => true
  }

  lemma ApproveNonNegative(t: Tables, id: string, now: int)
    requires NonNegative(t.balances)
    ensures NonNegative(OrSame(t, ApproveRequest(t, id, now)).balances)
  {
  }

  lemma CancelNonNegative(t: Tables, id: string, reason: Option<string>, now: int)
    requires NonNegative(t.balances)
    ensures NonNegative(OrSame(t, CancelRequest(t, id, reason, now)).balances)
  {
  }

  lemma CloseNonNegative(t: Tables, id: string, result: SubmitResult)
    requires NonNegative(t.balances)
    ensures NonNegative(OrSame(t, CloseRequest(t, id, result)).balances)
  {
  }

  lemma StepNonNegative(s: State, step: Step)
    requires NonNegative(s.tables.balances) && NonNegativeStep(step)
    ensures NonNegative(Next(s, step).tables.balances)
  {
    match step
    case Approve(id, now) => ApproveNonNegative(s.tables, id, now);
    case Cancel(id, reason, now) => CancelNonNegative(s.tables, id, reason, now);
    case Close =>
      if s.worker.Working? && s.worker.phase.Closing? {
        CloseNonNegative(s.tables, s.worker.phase.current.ev.aggregateId, s.worker.phase.result);
      }
    case _ =>
  }

  // ---- the reservation invariant ----

  lemma InvBacked(t: Tables)
    requires TablesInv(t)
    ensures Backed(t) && PositiveDays(t.requests)
  {
    assert forall i :: 0 <= i < |t.requests| ==> RequestOk(t.requests[i], t);
  }

  lemma CreateReserves(t: Tables, dto: NewRequest, id: string, k: Key)
    requires TablesInv(t) && Reserved(t, k)
    ensures Reserved(DoCreate(t, dto, id), k)
  {
    if DoCreate(t, dto, id) != t {
      TotalAppend(t.requests, Fresh(dto, id), PendingDays(k));
      assert forall i :: 0 <= i < |t.requests| ==> RequestOk(t.requests[i], t);
      TotalMonotone(t.requests, t.requests, PendingDays(k), InflightDays(k));
    }
  }

  /** One request leaves the waiting state, or moves without waiting, and takes no more from the balance than it frees. */
  lemma MoveReserves(t: Tables, t': Tables, i: nat, r: Request, k: Key)
    requires i < |t.requests| && t'.requests == t.requests[i := r] && t'.balances.Keys == t.balances.Keys
    requires k in t.balances ==>
      t.balances[k].balanceDays - t'.balances[k].balanceDays <= PendingDays(k)(t.requests[i]) - PendingDays(k)(r)
    requires Reserved(t, k)
    ensures Reserved(t', k)
  {
    TotalChange(t.requests, t'.requests, PendingDays(k), PendingDays(k), i);
  }

  lemma ApproveReserves(t: Tables, id: string, now: int, k: Key)
    requires Reserved(t, k)
    ensures Reserved(OrSame(t, ApproveRequest(t, id, now)), k)
  {
    var t' := OrSame(t, ApproveRequest(t, id, now));
    if t' != t {
      MoveReserves(t, t', IndexOf(t.requests, id), t'.requests[IndexOf(t.requests, id)], k);
    }
  }

  lemma RejectReserves(t: Tables, id: string, reason: string, k: Key)
    requires RequestsInv(t) && Reserved(t, k)
    ensures Reserved(OrSame(t, RejectRequest(t, id, reason)), k)
  {
    var t' := OrSame(t, RejectRequest(t, id, reason));
    if t' != t {
      assert RequestOk(t.requests[IndexOf(t.requests, id)], t);
      MoveReserves(t, t', IndexOf(t.requests, id), t'.requests[IndexOf(t.requests, id)], k);
    }
  }

  lemma CancelReserves(t: Tables, id: string, reason: Option<string>, now: int, k: Key)
    requires RequestsInv(t) && Reserved(t, k)
    ensures Reserved(OrSame(t, CancelRequest(t, id, reason, now)), k)
  {
    var t' := OrSame(t, CancelRequest(t, id, reason, now));
    if t' != t {
      assert RequestOk(t.requests[IndexOf(t.requests, id)], t);
      MoveReserves(t, t', IndexOf(t.requests, id), t'.requests[IndexOf(t.requests, id)], k);
    }
  }

  lemma CloseReserves(t: Tables, id: string, result: SubmitResult, k: Key)
    requires RequestsInv(t) && Reserved(t, k)
    ensures Reserved(OrSame(t, CloseRequest(t, id, result)), k)
  {
    var t' := OrSame(t, CloseRequest(t, id, result));
    if t' != t {
      assert RequestOk(t.requests[IndexOf(t.requests, id)], t);
      MoveReserves(t, t', IndexOf(t.requests, id), t'.requests[IndexOf(t.requests, id)], k);
    }
  }

  /** The step may overwrite the balance of k without revalidating: only a refresh does that. */
  predicate Refreshes(step: Step, k: Key) {
    step.RefreshKey? && step.fetch.Fetched? && step.fetch.update.key == k
  }

  predicate Revalidates(step: Step, k: Key) {
    step.Webhook? && step.update.key == k
  }

  lemma RefreshReserves(t: Tables, asked: Key, fetch: Fetch, k: Key)
    requires TablesInv(t) && Reserved(t, k) && !Refreshes(RefreshKey(asked, fetch), k)
    ensures Reserved(DoRefresh(t, asked, fetch), k)
  {
  }

  lemma WorkerReserves(s: State, step: Step, k: Key)
    requires Inv(s) && Reserved(s.tables, k) && !Local(step)
    ensures Reserved(Next(s, step).tables, k)
  {
    if step.Close? && s.worker.Working? && s.worker.phase.Closing? {
      CloseReserves(s.tables, s.worker.phase.current.ev.aggregateId, s.worker.phase.result, k);
    } else {
      assert Next(s, step).tables == s.tables.(events := Next(s, step).tables.events);
    }
  }

  lemma StepReserves(s: State, step: Step, k: Key)
    requires Inv(s) && NonNegative(s.tables.balances) && NonNegativeStep(step) && !Refreshes(step, k)
    requires Reserved(s.tables, k) || Revalidates(step, k)
    ensures Reserved(Next(s, step).tables, k)
  {
    var t := s.tables;
    if !Local(step) {
      WorkerReserves(s, step, k);
    } else {
      match step
      case Create(dto, id) => CreateReserves(t, dto, id, k);
      case Approve(id, now) => ApproveReserves(t, id, now, k);
      case Reject(id, reason) => RejectReserves(t, id, reason, k);
      case Cancel(id, note, now) => CancelReserves(t, id, note, now, k);
      case Webhook(u) => RevalidateReserves(Apply(t, u), u.key, k);
      case Row(u) =>
        InvBacked(t);
        RowReserves(t, u, k);
      case SweepStale(_) =>
      case RefreshKey(asked, fetch) => RefreshReserves(t, asked, fetch, k);
    }
  }

  /** No refresh of k since the start, or a webhook for k after the last one. */
  predicate CoveredSinceRefresh(steps: seq<Step>, k: Key) {
    if steps == [] then true
    else
      var last := steps[|steps| - 1];
      !Refreshes(last, k) && (Revalidates(last, k) || CoveredSinceRefresh(steps[..|steps| - 1], k))
  }

  predicate NonNegativeSteps(steps: seq<Step>) {
    forall i :: 0 <= i < |steps| ==> NonNegativeStep(steps[i])
  }

  lemma NonNegativePrefix(steps: seq<Step>)
    requires NonNegativeSteps(steps) && steps != []
    ensures NonNegativeSteps(steps[..|steps| - 1]) && NonNegativeStep(steps[|steps| - 1])
  {
  }

  lemma {:induction false} RunNonNegative(s0: State, steps: seq<Step>)
    requires Init(s0) && NonNegativeSteps(steps)
    ensures NonNegative(Run(s0, steps).tables.balances)
  {
    if steps != [] {
      var n := |steps| - 1;
      NonNegativePrefix(steps);
      RunNonNegative(s0, steps[..n]);
      StepNonNegative(Run(s0, steps[..n]), steps[n]);
    }
  }

  /**
   * Reservation: in every run the waiting days of a key fit its balance, unless a refresh of that key has happened
   * and no webhook for it has followed.
   */
  lemma {:induction false} ReservationHolds(s0: State, steps: seq<Step>, k: Key)
    requires Init(s0) && NonNegativeSteps(steps)
    requires CoveredSinceRefresh(steps, k)
    ensures Reserved(Run(s0, steps).tables, k)
  {
    InitInv(s0);
    if steps == [] {
      assert s0.tables.requests == [];
    } else {
      var n := |steps| - 1;
      NonNegativePrefix(steps);
      if !Revalidates(steps[n], k) {
        ReservationHolds(s0, steps[..n], k);
      }
      RunNonNegative(s0, steps[..n]);
      RunKeepsInv(s0, steps[..n]);
      StepReserves(Run(s0, steps[..n]), steps[n], k);
    }
  }

  /** A refresh breaks the invariant exactly when its update is accepted and grants less than is waiting. */
  lemma RefreshBreaks(t: Tables, asked: Key, u: BalanceUpdate)
    requires TablesInv(t) && Reserved(t, u.key)
    ensures !Reserved(DoRefresh(t, asked, Fetched(u)), u.key) <==>
            Accepts(Lookup(t.balances, u.key), u) && u.balanceDays < Total(t.requests, PendingDays(u.key))
  {
  }

  // ---- repeated batches over runs ----

  /**
   * Wherever a run stands with no key refreshed since its last webhook, a batch can be delivered twice: the second time
   * it creates, stales and revokes nothing and changes no row.
   */
  lemma RepeatedBatchIsIdle(s0: State, steps: seq<Step>, rows: seq<BalanceUpdate>)
    requires Init(s0) && NonNegativeSteps(steps)
    requires forall k :: CoveredSinceRefresh(steps, k)
    requires NonNegativeRows(rows)
    ensures var t := ApplyBatch(Run(s0, steps).tables, rows);
            var t', r := ApplyBatch(t, rows), BatchReport(t, rows);
            && r.created == 0 && r.staled == 0 && r.revoked == []
            && t'.requests == t.requests && SameBalances(t'.balances, t.balances)
  {
    RunIsSolvent(s0, steps);
    RepeatBatch(Run(s0, steps).tables, rows);
  }

  lemma RunIsSolvent(s0: State, steps: seq<Step>)
    requires Init(s0) && NonNegativeSteps(steps)
    requires forall k :: CoveredSinceRefresh(steps, k)
    ensures Solvent(Run(s0, steps).tables)
  {
    InitInv(s0);
    RunKeepsInv(s0, steps);
    InvBacked(Run(s0, steps).tables);
    RunNonNegative(s0, steps);
    forall k ensures Reserved(Run(s0, steps).tables, k) {
      ReservationHolds(s0, steps, k);
    }
  }

  /** One request waiting on a key that holds `days` days since `at`, and a batch that grants less and more at that time. */
  lemma TiedRowsRevokeLater(t0: Tables, k: Key, low: real, high: real, at: int)
    requires |t0.requests| == 1 && Waiting(t0.requests[0], k) && NonNegative(t0.balances)
    requires 0.0 <= low < t0.requests[0].days <= high
    requires k in t0.balances && t0.balances[k].balanceDays == low && t0.balances[k].hcmUpdatedAt == Some(at)
    ensures var rows := [BalanceUpdate(k, low, at), BalanceUpdate(k, high, at)];
            && BatchReport(t0, rows).revoked == []
            && BatchReport(ApplyBatch(t0, rows), rows).revoked != []
  {
    var u, v := BalanceUpdate(k, low, at), BalanceUpdate(k, high, at);
    var rows := [u, v];
    var t := ApplyBatch(t0, rows);
    assert t0.requests[..0] == [];
    assert Total(t0.requests, PendingDays(k)) == t0.requests[0].days;
    assert rows[..0] == [] && rows[..1] == [u] && [u][..0] == [];
    assert ApplyAll(t0.balances, rows[..1]) == ApplyHcm(t0.balances, u);
    BatchRevokesNothingIff(t0, rows);
    RepeatBatchAnywhere(t0, rows);
    BatchRowsApply(t0, rows);
    assert ApplyAll(t0.balances, rows) == ApplyHcm(ApplyHcm(t0.balances, u), v);
    assert t.balances[k].balanceDays == high;
    assert !RowSettles(t, ApplyAll(t.balances, rows[..0]), rows[0]);
  }

  /**
   * A refresh is what it takes: after one that undercuts a waiting request, a batch whose two rows for that key tie on
   * the timestamp revokes nothing the first time and the request the second time.
   */
  lemma RefreshThenRepeatRevokes(s0: State, dto: NewRequest, id: string, low: real, high: real, at: int)
    requires Init(s0) && Requests.Create(s0.tables, dto, id).Success? && 0.0 <= low < dto.days <= high
    requires Accepts(Lookup(s0.tables.balances, dto.BalanceKey()), BalanceUpdate(dto.BalanceKey(), low, at))
    ensures var k := dto.BalanceKey();
            var steps := [Step.Create(dto, id), RefreshKey(k, Fetched(BalanceUpdate(k, low, at)))];
            var rows := [BalanceUpdate(k, low, at), BalanceUpdate(k, high, at)];
            var t0 := Run(s0, steps).tables;
            && BatchReport(t0, rows).revoked == []
            && BatchReport(ApplyBatch(t0, rows), rows).revoked != []
  {
    var k := dto.BalanceKey();
    var create, refresh := Step.Create(dto, id), RefreshKey(k, Fetched(BalanceUpdate(k, low, at)));
    assert [create, refresh][..1] == [] + [create];
    RunAppend(s0, [], create);
    assert IndexOf(s0.tables.requests, id) == 0;
    TiedRowsRevokeLater(Run(s0, [create, refresh]).tables, k, low, high, at);
  }

  /** Under the invariant, approving a waiting request fails only on a STALE balance, never for lack of days. */
  lemma ApproveNeverShort(t: Tables, i: nat, now: int)
    requires TablesInv(t) && i < |t.requests| && t.requests[i].status.PendingApproval?
    requires Reserved(t, t.requests[i].BalanceKey())
    ensures var r := ApproveRequest(t, t.requests[i].id, now);
            if t.balances[t.requests[i].BalanceKey()].status.STALE? then r == Failure(BalanceStaleBlocked) else r.Success?
  {
    var r := t.requests[i];
    IndexOfOwn(t.requests, i);
    assert forall j :: 0 <= j < |t.requests| ==> RequestOk(t.requests[j], t);
    TotalAtLeast(t.requests, PendingDays(r.BalanceKey()), i);
  }

  /**
   * A debit can be given back exactly while the balance is not STALE: cancelling succeeds iff the request is active and
   * no refund is blocked, and closing a refusal on a STALE balance fails, which leaves its request APPROVED behind a
   * given-up event.
   */
  lemma RefundBlockedIffStale(t: Tables, i: nat, reason: string, note: Option<string>, now: int)
    requires TablesInv(t) && NonNegative(t.balances) && i < |t.requests|
    ensures var r := t.requests[i];
            var stale := t.balances[r.BalanceKey()].status.STALE?;
            && (CancelRequest(t, r.id, note, now).Success? <==> Active(r.status) && (Debited(r.status) ==> !stale))
            && (r.status.Approved? ==> (RejectByHcm(t, r.id, reason) == Failure(BalanceStaleBlocked) <==> stale))
            && (r.status.Approved? && !stale ==> RejectByHcm(t, r.id, reason).Success?)
  {
    IndexOfOwn(t.requests, i);
    assert RequestOk(t.requests[i], t);
  }

  // ---- timestamps and statuses only move forward ----

  predicate TimesGrow(a: map<Key, Balance>, b: map<Key, Balance>) {
    a.Keys <= b.Keys && forall k :: k in a && a[k].hcmUpdatedAt.Some? ==>
      b[k].hcmUpdatedAt.Some? && a[k].hcmUpdatedAt.value <= b[k].hcmUpdatedAt.value
  }

  lemma InboundTimesGrow(t: Tables, u: BalanceUpdate)
    ensures TimesGrow(t.balances, ApplyHcm(t.balances, u))
    ensures ApplyWebhook(t, u).balances == ApplyHcm(t.balances, u) == BatchRow(t, u).balances
  {
  }

  lemma ApproveTimes(t: Tables, id: string, now: int)
    ensures TimesGrow(t.balances, OrSame(t, ApproveRequest(t, id, now)).balances)
  {
  }

  lemma CancelTimes(t: Tables, id: string, reason: Option<string>, now: int)
    ensures TimesGrow(t.balances, OrSame(t, CancelRequest(t, id, reason, now)).balances)
  {
  }

  lemma CloseTimes(t: Tables, id: string, result: SubmitResult)
    ensures TimesGrow(t.balances, OrSame(t, CloseRequest(t, id, result)).balances)
  {
  }

  lemma RefreshTimes(t: Tables, k: Key, fetch: Fetch)
    ensures TimesGrow(t.balances, DoRefresh(t, k, fetch).balances)
  {
  }

  lemma StepTimesGrow(s: State, step: Step)
    ensures TimesGrow(s.tables.balances, Next(s, step).tables.balances)
  {
    match step
    case Approve(id, now) => ApproveTimes(s.tables, id, now);
    case Cancel(id, reason, now) => CancelTimes(s.tables, id, reason, now);
    case Webhook(u) => InboundTimesGrow(s.tables, u);
    case Row(u) => InboundTimesGrow(s.tables, u);
    case RefreshKey(k, fetch) => RefreshTimes(s.tables, k, fetch);
    case Close =>
      if s.worker.Working? && s.worker.phase.Closing? {
        CloseTimes(s.tables, s.worker.phase.current.ev.aggregateId, s.worker.phase.result);
      }
    case _ =>
  }

  /** Over any stretch of any run, no key's HCM timestamp decreases and no balance row disappears. */
  lemma {:induction false} TimesNeverDecrease(s: State, steps: seq<Step>)
    ensures TimesGrow(s.tables.balances, Run(s, steps).tables.balances)
  {
    if steps != [] {
      TimesNeverDecrease(s, steps[..|steps| - 1]);
      StepTimesGrow(Run(s, steps[..|steps| - 1]), steps[|steps| - 1]);
    }
  }
}
