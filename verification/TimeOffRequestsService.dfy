/** TimeOffRequestsService as it runs: checks, writes in order, and loops over query results. */
module TimeOffRequests {
  import opened Common
  import opened StateMachine
  import opened DateUtils
  import opened Sums
  import opened Entities
  import opened Balances
  import opened Outbox
  import opened Requests

  class TimeOffRequestsService {
    const db: Database
    const balances: BalancesService
    const outbox: OutboxService

    constructor (db: Database, balances: BalancesService, outbox: OutboxService)
      requires balances.db == db && outbox.db == db
      ensures Valid() && this.db == db
    {
      this.db, this.balances, this.outbox := db, balances, outbox;
    }

    predicate Valid() {
      balances.db == db && outbox.db == db
    }

    method SumInflightDays(k: Key) returns (sum: real)
      ensures sum == Total(db.requests, InflightDays(k))
      ensures sum == Total(db.requests, PendingDays(k)) + Total(db.requests, ApprovedDays(k))
    {
      sum := 0.0;
      for i := 0 to |db.requests|
        invariant sum == Total(db.requests[..i], InflightDays(k))
      {
        var r := db.requests[i];
        assert db.requests[..i + 1][..i] == db.requests[..i];
        if r.BalanceKey() == k && (r.status == PendingApproval || r.status == Approved) {
          sum := sum + r.days;
        }
      }
      assert db.requests[..|db.requests|] == db.requests;
      InflightSplits(db.requests, k);
    }

    method FindOverlappingRequest(employeeId: string, startDate: string, endDate: string) returns (found: Option<Request>)
      ensures var i := FindOverlapping(db.requests, employeeId, startDate, endDate);
              found == if i < |db.requests| then Some(db.requests[i]) else None
    {
      for i := 0 to |db.requests|
        invariant forall j :: 0 <= j < i ==> !Clashes(db.requests[j], employeeId, startDate, endDate)
      {
        var r := db.requests[i];
        if r.employeeId == employeeId && (r.status == PendingApproval || r.status == Approved || r.status == HcmConfirmed) {
          if RangesOverlap(r.startDate, r.endDate, startDate, endDate) {
            assert FindOverlapping(db.requests, employeeId, startDate, endDate) == i;
            return Some(r);
          }
        }
      }
      found := None;
    }

    method CreateRequest(dto: NewRequest, id: string) returns (r: Result<Request>)
      requires Valid()
      modifies db`requests
      ensures match Requests.Create(old(db.Value()), dto, id)
              case Success(t) => db.Value() == t && r == Success(t.requests[|t.requests| - 1])
              case Failure(e) => db.Value() == old(db.Value()) && r == Failure(e)
    {
      if !IsValidRange(dto.startDate, dto.endDate) {
        return Failure(InvalidDateRange);
      }
      if dto.days <= 0.0 {
        return Failure(InvalidDateRange);
      }
      if dto.locationId !in db.locations {
        return Failure(UnknownLocation);
      }
      var balance := balances.FindOne(dto.BalanceKey());
      if balance.None? {
        return Failure(NotFound);
      }
      if balance.value.status == STALE {
        return Failure(BalanceStaleBlocked);
      }
      var inflight := SumInflightDays(dto.BalanceKey());
      var projected := balance.value.balanceDays - inflight;
      if projected < dto.days {
        return Failure(InsufficientBalance(projected, dto.days));
      }
      var overlap := FindOverlappingRequest(dto.employeeId, dto.startDate, dto.endDate);
      if overlap.Some? {
        return Failure(OverlappingRequest(overlap.value.id));
      }
      var req := Request(id, dto.employeeId, dto.locationId, dto.startDate, dto.endDate, dto.days, PendingApproval, false, None, None);
      db.requests := db.requests + [req];
      r := Success(req);
    }

    method Approve(id: string, now: int) returns (r: Result<Request>)
      requires Valid()
      modifies db
      ensures match ApproveRequest(old(db.Value()), id, now)
              case Success(t) => db.Value() == t && r == Success(t.requests[IndexOf(old(db.requests), id)])
              case Failure(e) => db.Value() == old(db.Value()) && r == Failure(e)
    {
      var i := IndexOf(db.requests, id);
      if i == |db.requests| {
        return Failure(NotFound);
      }
      var req := db.requests[i];
      var next := NextStatus(req.status, Trigger.Approve);
      if next.None? {
        return Failure(InvalidTransition);
      }
      var balance := balances.FindOne(req.BalanceKey());
      if balance.None? {
        return Failure(NotFound);
      }
      if balance.value.status == STALE {
        return Failure(BalanceStaleBlocked);
      }
      var decremented := balances.Decrement(req.BalanceKey(), req.days);
      if decremented.Failure? {
        return Failure(decremented.error);
      }
      req := req.(status := next.value, balanceDecremented := true);
      db.requests := db.requests[i := req];
      outbox.EnqueueInTransaction(OutboxEvent(
        req.id, HCM_SUBMIT_DEBIT, req.id + ":submit",
        Payload(req.employeeId, req.locationId, req.days, DEBIT), PENDING, 0, Some(now)));
      r := Success(req);
    }

    method Reject(id: string, reason: string) returns (r: Result<Request>)
      requires Valid()
      modifies db`requests
      ensures match RejectRequest(old(db.Value()), id, reason)
              case Success(t) => db.Value() == t && r == Success(t.requests[IndexOf(old(db.requests), id)])
              case Failure(e) => db.Value() == old(db.Value()) && r == Failure(e)
    {
      var i := IndexOf(db.requests, id);
      if i == |db.requests| {
        return Failure(NotFound);
      }
      var req := db.requests[i];
      var next := NextStatus(req.status, Trigger.Reject);
      if next.None? {
        return Failure(InvalidTransition);
      }
      req := req.(status := next.value, rejectionReason := Some(reason));
      db.requests := db.requests[i := req];
      r := Success(req);
    }

    method Cancel(id: string, reason: Option<string>, now: int) returns (r: Result<Request>)
      requires Valid()
      modifies db
      ensures match CancelRequest(old(db.Value()), id, reason, now)
              case Success(t) => db.Value() == t && r == Success(t.requests[IndexOf(old(db.requests), id)])
              case Failure(e) => db.Value() == old(db.Value()) && r == Failure(e)
    {
      var i := IndexOf(db.requests, id);
      if i == |db.requests| {
        return Failure(NotFound);
      }
      var req := db.requests[i];
      var previousStatus := req.status;
      var next := NextStatus(req.status, Trigger.Cancel);
      if next.None? {
        return Failure(InvalidTransition);
      }
      req := req.(status := next.value, rejectionReason := reason);
      if req.balanceDecremented {
        var incremented := balances.Increment(req.BalanceKey(), req.days);
        if incremented.Failure? {
          return Failure(incremented.error);
        }
        req := req.(balanceDecremented := false);
      }
      db.requests := db.requests[i := req];
      if previousStatus == HcmConfirmed || previousStatus == Approved {
        outbox.EnqueueInTransaction(OutboxEvent(
          req.id, HCM_SUBMIT_CREDIT, req.id + ":refund",
          Payload(req.employeeId, req.locationId, req.days, CREDIT), PENDING, 0, Some(now)));
      }
      r := Success(req);
    }

    method MarkHcmConfirmed(id: string, transactionId: string) returns (r: Result<()>)
      requires Valid()
      modifies db`requests
      ensures match ConfirmRequest(old(db.Value()), id, transactionId)
              case Success(t) => db.Value() == t && r.Success?
              case Failure(e) => db.Value() == old(db.Value()) && r == Failure(e)
      ensures var i := IndexOf(old(db.requests), id);
              if i < |old(db.requests)| && old(db.requests)[i].status == Approved
              then db.requests == old(db.requests)[i :=
                     old(db.requests)[i].(status := HcmConfirmed, hcmTransactionId := Some(transactionId))]
              else db.requests == old(db.requests)
    {
      var i := IndexOf(db.requests, id);
      if i == |db.requests| {
        return Failure(NotFound);
      }
      var req := db.requests[i];
      if req.status == HcmConfirmed {
        return Success(());
      }
      if req.status != Approved {
        return Success(());
      }
      db.requests := db.requests[i :=
        req.(status := NextStatus(req.status, HcmConfirm).value, hcmTransactionId := Some(transactionId))];
      r := Success(());
    }

    method MarkHcmRejected(id: string, reason: string) returns (r: Result<()>)
      requires Valid()
      modifies db
      ensures match RejectByHcm(old(db.Value()), id, reason)
              case Success(t) => db.Value() == t && r.Success?
              case Failure(e) => db.Value() == old(db.Value()) && r == Failure(e)
    {
      var i := IndexOf(db.requests, id);
      if i == |db.requests| {
        return Success(());
      }
      var req := db.requests[i];
      if req.status in TERMINAL_STATUSES {
        return Success(());
      }
      req := req.(status := NextStatus(req.status, HcmReject).value, rejectionReason := Some(reason));
      if req.balanceDecremented {
        var incremented := balances.Increment(req.BalanceKey(), req.days);
        if incremented.Failure? {
          return Failure(incremented.error);
        }
        req := req.(balanceDecremented := false);
      }
      db.requests := db.requests[i := req];
      r := Success(());
    }

    /** Revokes, in creation order, the waiting requests that no longer fit the balance. */
    method RevalidateAfterBalanceChange(k: Key) returns (revoked: seq<string>)
      requires Valid()
      modifies db`requests
      ensures db.Value() == Revalidate(old(db.Value()), k)
      ensures revoked == RevokedBy(old(db.Value()), k)
    {
      revoked := [];
      var balance := balances.FindOne(k);
      if balance.None? {
        return;
      }
      ghost var start := db.requests;
      var remaining := balance.value.balanceDays;
      for i := 0 to |db.requests|
        invariant |db.requests| == |start|
        invariant db.requests[i..] == start[i..]
        invariant Greedy(start[..i], k, balance.value.balanceDays) == Pass(db.requests[..i], remaining, revoked)
      {
        var r := db.requests[i];
        assert r == start[i] && start[..i + 1] == start[..i] + [r];
        GreedyNext(start[..i], r, k, balance.value.balanceDays);
        ghost var before := db.requests[..i];
        if r.BalanceKey() == k && r.status == PendingApproval {
          if remaining < r.days {
            db.requests := db.requests[i :=
              r.(status := NextStatus(r.status, BalanceRevoked).value, rejectionReason := Some("balance_revoked"))];
            revoked := revoked + [r.id];
          } else {
            remaining := remaining - r.days;
          }
        }
        assert db.requests[..i + 1] == before + [db.requests[i]];
      }
      assert start[..|start|] == start && db.requests[..|start|] == db.requests;
    }
  }
}
