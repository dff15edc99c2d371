/** The request service: creation checks, the transactions around a decision, and greedy revalidation. */
module Requests {
  import opened Common
  import opened StateMachine
  import opened DateUtils
  import opened Sums
  import opened Entities
  import opened Balances
  import opened Outbox

  datatype NewRequest = NewRequest(
    employeeId: string,
    locationId: string,
    startDate: string,
    endDate: string,
    days: real
  ) {
    function BalanceKey(): Key { Key(employeeId, locationId) }
  }

  // ---- weights of a request for one key ----

  function PendingDays(k: Key): Request -> real {
    (r: Request) => if r.BalanceKey() == k && r.status.PendingApproval? then r.days else 0.0
  }

  function InflightDays(k: Key): Request -> real {
    (r: Request) => if r.BalanceKey() == k && (r.status.PendingApproval? || r.status.Approved?) then r.days else 0.0
  }

  function DebitedDays(k: Key): Request -> real {
    (r: Request) => if r.BalanceKey() == k && r.balanceDecremented then r.days else 0.0
  }

  function ApprovedDays(k: Key): Request -> real {
    (r: Request) => if r.BalanceKey() == k && r.status == Approved then r.days else 0.0
  }

  /** What is in flight is what waits for a decision plus what is approved and not yet confirmed. */
  lemma InflightSplits(reqs: seq<Request>, k: Key)
    ensures Total(reqs, InflightDays(k)) == Total(reqs, PendingDays(k)) + Total(reqs, ApprovedDays(k))
  {
    TotalDifference(reqs, ApprovedDays(k), InflightDays(k), PendingDays(k));
  }

  // ---- the reservation ----

  /** The days waiting on a key fit into its balance. */
  predicate Reserved(t: Tables, k: Key) {
    k in t.balances ==> Total(t.requests, PendingDays(k)) <= t.balances[k].balanceDays
  }

  predicate PositiveDays(reqs: seq<Request>) {
    forall i :: 0 <= i < |reqs| ==> reqs[i].days > 0.0
  }

  /** Every request has a balance row. */
  predicate Backed(t: Tables) {
    forall i :: 0 <= i < |t.requests| ==> t.requests[i].BalanceKey() in t.balances
  }

  lemma NothingWaiting(t: Tables, k: Key)
    requires Backed(t) && k !in t.balances
    ensures Total(t.requests, PendingDays(k)) == 0.0
  {
    TotalZero(t.requests, PendingDays(k));
  }

  // ---- the operations on tables ----

  predicate Clashes(r: Request, employeeId: string, startDate: string, endDate: string) {
    r.employeeId == employeeId && Active(r.status) && RangesOverlap(r.startDate, r.endDate, startDate, endDate)
  }

  /** Position of the first active request of the employee whose range overlaps, or |reqs|. */
  function FindOverlapping(reqs: seq<Request>, employeeId: string, startDate: string, endDate: string): (i: nat)
    ensures i <= |reqs|
    ensures i < |reqs| ==> Clashes(reqs[i], employeeId, startDate, endDate)
    ensures forall j :: 0 <= j < i ==> !Clashes(reqs[j], employeeId, startDate, endDate)
  {
    if reqs == [] then 0
    else
      var n := |reqs| - 1;
      var i := FindOverlapping(reqs[..n], employeeId, startDate, endDate);
      if i < n || Clashes(reqs[n], employeeId, startDate, endDate) then i else n + 1
  }

  function Fresh(dto: NewRequest, id: string): Request {
    Request(id, dto.employeeId, dto.locationId, dto.startDate, dto.endDate, dto.days,
            PendingApproval, false, None, None)
  }

  function Create(t: Tables, dto: NewRequest, id: string): Result<Tables> {
    if !IsValidRange(dto.startDate, dto.endDate) || dto.days <= 0.0 then Failure(InvalidDateRange)
    else if dto.locationId !in t.locations then Failure(UnknownLocation)
    else if dto.BalanceKey() !in t.balances then Failure(NotFound)
    else
      var balance := t.balances[dto.BalanceKey()];
      var projected := balance.balanceDays - Total(t.requests, InflightDays(dto.BalanceKey()));
      var clash := FindOverlapping(t.requests, dto.employeeId, dto.startDate, dto.endDate);
      if balance.status.STALE? then Failure(BalanceStaleBlocked)
      else if projected < dto.days then Failure(InsufficientBalance(projected, dto.days))
      else if clash < |t.requests| then Failure(OverlappingRequest(t.requests[clash].id))
      else Success(t.(requests := t.requests + [Fresh(dto, id)]))
  }

  /** The balance covers the request on top of everything waiting and everything approved. */
  predicate Affordable(t: Tables, dto: NewRequest) {
    var k := dto.BalanceKey();
    k in t.balances &&
    Total(t.requests, PendingDays(k)) + Total(t.requests, ApprovedDays(k)) + dto.days <= t.balances[k].balanceDays
  }

  /** The request blocks the submitted range: same employee, PENDING_APPROVAL, APPROVED or HCM_CONFIRMED, overlapping. */
  predicate Blocks(r: Request, dto: NewRequest) {
    && r.employeeId == dto.employeeId
    && (r.status == PendingApproval || r.status == Approved || r.status == HcmConfirmed)
    && RangesOverlap(r.startDate, r.endDate, dto.startDate, dto.endDate)
  }

  predicate NoClash(t: Tables, dto: NewRequest) {
    forall j :: 0 <= j < |t.requests| ==> !Blocks(t.requests[j], dto)
  }

  /** A waiting request with the submitted data and nothing decided. */
  predicate IsNew(r: Request, dto: NewRequest, id: string) {
    && r.id == id && r.employeeId == dto.employeeId && r.locationId == dto.locationId
    && r.startDate == dto.startDate && r.endDate == dto.endDate && r.days == dto.days
    && r.status == PendingApproval && !r.balanceDecremented && r.hcmTransactionId == None && r.rejectionReason == None
  }

  /**
   * A request is created iff its range and days are valid, its location known, its balance live and large enough for
   * everything promised, and no active request of the employee overlaps it; a reported overlap names such a request.
   */
  lemma CreateIff(t: Tables, dto: NewRequest, id: string)
    ensures Create(t, dto, id).Success? <==>
            && IsValidRange(dto.startDate, dto.endDate) && dto.days > 0.0 && dto.locationId in t.locations
            && Affordable(t, dto) && t.balances[dto.BalanceKey()].status.OK? && NoClash(t, dto)
    ensures match Create(t, dto, id)
            case Success(t') =>
              && |t'.requests| == |t.requests| + 1 && t' == t.(requests := t.requests + [t'.requests[|t.requests|]])
              && IsNew(t'.requests[|t.requests|], dto, id)
            case Failure(OverlappingRequest(other)) =>
              exists j :: 0 <= j < |t.requests| && t.requests[j].id == other && Blocks(t.requests[j], dto)
            case Failure(InsufficientBalance(_, _)) => !Affordable(t, dto)
            case Failure(_) => true
  {
    var clash := FindOverlapping(t.requests, dto.employeeId, dto.startDate, dto.endDate);
    InflightSplits(t.requests, dto.BalanceKey());
    assert forall r :: Clashes(r, dto.employeeId, dto.startDate, dto.endDate) <==> Blocks(r, dto);
    if clash < |t.requests| {
      assert Blocks(t.requests[clash], dto);
    }
  }

  /** Why creation fails: the first check that does, in the source's order. */
  lemma CreateFailure(t: Tables, dto: NewRequest, id: string)
    ensures var k := dto.BalanceKey();
            match Create(t, dto, id)
            case Success(_) => true
            case Failure(InvalidDateRange) => !IsValidRange(dto.startDate, dto.endDate) || dto.days <= 0.0
            case Failure(UnknownLocation) =>
              IsValidRange(dto.startDate, dto.endDate) && dto.days > 0.0 && dto.locationId !in t.locations
            case Failure(NotFound) => dto.locationId in t.locations && k !in t.balances
            case Failure(BalanceStaleBlocked) => dto.locationId in t.locations && k in t.balances && t.balances[k].status == STALE
            case Failure(InsufficientBalance(have, need)) =>
              && dto.locationId in t.locations && k in t.balances && t.balances[k].status == OK
              && have == t.balances[k].balanceDays - Total(t.requests, PendingDays(k)) - Total(t.requests, ApprovedDays(k))
              && need == dto.days && have < need
            case Failure(OverlappingRequest(_)) => Affordable(t, dto) && t.balances[k].status == OK
            case Failure(_) => false
  {
    InflightSplits(t.requests, dto.BalanceKey());
  }

  // ---- what a decision leaves ----

  /** Request i gets a new status, debit flag, transaction id and reason; nothing else of it or of the others changes. */
  predicate Redecided(a: seq<Request>, b: seq<Request>, i: nat) {
    && i < |a| == |b| && (forall j :: 0 <= j < |a| && j != i ==> b[j] == a[j])
    && b[i].id == a[i].id && b[i].employeeId == a[i].employeeId && b[i].locationId == a[i].locationId
    && b[i].startDate == a[i].startDate && b[i].endDate == a[i].endDate && b[i].days == a[i].days
  }

  predicate IsEventOf(ev: OutboxEvent, r: Request, eventType: EventType, txType: TxType, suffix: string, now: int) {
    && ev.aggregateId == r.id && ev.eventType == eventType && ev.idempotencyKey == r.id + suffix
    && ev.payload == Payload(r.employeeId, r.locationId, r.days, txType)
    && ev.status == PENDING && ev.attempts == 0 && ev.nextAttemptAt == Some(now)
  }

  predicate Enqueued(a: seq<OutboxEvent>, b: seq<OutboxEvent>) {
    |b| == |a| + 1 && b[..|a|] == a
  }

  function ApproveRequest(t: Tables, id: string, now: int): Result<Tables> {
    var i := IndexOf(t.requests, id);
    if i == |t.requests| then Failure(NotFound)
    else
      var r := t.requests[i];
      match NextStatus(r.status, Approve)
      case None => Failure(InvalidTransition)
      case Some(st) =>
        match Adjust(t.balances, r.BalanceKey(), -r.days)
        case Failure(e) => Failure(e)
        case Success(balances) =>
          var r' := r.(status := st, balanceDecremented := true);
          Success(t.(requests := t.requests[i := r'], balances := balances, events := t.events + [DebitEvent(r', now)]))
  }

  function RejectRequest(t: Tables, id: string, reason: string): Result<Tables> {
    var i := IndexOf(t.requests, id);
    if i == |t.requests| then Failure(NotFound)
    else
      match NextStatus(t.requests[i].status, Reject)
      case None => Failure(InvalidTransition)
      case Some(st) =>
        Success(t.(requests := t.requests[i := t.requests[i].(status := st, rejectionReason := Some(reason))]))
  }

  /** Give the request's debit back, if its balance carries one. */
  function Refund(balances: map<Key, Balance>, r: Request): Result<map<Key, Balance>> {
    if r.balanceDecremented then Adjust(balances, r.BalanceKey(), r.days) else Success(balances)
  }

  function CancelRequest(t: Tables, id: string, reason: Option<string>, now: int): Result<Tables> {
    var i := IndexOf(t.requests, id);
    if i == |t.requests| then Failure(NotFound)
    else
      var r := t.requests[i];
      match NextStatus(r.status, Cancel)
      case None => Failure(InvalidTransition)
      case Some(st) =>
        match Refund(t.balances, r)
        case Failure(e) => Failure(e)
        case Success(balances) =>
          var r' := r.(status := st, balanceDecremented := false, rejectionReason := reason);
          var events := if Debited(r.status) then t.events + [CreditEvent(r', now)] else t.events;
          Success(t.(requests := t.requests[i := r'], balances := balances, events := events))
  }

  function ConfirmRequest(t: Tables, id: string, transactionId: string): Result<Tables> {
    var i := IndexOf(t.requests, id);
    if i == |t.requests| then Failure(NotFound)
    else if !t.requests[i].status.Approved? then Success(t)
    else
      var r' := t.requests[i].(status := HcmConfirmed, hcmTransactionId := Some(transactionId));
      Success(t.(requests := t.requests[i := r']))
  }

  function RejectByHcm(t: Tables, id: string, reason: string): Result<Tables> {
    var i := IndexOf(t.requests, id);
    if i == |t.requests| then Success(t)
    else
      var r := t.requests[i];
      if r.status in TERMINAL_STATUSES then Success(t)
      else
        match Refund(t.balances, r)
        case Failure(e) => Failure(e)
        case Success(balances) =>
          var r' := r.(status := HcmRejected, balanceDecremented := false, rejectionReason := Some(reason));
          Success(t.(requests := t.requests[i := r'], balances := balances))
  }

  /** Approving takes the days from the balance, sets APPROVED and enqueues the debit, all or nothing. */
  lemma ApproveOutcome(t: Tables, i: nat, now: int)
    requires i < |t.requests| && IndexOf(t.requests, t.requests[i].id) == i
    ensures var r, k := t.requests[i], t.requests[i].BalanceKey();
            match ApproveRequest(t, r.id, now)
            case Success(t') =>
              && r.status == PendingApproval && Redecided(t.requests, t'.requests, i) && t'.locations == t.locations
              && t'.requests[i].status == Approved && t'.requests[i].balanceDecremented
              && t'.requests[i].hcmTransactionId == r.hcmTransactionId && t'.requests[i].rejectionReason == r.rejectionReason
              && MovesDays(t.balances, t'.balances, k, -r.days) && t.balances[k].status == OK
              && Enqueued(t.events, t'.events)
              && IsEventOf(t'.events[|t.events|], r, HCM_SUBMIT_DEBIT, DEBIT, ":submit", now)
            case Failure(InvalidTransition) => r.status != PendingApproval
            case Failure(NotFound) => r.status == PendingApproval && k !in t.balances
            case Failure(BalanceStaleBlocked) => r.status == PendingApproval && k in t.balances && t.balances[k].status == STALE
            case Failure(InsufficientBalance(have, need)) =>
              && r.status == PendingApproval && k in t.balances && t.balances[k].status == OK
              && have == t.balances[k].balanceDays && need == r.days && have < need
            case Failure(_) => false
  {
    AdjustExact(t.balances, t.requests[i].BalanceKey(), -t.requests[i].days);
  }

  /** Rejecting sets REJECTED with the reason, from PENDING_APPROVAL alone, and touches nothing else. */
  lemma RejectOutcome(t: Tables, i: nat, reason: string)
    requires i < |t.requests| && IndexOf(t.requests, t.requests[i].id) == i
    ensures var r := t.requests[i];
            match RejectRequest(t, r.id, reason)
            case Success(t') =>
              && r.status == PendingApproval && t' == t.(requests := t'.requests) && Redecided(t.requests, t'.requests, i)
              && t'.requests[i].status == Rejected && t'.requests[i].rejectionReason == Some(reason)
              && t'.requests[i].balanceDecremented == r.balanceDecremented
              && t'.requests[i].hcmTransactionId == r.hcmTransactionId
            case Failure(e) => e == InvalidTransition && r.status != PendingApproval
  {
  }

  /**
   * Cancelling sets CANCELLED with the given reason, gives a debit back, and enqueues a refund exactly if the request was
   * APPROVED or HCM_CONFIRMED, all or nothing.
   */
  lemma CancelOutcome(t: Tables, i: nat, reason: Option<string>, now: int)
    requires i < |t.requests| && IndexOf(t.requests, t.requests[i].id) == i
    ensures var r, k := t.requests[i], t.requests[i].BalanceKey();
            var live := r.status == PendingApproval || r.status == Approved || r.status == HcmConfirmed;
            match CancelRequest(t, r.id, reason, now)
            case Success(t') =>
              && live && Redecided(t.requests, t'.requests, i) && t'.locations == t.locations
              && t'.requests[i].status == Cancelled && !t'.requests[i].balanceDecremented
              && t'.requests[i].rejectionReason == reason && t'.requests[i].hcmTransactionId == r.hcmTransactionId
              && (if r.balanceDecremented then MovesDays(t.balances, t'.balances, k, r.days) else t'.balances == t.balances)
              && (if r.status == PendingApproval then t'.events == t.events
                  else Enqueued(t.events, t'.events) &&
                       IsEventOf(t'.events[|t.events|], r, HCM_SUBMIT_CREDIT, CREDIT, ":refund", now))
            case Failure(InvalidTransition) => !live
            case Failure(NotFound) => live && r.balanceDecremented && k !in t.balances
            case Failure(BalanceStaleBlocked) => live && r.balanceDecremented && k in t.balances && t.balances[k].status == STALE
            case Failure(InsufficientBalance(have, need)) => live && r.balanceDecremented && have + r.days < 0.0 && need == -r.days
            case Failure(_) => false
  {
    AdjustExact(t.balances, t.requests[i].BalanceKey(), t.requests[i].days);
  }

  /** Confirming makes an APPROVED request HCM_CONFIRMED under the transaction's id, and changes no other. */
  lemma ConfirmOutcome(t: Tables, i: nat, transactionId: string)
    requires i < |t.requests| && IndexOf(t.requests, t.requests[i].id) == i
    ensures var r := t.requests[i];
            ConfirmRequest(t, r.id, transactionId).Success? &&
            var t' := ConfirmRequest(t, r.id, transactionId).value;
            if r.status != Approved then t' == t
            else
              && t' == t.(requests := t'.requests) && Redecided(t.requests, t'.requests, i)
              && t'.requests[i].status == HcmConfirmed && t'.requests[i].hcmTransactionId == Some(transactionId)
              && t'.requests[i].balanceDecremented == r.balanceDecremented
              && t'.requests[i].rejectionReason == r.rejectionReason
  {
  }

  /** A refusal by HCM makes a PENDING_APPROVAL or APPROVED request HCM_REJECTED and gives its debit back, or does nothing. */
  lemma RejectByHcmOutcome(t: Tables, i: nat, reason: string)
    requires i < |t.requests| && IndexOf(t.requests, t.requests[i].id) == i
    ensures var r, k := t.requests[i], t.requests[i].BalanceKey();
            var open := r.status == PendingApproval || r.status == Approved;
            match RejectByHcm(t, r.id, reason)
            case Success(t') =>
              if !open then t' == t
              else
                && Redecided(t.requests, t'.requests, i) && t'.locations == t.locations && t'.events == t.events
                && t'.requests[i].status == HcmRejected && !t'.requests[i].balanceDecremented
                && t'.requests[i].rejectionReason == Some(reason) && t'.requests[i].hcmTransactionId == r.hcmTransactionId
                && (if r.balanceDecremented then MovesDays(t.balances, t'.balances, k, r.days) else t'.balances == t.balances)
            case Failure(NotFound) => open && r.balanceDecremented && k !in t.balances
            case Failure(BalanceStaleBlocked) => open && r.balanceDecremented && k in t.balances && t.balances[k].status == STALE
            case Failure(InsufficientBalance(have, need)) => open && r.balanceDecremented && have + r.days < 0.0 && need == -r.days
            case Failure(_) => false
  {
    AdjustExact(t.balances, t.requests[i].BalanceKey(), t.requests[i].days);
  }

  /** An id that is not stored: the caller's operations report it, the worker's refusal does not. */
  lemma UnknownRequest(t: Tables, id: string, text: string, reason: Option<string>, now: int)
    requires forall j :: 0 <= j < |t.requests| ==> t.requests[j].id != id
    ensures ApproveRequest(t, id, now) == RejectRequest(t, id, text) == CancelRequest(t, id, reason, now) == Failure(NotFound)
    ensures ConfirmRequest(t, id, text) == Failure(NotFound) && RejectByHcm(t, id, text) == Success(t)
  {
  }

  // ---- greedy revalidation ----

  predicate Waiting(r: Request, k: Key) {
    r.BalanceKey() == k && r.status.PendingApproval?
  }

  function Revoke(r: Request): Request {
    r.(status := HcmRejected, rejectionReason := Some("balance_revoked"))
  }

  datatype Pass = Pass(requests: seq<Request>, remaining: real, revoked: seq<string>)

  /** One pass over the requests in creation order, spending `balance` on those that still fit. */
  function Greedy(reqs: seq<Request>, k: Key, balance: real): (p: Pass)
    ensures |p.requests| == |reqs|
  {
    if reqs == [] then Pass([], balance, [])
    else
      var p := Greedy(reqs[..|reqs| - 1], k, balance);
      var r := reqs[|reqs| - 1];
      if !Waiting(r, k) then p.(requests := p.requests + [r])
      else if p.remaining < r.days then Pass(p.requests + [Revoke(r)], p.remaining, p.revoked + [r.id])
      else p.(requests := p.requests + [r], remaining := p.remaining - r.days)
  }

  /** The pass takes one request more. */
  lemma GreedyNext(reqs: seq<Request>, r: Request, k: Key, balance: real)
    ensures var p := Greedy(reqs, k, balance);
            Greedy(reqs + [r], k, balance) ==
            if !Waiting(r, k) then p.(requests := p.requests + [r])
            else if p.remaining < r.days then Pass(p.requests + [Revoke(r)], p.remaining, p.revoked + [r.id])
            else p.(requests := p.requests + [r], remaining := p.remaining - r.days)
  {
    assert (reqs + [r])[..|reqs|] == reqs;
  }

  function Revalidate(t: Tables, k: Key): Tables {
    if k in t.balances then t.(requests := Greedy(t.requests, k, t.balances[k].balanceDays).requests) else t
  }

  function RevokedBy(t: Tables, k: Key): seq<string> {
    if k in t.balances then Greedy(t.requests, k, t.balances[k].balanceDays).revoked else []
  }

  /** The pass on a prefix is the prefix of the pass. */
  lemma {:induction false} GreedyPrefix(reqs: seq<Request>, k: Key, balance: real, n: nat)
    requires n <= |reqs|
    ensures Greedy(reqs[..n], k, balance).requests == Greedy(reqs, k, balance).requests[..n]
    ensures Greedy(reqs[..n], k, balance).revoked <= Greedy(reqs, k, balance).revoked
  {
    if n < |reqs| {
      GreedyPrefix(reqs[..|reqs| - 1], k, balance, n);
      assert reqs[..|reqs| - 1][..n] == reqs[..n];
    } else {
      assert reqs[..n] == reqs;
    }
  }

  /** Every request is left alone or, if it was waiting for k, revoked. */
  lemma {:induction false} GreedyTouches(reqs: seq<Request>, k: Key, balance: real, i: nat)
    requires i < |reqs|
    ensures var out := Greedy(reqs, k, balance).requests[i];
            out == reqs[i] || (Waiting(reqs[i], k) && out == Revoke(reqs[i]))
  {
    if i < |reqs| - 1 {
      GreedyTouches(reqs[..|reqs| - 1], k, balance, i);
    }
  }

  /** A revoked request ends HCM_REJECTED as balance_revoked and is otherwise as it was; nobody else is touched. */
  lemma RevokedOutcome(reqs: seq<Request>, k: Key, balance: real, i: nat)
    requires i < |reqs|
    ensures var out := Greedy(reqs, k, balance).requests[i];
            out == reqs[i] ||
            (&& reqs[i].BalanceKey() == k && reqs[i].status == PendingApproval
             && out == reqs[i].(status := HcmRejected, rejectionReason := Some("balance_revoked")))
  {
    GreedyTouches(reqs, k, balance, i);
  }

  /** What is kept fits, and what is left over is exactly the balance minus what is kept. */
  lemma {:induction false} GreedyFits(reqs: seq<Request>, k: Key, balance: real)
    ensures var p := Greedy(reqs, k, balance);
            Total(p.requests, PendingDays(k)) == balance - p.remaining
    ensures balance >= 0.0 ==> Greedy(reqs, k, balance).remaining >= 0.0
  {
    if reqs != [] {
      var p := Greedy(reqs[..|reqs| - 1], k, balance);
      GreedyFits(reqs[..|reqs| - 1], k, balance);
      TotalAppend(p.requests, Greedy(reqs, k, balance).requests[|reqs| - 1], PendingDays(k));
      assert Greedy(reqs, k, balance).requests[..|reqs| - 1] == p.requests;
    }
  }

  lemma PendingNonNegative(reqs: seq<Request>, k: Key)
    requires PositiveDays(reqs) && reqs != []
    ensures Total(reqs[..|reqs| - 1], PendingDays(k)) <= Total(reqs, PendingDays(k))
    ensures PositiveDays(reqs[..|reqs| - 1])
  {
  }

  /** Nothing is revoked when everything fits. */
  lemma {:induction false} GreedyIdle(reqs: seq<Request>, k: Key, balance: real)
    requires PositiveDays(reqs)
    requires Total(reqs, PendingDays(k)) <= balance
    ensures Greedy(reqs, k, balance) == Pass(reqs, balance - Total(reqs, PendingDays(k)), [])
  {
    if reqs != [] {
      var init := reqs[..|reqs| - 1];
      PendingNonNegative(reqs, k);
      GreedyIdle(init, k, balance);
      assert init + [reqs[|reqs| - 1]] == reqs;
    }
  }

  /** A choice of waiting requests to keep. */
  predicate Choice(reqs: seq<Request>, k: Key, pick: seq<bool>) {
    |pick| == |reqs| && forall i :: 0 <= i < |reqs| && pick[i] ==> Waiting(reqs[i], k)
  }

  function Spent(reqs: seq<Request>, pick: seq<bool>): real
    requires |pick| == |reqs|
  {
    if reqs == [] then 0.0
    else
      var n := |reqs| - 1;
      Spent(reqs[..n], pick[..n]) + if pick[n] then reqs[n].days else 0.0
  }

  /** The choice the pass makes. */
  function Kept(reqs: seq<Request>, k: Key, balance: real): seq<bool> {
    var out := Greedy(reqs, k, balance).requests;
    seq(|reqs|, i requires 0 <= i < |reqs| => Waiting(reqs[i], k) && out[i] == reqs[i])
  }

  lemma {:induction false} SpentPrefix(reqs: seq<Request>, pick: seq<bool>, n: nat)
    requires |pick| == |reqs| && n <= |reqs| && PositiveDays(reqs)
    ensures Spent(reqs[..n], pick[..n]) <= Spent(reqs, pick)
  {
    if n < |reqs| {
      var m := |reqs| - 1;
      SpentPrefix(reqs[..m], pick[..m], n);
      assert reqs[..m][..n] == reqs[..n] && pick[..m][..n] == pick[..n];
    } else {
      assert reqs[..n] == reqs && pick[..n] == pick;
    }
  }

  lemma {:induction false} KeptSpends(reqs: seq<Request>, k: Key, balance: real)
    ensures Choice(reqs, k, Kept(reqs, k, balance))
    ensures Spent(reqs, Kept(reqs, k, balance)) == balance - Greedy(reqs, k, balance).remaining
  {
    if reqs != [] {
      var n := |reqs| - 1;
      KeptSpends(reqs[..n], k, balance);
      assert Kept(reqs, k, balance)[..n] == Kept(reqs[..n], k, balance);
    }
  }

  /** A request is kept exactly when it still fits behind the kept requests before it. */
  lemma KeptIffFits(reqs: seq<Request>, k: Key, balance: real, i: nat)
    requires i < |reqs|
    ensures Kept(reqs, k, balance)[i] <==>
            Waiting(reqs[i], k) && Spent(reqs[..i], Kept(reqs, k, balance)[..i]) + reqs[i].days <= balance
  {
    KeptSpends(reqs[..i], k, balance);
    GreedyPrefix(reqs, k, balance, i);
    GreedyPrefix(reqs, k, balance, i + 1);
    assert reqs[..i + 1][..i] == reqs[..i];
    assert Kept(reqs, k, balance)[..i] == Kept(reqs[..i], k, balance);
    assert Greedy(reqs, k, balance).requests[i] == Greedy(reqs[..i + 1], k, balance).requests[i];
  }

  /**
   * The kept set is the lexicographically first feasible one: it is feasible, and any other feasible
   * choice first differs from it by omitting a kept request.
   */
  lemma GreedyIsLexFirst(reqs: seq<Request>, k: Key, balance: real, pick: seq<bool>, i: nat)
    requires PositiveDays(reqs) && balance >= 0.0
    requires Choice(reqs, k, pick) && Spent(reqs, pick) <= balance
    requires i < |reqs| && pick[..i] == Kept(reqs, k, balance)[..i] && pick[i] != Kept(reqs, k, balance)[i]
    ensures Kept(reqs, k, balance)[i] && !pick[i]
    ensures Spent(reqs, Kept(reqs, k, balance)) <= balance
  {
    KeptSpends(reqs, k, balance);
    GreedyFits(reqs, k, balance);
    if pick[i] {
      SpentPrefix(reqs, pick, i + 1);
      assert reqs[..i + 1][..i] == reqs[..i] && pick[..i + 1][..i] == pick[..i];
      KeptIffFits(reqs, k, balance, i);
    }
  }

  /** No revoked request would still fit into what is left at the end. */
  lemma NoRevokedFits(reqs: seq<Request>, k: Key, balance: real, i: nat)
    requires PositiveDays(reqs) && i < |reqs|
    requires Greedy(reqs, k, balance).requests[i] != reqs[i]
    ensures Waiting(reqs[i], k)
    ensures Greedy(reqs, k, balance).remaining < reqs[i].days
  {
    GreedyTouches(reqs, k, balance, i);
    KeptIffFits(reqs, k, balance, i);
    KeptSpends(reqs, k, balance);
    SpentPrefix(reqs, Kept(reqs, k, balance), i);
  }

  /** The reported ids are those of the revoked requests, in creation order. */
  lemma {:induction false} RevokedAreReported(reqs: seq<Request>, k: Key, balance: real)
    ensures var p := Greedy(reqs, k, balance);
            p.revoked == RevokedIds(reqs, p.requests)
  {
    if reqs != [] {
      var n := |reqs| - 1;
      RevokedAreReported(reqs[..n], k, balance);
      assert Greedy(reqs, k, balance).requests[..n] == Greedy(reqs[..n], k, balance).requests;
    }
  }

  function RevokedIds(before: seq<Request>, after: seq<Request>): seq<string>
    requires |before| == |after|
  {
    if before == [] then []
    else
      var n := |before| - 1;
      RevokedIds(before[..n], after[..n]) + if before[n].status != after[n].status then [before[n].id] else []
  }

  /** Revalidation covers its own key, whatever came before, and leaves the others alone. */
  lemma RevalidateReserves(t: Tables, at: Key, k: Key)
    requires NonNegative(t.balances) && (k == at || Reserved(t, k))
    ensures Reserved(Revalidate(t, at), k)
  {
    if at in t.balances {
      var p := Greedy(t.requests, at, t.balances[at].balanceDays);
      GreedyFits(t.requests, at, t.balances[at].balanceDays);
      if k != at {
        forall i | 0 <= i < |t.requests| ensures PendingDays(k)(t.requests[i]) == PendingDays(k)(p.requests[i]) {
          GreedyTouches(t.requests, at, t.balances[at].balanceDays, i);
        }
        TotalSame(t.requests, p.requests, PendingDays(k), PendingDays(k));
      }
    }
  }

  /** Revalidation only takes days off what waits. */
  lemma RevalidateShrinks(t: Tables, at: Key, k: Key)
    requires PositiveDays(t.requests)
    ensures |Revalidate(t, at).requests| == |t.requests| && PositiveDays(Revalidate(t, at).requests)
    ensures Total(Revalidate(t, at).requests, PendingDays(k)) <= Total(t.requests, PendingDays(k))
  {
    if at in t.balances {
      var out := Greedy(t.requests, at, t.balances[at].balanceDays).requests;
      forall i | 0 <= i < |out|
        ensures out[i].days > 0.0 && PendingDays(k)(out[i]) <= PendingDays(k)(t.requests[i])
      {
        GreedyTouches(t.requests, at, t.balances[at].balanceDays, i);
      }
      TotalMonotone(out, t.requests, PendingDays(k), PendingDays(k));
    }
  }

  /** Revalidation revokes, and reports, something exactly when more waits than the balance holds. */
  lemma RevalidateRevokesIff(t: Tables, k: Key)
    requires PositiveDays(t.requests) && k in t.balances && t.balances[k].balanceDays >= 0.0
    ensures Revalidate(t, k).requests == t.requests <==> Reserved(t, k)
    ensures RevokedBy(t, k) == [] <==> Reserved(t, k)
  {
    var balance := t.balances[k].balanceDays;
    var p := Greedy(t.requests, k, balance);
    if Reserved(t, k) {
      GreedyIdle(t.requests, k, balance);
    } else {
      GreedyFits(t.requests, k, balance);
      RevokedAreReported(t.requests, k, balance);
      assert p.requests != t.requests;
      var i :| 0 <= i < |t.requests| && p.requests[i] != t.requests[i];
      GreedyTouches(t.requests, k, balance, i);
      SomeRevokedId(t.requests, p.requests, i);
    }
  }

  lemma {:induction false} SomeRevokedId(before: seq<Request>, after: seq<Request>, i: nat)
    requires i < |before| == |after| && before[i].status != after[i].status
    ensures RevokedIds(before, after) != []
  {
    var n := |before| - 1;
    if i < n {
      SomeRevokedId(before[..n], after[..n], i);
    }
  }

  /** A second pass over the same balance revokes nothing. */
  lemma GreedyIdempotent(reqs: seq<Request>, k: Key, balance: real)
    requires PositiveDays(reqs) && balance >= 0.0
    ensures var out := Greedy(reqs, k, balance).requests;
            Greedy(out, k, balance).requests == out && Greedy(out, k, balance).revoked == []
  {
    var out := Greedy(reqs, k, balance).requests;
    GreedyFits(reqs, k, balance);
    forall i | 0 <= i < |out| ensures out[i].days > 0.0 {
      GreedyTouches(reqs, k, balance, i);
    }
    GreedyIdle(out, k, balance);
  }
}
