/**
 * The two-ledger protocol as a transition system: service transactions, the outbox worker cut into its separately
 * visible steps, the network, the mock HCM, crashes and operator actions, interleaved in any order.
 */
module Protocol {
  import opened Common
  import opened Entities
  import opened Balances
  import opened Outbox
  import opened Requests
  import opened Hcm
  import opened Sync
  import opened Backoff

  /** What the HCM client makes of a delivery: a 4xx is a rejection, anything else but a 2xx unavailability. */
  datatype SubmitResult = Ok(tx: HcmTransaction) | Refused(code: Refusal) | NoAnswer

  function Classify(r: Response): SubmitResult {
    match r
    case Created(tx) => Ok(tx)
    case ClientError(code) => Refused(code)
    case ServerError => NoAnswer
  }

  /** Where the worker stands inside processOne. */
  datatype Phase =
    | BetweenEvents
    | Submitting(current: Claimed, reply: Option<SubmitResult>)
    | Settling(current: Claimed, result: SubmitResult)
    | Closing(current: Claimed, result: SubmitResult)

  datatype Worker = Idle | Working(queue: seq<Claimed>, phase: Phase)

  /** `wire` holds the events whose submission has been sent and may reach HCM now, again or much later. */
  datatype State = State(tables: Tables, hcm: Store, worker: Worker, wire: set<nat>, maxAttempts: nat)

  const BATCH_LIMIT: nat := 20

  datatype Step =
    | Create(dto: NewRequest, id: string)
    | Approve(id: string, now: int)
    | Reject(id: string, reason: string)
    | Cancel(id: string, cancelReason: Option<string>, now: int)
    | Webhook(update: BalanceUpdate)
    | Row(update: BalanceUpdate)
    | SweepStale(seen: set<string>)
    | RefreshKey(key: Key, fetch: Fetch)
    | Claim(now: int)
    | Advance
    | Deliver(event: nat, mode: FailureMode, flaky: bool, txId: string, now: int)
    | Receive(lost: bool)
    | Settle(now: int, jitter: real)
    | Close
    | Crash
    | Replay(event: nat, now: int)
    | EditHcm(balance: HcmBalance)

  function OrSame(t: Tables, r: Result<Tables>): Tables {
    match r case Success(t') => t' case Failure(_) => t
  }

  /** create, with the fresh id it draws. */
  function DoCreate(t: Tables, dto: NewRequest, id: string): Tables {
    if IndexOf(t.requests, id) < |t.requests| then t else OrSame(t, Requests.Create(t, dto, id))
  }

  function DoRefresh(t: Tables, k: Key, fetch: Fetch): Tables {
    match Refresh(t.balances, k, fetch)
    case Success(balances) => t.(balances := balances)
    case Failure(_) => t
  }

  /** tick begins: load up to twenty ready rows. */
  function DoClaim(s: State, now: int): State {
    if s.worker.Working? then s
    else s.(worker := Working(ClaimBatch(s.tables.events, now, BATCH_LIMIT), BetweenEvents))
  }

  function SaveEvent(s: State, c: Claimed): State {
    if c.pos < |s.tables.events| then s.(tables := s.tables.(events := s.tables.events[c.pos := c.ev])) else s
  }

  /** processOne begins with markInFlight and sends the submission; an empty queue ends the tick. */
  function DoAdvance(s: State): State {
    if s.worker.Idle? || !s.worker.phase.BetweenEvents? then s
    else if s.worker.queue == [] then s.(worker := Idle)
    else
      var c := s.worker.queue[0].(ev := InFlight(s.worker.queue[0].ev));
      SaveEvent(s, c).(worker := Working(s.worker.queue[1..], Submitting(c, None)), wire := s.wire + {c.pos})
  }

  /** HCM handles a submission that is on the wire; the answer reaches the client only if it still waits for it. */
  function DoDeliver(s: State, e: nat, mode: FailureMode, flaky: bool, txId: string, now: int): State {
    if e !in s.wire || e >= |s.tables.events| || !FreshId(s.hcm, txId) then s
    else
      var ev := s.tables.events[e];
      var (hcm, response) := Submit(s.hcm, mode, flaky, ev.idempotencyKey, ev.payload, txId, now);
      var worker :=
        if s.worker.Working? && s.worker.phase.Submitting? && s.worker.phase.current.pos == e
        then s.worker.(phase := s.worker.phase.(reply := Some(Classify(response))))
        else s.worker;
      s.(hcm := hcm, worker := worker)
  }

  /** The client returns: with the answer if one arrived, as unavailable if it was lost, timed out or never sent. */
  function DoReceive(s: State, lost: bool): State {
    if s.worker.Idle? || !s.worker.phase.Submitting? then s
    else
      var p := s.worker.phase;
      s.(worker := s.worker.(phase := Settling(p.current, if lost || p.reply.None? then NoAnswer else p.reply.value)))
  }

  /** The row as the worker leaves it after a result. */
  function Settled(ev: OutboxEvent, result: SubmitResult, maxAttempts: nat, now: int, jitter: real): OutboxEvent {
    match result
    case Ok(_) => Sent(ev)
    case Refused(_) => GivenUp(ev)
    case NoAnswer =>
      if ev.attempts + 1 >= maxAttempts then GivenUp(ev)
      else RetryAt(ev, now + ComputeBackoffMs(ev.attempts + 1, jitter))
  }

  /** markSent, markPermanentlyFailed or markFailedRetry; only a DEBIT's definite result goes on to its request. */
  function DoSettle(s: State, now: int, jitter: real): State {
    if s.worker.Idle? || !s.worker.phase.Settling? then s
    else
      var p := s.worker.phase;
      var c := p.current.(ev := Settled(p.current.ev, p.result, s.maxAttempts, now, jitter));
      var phase := if !p.result.NoAnswer? && c.ev.eventType.HCM_SUBMIT_DEBIT? then Closing(c, p.result) else BetweenEvents;
      SaveEvent(s, c).(worker := s.worker.(phase := phase))
  }

  function CloseRequest(t: Tables, id: string, result: SubmitResult): Result<Tables> {
    match result
    case Ok(tx) => ConfirmRequest(t, id, tx.transactionId)
    case Refused(code) => RejectByHcm(t, id, CodeText(code))
    case NoAnswer => Success(t)
  }

  /** markHcmConfirmed or markHcmRejected; if it throws, the rest of the batch is abandoned. */
  function DoClose(s: State): State {
    if s.worker.Idle? || !s.worker.phase.Closing? then s
    else
      match CloseRequest(s.tables, s.worker.phase.current.ev.aggregateId, s.worker.phase.result)
      case Success(t) => s.(tables := t, worker := s.worker.(phase := BetweenEvents))
      case Failure(_) => s.(worker := Idle)
  }

  function DoReplay(t: Tables, e: nat, now: int): Tables {
    if e < |t.events| then t.(events := t.events[e := Replayed(t.events[e], now)]) else t
  }

  function Next(s: State, step: Step): State {
    match step
    case Create(dto, id) => s.(tables := DoCreate(s.tables, dto, id))
    case Approve(id, now) => s.(tables := OrSame(s.tables, ApproveRequest(s.tables, id, now)))
    case Reject(id, reason) => s.(tables := OrSame(s.tables, RejectRequest(s.tables, id, reason)))
    case Cancel(id, reason, now) => s.(tables := OrSame(s.tables, CancelRequest(s.tables, id, reason, now)))
    case Webhook(u) => s.(tables := ApplyWebhook(s.tables, u))
    case Row(u) => s.(tables := BatchRow(s.tables, u))
    case SweepStale(seen) => s.(tables := s.tables.(balances := Sweep(s.tables.balances, seen)))
    case RefreshKey(k, fetch) => s.(tables := DoRefresh(s.tables, k, fetch))
    case Claim(now) => DoClaim(s, now)
    case Advance => DoAdvance(s)
    case Deliver(e, mode, flaky, txId, now) => DoDeliver(s, e, mode, flaky, txId, now)
    case Receive(lost) => DoReceive(s, lost)
    case Settle(now, jitter) => DoSettle(s, now, jitter)
    case Close => DoClose(s)
    case Crash => s.(worker := Idle)
    case Replay(e, now) => s.(tables := DoReplay(s.tables, e, now))
    case EditHcm(b) => s.(hcm := UpsertBalance(s.hcm, b))
  }

  function Run(s: State, steps: seq<Step>): State {
    if steps == [] then s else Next(Run(s, steps[..|steps| - 1]), steps[|steps| - 1])
  }

  lemma RunAppend(s: State, steps: seq<Step>, step: Step)
    ensures Run(s, steps + [step]) == Next(Run(s, steps), step)
  {
    assert (steps + [step])[..|steps|] == steps;
  }

  lemma RunThree(s: State, steps: seq<Step>, a: Step, b: Step, c: Step)
    ensures Run(s, steps + [a] + [b] + [c]) == Next(Next(Next(Run(s, steps), a), b), c)
  {
    RunAppend(s, steps, a);
    RunAppend(s, steps + [a], b);
    RunAppend(s, steps + [a] + [b], c);
  }

  /** The first n parts in a row. */
  function Concat(parts: nat -> seq<Step>, n: nat): seq<Step> {
    if n == 0 then [] else Concat(parts, n - 1) + parts(n - 1)
  }

  predicate PartLeads(parts: nat -> seq<Step>, states: nat -> State, i: nat) {
    Run(states(i), parts(i)) == states(i + 1)
  }

  lemma {:induction false} RunSplit(s: State, first: seq<Step>, rest: seq<Step>)
    ensures Run(s, first + rest) == Run(Run(s, first), rest)
  {
    if rest == [] {
      assert first + rest == first;
    } else {
      RunSplit(s, first, rest[..|rest| - 1]);
      assert (first + rest)[..|first + rest| - 1] == first + rest[..|rest| - 1];
    }
  }

  lemma RunOnto(s: State, first: seq<Step>, s1: State, rest: seq<Step>, s2: State)
    requires Run(s, first) == s1 && Run(s1, rest) == s2
    ensures Run(s, first + rest) == s2
  {
    RunSplit(s, first, rest);
  }

  /** If each part leads from one state to the next, all of them lead from the first to the last. */
  lemma {:induction false} RunParts(parts: nat -> seq<Step>, states: nat -> State, n: nat)
    requires forall i: nat :: i < n ==> PartLeads(parts, states, i)
    ensures Run(states(0), Concat(parts, n)) == states(n)
  {
    if n > 0 {
      RunParts(parts, states, n - 1);
      assert PartLeads(parts, states, n - 1);
      RunOnto(states(0), Concat(parts, n - 1), states(n - 1), parts(n - 1), states(n));
    }
  }

  /** Before the first request: arbitrary non-negative balances on both sides, nothing recorded or sent. */
  predicate Init(s: State) {
    && s.tables.requests == [] && s.tables.events == []
    && s.hcm.transactions == map[] && s.hcm.idempotencyIndex == map[] && WellFormed(s.hcm)
    && s.worker.Idle? && s.wire == {} && s.maxAttempts >= 1
    && (forall k :: k in s.tables.balances ==> s.tables.balances[k].balanceDays >= 0.0)
    && (forall ks :: ks in s.hcm.balances ==> s.hcm.balances[ks].balanceDays >= 0.0)
  }
}
