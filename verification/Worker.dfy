/** OutboxWorker as it runs: processOne, the guarded tick and drain, each a run of the protocol. */
module OutboxWorkers {
  import opened Common
  import opened Entities
  import opened Backoff
  import opened Outbox
  import opened TimeOffRequests
  import opened Hcm
  import opened Protocol

  /** One arrival of a submission at HCM while the client waits. */
  datatype Delivery = Delivery(mode: FailureMode, flaky: bool, txId: string, now: int)

  /**
   * What network and HCM do with one submission, and the clock and jitter behind it. No delivery at all is an open
   * circuit or an unreachable HCM; several are the client's own HTTP retries.
   */
  datatype Exchange = Exchange(deliveries: seq<Delivery>, lost: bool, now: int, jitter: real)

  /** One tick: when it claims, and what happens to each of its submissions. */
  datatype Round = Round(now: int, exchanges: seq<Exchange>)

  function ExchangeAt(round: Round, i: nat): Exchange {
    if i < |round.exchanges| then round.exchanges[i] else Exchange([], true, round.now, 0.0)
  }

  // ---- the protocol steps of an undisturbed worker ----

  function Deliveries(e: nat, ds: seq<Delivery>): seq<Step> {
    if ds == [] then []
    else
      var d := ds[|ds| - 1];
      Deliveries(e, ds[..|ds| - 1]) + [Deliver(e, d.mode, d.flaky, d.txId, d.now)]
  }

  function EventSteps(e: nat, x: Exchange): seq<Step> {
    ([Advance] + Deliveries(e, x.deliveries)) + [Receive(x.lost)] + [Settle(x.now, x.jitter)] + [Close]
  }

  /** How far a worker got: its state, the rows it processed, and whether telling a request threw. */
  datatype Progress = Progress(state: State, processed: nat, threw: bool)

  /** The rows of the batch from position i on, up to one that throws and thereby leaves the worker idle. */
  function RunRows(s: State, batch: seq<Claimed>, round: Round, i: nat): Progress
    requires i <= |batch|
    decreases |batch| - i
  {
    if i == |batch| then Progress(s, i, false)
    else
      var s' := Run(s, EventSteps(batch[i].pos, ExchangeAt(round, i)));
      if s'.worker.Idle? then Progress(s', i, true) else RunRows(s', batch, round, i + 1)
  }

  function RunTick(s: State, round: Round): Progress {
    var p := RunRows(DoClaim(s, round.now), ClaimBatch(s.tables.events, round.now, BATCH_LIMIT), round, 0);
    p.(state := DoAdvance(p.state))
  }

  /** With `done` rows processed, tick after tick until one throws, one finds nothing ready, or the rounds are used up. */
  function DrainBy(tick: (State, Round) -> Progress, s: State, rounds: seq<Round>, i: nat, done: nat): Progress
    requires i <= |rounds|
    decreases |rounds| - i
  {
    if i == |rounds| then Progress(s, done, false)
    else
      var t := tick(s, rounds[i]);
      if t.threw || t.processed == 0 then t.(processed := done + t.processed)
      else DrainBy(tick, t.state, rounds, i + 1, done + t.processed)
  }

  function RunDrain(s: State, rounds: seq<Round>, i: nat, done: nat): Progress
    requires i <= |rounds|
  {
    DrainBy(RunTick, s, rounds, i, done)
  }

  lemma OneMoreDelivery(e: nat, ds: seq<Delivery>, i: nat)
    requires i < |ds|
    ensures var d := ds[i];
            [Advance] + Deliveries(e, ds[..i + 1]) ==
            ([Advance] + Deliveries(e, ds[..i])) + [Deliver(e, d.mode, d.flaky, d.txId, d.now)]
  {
    assert ds[..i + 1][..i] == ds[..i];
  }

  lemma RunDelivery(s: State, e: nat, ds: seq<Delivery>, i: nat)
    requires i < |ds|
    ensures var d := ds[i];
            Run(s, [Advance] + Deliveries(e, ds[..i + 1])) ==
            DoDeliver(Run(s, [Advance] + Deliveries(e, ds[..i])), e, d.mode, d.flaky, d.txId, d.now)
  {
    OneMoreDelivery(e, ds, i);
    RunAppend(s, [Advance] + Deliveries(e, ds[..i]), Deliver(e, ds[i].mode, ds[i].flaky, ds[i].txId, ds[i].now));
  }

  lemma RunTake(s: State, c: Claimed, rest: seq<Claimed>)
    requires s.worker == Working([c] + rest, BetweenEvents) && c.pos < |s.tables.events|
    ensures var current := c.(ev := InFlight(c.ev));
            Run(s, [Advance]) ==
            s.(tables := s.tables.(events := s.tables.events[c.pos := current.ev]),
               worker := Working(rest, Submitting(current, None)), wire := s.wire + {c.pos})
  {
    AdvanceTakes(s, c, rest);
    RunAppend(s, [], Advance);
  }

  lemma AdvanceTakes(s: State, c: Claimed, rest: seq<Claimed>)
    requires s.worker == Working([c] + rest, BetweenEvents) && c.pos < |s.tables.events|
    ensures var current := c.(ev := InFlight(c.ev));
            Next(s, Advance) ==
            s.(tables := s.tables.(events := s.tables.events[c.pos := current.ev]),
               worker := Working(rest, Submitting(current, None)), wire := s.wire + {c.pos})
  {
    assert ([c] + rest)[1..] == rest;
    assert Next(s, Advance) == DoAdvance(s);
  }

  lemma RunEvent(s: State, e: nat, x: Exchange)
    ensures Run(s, EventSteps(e, x)) ==
            DoClose(DoSettle(DoReceive(Run(s, [Advance] + Deliveries(e, x.deliveries)), x.lost), x.now, x.jitter))
  {
    var sent := [Advance] + Deliveries(e, x.deliveries);
    RunAppend(s, sent, Receive(x.lost));
    RunAppend(s, sent + [Receive(x.lost)], Settle(x.now, x.jitter));
    RunAppend(s, sent + [Receive(x.lost)] + [Settle(x.now, x.jitter)], Close);
  }

  // ---- whatever the worker does is a run of the protocol, so everything proved of runs holds of it ----

  /** The steps of rows i to n of the batch, each row's after the one before. */
  function RowsSteps(batch: seq<Claimed>, round: Round, i: nat, n: nat): seq<Step>
    requires n <= |batch|
    decreases n - i
  {
    if i >= n then [] else EventSteps(batch[i].pos, ExchangeAt(round, i)) + RowsSteps(batch, round, i + 1, n)
  }

  /** How many rows were taken up: those processed, and the one that threw. */
  function TakenUp(p: Progress): nat {
    p.processed + if p.threw then 1 else 0
  }

  /** The rows are processed in order, each once, all of them unless one throws, and none after that one. */
  lemma {:induction false} RowsAreRun(s: State, batch: seq<Claimed>, round: Round, i: nat)
    requires i <= |batch|
    ensures var p := RunRows(s, batch, round, i);
            && i <= p.processed <= TakenUp(p) <= |batch| && (!p.threw ==> p.processed == |batch|)
            && p.state == Run(s, RowsSteps(batch, round, i, TakenUp(p)))
    decreases |batch| - i
  {
    if i < |batch| {
      var row := EventSteps(batch[i].pos, ExchangeAt(round, i));
      var s' := Run(s, row);
      if s'.worker.Idle? {
        assert RowsSteps(batch, round, i, i + 1) == row + [];
        assert row + [] == row;
      } else {
        RowsAreRun(s', batch, round, i + 1);
        RunSplit(s, row, RowsSteps(batch, round, i + 1, TakenUp(RunRows(s', batch, round, i + 1))));
      }
    }
  }

  /** A tick claims, processes the rows of its batch in order until one throws, and goes idle. */
  lemma TickIsRun(s: State, round: Round) returns (t: Progress, steps: seq<Step>)
    ensures t == RunTick(s, round) && t.state == Run(s, steps)
    ensures var batch := ClaimBatch(s.tables.events, round.now, 20);
            && TakenUp(t) <= |batch| && (!t.threw ==> t.processed == |batch|)
            && steps == [Claim(round.now)] + RowsSteps(batch, round, 0, TakenUp(t)) + [Advance]
  {
    t := RunTick(s, round);
    var claimed, batch := [Claim(round.now)], ClaimBatch(s.tables.events, round.now, BATCH_LIMIT);
    RunAppend(s, [], Claim(round.now));
    RowsAreRun(DoClaim(s, round.now), batch, round, 0);
    var rows := RowsSteps(batch, round, 0, TakenUp(t));
    RunSplit(s, claimed, rows);
    RunAppend(s, claimed + rows, Advance);
    steps := claimed + rows + [Advance];
  }

  // ---- when drain stops ----

  predicate Busy(t: Progress) {
    !t.threw && t.processed > 0
  }

  /** The ticks from round i on, each from where the one before left off, up to the first that is not busy. */
  function Ticks(tick: (State, Round) -> Progress, s: State, rounds: seq<Round>, i: nat): seq<Progress>
    requires i <= |rounds|
    decreases |rounds| - i
  {
    if i == |rounds| then []
    else
      var t := tick(s, rounds[i]);
      [t] + if Busy(t) then Ticks(tick, t.state, rounds, i + 1) else []
  }

  function ProcessedBy(ticks: seq<Progress>): nat {
    if ticks == [] then 0 else ticks[0].processed + ProcessedBy(ticks[1..])
  }

  /** Where the ticks end, with all they processed. */
  function Total(s: State, ticks: seq<Progress>, done: nat): Progress {
    if ticks == [] then Progress(s, done, false) else ticks[|ticks| - 1].(processed := done + ProcessedBy(ticks))
  }

  /**
   * drain goes on exactly as long as ticks process something without throwing and rounds are left, ends where its last
   * tick ends, and counts every row processed.
   */
  lemma DrainStops(s: State, rounds: seq<Round>)
    ensures RunDrain(s, rounds, 0, 0) == Total(s, Ticks(RunTick, s, rounds, 0), 0)
  {
    DrainByTicks(RunTick, s, rounds, 0, 0);
  }

  lemma {:induction false} DrainByTicks(tick: (State, Round) -> Progress, s: State, rounds: seq<Round>, i: nat, done: nat)
    requires i <= |rounds|
    ensures DrainBy(tick, s, rounds, i, done) == Total(s, Ticks(tick, s, rounds, i), done)
    decreases |rounds| - i
  {
    if i < |rounds| {
      var t := tick(s, rounds[i]);
      var rest := if Busy(t) then Ticks(tick, t.state, rounds, i + 1) else [];
      if Busy(t) {
        DrainByTicks(tick, t.state, rounds, i + 1, done + t.processed);
      }
      MoreTotal(s, t, rest, done);
    }
  }

  lemma MoreTotal(s: State, t: Progress, rest: seq<Progress>, done: nat)
    ensures Total(s, [t] + rest, done) ==
            if Busy(t) || rest != [] then Total(t.state, rest, done + t.processed)
            else t.(processed := done + t.processed)
  {
    var ticks := [t] + rest;
    assert ticks[1..] == rest && ticks[|ticks| - 1] == if rest == [] then t else rest[|rest| - 1];
    assert ProcessedBy(ticks) == t.processed + ProcessedBy(rest);
  }

  lemma DrainUnfolds(s: State, rounds: seq<Round>, i: nat, done: nat, t: Progress)
    requires i < |rounds| && RunTick(s, rounds[i]) == t
    ensures RunDrain(s, rounds, i, done) ==
            if t.threw || t.processed == 0 then t.(processed := done + t.processed)
            else RunDrain(t.state, rounds, i + 1, done + t.processed)
  {
  }

  lemma {:induction false} DrainIsRun(s: State, rounds: seq<Round>, i: nat, done: nat) returns (p: Progress, steps: seq<Step>)
    requires i <= |rounds|
    ensures p == RunDrain(s, rounds, i, done) && p.state == Run(s, steps)
    decreases |rounds| - i
  {
    if i == |rounds| {
      p, steps := Progress(s, done, false), [];
    } else {
      var t;
      t, steps := TickIsRun(s, rounds[i]);
      DrainUnfolds(s, rounds, i, done, t);
      if t.threw || t.processed == 0 {
        p := t.(processed := done + t.processed);
      } else {
        var rest;
        p, rest := DrainIsRun(t.state, rounds, i + 1, done + t.processed);
        RunSplit(s, steps, rest);
        steps := steps + rest;
      }
    }
  }

  class OutboxWorker {
    const db: Database
    const outbox: OutboxService
    const requests: TimeOffRequestsService
    const hcm: TransactionsController
    const maxAttempts: nat
    var running: bool
    /** Events whose submission has ever been sent. */
    ghost var wire: set<nat>

    constructor (db: Database, outbox: OutboxService, requests: TimeOffRequestsService, hcm: TransactionsController, maxAttempts: nat)
      requires outbox.db == db && requests.db == db && requests.Valid()
      ensures Valid() && !running && wire == {}
      ensures this.db == db && this.hcm == hcm && this.maxAttempts == maxAttempts
    {
      this.db, this.outbox, this.requests, this.hcm, this.maxAttempts := db, outbox, requests, hcm, maxAttempts;
      running := false;
      wire := {};
    }

    predicate Valid() {
      outbox.db == db && requests.db == db && requests.Valid()
    }

    /** The protocol state with the worker at control point w. */
    ghost function At(w: Worker): State
      reads this, db, hcm.store
    {
      State(db.Value(), hcm.store.Value(), w, wire, maxAttempts)
    }

    /** submitTransaction, as HCM and the network let it go. */
    method Submit(c: Claimed, x: Exchange, ghost s0: State, ghost rest: seq<Claimed>) returns (result: SubmitResult)
      requires Valid() && c.pos < |db.events| && db.events[c.pos] == c.ev && c.pos in wire
      requires Run(s0, [Advance]) == At(Working(rest, Submitting(c, None)))
      modifies hcm.store
      ensures DoReceive(Run(s0, [Advance] + Deliveries(c.pos, x.deliveries)), x.lost) == At(Working(rest, Settling(c, result)))
    {
      var reply: Option<SubmitResult> := None;
      assert [Advance] + Deliveries(c.pos, x.deliveries[..0]) == [Advance];
      for i := 0 to |x.deliveries|
        invariant Run(s0, [Advance] + Deliveries(c.pos, x.deliveries[..i])) == At(Working(rest, Submitting(c, reply)))
      {
        var d := x.deliveries[i];
        ghost var s := At(Working(rest, Submitting(c, reply)));
        RunDelivery(s0, c.pos, x.deliveries, i);
        if FreshId(hcm.store.Value(), d.txId) {
          var response := hcm.SubmitTransaction(d.mode, d.flaky, c.ev.idempotencyKey, c.ev.payload, d.txId, d.now);
          reply := Some(Classify(response));
        }
        assert DoDeliver(s, c.pos, d.mode, d.flaky, d.txId, d.now) == At(Working(rest, Submitting(c, reply)));
      }
      assert x.deliveries[..|x.deliveries|] == x.deliveries;
      result := if x.lost || reply.None? then NoAnswer else reply.value;
    }

    /** What processOne does with the result; true if telling the request threw. */
    method Conclude(c: Claimed, result: SubmitResult, now: int, jitter: real, ghost rest: seq<Claimed>) returns (threw: bool)
      requires Valid() && c.pos < |db.events|
      modifies db
      ensures var s := DoClose(DoSettle(old(At(Working(rest, Settling(c, result)))), now, jitter));
              s == At(if threw then Idle else Working(rest, BetweenEvents))
      ensures db.events == old(db.events)[c.pos :=
                match result
                case Ok(_) => c.ev.(status := SENT)
                case Refused(_) => c.ev.(status := FAILED_PERMANENT, attempts := c.ev.attempts + 1)
                case NoAnswer =>
                  if c.ev.attempts + 1 >= maxAttempts
                  then c.ev.(status := FAILED_PERMANENT, attempts := c.ev.attempts + 1)
                  else c.ev.(status := FAILED, attempts := c.ev.attempts + 1,
                             nextAttemptAt := Some(now + ComputeBackoffMs(c.ev.attempts + 1, jitter)))]
      ensures threw ==> !result.NoAnswer? && c.ev.eventType == HCM_SUBMIT_DEBIT
    {
      threw := false;
      match result
      case Ok(tx) =>
        outbox.MarkSent(c);
        if c.ev.eventType == HCM_SUBMIT_DEBIT {
          var r := requests.MarkHcmConfirmed(c.ev.aggregateId, tx.transactionId);
          threw := r.Failure?;
        }
      case Refused(code) =>
        outbox.MarkPermanentlyFailed(c);
        if c.ev.eventType == HCM_SUBMIT_DEBIT {
          var r := requests.MarkHcmRejected(c.ev.aggregateId, CodeText(code));
          threw := r.Failure?;
        }
      case NoAnswer =>
        if c.ev.attempts + 1 >= maxAttempts {
          outbox.MarkPermanentlyFailed(c);
        } else {
          outbox.MarkFailedRetry(c, now + ComputeBackoffMs(c.ev.attempts + 1, jitter));
        }
    }

    /** `rest` is what the tick still holds behind the row. */
    method ProcessOne(c: Claimed, x: Exchange, ghost rest: seq<Claimed>) returns (threw: bool)
      requires Valid() && c.pos < |db.events|
      modifies db, hcm.store, this`wire
      ensures |db.events| == |old(db.events)|
      ensures Run(old(At(Working([c] + rest, BetweenEvents))), EventSteps(c.pos, x)) ==
              At(if threw then Idle else Working(rest, BetweenEvents))
    {
      ghost var s0 := At(Working([c] + rest, BetweenEvents));
      var current := outbox.MarkInFlight(c);
      wire := wire + {c.pos};
      RunTake(s0, c, rest);
      var result := Submit(current, x, s0, rest);
      RunEvent(s0, c.pos, x);
      threw := Conclude(current, result, x.now, x.jitter, rest);
    }

    /** The rows of one batch in order; a throw abandons the rest of them. */
    method ProcessBatch(batch: seq<Claimed>, round: Round) returns (processed: nat, threw: bool)
      requires Valid() && forall i :: 0 <= i < |batch| ==> batch[i].pos < |db.events|
      modifies db, hcm.store, this`wire
      ensures RunRows(old(At(Working(batch, BetweenEvents))), batch, round, 0) ==
              Progress(At(if threw then Idle else Working([], BetweenEvents)), processed, threw)
    {
      processed := 0;
      assert batch[0..] == batch;
      while processed < |batch|
        invariant processed <= |batch|
        invariant forall i :: 0 <= i < |batch| ==> batch[i].pos < |db.events|
        invariant RunRows(old(At(Working(batch, BetweenEvents))), batch, round, 0) ==
                  RunRows(At(Working(batch[processed..], BetweenEvents)), batch, round, processed)
      {
        assert [batch[processed]] + batch[processed + 1..] == batch[processed..];
        threw := ProcessOne(batch[processed], ExchangeAt(round, processed), batch[processed + 1..]);
        if threw {
          return;
        }
        processed := processed + 1;
      }
      assert batch[|batch|..] == [];
      threw := false;
    }

    /** The running guard around one batch. */
    method Tick(round: Round) returns (processed: nat, threw: bool)
      requires Valid()
      modifies this, db, hcm.store
      ensures running == old(running)
      ensures running ==> processed == 0 && !threw && At(Idle) == old(At(Idle))
      ensures !running ==> RunTick(old(At(Idle)), round) == Progress(At(Idle), processed, threw)
    {
      if running {
        return 0, false;
      }
      running := true;
      var batch := outbox.Claim(round.now, BATCH_LIMIT);
      processed, threw := ProcessBatch(batch, round);
      running := false;
    }

    /** Ticks until one finds nothing ready, for at most as many rounds as given (five by default). */
    method Drain(rounds: seq<Round>) returns (total: nat, threw: bool)
      requires Valid()
      modifies this, db, hcm.store
      ensures running == old(running)
      ensures running ==> total == 0 && !threw && At(Idle) == old(At(Idle))
      ensures !running ==> RunDrain(old(At(Idle)), rounds, 0, 0) == Progress(At(Idle), total, threw)
    {
      total := 0;
      ghost var s0 := At(Idle);
      for i := 0 to |rounds|
        invariant running == old(running)
        invariant running ==> total == 0 && At(Idle) == s0
        invariant !running ==> RunDrain(s0, rounds, 0, 0) == RunDrain(At(Idle), rounds, i, total)
      {
        ghost var s, done := At(Idle), total;
        var n, failed := Tick(rounds[i]);
        ghost var t := Progress(At(Idle), n, failed);
        assert !running ==> RunTick(s, rounds[i]) == t;
        total := total + n;
        if failed || n == 0 {
          if !running {
            DrainUnfolds(s, rounds, i, done, t);
          }
          return total, failed;
        }
        if !running {
          DrainUnfolds(s, rounds, i, done, t);
        }
      }
      threw := false;
    }
  }
}
