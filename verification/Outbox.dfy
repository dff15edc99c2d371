/** The outbox table: enqueueing, claiming in creation order, and the status changes of a delivery. */
module Outbox {
  import opened Common
  import opened Entities

  // ---- idempotency keys ----

  function SubmitKey(requestId: string): string { requestId + ":submit" }

  function RefundKey(requestId: string): string { requestId + ":refund" }

  /** The key determines both the request and the direction. */
  lemma KeysApart(a: string, b: string)
    ensures SubmitKey(a) == SubmitKey(b) ==> a == b
    ensures RefundKey(a) == RefundKey(b) ==> a == b
    ensures SubmitKey(a) != RefundKey(b)
    ensures SubmitKey(a) != "" && RefundKey(a) != ""
  {
    var sa, sb := SubmitKey(a), SubmitKey(b);
    var ra, rb := RefundKey(a), RefundKey(b);
    assert |sa| == |a| + 7 == |ra| && |sb| == |b| + 7 == |rb|;
    assert a == sa[..|sa| - 7] == ra[..|ra| - 7] && b == sb[..|sb| - 7] == rb[..|rb| - 7];
    assert sa[|sa| - 1] == 't' && rb[|rb| - 1] == 'd';
  }

  // ---- rows ----

  function DebitEvent(r: Request, now: int): OutboxEvent {
    OutboxEvent(r.id, HCM_SUBMIT_DEBIT, SubmitKey(r.id),
                Payload(r.employeeId, r.locationId, r.days, DEBIT), PENDING, 0, Some(now))
  }

  function CreditEvent(r: Request, now: int): OutboxEvent {
    OutboxEvent(r.id, HCM_SUBMIT_CREDIT, RefundKey(r.id),
                Payload(r.employeeId, r.locationId, r.days, CREDIT), PENDING, 0, Some(now))
  }

  function InFlight(ev: OutboxEvent): OutboxEvent { ev.(status := IN_FLIGHT) }

  function Sent(ev: OutboxEvent): OutboxEvent { ev.(status := SENT) }

  function RetryAt(ev: OutboxEvent, next: int): OutboxEvent {
    ev.(status := FAILED, attempts := ev.attempts + 1, nextAttemptAt := Some(next))
  }

  function GivenUp(ev: OutboxEvent): OutboxEvent {
    ev.(status := FAILED_PERMANENT, attempts := ev.attempts + 1)
  }

  function Replayed(ev: OutboxEvent, now: int): OutboxEvent {
    ev.(status := PENDING, nextAttemptAt := Some(now))
  }

  /** The same event up to the columns a delivery changes. */
  predicate SameEvent(a: OutboxEvent, b: OutboxEvent) {
    a.aggregateId == b.aggregateId && a.eventType == b.eventType &&
    a.idempotencyKey == b.idempotencyKey && a.payload == b.payload
  }

  // ---- claiming ----

  /** A row the worker loaded, with its primary key. */
  datatype Claimed = Claimed(pos: nat, ev: OutboxEvent)

  predicate Claimable(ev: OutboxEvent) {
    ev.status.PENDING? || ev.status.FAILED?
  }

  predicate Ready(ev: OutboxEvent, now: int) {
    || (ev.status.PENDING? && (ev.nextAttemptAt.None? || ev.nextAttemptAt.value <= now))
    || (ev.status.FAILED? && ev.nextAttemptAt.Some? && ev.nextAttemptAt.value <= now)
  }

  /** The first `limit` ready rows in creation order. */
  function ClaimBatch(events: seq<OutboxEvent>, now: int, limit: nat): seq<Claimed> {
    if events == [] then []
    else
      var n := |events| - 1;
      var batch := ClaimBatch(events[..n], now, limit);
      if Ready(events[n], now) && |batch| < limit then batch + [Claimed(n, events[n])] else batch
  }

  predicate Ascending(batch: seq<Claimed>) {
    forall i, j :: 0 <= i < j < |batch| ==> batch[i].pos < batch[j].pos
  }

  predicate Holds(batch: seq<Claimed>, x: nat) {
    exists i :: 0 <= i < |batch| && batch[i].pos == x
  }

  /** The batch holds ready rows as stored, in ascending order, at most `limit` of them. */
  lemma {:induction false} ClaimIsSound(events: seq<OutboxEvent>, now: int, limit: nat)
    ensures var batch := ClaimBatch(events, now, limit);
            && |batch| <= limit
            && Ascending(batch)
            && forall i :: 0 <= i < |batch| ==>
                 batch[i].pos < |events| && batch[i].ev == events[batch[i].pos] && Ready(batch[i].ev, now)
  {
    if events != [] {
      ClaimIsSound(events[..|events| - 1], now, limit);
    }
  }

  /** A longer table keeps what was claimed and adds its last row if that is ready and there is room. */
  lemma ClaimGrows(events: seq<OutboxEvent>, now: int, limit: nat, x: nat)
    requires events != []
    requires var n := |events| - 1;
             var init := ClaimBatch(events[..n], now, limit);
             Holds(init, x) || (x == n && Ready(events[n], now) && |init| < limit)
    ensures Holds(ClaimBatch(events, now, limit), x)
  {
    var n := |events| - 1;
    var init, batch := ClaimBatch(events[..n], now, limit), ClaimBatch(events, now, limit);
    if Holds(init, x) {
      var i :| 0 <= i < |init| && init[i].pos == x;
      assert batch[i].pos == x;
    } else {
      assert batch[|init|].pos == x;
    }
  }

  /** A ready row is left out only behind a full batch of older ones. */
  lemma {:induction false} LeftOutBehindFullBatch(events: seq<OutboxEvent>, now: int, limit: nat, x: nat)
    requires x < |events| && Ready(events[x], now)
    ensures var batch := ClaimBatch(events, now, limit);
            Holds(batch, x) || (|batch| == limit && forall i :: 0 <= i < |batch| ==> batch[i].pos < x)
  {
    var n := |events| - 1;
    var init := ClaimBatch(events[..n], now, limit);
    ClaimIsSound(events[..n], now, limit);
    if x < n {
      LeftOutBehindFullBatch(events[..n], now, limit, x);
    }
    if Holds(init, x) || (x == n && |init| < limit) {
      ClaimGrows(events, now, limit, x);
    }
  }

  /** What a tick loads: the oldest ready rows, and all of them unless the batch is full. */
  lemma ClaimOldestFirst(events: seq<OutboxEvent>, now: int, limit: nat)
    ensures var batch := ClaimBatch(events, now, limit);
            && |batch| <= limit
            && Ascending(batch)
            && (forall i :: 0 <= i < |batch| ==>
                  batch[i].pos < |events| && batch[i].ev == events[batch[i].pos] && Ready(batch[i].ev, now))
            && (forall x :: 0 <= x < |events| && Ready(events[x], now) && !Holds(batch, x) ==>
                  |batch| == limit && forall i :: 0 <= i < |batch| ==> batch[i].pos < x)
  {
    ClaimIsSound(events, now, limit);
    var batch := ClaimBatch(events, now, limit);
    forall x | 0 <= x < |events| && Ready(events[x], now) && !Holds(batch, x)
      ensures |batch| == limit && forall i :: 0 <= i < |batch| ==> batch[i].pos < x
    {
      LeftOutBehindFullBatch(events, now, limit, x);
    }
  }

  /** A row is due from its time on while it waits or has failed, and a waiting row without a time is due at once. */
  predicate Due(ev: OutboxEvent, now: int) {
    if ev.nextAttemptAt.Some? then (ev.status == PENDING || ev.status == FAILED) && ev.nextAttemptAt.value <= now
    else ev.status == PENDING
  }

  function CountDue(events: seq<OutboxEvent>, now: int): nat {
    if events == [] then 0
    else CountDue(events[..|events| - 1], now) + if Due(events[|events| - 1], now) then 1 else 0
  }

  lemma {:induction false} BatchSize(events: seq<OutboxEvent>, now: int, limit: nat)
    ensures |ClaimBatch(events, now, limit)| == if CountDue(events, now) < limit then CountDue(events, now) else limit
  {
    if events != [] {
      BatchSize(events[..|events| - 1], now, limit);
    }
  }

  /** A row is claimed exactly if it is due and fewer than `limit` older rows are. */
  lemma {:induction false} ClaimedIff(events: seq<OutboxEvent>, now: int, limit: nat, x: nat)
    ensures Holds(ClaimBatch(events, now, limit), x) <==>
            x < |events| && Due(events[x], now) && CountDue(events[..x], now) < limit
  {
    if events != [] {
      var n := |events| - 1;
      var init, batch := ClaimBatch(events[..n], now, limit), ClaimBatch(events, now, limit);
      ClaimedIff(events[..n], now, limit, x);
      BatchSize(events[..n], now, limit);
      ClaimIsSound(events[..n], now, limit);
      if x < n {
        assert events[..n][..x] == events[..x];
      }
      if Holds(init, x) || (x == n && Due(events[n], now) && |init| < limit) {
        ClaimGrows(events, now, limit, x);
      }
      if Holds(batch, x) {
        var i :| 0 <= i < |batch| && batch[i].pos == x;
        assert i < |init| ==> init[i].pos == x;
      }
    }
  }

  /** Once due, a row stays due as the clock advances. */
  lemma DuePersists(ev: OutboxEvent, now: int, later: int)
    requires now <= later && Ready(ev, now)
    ensures Ready(ev, later) && Due(ev, now)
  {
  }

  class OutboxService {
    const db: Database

    constructor (db: Database)
      ensures this.db == db
    {
      this.db := db;
    }

    method EnqueueInTransaction(ev: OutboxEvent)
      modifies db`events
      ensures db.events == old(db.events) + [ev]
    {
      db.events := db.events + [ev];
    }

    method Claim(now: int, limit: nat) returns (batch: seq<Claimed>)
      ensures batch == ClaimBatch(db.events, now, limit)
      ensures |batch| <= limit && Ascending(batch)
      ensures forall i :: 0 <= i < |batch| ==> batch[i].pos < |db.events| && batch[i].ev == db.events[batch[i].pos]
      ensures forall x: nat :: Holds(batch, x) <==>
                x < |db.events| && Due(db.events[x], now) && CountDue(db.events[..x], now) < limit
    {
      batch := ClaimBatch(db.events, now, limit);
      ClaimOldestFirst(db.events, now, limit);
      forall x: nat
        ensures Holds(batch, x) <==> x < |db.events| && Due(db.events[x], now) && CountDue(db.events[..x], now) < limit
      {
        ClaimedIff(db.events, now, limit, x);
      }
    }

    /** repo.save of a loaded entity: the row takes the entity's columns. */
    method Save(c: Claimed)
      requires c.pos < |db.events|
      modifies db`events
      ensures db.events == old(db.events)[c.pos := c.ev]
    {
      db.events := db.events[c.pos := c.ev];
    }

    method MarkInFlight(c: Claimed) returns (saved: Claimed)
      requires c.pos < |db.events|
      modifies db`events
      ensures saved == Claimed(c.pos, c.ev.(status := IN_FLIGHT))
      ensures db.events == old(db.events)[c.pos := saved.ev]
    {
      saved := c.(ev := InFlight(c.ev));
      Save(saved);
    }

    method MarkSent(c: Claimed)
      requires c.pos < |db.events|
      modifies db`events
      ensures db.events == old(db.events)[c.pos := c.ev.(status := SENT)]
    {
      Save(c.(ev := Sent(c.ev)));
    }

    method MarkFailedRetry(c: Claimed, next: int)
      requires c.pos < |db.events|
      modifies db`events
      ensures db.events == old(db.events)[c.pos :=
                c.ev.(status := FAILED, attempts := c.ev.attempts + 1, nextAttemptAt := Some(next))]
    {
      Save(c.(ev := c.ev.(status := FAILED, attempts := c.ev.attempts + 1, nextAttemptAt := Some(next))));
    }

    method MarkPermanentlyFailed(c: Claimed)
      requires c.pos < |db.events|
      modifies db`events
      ensures db.events == old(db.events)[c.pos := c.ev.(status := FAILED_PERMANENT, attempts := c.ev.attempts + 1)]
    {
      Save(c.(ev := c.ev.(status := FAILED_PERMANENT, attempts := c.ev.attempts + 1)));
    }

    method ForceReplay(pos: nat, now: int) returns (found: bool)
      modifies db`events
      ensures found == (pos < |old(db.events)|)
      ensures db.events == if found then old(db.events)[pos := old(db.events)[pos].(status := PENDING, nextAttemptAt := Some(now))]
                           else old(db.events)
    {
      found := pos < |db.events|;
      if found {
        db.events := db.events[pos := db.events[pos].(status := PENDING, nextAttemptAt := Some(now))];
      }
    }
  }
}
