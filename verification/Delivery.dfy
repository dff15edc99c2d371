/** How often and how soon an event is submitted again, and what a crash leaves behind. */
module Delivery {
  import opened Common
  import opened Entities
  import opened Outbox
  import opened Backoff
  import opened Hcm
  import opened Protocol
  import opened Invariant
  import opened Reachable

  /** The step makes the worker submit event e. */
  predicate Submits(s: State, step: Step, e: nat) {
    step.Advance? && s.worker.Working? && s.worker.phase.BetweenEvents? && s.worker.queue != [] && s.worker.queue[0].pos == e
  }

  function Submissions(s: State, steps: seq<Step>, e: nat): nat {
    if steps == [] then 0
    else
      var n := |steps| - 1;
      Submissions(s, steps[..n], e) + if Submits(Run(s, steps[..n]), steps[n], e) then 1 else 0
  }

  lemma StepWire(s: State, step: Step, e: nat)
    ensures e in Next(s, step).wire <==> e in s.wire || Submits(s, step, e)
  {
  }

  /** Copies of exactly the rows ever submitted can still reach HCM, whatever has happened to worker and row since. */
  lemma {:induction false} WireIsSubmitted(s: State, steps: seq<Step>, e: nat)
    ensures e in Run(s, steps).wire <==> e in s.wire || Submissions(s, steps, e) > 0
  {
    if steps != [] {
      var n := |steps| - 1;
      WireIsSubmitted(s, steps[..n], e);
      StepWire(Run(s, steps[..n]), steps[n], e);
    }
  }

  predicate ReplaysEvent(step: Step, e: nat) {
    step.Replay? && step.event == e
  }

  function Replays(steps: seq<Step>, e: nat): nat {
    if steps == [] then 0
    else Replays(steps[..|steps| - 1], e) + if ReplaysEvent(steps[|steps| - 1], e) then 1 else 0
  }

  /** A submission the row does not count yet, or never will. */
  predicate Uncounted(ev: OutboxEvent) {
    ev.status.IN_FLIGHT? || ev.status.SENT?
  }

  function Uncounts(s: State, steps: seq<Step>, e: nat): nat {
    if steps == [] then 0
    else
      var n := |steps| - 1;
      var events := Run(s, steps[..n]).tables.events;
      Uncounts(s, steps[..n], e) + if ReplaysEvent(steps[n], e) && e < |events| && Uncounted(events[e]) then 1 else 0
  }

  /**
   * The attempt counter against the limit, with `restarts` replays of counted rows and `uncounts` replays of uncounted
   * ones, after `submissions` submissions.
   */
  predicate Metered(s: State, e: nat, submissions: nat, restarts: nat, uncounts: nat) {
    if e < |s.tables.events| then
      var ev := s.tables.events[e];
      && ev.attempts <= s.maxAttempts + restarts
      && (!ev.status.FAILED_PERMANENT? || Holds(Unsettled(s.worker), e) ==> ev.attempts < s.maxAttempts + restarts)
      && (s.worker.Working? && Holds(s.worker.queue, e) ==> Claimable(ev))
      && submissions <= ev.attempts + uncounts + if Uncounted(ev) then 1 else 0
    else submissions == 0
  }

  lemma HoldsTail(rows: seq<Claimed>, x: nat)
    requires rows != []
    ensures Holds(rows, x) <==> rows[0].pos == x || Holds(rows[1..], x)
  {
    if Holds(rows, x) && rows[0].pos != x {
      var i :| 0 <= i < |rows| && rows[i].pos == x;
      assert rows[1..][i - 1].pos == x;
    }
    if Holds(rows[1..], x) {
      var i :| 0 <= i < |rows| - 1 && rows[1..][i].pos == x;
      assert rows[i + 1].pos == x;
    }
  }

  /** The current row is not also queued. */
  lemma CurrentNotQueued(rows: seq<Claimed>, events: seq<OutboxEvent>)
    requires SnapAll(rows, events) && rows != []
    ensures !Holds(rows[1..], rows[0].pos)
  {
    assert forall i :: 0 <= i < |rows| - 1 ==> rows[1..][i] == rows[i + 1];
  }

  function Queue(w: Worker): seq<Claimed> {
    if w.Working? then w.queue else []
  }

  /** Steps that leave the row of e alone and load nothing keep the meter. */
  lemma MeterUntouched(s: State, s': State, e: nat, submissions: nat, restarts: nat, uncounts: nat)
    requires s.maxAttempts >= 1 && Metered(s, e, submissions, restarts, uncounts) && s'.maxAttempts == s.maxAttempts
    requires |s.tables.events| <= |s'.tables.events|
    requires e < |s.tables.events| ==> s'.tables.events[e] == s.tables.events[e]
    requires |s.tables.events| <= e < |s'.tables.events| ==> s'.tables.events[e].status.PENDING? && s'.tables.events[e].attempts == 0
    requires Holds(Unsettled(s'.worker), e) ==> Holds(Unsettled(s.worker), e)
    requires Holds(Queue(s'.worker), e) ==> Holds(Queue(s.worker), e)
    ensures Metered(s', e, submissions, restarts, uncounts)
  {
  }

  lemma ClaimMeters(s: State, now: int, e: nat, submissions: nat, restarts: nat, uncounts: nat)
    requires Metered(s, e, submissions, restarts, uncounts)
    ensures Metered(DoClaim(s, now), e, submissions, restarts, uncounts)
  {
    ClaimOldestFirst(s.tables.events, now, BATCH_LIMIT);
  }

  lemma ReplayMeters(s: State, e: nat, now: int, submissions: nat, restarts: nat, uncounts: nat)
    requires Metered(s, e, submissions, restarts, uncounts)
    ensures var again := e < |s.tables.events| && Uncounted(s.tables.events[e]);
            Metered(Next(s, Replay(e, now)), e, submissions, restarts + if again then 0 else 1, uncounts + if again then 1 else 0)
  {
  }

  lemma AdvanceHead(s: State)
    requires Inv(s) && s.worker.Working? && s.worker.phase.BetweenEvents? && s.worker.queue != []
    ensures var q, s' := s.worker.queue, DoAdvance(s);
            && q[0].pos < |s.tables.events| && SameEvent(q[0].ev, s.tables.events[q[0].pos])
            && s'.tables.events == s.tables.events[q[0].pos := InFlight(q[0].ev)]
            && q[0].ev.attempts == s.tables.events[q[0].pos].attempts
            && Unsettled(s.worker) == q
            && Unsettled(s'.worker) == [q[0].(ev := InFlight(q[0].ev))] + q[1..]
  {
    assert Snap(Outstanding(s.worker)[0], s.tables.events);
  }

  /** The head of the queue goes in flight: every position stays loaded or unloaded. */
  lemma HeadHolds(q: seq<Claimed>, c: Claimed, j: nat)
    requires q != [] && c.pos == q[0].pos
    ensures Holds([c] + q[1..], j) <==> Holds(q, j)
  {
    HoldsTail(q, j);
    HoldsTail([c] + q[1..], j);
    assert ([c] + q[1..])[1..] == q[1..];
  }

  /** The row being taken up is counted as submitted; the others are not touched. */
  lemma TakenMeters(s: State, s': State, c: Claimed, submissions: nat, restarts: nat, uncounts: nat)
    requires Metered(s, c.pos, submissions, restarts, uncounts) && Holds(Queue(s.worker), c.pos)
    requires s.worker.Working? && c.pos < |s.tables.events| && c.ev.attempts == s.tables.events[c.pos].attempts
    requires s'.tables.events == s.tables.events[c.pos := c.ev] && c.ev.status == IN_FLIGHT
    requires s'.maxAttempts == s.maxAttempts && Holds(Unsettled(s.worker), c.pos) && !Holds(Queue(s'.worker), c.pos)
    ensures Metered(s', c.pos, submissions + 1, restarts, uncounts)
  {
  }

  lemma AdvanceMeters(s: State, e: nat, submissions: nat, restarts: nat, uncounts: nat)
    requires Inv(s) && s.maxAttempts >= 1 && Metered(s, e, submissions, restarts, uncounts)
    ensures Metered(DoAdvance(s), e, submissions + if Submits(s, Advance, e) then 1 else 0, restarts, uncounts)
  {
    if s.worker.Working? && s.worker.phase.BetweenEvents? && s.worker.queue != [] {
      var q, s' := s.worker.queue, DoAdvance(s);
      var c := q[0].(ev := InFlight(q[0].ev));
      AdvanceHead(s);
      CurrentNotQueued(q, s.tables.events);
      HeadHolds(q, c, e);
      HoldsTail(q, e);
      assert Queue(s'.worker) == q[1..];
      if e == c.pos {
        assert Holds(q, e);
        TakenMeters(s, s', c, submissions, restarts, uncounts);
      } else {
        MeterUntouched(s, s', e, submissions, restarts, uncounts);
      }
    }
  }

  /** Settling saves the current row and leaves the queue, which does not hold it. */
  lemma SettleRows(s: State, now: int, jitter: real)
    requires Inv(s) && s.worker.Working? && s.worker.phase.Settling?
    ensures var s', c := DoSettle(s, now, jitter), s.worker.phase.current;
            && c.pos < |s.tables.events| && c.ev.attempts == s.tables.events[c.pos].attempts
            && s'.tables.events ==
               s.tables.events[c.pos := Settled(c.ev, s.worker.phase.result, s.maxAttempts, now, jitter)]
            && Queue(s'.worker) == Unsettled(s'.worker) == Queue(s.worker) == Unsettled(s.worker)[1..]
            && Unsettled(s.worker) != [] && Unsettled(s.worker)[0] == c && !Holds(Queue(s.worker), c.pos)
            && s'.maxAttempts == s.maxAttempts
  {
    var out := Outstanding(s.worker);
    assert Snap(out[0], s.tables.events);
    assert out[1..] == s.worker.queue;
    CurrentNotQueued(out, s.tables.events);
  }

  lemma SettleMeters(s: State, now: int, jitter: real, e: nat, submissions: nat, restarts: nat, uncounts: nat)
    requires Inv(s) && s.maxAttempts >= 1 && Metered(s, e, submissions, restarts, uncounts)
    ensures Metered(DoSettle(s, now, jitter), e, submissions, restarts, uncounts)
  {
    if s.worker.Working? && s.worker.phase.Settling? {
      var s', c := DoSettle(s, now, jitter), s.worker.phase.current;
      SettleRows(s, now, jitter);
      HoldsTail(Unsettled(s.worker), e);
      if e == c.pos {
        SettledMeters(s, s', c, now, jitter, submissions, restarts, uncounts);
      } else {
        MeterUntouched(s, s', e, submissions, restarts, uncounts);
      }
    }
  }

  lemma SettledMeters(s: State, s': State, c: Claimed, now: int, jitter: real, submissions: nat, restarts: nat, uncounts: nat)
    requires Metered(s, c.pos, submissions, restarts, uncounts) && Holds(Unsettled(s.worker), c.pos)
    requires c.pos < |s.tables.events| && c.ev.attempts == s.tables.events[c.pos].attempts
    requires s.worker.Working? && s.worker.phase.Settling?
    requires s'.tables.events ==
             s.tables.events[c.pos := Settled(c.ev, s.worker.phase.result, s.maxAttempts, now, jitter)]
    requires s'.maxAttempts == s.maxAttempts && !Holds(Unsettled(s'.worker), c.pos) && !Holds(Queue(s'.worker), c.pos)
    ensures Metered(s', c.pos, submissions, restarts, uncounts)
  {
  }

  /** Service operations keep every stored row and the worker. */
  lemma LocalKeepsRows(s: State, step: Step, e: nat)
    requires Inv(s) && Local(step)
    ensures var t' := Next(s, step).tables;
            && |s.tables.events| <= |t'.events|
            && (e < |s.tables.events| ==> t'.events[e] == s.tables.events[e])
            && (|s.tables.events| <= e < |t'.events| ==> t'.events[e].status.PENDING? && t'.events[e].attempts == 0)
    ensures Next(s, step) == s.(tables := Next(s, step).tables)
  {
    LocalKeeps(s, step);
  }

  /** Receiving, delivering, closing, crashing and editing HCM keep all rows, and load and queue nothing. */
  lemma PassiveKeepsRows(s: State, step: Step)
    requires step.Receive? || step.Deliver? || step.Close? || step.Crash? || step.EditHcm?
    ensures var s' := Next(s, step);
            && s'.tables.events == s.tables.events && s'.maxAttempts == s.maxAttempts
            && (Unsettled(s'.worker) == Unsettled(s.worker) || Unsettled(s'.worker) == [])
            && (Queue(s'.worker) == Queue(s.worker) || Queue(s'.worker) == [])
  {
    if step.Close? && s.worker.Working? && s.worker.phase.Closing? {
      CloseKeepsEvents(s.tables, s.worker.phase.current.ev.aggregateId, s.worker.phase.result);
    }
  }

  /** The steps that neither load, submit, settle nor replay a row. */
  lemma OtherMeters(s: State, step: Step, e: nat, submissions: nat, restarts: nat, uncounts: nat)
    requires Inv(s) && s.maxAttempts >= 1 && Metered(s, e, submissions, restarts, uncounts)
    requires !step.Claim? && !step.Advance? && !step.Settle? && !step.Replay?
    ensures Metered(Next(s, step), e, submissions, restarts, uncounts)
  {
    if Local(step) {
      LocalKeepsRows(s, step, e);
    } else {
      PassiveKeepsRows(s, step);
    }
    MeterUntouched(s, Next(s, step), e, submissions, restarts, uncounts);
  }

  lemma LimitIsFixed(s: State, step: Step)
    ensures Next(s, step).maxAttempts == s.maxAttempts
  {
  }

  lemma ReplayStepMeters(s: State, x: nat, now: int, e: nat, submissions: nat, restarts: nat, uncounts: nat)
    requires s.maxAttempts >= 1 && Metered(s, e, submissions, restarts, uncounts)
    ensures var again := x == e && e < |s.tables.events| && Uncounted(s.tables.events[e]);
            Metered(Next(s, Replay(x, now)), e, submissions,
                    restarts + if x == e && !again then 1 else 0, uncounts + if again then 1 else 0)
  {
    if x == e {
      ReplayMeters(s, e, now, submissions, restarts, uncounts);
    } else {
      MeterUntouched(s, Next(s, Replay(x, now)), e, submissions, restarts, uncounts);
    }
  }

  lemma StepMeters(s: State, step: Step, e: nat, submissions: nat, restarts: nat, uncounts: nat)
    requires Inv(s) && s.maxAttempts >= 1 && Metered(s, e, submissions, restarts, uncounts)
    ensures Next(s, step).maxAttempts == s.maxAttempts
    ensures var again := ReplaysEvent(step, e) && e < |s.tables.events| && Uncounted(s.tables.events[e]);
            Metered(Next(s, step), e, submissions + if Submits(s, step, e) then 1 else 0,
                    restarts + if ReplaysEvent(step, e) && !again then 1 else 0, uncounts + if again then 1 else 0)
  {
    LimitIsFixed(s, step);
    match step
    case Claim(now) => ClaimMeters(s, now, e, submissions, restarts, uncounts);
    case Advance => AdvanceMeters(s, e, submissions, restarts, uncounts);
    case Settle(now, jitter) => SettleMeters(s, now, jitter, e, submissions, restarts, uncounts);
    case Replay(x, now) => ReplayStepMeters(s, x, now, e, submissions, restarts, uncounts);
    case _ => OtherMeters(s, step, e, submissions, restarts, uncounts);
  }

  lemma {:induction false} RunMeters(s0: State, steps: seq<Step>, e: nat)
    requires Init(s0)
    ensures Uncounts(s0, steps, e) <= Replays(steps, e)
    ensures Run(s0, steps).maxAttempts == s0.maxAttempts
    ensures Metered(Run(s0, steps), e, Submissions(s0, steps, e), Replays(steps, e) - Uncounts(s0, steps, e), Uncounts(s0, steps, e))
  {
    InitInv(s0);
    if steps != [] {
      var n := |steps| - 1;
      RunMeters(s0, steps[..n], e);
      RunKeepsInv(s0, steps[..n]);
      StepMeters(Run(s0, steps[..n]), steps[n], e, Submissions(s0, steps[..n], e),
                 Replays(steps[..n], e) - Uncounts(s0, steps[..n], e), Uncounts(s0, steps[..n], e));
    }
  }

  /**
   * Delivery terminates: whatever HCM and the network do, an event is submitted at most maxAttempts times plus once per
   * replay, and so is its attempt counter bounded; without replays a claimable event still has an attempt left.
   */
  lemma DeliveryTerminates(s0: State, steps: seq<Step>, e: nat)
    requires Init(s0)
    ensures Submissions(s0, steps, e) <= s0.maxAttempts + Replays(steps, e)
    ensures e < |Run(s0, steps).tables.events| ==>
              var ev := Run(s0, steps).tables.events[e];
              && ev.attempts <= s0.maxAttempts + Replays(steps, e)
              && (Claimable(ev) ==> ev.attempts < s0.maxAttempts + Replays(steps, e))
  {
    RunMeters(s0, steps, e);
  }

  // ---- all events together ----

  function SumTo(s: State, steps: seq<Step>, n: nat): nat {
    if n == 0 then 0 else SumTo(s, steps, n - 1) + Submissions(s, steps, n - 1)
  }

  /** Submissions of any event. */
  function AllSubmissions(s: State, steps: seq<Step>): nat {
    if steps == [] then 0
    else
      var n := |steps| - 1;
      var w := Run(s, steps[..n]).worker;
      AllSubmissions(s, steps[..n]) +
      if steps[n].Advance? && w.Working? && w.phase.BetweenEvents? && w.queue != [] then 1 else 0
  }

  lemma {:induction false} SumSplits(s: State, steps: seq<Step>, n: nat)
    requires steps != []
    ensures var m := |steps| - 1;
            var w := Run(s, steps[..m]).worker;
            SumTo(s, steps, n) == SumTo(s, steps[..m], n) +
            if steps[m].Advance? && w.Working? && w.phase.BetweenEvents? && w.queue != [] && w.queue[0].pos < n then 1 else 0
  {
    if n > 0 {
      SumSplits(s, steps, n - 1);
    }
  }

  lemma {:induction false} SubmissionsAreOfEvents(s0: State, steps: seq<Step>, n: nat)
    requires Init(s0) && n >= |Run(s0, steps).tables.events|
    ensures AllSubmissions(s0, steps) == SumTo(s0, steps, n)
  {
    InitInv(s0);
    if steps == [] {
      NoSteps(s0, n);
    } else {
      var m := |steps| - 1;
      var s := Run(s0, steps[..m]);
      RunKeepsInv(s0, steps[..m]);
      EventsGrow(s, steps[m]);
      SubmissionsAreOfEvents(s0, steps[..m], n);
      SumSplits(s0, steps, n);
      if s.worker.Working? && s.worker.phase.BetweenEvents? && s.worker.queue != [] {
        assert Snap(Outstanding(s.worker)[0], s.tables.events);
      }
    }
  }

  lemma {:induction false} NoSteps(s: State, n: nat)
    ensures SumTo(s, [], n) == 0
  {
    if n > 0 {
      NoSteps(s, n - 1);
    }
  }

  lemma SavingKeepsLength(s: State, step: Step)
    requires step.Claim? || step.Advance? || step.Settle? || step.Replay?
    ensures |Next(s, step).tables.events| == |s.tables.events|
  {
  }

  lemma EventsGrow(s: State, step: Step)
    requires Inv(s)
    ensures |s.tables.events| <= |Next(s, step).tables.events|
  {
    if Local(step) {
      LocalKeepsRows(s, step, 0);
    } else if step.Claim? || step.Advance? || step.Settle? || step.Replay? {
      SavingKeepsLength(s, step);
    } else {
      PassiveKeepsRows(s, step);
    }
  }

  lemma {:induction false} SumBound(s0: State, steps: seq<Step>, n: nat)
    requires Init(s0) && forall i :: 0 <= i < |steps| ==> !steps[i].Replay?
    ensures SumTo(s0, steps, n) <= n * s0.maxAttempts
  {
    if n > 0 {
      SumBound(s0, steps, n - 1);
      DeliveryTerminates(s0, steps, n - 1);
      NoReplays(steps, n - 1);
      assert n * s0.maxAttempts == (n - 1) * s0.maxAttempts + s0.maxAttempts;
    }
  }

  lemma {:induction false} NoReplays(steps: seq<Step>, e: nat)
    requires forall i :: 0 <= i < |steps| ==> !steps[i].Replay?
    ensures Replays(steps, e) == 0
  {
    if steps != [] {
      NoReplays(steps[..|steps| - 1], e);
    }
  }

  /** Without replays, N events cause at most N * maxAttempts submissions in all. */
  lemma TotalSubmissionsBounded(s0: State, steps: seq<Step>)
    requires Init(s0) && forall i :: 0 <= i < |steps| ==> !steps[i].Replay?
    ensures AllSubmissions(s0, steps) <= |Run(s0, steps).tables.events| * s0.maxAttempts
  {
    SubmissionsAreOfEvents(s0, steps, |Run(s0, steps).tables.events|);
    SumBound(s0, steps, |Run(s0, steps).tables.events|);
  }

  // ---- a row nobody holds waits until a claim finds it ready ----

  /** Row e is stored as `row`, and the worker holds no attempt of it that is still to be settled. */
  predicate Parked(s: State, e: nat, row: OutboxEvent) {
    e < |s.tables.events| && s.tables.events[e] == row && !Holds(Unsettled(s.worker), e)
  }

  /** The step does not replay e and does not claim while the row is ready. */
  predicate PassesBy(step: Step, e: nat, row: OutboxEvent) {
    !ReplaysEvent(step, e) && (step.Claim? ==> !Ready(row, step.now))
  }

  predicate AllPassBy(steps: seq<Step>, e: nat, row: OutboxEvent) {
    forall i :: 0 <= i < |steps| ==> PassesBy(steps[i], e, row)
  }

  lemma PassByPrefix(steps: seq<Step>, e: nat, row: OutboxEvent)
    requires AllPassBy(steps, e, row) && steps != []
    ensures AllPassBy(steps[..|steps| - 1], e, row) && PassesBy(steps[|steps| - 1], e, row)
  {
  }

  lemma ClaimKeepsParked(s: State, now: int, e: nat, row: OutboxEvent)
    requires Parked(s, e, row) && !Ready(row, now)
    ensures Parked(Next(s, Claim(now)), e, row)
  {
    ClaimIsSound(s.tables.events, now, BATCH_LIMIT);
  }

  /** Taking up the first queued row leaves the other parked rows alone. */
  lemma TakenElsewhere(s: State, s': State, c: Claimed, e: nat, row: OutboxEvent)
    requires Parked(s, e, row) && c.pos < |s.tables.events| && s'.tables.events == s.tables.events[c.pos := c.ev]
    requires Unsettled(s.worker) != [] && Unsettled(s.worker)[0].pos == c.pos
    requires Unsettled(s'.worker) == [c] + Unsettled(s.worker)[1..]
    ensures Parked(s', e, row) && c.pos != e
  {
    var rows := Unsettled(s.worker);
    HoldsTail(rows, e);
    HoldsTail([c] + rows[1..], e);
    assert ([c] + rows[1..])[1..] == rows[1..];
  }

  lemma AdvanceKeepsParked(s: State, e: nat, row: OutboxEvent)
    requires Inv(s) && Parked(s, e, row)
    ensures Parked(Next(s, Advance), e, row) && !Submits(s, Advance, e)
  {
    if s.worker.Working? && s.worker.phase.BetweenEvents? && s.worker.queue != [] {
      var c := s.worker.queue[0].(ev := InFlight(s.worker.queue[0].ev));
      assert Snap(Outstanding(s.worker)[0], s.tables.events);
      TakenElsewhere(s, DoAdvance(s), c, e, row);
    }
  }

  /** Saving the row at the head of the unsettled ones leaves the other parked rows alone. */
  lemma SavedElsewhere(s: State, s': State, pos: nat, ev: OutboxEvent, e: nat, row: OutboxEvent)
    requires Parked(s, e, row) && pos < |s.tables.events| && s'.tables.events == s.tables.events[pos := ev]
    requires Unsettled(s.worker) != [] && Unsettled(s.worker)[0].pos == pos && Unsettled(s'.worker) == Unsettled(s.worker)[1..]
    ensures Parked(s', e, row)
  {
    HoldsTail(Unsettled(s.worker), e);
  }

  lemma SettleKeepsParked(s: State, now: int, jitter: real, e: nat, row: OutboxEvent)
    requires Inv(s) && Parked(s, e, row)
    ensures Parked(DoSettle(s, now, jitter), e, row)
  {
    if s.worker.Working? && s.worker.phase.Settling? {
      var s', pos := DoSettle(s, now, jitter), s.worker.phase.current.pos;
      SettleRows(s, now, jitter);
      SavedElsewhere(s, s', pos, s'.tables.events[pos], e, row);
    }
  }

  lemma CloseKeepsParked(s: State, e: nat, row: OutboxEvent)
    requires Parked(s, e, row)
    ensures Parked(Next(s, Close), e, row)
  {
    if s.worker.Working? && s.worker.phase.Closing? {
      CloseKeepsEvents(s.tables, s.worker.phase.current.ev.aggregateId, s.worker.phase.result);
    }
  }

  lemma LocalKeepsParked(s: State, step: Step, e: nat, row: OutboxEvent)
    requires Inv(s) && Parked(s, e, row) && Local(step)
    ensures Parked(Next(s, step), e, row)
  {
    LocalKeepsRows(s, step, e);
  }

  lemma ReceiveKeepsParked(s: State, lost: bool, e: nat, row: OutboxEvent)
    requires Parked(s, e, row)
    ensures Parked(Next(s, Receive(lost)), e, row)
  {
    assert Unsettled(DoReceive(s, lost).worker) == Unsettled(s.worker);
  }

  lemma DeliverKeepsParked(s: State, x: nat, mode: FailureMode, flaky: bool, txId: string, now: int, e: nat, row: OutboxEvent)
    requires Parked(s, e, row)
    ensures Parked(Next(s, Deliver(x, mode, flaky, txId, now)), e, row)
  {
    var s' := DoDeliver(s, x, mode, flaky, txId, now);
    assert Unsettled(s'.worker) == Unsettled(s.worker);
  }

  lemma ReplayKeepsParked(s: State, x: nat, now: int, e: nat, row: OutboxEvent)
    requires Parked(s, e, row) && x != e
    ensures Parked(Next(s, Replay(x, now)), e, row)
  {
  }

  /** Crashing drops every loaded row, and editing HCM touches none. */
  lemma CrashKeepsParked(s: State, e: nat, row: OutboxEvent)
    requires Parked(s, e, row)
    ensures Parked(Next(s, Crash), e, row)
  {
  }

  lemma EditKeepsParked(s: State, b: HcmBalance, e: nat, row: OutboxEvent)
    requires Parked(s, e, row)
    ensures Parked(Next(s, EditHcm(b)), e, row)
  {
  }

  lemma StepKeepsParked(s: State, step: Step, e: nat, row: OutboxEvent)
    requires Inv(s) && Parked(s, e, row) && PassesBy(step, e, row)
    ensures Parked(Next(s, step), e, row) && !Submits(s, step, e)
  {
    match step
    case Claim(now) => ClaimKeepsParked(s, now, e, row);
    case Advance => AdvanceKeepsParked(s, e, row);
    case Deliver(x, mode, flaky, txId, now) => DeliverKeepsParked(s, x, mode, flaky, txId, now, e, row);
    case Receive(lost) => ReceiveKeepsParked(s, lost, e, row);
    case Settle(now, jitter) =>
      SettleKeepsParked(s, now, jitter, e, row);
      NextIsSettled(s, now, jitter);
    case Close => CloseKeepsParked(s, e, row);
    case Crash => CrashKeepsParked(s, e, row);
    case Replay(x, now) => ReplayKeepsParked(s, x, now, e, row);
    case EditHcm(b) => EditKeepsParked(s, b, e, row);
    case _ => LocalKeepsParked(s, step, e, row);
  }

  /** A parked row stays exactly as it is, unsubmitted, through every run without a replay of it or a claim that finds it ready. */
  lemma {:induction false} ParkedUntilReady(s: State, steps: seq<Step>, e: nat, row: OutboxEvent)
    requires Inv(s) && Parked(s, e, row) && AllPassBy(steps, e, row)
    ensures Parked(Run(s, steps), e, row) && Submissions(s, steps, e) == 0
  {
    if steps != [] {
      var n := |steps| - 1;
      PassByPrefix(steps, e, row);
      ParkedUntilReady(s, steps[..n], e, row);
      RunKeepsInv(s, steps[..n]);
      StepKeepsParked(Run(s, steps[..n]), steps[n], e, row);
    }
  }

  /**
   * An event whose submission a crash interrupted stays IN_FLIGHT through every later run and is never submitted again,
   * unless an operator replays it.
   */
  lemma CrashAbandons(s: State, steps: seq<Step>, e: nat)
    requires Inv(s) && e < |s.tables.events| && s.tables.events[e].status.IN_FLIGHT?
    requires forall i :: 0 <= i < |steps| ==> !ReplaysEvent(steps[i], e)
    ensures var crashed := s.(worker := Idle);
            && e < |Run(crashed, steps).tables.events| && Run(crashed, steps).tables.events[e].status.IN_FLIGHT?
            && Submissions(crashed, steps, e) == 0
  {
    CrashKeeps(s);
    ParkedUntilReady(s.(worker := Idle), steps, e, s.tables.events[e]);
  }

  /** Once settled, only the row's stored form decides what happens to it next. */
  lemma SettledIsParked(s: State, now: int, jitter: real)
    requires Inv(s) && s.worker.Working? && s.worker.phase.Settling?
    ensures var c := s.worker.phase.current;
            Parked(DoSettle(s, now, jitter), c.pos, Settled(c.ev, s.worker.phase.result, s.maxAttempts, now, jitter))
  {
    SettleRows(s, now, jitter);
  }

  lemma NextIsSettled(s: State, now: int, jitter: real)
    ensures Next(s, Settle(now, jitter)) == DoSettle(s, now, jitter)
  {
  }

  /** A settled row stays unsubmitted through every run that passes it by. */
  lemma SettledStays(s1: State, steps: seq<Step>, c: Claimed, row: OutboxEvent)
    requires Inv(s1) && Parked(s1, c.pos, row) && AllPassBy(steps, c.pos, row)
    ensures Submissions(s1, steps, c.pos) == 0
    ensures c.pos < |Run(s1, steps).tables.events| && Run(s1, steps).tables.events[c.pos] == row
  {
    ParkedUntilReady(s1, steps, c.pos, row);
  }

  /** The result is stored on the current row, counted unless it was accepted, and retried only if there was no answer. */
  predicate StoredAs(row: OutboxEvent, before: OutboxEvent, result: SubmitResult, maxAttempts: nat, now: int, jitter: real) {
    && SameEvent(row, before)
    && match result
       case Ok(_) => row.status == SENT && row.attempts == before.attempts
       case Refused(_) => row.status == FAILED_PERMANENT && row.attempts == before.attempts + 1
       case NoAnswer =>
         && row.attempts == before.attempts + 1
         && if before.attempts + 1 >= maxAttempts then row.status == FAILED_PERMANENT
            else row.status == FAILED && row.nextAttemptAt == Some(now + ComputeBackoffMs(before.attempts + 1, jitter))
  }

  lemma SettledAs(ev: OutboxEvent, before: OutboxEvent, result: SubmitResult, maxAttempts: nat, now: int, jitter: real)
    requires SameEvent(ev, before) && ev.attempts == before.attempts
    ensures StoredAs(Settled(ev, result, maxAttempts, now, jitter), before, result, maxAttempts, now, jitter)
  {
  }

  /** Only a definite answer to a debit goes on to its request. */
  lemma SettlePhase(s: State, now: int, jitter: real)
    requires s.worker.Working? && s.worker.phase.Settling?
    ensures var s', c, result := Next(s, Settle(now, jitter)), s.worker.phase.current, s.worker.phase.result;
            && s'.hcm == s.hcm && s'.tables == s.tables.(events := s'.tables.events)
            && s'.worker.Working? && s'.worker.queue == s.worker.queue
            && (if result.NoAnswer? || c.ev.eventType == HCM_SUBMIT_CREDIT then s'.worker.phase == BetweenEvents
                else s'.worker.phase.Closing? && s'.worker.phase.result == result && s'.worker.phase.current.pos == c.pos)
  {
  }

  /** What settling stores: the current row as its result demands, of either type, and every other row as it was. */
  lemma SettleOutcome(s: State, now: int, jitter: real)
    requires Inv(s) && s.worker.Working? && s.worker.phase.Settling?
    ensures var events, c := DoSettle(s, now, jitter).tables.events, s.worker.phase.current;
            && c.pos < |s.tables.events| == |events|
            && StoredAs(events[c.pos], s.tables.events[c.pos], s.worker.phase.result, s.maxAttempts, now, jitter)
            && forall j :: 0 <= j < |s.tables.events| && j != c.pos ==> events[j] == s.tables.events[j]
  {
    var c := s.worker.phase.current;
    SettleRows(s, now, jitter);
    assert Snap(Outstanding(s.worker)[0], s.tables.events);
    SettledAs(c.ev, s.tables.events[c.pos], s.worker.phase.result, s.maxAttempts, now, jitter);
  }

  /**
   * An answer is final: once a submission, of a debit or of a refund, was accepted or refused, its row stays as settled
   * and is never submitted again in any run without a replay of it.
   */
  lemma AnswersAreFinal(s: State, steps: seq<Step>, now: int, jitter: real)
    requires Inv(s) && s.worker.Working? && s.worker.phase.Settling? && !s.worker.phase.result.NoAnswer?
    requires forall i :: 0 <= i < |steps| ==> !ReplaysEvent(steps[i], s.worker.phase.current.pos)
    ensures var s', e := Next(s, Settle(now, jitter)), s.worker.phase.current.pos;
            && Submissions(s', steps, e) == 0
            && e < |s.tables.events| && e < |Run(s', steps).tables.events|
            && StoredAs(Run(s', steps).tables.events[e], s.tables.events[e], s.worker.phase.result, s.maxAttempts, now, jitter)
  {
    var c, s' := s.worker.phase.current, DoSettle(s, now, jitter);
    var row := Settled(c.ev, s.worker.phase.result, s.maxAttempts, now, jitter);
    SettleOutcome(s, now, jitter);
    SettledIsParked(s, now, jitter);
    SettleKeeps(s, now, jitter);
    NextIsSettled(s, now, jitter);
    AnsweredPassesBy(steps, c.pos, row);
    SettledStays(s', steps, c, row);
  }

  lemma AnsweredPassesBy(steps: seq<Step>, e: nat, row: OutboxEvent)
    requires row.status == SENT || row.status == FAILED_PERMANENT
    requires forall i :: 0 <= i < |steps| ==> !ReplaysEvent(steps[i], e)
    ensures AllPassBy(steps, e, row)
  {
  }

  /** The step neither replays e nor claims within the backoff that follows attempt number `attempts`. */
  predicate WithinBackoff(step: Step, e: nat, attempts: nat, maxAttempts: nat, now: int, jitter: real) {
    && !ReplaysEvent(step, e)
    && (step.Claim? && attempts < maxAttempts ==> step.now < now + ComputeBackoffMs(attempts, jitter))
  }

  lemma BackoffPassesBy(steps: seq<Step>, c: Claimed, maxAttempts: nat, now: int, jitter: real)
    requires forall i :: 0 <= i < |steps| ==> WithinBackoff(steps[i], c.pos, c.ev.attempts + 1, maxAttempts, now, jitter)
    ensures AllPassBy(steps, c.pos, Settled(c.ev, NoAnswer, maxAttempts, now, jitter))
  {
    var row := Settled(c.ev, NoAnswer, maxAttempts, now, jitter);
    forall i | 0 <= i < |steps| ensures PassesBy(steps[i], c.pos, row) {
      assert WithinBackoff(steps[i], c.pos, c.ev.attempts + 1, maxAttempts, now, jitter);
    }
  }

  /**
   * Retries are spaced: after a submission without an answer the event is not submitted again by any run whose claims
   * all come before its backoff has passed, and never again once it is given up, unless an operator replays it.
   */
  lemma RetriesAreSpaced(s: State, steps: seq<Step>, c: Claimed, now: int, jitter: real)
    requires Inv(s) && s.worker.Working? && s.worker.phase == Settling(c, NoAnswer)
    requires forall i :: 0 <= i < |steps| ==> WithinBackoff(steps[i], c.pos, c.ev.attempts + 1, s.maxAttempts, now, jitter)
    ensures Submissions(Next(s, Settle(now, jitter)), steps, c.pos) == 0
  {
    var row, s1 := Settled(c.ev, NoAnswer, s.maxAttempts, now, jitter), DoSettle(s, now, jitter);
    SettledIsParked(s, now, jitter);
    SettleKeeps(s, now, jitter);
    NextIsSettled(s, now, jitter);
    BackoffPassesBy(steps, c, s.maxAttempts, now, jitter);
    SettledStays(s1, steps, c, row);
  }
}
