/** A ready event waits for a bounded number of ticks, however many new events arrive. */
module Starvation {
  import opened Entities
  import opened Outbox
  import opened Protocol
  import opened Invariant
  import opened Reachable
  import opened Delivery

  predicate Unfinished(ev: OutboxEvent) {
    ev.status.PENDING? || ev.status.FAILED? || ev.status.IN_FLIGHT?
  }

  /** Attempts an unfinished event has left. */
  function Budget(ev: OutboxEvent, maxAttempts: nat): int {
    if Unfinished(ev) then maxAttempts - ev.attempts else 0
  }

  /** Attempts left to the unfinished events older than x. */
  function Remaining(events: seq<OutboxEvent>, x: nat, maxAttempts: nat): int
    requires x <= |events|
  {
    if x == 0 then 0 else Remaining(events, x - 1, maxAttempts) + Budget(events[x - 1], maxAttempts)
  }

  /** The tick finds x ready and leaves it out. */
  predicate Misses(s: State, step: Step, x: nat) {
    && step.Claim? && s.worker.Idle? && x < |s.tables.events| && Ready(s.tables.events[x], step.now)
    && !Holds(ClaimBatch(s.tables.events, step.now, BATCH_LIMIT), x)
  }

  function MissedTicks(s: State, steps: seq<Step>, x: nat): nat {
    if steps == [] then 0
    else
      var n := |steps| - 1;
      MissedTicks(s, steps[..n], x) + if Misses(Run(s, steps[..n]), steps[n], x) then 1 else 0
  }

  /** No replay, no crash, and no tick that throws while telling a request its outcome. */
  predicate Smooth(s: State, step: Step) {
    && !step.Replay? && !step.Crash?
    && (step.Close? && s.worker.Working? && s.worker.phase.Closing? ==>
          CloseRequest(s.tables, s.worker.phase.current.ev.aggregateId, s.worker.phase.result).Success?)
  }

  predicate SmoothRun(s: State, steps: seq<Step>) {
    forall i :: 0 <= i < |steps| ==> Smooth(Run(s, steps[..i]), steps[i])
  }

  // ---- the measure ----

  /** Attempts left beyond the one a loaded row is about to spend. */
  function Weight(s: State, j: nat): int {
    if j < |s.tables.events|
    then Budget(s.tables.events[j], s.maxAttempts) - if Holds(Unsettled(s.worker), j) then 1 else 0
    else 0
  }

  function Load(s: State, x: nat): int {
    if x == 0 then 0 else Load(s, x - 1) + Weight(s, x - 1)
  }

  /** Unfinished events have an attempt left, and loaded rows are unfinished. */
  predicate Paced(s: State) {
    && (forall j :: 0 <= j < |s.tables.events| && Unfinished(s.tables.events[j]) ==> s.tables.events[j].attempts < s.maxAttempts)
    && (forall i :: 0 <= i < |Unsettled(s.worker)| ==>
          Unsettled(s.worker)[i].pos < |s.tables.events| && Unfinished(s.tables.events[Unsettled(s.worker)[i].pos]))
  }

  lemma {:induction false} LoadNonNegative(s: State, x: nat)
    requires Paced(s)
    ensures Load(s, x) >= 0
  {
    if x > 0 {
      LoadNonNegative(s, x - 1);
    }
  }

  lemma {:induction false} LoadMonotone(s: State, s': State, x: nat)
    requires forall j :: 0 <= j < x ==> Weight(s', j) <= Weight(s, j)
    ensures Load(s', x) <= Load(s, x)
  {
    if x > 0 {
      LoadMonotone(s, s', x - 1);
    }
  }

  lemma {:induction false} LoadIsRemaining(s: State, x: nat)
    requires s.worker.Idle? && x <= |s.tables.events|
    ensures Load(s, x) == Remaining(s.tables.events, x, s.maxAttempts)
  {
    if x > 0 {
      LoadIsRemaining(s, x - 1);
    }
  }

  /** Loading an ascending batch of rows older than x takes exactly its size off the load. */
  lemma {:induction false} LoadDropsByBatch(s: State, s': State, batch: seq<Claimed>, x: nat)
    requires s.worker.Idle? && s'.worker == Working(batch, BetweenEvents) && s'.tables == s.tables && s'.maxAttempts == s.maxAttempts
    requires x <= |s.tables.events|
    ensures Load(s', x) == Load(s, x) - CountHeld(batch, x)
  {
    if x > 0 {
      LoadDropsByBatch(s, s', batch, x - 1);
    }
  }

  function CountHeld(batch: seq<Claimed>, x: nat): nat {
    if x == 0 then 0 else CountHeld(batch, x - 1) + if Holds(batch, x - 1) then 1 else 0
  }

  lemma {:induction false} CountAscending(batch: seq<Claimed>, x: nat)
    requires Ascending(batch) && forall i :: 0 <= i < |batch| ==> batch[i].pos < x
    ensures CountHeld(batch, x) == |batch|
  {
    if x > 0 {
      var n := |batch| - 1;
      if batch != [] && batch[n].pos == x - 1 {
        CountAscending(batch[..n], x - 1);
        CountPrefix(batch, x - 1);
      } else {
        CountAscending(batch, x - 1);
      }
    }
  }

  /** Dropping a last row at or beyond x does not change the count below x. */
  lemma {:induction false} CountPrefix(batch: seq<Claimed>, x: nat)
    requires batch != [] && batch[|batch| - 1].pos >= x
    ensures CountHeld(batch[..|batch| - 1], x) == CountHeld(batch, x)
  {
    if x > 0 {
      CountPrefix(batch, x - 1);
      var init := batch[..|batch| - 1];
      if Holds(batch, x - 1) {
        var i :| 0 <= i < |batch| && batch[i].pos == x - 1;
        assert init[i].pos == x - 1;
      }
      if Holds(init, x - 1) {
        var i :| 0 <= i < |init| && init[i].pos == x - 1;
        assert batch[i].pos == x - 1;
      }
    }
  }

  // ---- steps ----

  lemma ClaimedAreUnfinished(events: seq<OutboxEvent>, now: int)
    ensures var batch := ClaimBatch(events, now, BATCH_LIMIT);
            forall i :: 0 <= i < |batch| ==> batch[i].pos < |events| && Unfinished(events[batch[i].pos])
  {
    var batch := ClaimBatch(events, now, BATCH_LIMIT);
    ClaimIsSound(events, now, BATCH_LIMIT);
    forall i | 0 <= i < |batch| ensures batch[i].pos < |events| && Unfinished(events[batch[i].pos]) {
      assert Ready(batch[i].ev, now);
    }
  }

  lemma ClaimKeepsPace(s: State, now: int)
    requires Paced(s)
    ensures Paced(Next(s, Claim(now)))
  {
    if s.worker.Idle? {
      ClaimedAreUnfinished(s.tables.events, now);
      assert Unsettled(DoClaim(s, now).worker) == ClaimBatch(s.tables.events, now, BATCH_LIMIT);
    }
  }

  /** A tick that misses x takes a full batch of older rows off the load below x. */
  lemma MissedLoad(s: State, now: int, x: nat)
    requires s.worker.Idle? && x < |s.tables.events|
    ensures Load(DoClaim(s, now), x) + (if Misses(s, Claim(now), x) then BATCH_LIMIT else 0) <= Load(s, x)
  {
    var batch := ClaimBatch(s.tables.events, now, BATCH_LIMIT);
    LoadDropsByBatch(s, DoClaim(s, now), batch, x);
    if Misses(s, Claim(now), x) {
      ClaimIsSound(s.tables.events, now, BATCH_LIMIT);
      LeftOutBehindFullBatch(s.tables.events, now, BATCH_LIMIT, x);
      CountAscending(batch, x);
    }
  }

  lemma ClaimLoad(s: State, now: int, x: nat)
    requires Paced(s) && x < |s.tables.events|
    ensures Paced(Next(s, Claim(now)))
    ensures Load(Next(s, Claim(now)), x) + (if Misses(s, Claim(now), x) then BATCH_LIMIT else 0) <= Load(s, x)
  {
    ClaimKeepsPace(s, now);
    if s.worker.Idle? {
      MissedLoad(s, now, x);
    }
  }

  lemma AdvancingLoad(s: State, x: nat)
    requires Inv(s) && Paced(s) && s.worker.Working? && s.worker.phase.BetweenEvents? && s.worker.queue != []
    ensures Paced(DoAdvance(s)) && Load(DoAdvance(s), x) <= Load(s, x)
  {
    var q, s' := s.worker.queue, DoAdvance(s);
    AdvanceHead(s);
    AdvancePaced(s);
    forall j | 0 <= j < x ensures Weight(s', j) <= Weight(s, j) {
      HeadHolds(q, q[0].(ev := InFlight(q[0].ev)), j);
      assert Unfinished(s.tables.events[Unsettled(s.worker)[0].pos]);
    }
    LoadMonotone(s, s', x);
  }

  lemma AdvanceLoad(s: State, x: nat)
    requires Inv(s) && Paced(s)
    ensures Paced(Next(s, Advance)) && Load(Next(s, Advance), x) <= Load(s, x)
  {
    if s.worker.Working? && s.worker.phase.BetweenEvents? {
      if s.worker.queue != [] {
        AdvancingLoad(s, x);
      } else {
        LoadMonotone(s, DoAdvance(s), x);
      }
    }
  }

  lemma AdvancePaced(s: State)
    requires Inv(s) && Paced(s) && s.worker.Working? && s.worker.phase.BetweenEvents? && s.worker.queue != []
    ensures Paced(DoAdvance(s))
  {
    var q, s' := s.worker.queue, DoAdvance(s);
    AdvanceHead(s);
    assert Unfinished(s.tables.events[Unsettled(s.worker)[0].pos]);
    var q' := Unsettled(s'.worker);
    forall i | 0 <= i < |q'| ensures q'[i].pos < |s'.tables.events| && Unfinished(s'.tables.events[q'[i].pos]) {
      assert q'[i].pos == q[i].pos == Unsettled(s.worker)[i].pos;
    }
  }

  lemma SettledAttempts(ev: OutboxEvent, result: SubmitResult, maxAttempts: nat, now: int, jitter: real)
    ensures var ev' := Settled(ev, result, maxAttempts, now, jitter);
            Unfinished(ev') ==> ev'.attempts == ev.attempts + 1 < maxAttempts
  {
  }

  /** The loaded row's attempt is spent: what it weighed loaded is at least what it weighs settled. */
  lemma SpentLoad(s: State, s': State, c: Claimed, ev': OutboxEvent, x: nat)
    requires Paced(s) && s'.maxAttempts == s.maxAttempts && c.pos < |s.tables.events|
    requires c.ev.attempts == s.tables.events[c.pos].attempts
    requires Unsettled(s.worker) != [] && Unsettled(s.worker)[0] == c && Unsettled(s'.worker) == Unsettled(s.worker)[1..]
    requires s'.tables.events == s.tables.events[c.pos := ev'] && !Holds(Unsettled(s'.worker), c.pos)
    requires Unfinished(ev') ==> ev'.attempts == c.ev.attempts + 1 < s.maxAttempts
    ensures Paced(s') && Load(s', x) <= Load(s, x)
  {
    var rows := Unsettled(s.worker);
    assert Unfinished(s.tables.events[rows[0].pos]);
    forall j | 0 <= j < x ensures Weight(s', j) <= Weight(s, j) {
      HoldsTail(rows, j);
    }
    LoadMonotone(s, s', x);
    forall i | 0 <= i < |rows[1..]| ensures rows[1..][i].pos != c.pos && Unfinished(s.tables.events[rows[1..][i].pos]) {
      assert rows[1..][i] == rows[i + 1];
      assert Holds(rows[1..], rows[1..][i].pos);
    }
  }

  lemma SettlingLoad(s: State, now: int, jitter: real, x: nat)
    requires Inv(s) && Paced(s) && s.worker.Working? && s.worker.phase.Settling?
    ensures Paced(DoSettle(s, now, jitter)) && Load(DoSettle(s, now, jitter), x) <= Load(s, x)
  {
    var c, s' := s.worker.phase.current, DoSettle(s, now, jitter);
    SettleRows(s, now, jitter);
    SettledAttempts(c.ev, s.worker.phase.result, s.maxAttempts, now, jitter);
    SpentLoad(s, s', c, s'.tables.events[c.pos], x);
  }

  lemma SettleLoad(s: State, now: int, jitter: real, x: nat)
    requires Inv(s) && Paced(s)
    ensures Paced(Next(s, Settle(now, jitter))) && Load(Next(s, Settle(now, jitter)), x) <= Load(s, x)
  {
    if s.worker.Working? && s.worker.phase.Settling? {
      SettlingLoad(s, now, jitter, x);
    } else {
      assert Next(s, Settle(now, jitter)) == s;
    }
  }

  /** Steps that keep every stored row and load or drop nothing keep measure and pace. */
  lemma UntouchedLoad(s: State, s': State, x: nat)
    requires Paced(s) && s.maxAttempts >= 1 && s'.maxAttempts == s.maxAttempts && Unsettled(s'.worker) == Unsettled(s.worker)
    requires s.tables.events <= s'.tables.events && x <= |s.tables.events|
    requires forall j :: |s.tables.events| <= j < |s'.tables.events| ==> s'.tables.events[j].attempts == 0
    ensures Paced(s') && Load(s', x) <= Load(s, x)
  {
    forall j | 0 <= j < x ensures Weight(s', j) <= Weight(s, j) {
      assert s'.tables.events[j] == s.tables.events[j];
    }
    LoadMonotone(s, s', x);
  }

  lemma LocalAppendsFresh(s: State, step: Step)
    requires Inv(s) && Local(step)
    ensures var t' := Next(s, step).tables;
            && s.tables.events <= t'.events
            && forall j :: |s.tables.events| <= j < |t'.events| ==> t'.events[j].attempts == 0
    ensures Next(s, step) == s.(tables := Next(s, step).tables)
  {
    LocalKeeps(s, step);
  }

  /** Receiving, delivering, closing without an exception and editing HCM keep all rows, stored and loaded. */
  lemma PassiveKeepsLoaded(s: State, step: Step)
    requires step.Receive? || step.Deliver? || step.Close? || step.EditHcm?
    requires Smooth(s, step)
    ensures var s' := Next(s, step);
            s'.tables.events == s.tables.events && s'.maxAttempts == s.maxAttempts && Unsettled(s'.worker) == Unsettled(s.worker)
  {
    if step.Close? && s.worker.Working? && s.worker.phase.Closing? {
      CloseKeepsEvents(s.tables, s.worker.phase.current.ev.aggregateId, s.worker.phase.result);
    }
  }

  lemma OtherLoad(s: State, step: Step, x: nat)
    requires Inv(s) && Paced(s) && s.maxAttempts >= 1 && Smooth(s, step) && x <= |s.tables.events|
    requires !step.Claim? && !step.Advance? && !step.Settle?
    ensures Paced(Next(s, step)) && Load(Next(s, step), x) <= Load(s, x)
  {
    var s' := Next(s, step);
    if Local(step) {
      LocalAppendsFresh(s, step);
    } else {
      PassiveKeepsLoaded(s, step);
    }
    UntouchedLoad(s, s', x);
  }

  lemma StepLoad(s: State, step: Step, x: nat)
    requires Inv(s) && Paced(s) && s.maxAttempts >= 1 && Smooth(s, step) && x < |s.tables.events|
    ensures Paced(Next(s, step))
    ensures Load(Next(s, step), x) + (if Misses(s, step, x) then BATCH_LIMIT else 0) <= Load(s, x)
  {
    match step
    case Claim(now) => ClaimLoad(s, now, x);
    case Advance => AdvanceLoad(s, x);
    case Settle(now, jitter) => SettleLoad(s, now, jitter, x);
    case _ => OtherLoad(s, step, x);
  }

  lemma SmoothPrefix(s: State, steps: seq<Step>)
    requires SmoothRun(s, steps) && steps != []
    ensures SmoothRun(s, steps[..|steps| - 1]) && Smooth(Run(s, steps[..|steps| - 1]), steps[|steps| - 1])
  {
    var n := |steps| - 1;
    forall i | 0 <= i < n ensures Smooth(Run(s, steps[..n][..i]), steps[..n][i]) {
      assert steps[..n][..i] == steps[..i];
    }
  }

  lemma {:induction false} RunLoad(s: State, steps: seq<Step>, x: nat)
    requires Inv(s) && Paced(s) && s.maxAttempts >= 1 && SmoothRun(s, steps) && x < |s.tables.events|
    ensures var s' := Run(s, steps);
            s'.maxAttempts == s.maxAttempts && |s.tables.events| <= |s'.tables.events| && Paced(s')
    ensures Load(Run(s, steps), x) + BATCH_LIMIT * MissedTicks(s, steps, x) <= Load(s, x)
  {
    if steps != [] {
      var n := |steps| - 1;
      SmoothPrefix(s, steps);
      RunLoad(s, steps[..n], x);
      RunKeepsInv(s, steps[..n]);
      StepLoad(Run(s, steps[..n]), steps[n], x);
      EventsGrow(Run(s, steps[..n]), steps[n]);
      LimitIsFixed(Run(s, steps[..n]), steps[n]);
    }
  }

  /**
   * No starvation: from an idle worker, the ticks that find x ready and leave it out number at most a twentieth of the
   * attempts left to older unfinished events, with any other steps and new events in between.
   */
  lemma NoStarvation(s: State, steps: seq<Step>, x: nat)
    requires Inv(s) && Paced(s) && s.maxAttempts >= 1 && s.worker.Idle? && x < |s.tables.events| && SmoothRun(s, steps)
    ensures MissedTicks(s, steps, x) <= Remaining(s.tables.events, x, s.maxAttempts) / 20
  {
    RunLoad(s, steps, x);
    LoadNonNegative(Run(s, steps), x);
    LoadIsRemaining(s, x);
  }

  lemma PassiveKeepsPace(s: State, step: Step)
    requires Paced(s) && (step.Receive? || step.Deliver? || step.Close? || step.Crash? || step.EditHcm?)
    ensures Paced(Next(s, step))
  {
    PassiveKeepsRows(s, step);
  }

  lemma StepKeepsPace(s: State, step: Step)
    requires Inv(s) && Paced(s) && s.maxAttempts >= 1 && !step.Replay?
    ensures Paced(Next(s, step)) && Next(s, step).maxAttempts == s.maxAttempts
  {
    LimitIsFixed(s, step);
    if Local(step) {
      LocalAppendsFresh(s, step);
      UntouchedLoad(s, Next(s, step), 0);
    } else if step.Claim? {
      ClaimKeepsPace(s, step.now);
    } else if step.Advance? {
      AdvanceLoad(s, 0);
    } else if step.Settle? {
      SettleLoad(s, step.now, step.jitter, 0);
    } else {
      PassiveKeepsPace(s, step);
    }
  }

  /** Every state reached without replays is paced, crashes included. */
  lemma {:induction false} PacedReachable(s0: State, steps: seq<Step>)
    requires Init(s0) && forall i :: 0 <= i < |steps| ==> !steps[i].Replay?
    ensures Inv(Run(s0, steps)) && Paced(Run(s0, steps)) && Run(s0, steps).maxAttempts == s0.maxAttempts
  {
    InitInv(s0);
    if steps != [] {
      var n := |steps| - 1;
      assert forall i :: 0 <= i < n ==> steps[..n][i] == steps[i];
      PacedReachable(s0, steps[..n]);
      StepKeepsInv(Run(s0, steps[..n]), steps[n]);
      StepKeepsPace(Run(s0, steps[..n]), steps[n]);
    }
  }
}
