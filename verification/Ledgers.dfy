/** Conservation on each side, and the two-ledger identity. */
module Ledgers {
  import opened Common
  import opened Sums
  import opened Entities
  import opened Balances
  import opened Outbox
  import opened Requests
  import opened Hcm
  import opened Sync
  import opened Protocol
  import opened Invariant
  import opened Reachable

  // ---- the local ledger ----

  function LocalDays(t: Tables, k: Key): real {
    if k in t.balances then t.balances[k].balanceDays else 0.0
  }

  /** Balance plus the days its requests hold: what HCM last granted to the key. */
  function LocalTotal(t: Tables, k: Key): real {
    LocalDays(t, k) + Total(t.requests, DebitedDays(k))
  }

  /** How far an accepted inbound update moves the local balance of k. */
  function Overwrite(t: Tables, u: BalanceUpdate, k: Key): real {
    if u.key == k && Accepts(Lookup(t.balances, k), u) then u.balanceDays - LocalDays(t, k) else 0.0
  }

  /** The only steps that move LocalTotal: overwrites from HCM. */
  function LocalDrift(s: State, step: Step, k: Key): real {
    match step
    case Webhook(u) => Overwrite(s.tables, u, k)
    case Row(u) => Overwrite(s.tables, u, k)
    case RefreshKey(_, Fetched(u)) => Overwrite(s.tables, u, k)
    case _ => 0.0
  }

  lemma RevalidateLedger(t: Tables, k: Key, at: Key)
    ensures LocalTotal(Revalidate(t, at), k) == LocalTotal(t, k)
  {
    if at in t.balances {
      var p := Greedy(t.requests, at, t.balances[at].balanceDays);
      forall i | 0 <= i < |t.requests| ensures DebitedDays(k)(t.requests[i]) == DebitedDays(k)(p.requests[i]) {
        GreedyTouches(t.requests, at, t.balances[at].balanceDays, i);
      }
      TotalSame(t.requests, p.requests, DebitedDays(k), DebitedDays(k));
    }
  }

  /** One request moves and the balance with it. */
  lemma MoveLedger(t: Tables, t': Tables, i: nat, r: Request, k: Key)
    requires i < |t.requests| && t'.requests == t.requests[i := r]
    requires LocalDays(t', k) - LocalDays(t, k) == DebitedDays(k)(t.requests[i]) - DebitedDays(k)(r)
    ensures LocalTotal(t', k) == LocalTotal(t, k)
  {
    TotalChange(t.requests, t'.requests, DebitedDays(k), DebitedDays(k), i);
  }

  lemma ApproveLedger(t: Tables, id: string, now: int, k: Key)
    requires TablesInv(t)
    ensures LocalTotal(OrSame(t, ApproveRequest(t, id, now)), k) == LocalTotal(t, k)
  {
    var t' := OrSame(t, ApproveRequest(t, id, now));
    if t' != t {
      var i := IndexOf(t.requests, id);
      assert RequestOk(t.requests[i], t);
      MoveLedger(t, t', i, t'.requests[i], k);
    }
  }

  lemma CancelLedger(t: Tables, id: string, reason: Option<string>, now: int, k: Key)
    ensures LocalTotal(OrSame(t, CancelRequest(t, id, reason, now)), k) == LocalTotal(t, k)
  {
    var t' := OrSame(t, CancelRequest(t, id, reason, now));
    if t' != t {
      MoveLedger(t, t', IndexOf(t.requests, id), t'.requests[IndexOf(t.requests, id)], k);
    }
  }

  lemma RejectLedger(t: Tables, id: string, reason: string, k: Key)
    ensures LocalTotal(OrSame(t, RejectRequest(t, id, reason)), k) == LocalTotal(t, k)
  {
    var t' := OrSame(t, RejectRequest(t, id, reason));
    if t' != t {
      MoveLedger(t, t', IndexOf(t.requests, id), t'.requests[IndexOf(t.requests, id)], k);
    }
  }

  lemma CloseLedger(t: Tables, id: string, result: SubmitResult, k: Key)
    ensures LocalTotal(OrSame(t, CloseRequest(t, id, result)), k) == LocalTotal(t, k)
  {
    var t' := OrSame(t, CloseRequest(t, id, result));
    if t' != t {
      MoveLedger(t, t', IndexOf(t.requests, id), t'.requests[IndexOf(t.requests, id)], k);
    }
  }

  lemma InboundLedger(t: Tables, u: BalanceUpdate, k: Key)
    ensures LocalTotal(ApplyWebhook(t, u), k) == LocalTotal(t, k) + Overwrite(t, u, k)
    ensures LocalTotal(BatchRow(t, u), k) == LocalTotal(t, k) + Overwrite(t, u, k)
  {
    RevalidateLedger(Apply(t, u), k, u.key);
  }

  lemma CreateLedger(t: Tables, dto: NewRequest, id: string, k: Key)
    ensures LocalTotal(DoCreate(t, dto, id), k) == LocalTotal(t, k)
  {
    if DoCreate(t, dto, id) != t {
      CreateAppends(t, dto, id);
      TotalAppend(t.requests, Fresh(dto, id), DebitedDays(k));
    }
  }

  lemma BalancesOnlyLedger(t: Tables, balances: map<Key, Balance>, k: Key)
    requires LocalDays(t.(balances := balances), k) == LocalDays(t, k)
    ensures LocalTotal(t.(balances := balances), k) == LocalTotal(t, k)
  {
  }

  lemma RefreshLedger(s: State, asked: Key, fetch: Fetch, k: Key)
    ensures LocalTotal(DoRefresh(s.tables, asked, fetch), k) ==
            LocalTotal(s.tables, k) + LocalDrift(s, RefreshKey(asked, fetch), k)
  {
  }

  lemma WorkerLedger(s: State, step: Step, k: Key)
    requires !Local(step)
    ensures LocalTotal(Next(s, step).tables, k) == LocalTotal(s.tables, k)
  {
    if step.Close? && s.worker.Working? && s.worker.phase.Closing? {
      CloseLedger(s.tables, s.worker.phase.current.ev.aggregateId, s.worker.phase.result, k);
    } else {
      assert Next(s, step).tables == s.tables.(events := Next(s, step).tables.events);
    }
  }

  lemma LocalStep(s: State, step: Step, k: Key)
    requires TablesInv(s.tables)
    ensures LocalTotal(Next(s, step).tables, k) == LocalTotal(s.tables, k) + LocalDrift(s, step, k)
  {
    if !Local(step) {
      WorkerLedger(s, step, k);
    } else {
      match step
      case Create(dto, id) => CreateLedger(s.tables, dto, id, k);
      case Approve(id, now) => ApproveLedger(s.tables, id, now, k);
      case Reject(id, reason) => RejectLedger(s.tables, id, reason, k);
      case Cancel(id, reason, now) => CancelLedger(s.tables, id, reason, now, k);
      case Webhook(u) => InboundLedger(s.tables, u, k);
      case Row(u) => InboundLedger(s.tables, u, k);
      case SweepStale(seen) => BalancesOnlyLedger(s.tables, Sweep(s.tables.balances, seen), k);
      case RefreshKey(asked, fetch) => RefreshLedger(s, asked, fetch, k);
    }
  }

  function LocalDrifts(s: State, steps: seq<Step>, k: Key): real {
    if steps == [] then 0.0
    else
      var n := |steps| - 1;
      LocalDrifts(s, steps[..n], k) + LocalDrift(Run(s, steps[..n]), steps[n], k)
  }

  /**
   * Local conservation: over every run, balance plus held days moves only by what HCM overwrote, and a request holds
   * days exactly while APPROVED or HCM_CONFIRMED, so no debit is lost and none is refunded twice.
   */
  lemma {:induction false} LocalConservation(s: State, steps: seq<Step>, k: Key)
    requires Inv(s)
    ensures LocalTotal(Run(s, steps).tables, k) == LocalTotal(s.tables, k) + LocalDrifts(s, steps, k)
    ensures forall i :: 0 <= i < |Run(s, steps).tables.requests| ==>
              var r := Run(s, steps).tables.requests[i];
              r.balanceDecremented <==> r.status.Approved? || r.status.HcmConfirmed?
  {
    RunKeepsInv(s, steps);
    if steps != [] {
      var n := |steps| - 1;
      LocalConservation(s, steps[..n], k);
      RunKeepsInv(s, steps[..n]);
      LocalStep(Run(s, steps[..n]), steps[n], k);
    }
    assert forall i :: 0 <= i < |Run(s, steps).tables.requests| ==>
      RequestOk(Run(s, steps).tables.requests[i], Run(s, steps).tables);
  }

  // ---- the HCM ledger ----

  function HcmDays(s: State, k: Key): real {
    DaysAt(s.hcm, KeyString(k))
  }

  function Held(recorded: bool, days: real): real {
    if recorded then days else 0.0
  }

  /** Net days HCM has recorded as taken for a request: its debit minus its credit. */
  function RecordedDays(k: Key, h: Store): Request -> real {
    (r: Request) =>
      if r.BalanceKey() == k
      then Held(SubmitKey(r.id) in h.idempotencyIndex, r.days) - Held(RefundKey(r.id) in h.idempotencyIndex, r.days)
      else 0.0
  }

  function HcmTotal(s: State, k: Key): real {
    HcmDays(s, k) + Total(s.tables.requests, RecordedDays(k, s.hcm))
  }

  /** SILENT_ACCEPT records the submission of event e without applying it. */
  predicate RecordsSilently(s: State, e: nat, txId: string) {
    && e in s.wire && e < |s.tables.events| && FreshId(s.hcm, txId)
    && s.tables.events[e].idempotencyKey !in s.hcm.idempotencyIndex
    && PayloadString(s.tables.events[e].payload) in s.hcm.balances
  }

  /** The only steps that move HcmTotal: operator edits, and records that SILENT_ACCEPT makes without applying them. */
  function HcmDrift(s: State, step: Step, k: Key): real {
    match step
    case EditHcm(b) => if BalanceString(b) == KeyString(k) then b.balanceDays - HcmDays(s, k) else 0.0
    case Deliver(e, SILENT_ACCEPT, _, txId, _) =>
      if RecordsSilently(s, e, txId) && PayloadString(s.tables.events[e].payload) == KeyString(k)
      then -Signed(s.tables.events[e].payload.txType, s.tables.events[e].payload.days)
      else 0.0
    case _ => 0.0
  }

  predicate PlainRequests(reqs: seq<Request>) {
    forall i :: 0 <= i < |reqs| ==> Plain(reqs[i].BalanceKey())
  }

  predicate PlainStep(step: Step) {
    step.Create? ==> Plain(step.dto.BalanceKey())
  }

  predicate PlainSteps(steps: seq<Step>) {
    forall i :: 0 <= i < |steps| ==> PlainStep(steps[i])
  }

  lemma EvolvesReflexive(a: seq<Request>)
    ensures Evolves(a, a)
  {
  }

  lemma StepEvolves(s: State, step: Step)
    requires Inv(s)
    ensures Evolves(s.tables.requests, Next(s, step).tables.requests)
  {
    if Local(step) {
      LocalKeeps(s, step);
    } else if step.Close? {
      if s.worker.Working? && s.worker.phase.Closing? {
        CloseKeeps(s.tables, s.worker.phase.current.ev.aggregateId, s.worker.phase.result);
      } else {
        EvolvesReflexive(s.tables.requests);
      }
    } else {
      EvolvesReflexive(s.tables.requests);
      OnlyCloseTellsRequests(s, step);
    }
  }

  /** Worker, network and operator steps leave the requests alone, except for closing. */
  lemma OnlyCloseTellsRequests(s: State, step: Step)
    requires !Local(step) && !step.Close?
    ensures Next(s, step).tables.requests == s.tables.requests
  {
  }

  /** Requests that merely move weigh the same at HCM. */
  lemma EvolvedWeight(a: seq<Request>, b: seq<Request>, k: Key, h: Store)
    requires Evolves(a, b) && |b| == |a|
    ensures Total(b, RecordedDays(k, h)) == Total(a, RecordedDays(k, h))
  {
    forall i | 0 <= i < |a| ensures RecordedDays(k, h)(a[i]) == RecordedDays(k, h)(b[i]) {
      assert SameRequest(a[i], b[i]);
    }
    TotalSame(a, b, RecordedDays(k, h), RecordedDays(k, h));
  }

  lemma CreateWeighsNothing(s: State, dto: NewRequest, id: string, k: Key)
    requires Inv(s)
    ensures Total(DoCreate(s.tables, dto, id).requests, RecordedDays(k, s.hcm)) == Total(s.tables.requests, RecordedDays(k, s.hcm))
  {
    if DoCreate(s.tables, dto, id) != s.tables {
      CreateAppends(s.tables, dto, id);
      UnusedId(s.tables, id);
      TotalAppend(s.tables.requests, Fresh(dto, id), RecordedDays(k, s.hcm));
    }
  }

  lemma WeightKept(s: State, step: Step, k: Key)
    requires Inv(s)
    ensures Total(Next(s, step).tables.requests, RecordedDays(k, s.hcm)) == Total(s.tables.requests, RecordedDays(k, s.hcm))
  {
    if step.Create? {
      CreateWeighsNothing(s, step.dto, step.id, k);
    } else {
      StepEvolves(s, step);
      SameLength(s, step);
      EvolvedWeight(s.tables.requests, Next(s, step).tables.requests, k, s.hcm);
    }
  }

  lemma HcmUntouched(s: State, step: Step)
    requires !step.Deliver? && !step.EditHcm?
    ensures Next(s, step).hcm == s.hcm
  {
  }

  lemma EvolveLedger(s: State, step: Step, k: Key)
    requires Inv(s) && !step.Deliver? && !step.EditHcm?
    ensures HcmTotal(Next(s, step), k) == HcmTotal(s, k)
  {
    WeightKept(s, step, k);
    HcmUntouched(s, step);
  }

  lemma SameLength(s: State, step: Step)
    requires !step.Create?
    ensures |Next(s, step).tables.requests| == |s.tables.requests|
  {
  }

  /** A new record of event e weighs on its own request only. */
  lemma RecordLedger(s: State, h: Store, e: nat, k: Key)
    requires Inv(s) && e < |s.tables.events| && PlainRequests(s.tables.requests) && Plain(k)
    requires s.tables.events[e].idempotencyKey !in s.hcm.idempotencyIndex
    requires h.idempotencyIndex.Keys == s.hcm.idempotencyIndex.Keys + {s.tables.events[e].idempotencyKey}
    ensures Total(s.tables.requests, RecordedDays(k, h)) ==
            Total(s.tables.requests, RecordedDays(k, s.hcm)) -
            if PayloadString(s.tables.events[e].payload) == KeyString(k)
            then Signed(s.tables.events[e].payload.txType, s.tables.events[e].payload.days) else 0.0
  {
    var reqs, ev := s.tables.requests, s.tables.events[e];
    var i := IndexOf(reqs, ev.aggregateId);
    assert Linked(reqs, ev);
    var v, w := RecordedDays(k, s.hcm), RecordedDays(k, h);
    forall j | 0 <= j < |reqs| && j != i ensures v(reqs[j]) == w(reqs[j]) {
      KeysApart(reqs[j].id, reqs[i].id);
      KeysApart(reqs[i].id, reqs[j].id);
    }
    TotalChange(reqs, reqs, v, w, i);
    KeysApart(reqs[i].id, reqs[i].id);
    if PayloadString(ev.payload) == KeyString(k) {
      KeyStringInjective(reqs[i].BalanceKey(), k);
    }
  }

  /** A delivery that records nothing changes neither side of the HCM ledger. */
  lemma QuietDelivery(s: State, h: Store, k: Key)
    requires h.idempotencyIndex.Keys == s.hcm.idempotencyIndex.Keys && h.balances == s.hcm.balances
    ensures HcmTotal(s.(hcm := h), k) == HcmTotal(s, k)
  {
    var v, w := RecordedDays(k, s.hcm), RecordedDays(k, h);
    assert forall r: Request :: v(r) == w(r);
    TotalSame(s.tables.requests, s.tables.requests, v, w);
  }

  /** What one submission can do to the store: nothing, or one new record with its effect unless accepted silently. */
  lemma SubmitEffect(h: Store, mode: FailureMode, flaky: bool, key: string, body: Payload, txId: string, now: int, ks: string)
    requires WellFormed(h) && FreshId(h, txId) && key != ""
    ensures var h' := Submit(h, mode, flaky, key, body, txId, now).0;
            || h' == h
            || (&& key !in h.idempotencyIndex && h'.idempotencyIndex.Keys == h.idempotencyIndex.Keys + {key}
                && DaysAt(h', ks) == DaysAt(h, ks) +
                   if !mode.SILENT_ACCEPT? && PayloadString(body) == ks then Signed(body.txType, body.days) else 0.0)
    ensures mode.SILENT_ACCEPT? ==>
              (Submit(h, mode, flaky, key, body, txId, now).0 != h <==>
               key !in h.idempotencyIndex && PayloadString(body) in h.balances)
  {
    var h' := Submit(h, mode, flaky, key, body, txId, now).0;
    if mode.SILENT_ACCEPT? && key !in h.idempotencyIndex && PayloadString(body) in h.balances {
      assert key in h'.idempotencyIndex;
    }
  }

  lemma DeliverLedger(s: State, e: nat, mode: FailureMode, flaky: bool, txId: string, now: int, k: Key)
    requires Inv(s) && PlainRequests(s.tables.requests) && Plain(k)
    ensures HcmTotal(DoDeliver(s, e, mode, flaky, txId, now), k) ==
            HcmTotal(s, k) + HcmDrift(s, Deliver(e, mode, flaky, txId, now), k)
  {
    if e in s.wire && FreshId(s.hcm, txId) {
      var ev := s.tables.events[e];
      assert Linked(s.tables.requests, ev);
      KeysApart(ev.aggregateId, ev.aggregateId);
      SubmitEffect(s.hcm, mode, flaky, ev.idempotencyKey, ev.payload, txId, now, KeyString(k));
      var h := Submit(s.hcm, mode, flaky, ev.idempotencyKey, ev.payload, txId, now).0;
      if h == s.hcm {
        QuietDelivery(s, h, k);
      } else {
        RecordLedger(s, h, e, k);
      }
    }
  }

  lemma HcmStep(s: State, step: Step, k: Key)
    requires Inv(s) && PlainRequests(s.tables.requests) && Plain(k)
    ensures HcmTotal(Next(s, step), k) == HcmTotal(s, k) + HcmDrift(s, step, k)
  {
    match step
    case Deliver(e, mode, flaky, txId, now) => DeliverLedger(s, e, mode, flaky, txId, now, k);
    case EditHcm(b) =>
    case _ => EvolveLedger(s, step, k);
  }

  function HcmDrifts(s: State, steps: seq<Step>, k: Key): real {
    if steps == [] then 0.0
    else
      var n := |steps| - 1;
      HcmDrifts(s, steps[..n], k) + HcmDrift(Run(s, steps[..n]), steps[n], k)
  }

  lemma StepKeepsPlain(s: State, step: Step)
    requires Inv(s) && PlainRequests(s.tables.requests) && PlainStep(step)
    ensures PlainRequests(Next(s, step).tables.requests)
  {
    var a, b := s.tables.requests, Next(s, step).tables.requests;
    StepEvolves(s, step);
    if !step.Create? {
      SameLength(s, step);
    }
    forall i | 0 <= i < |b| ensures Plain(b[i].BalanceKey()) {
      if i < |a| {
        assert SameRequest(a[i], b[i]);
      }
    }
  }

  lemma PlainPrefix(steps: seq<Step>)
    requires PlainSteps(steps) && steps != []
    ensures PlainSteps(steps[..|steps| - 1]) && PlainStep(steps[|steps| - 1])
  {
  }

  lemma {:induction false} RunKeepsPlain(s: State, steps: seq<Step>)
    requires Inv(s) && PlainRequests(s.tables.requests) && PlainSteps(steps)
    ensures PlainRequests(Run(s, steps).tables.requests)
  {
    if steps != [] {
      var n := |steps| - 1;
      PlainPrefix(steps);
      RunKeepsPlain(s, steps[..n]);
      RunKeepsInv(s, steps[..n]);
      StepKeepsPlain(Run(s, steps[..n]), steps[n]);
    }
  }

  /** HCM conservation: each HCM balance is its opening value minus recorded debits plus recorded credits, plus drift. */
  lemma {:induction false} HcmConservation(s: State, steps: seq<Step>, k: Key)
    requires Inv(s) && PlainRequests(s.tables.requests) && PlainSteps(steps) && Plain(k)
    ensures HcmTotal(Run(s, steps), k) == HcmTotal(s, k) + HcmDrifts(s, steps, k)
  {
    if steps != [] {
      var init, last := steps[..|steps| - 1], steps[|steps| - 1];
      PlainPrefix(steps);
      HcmConservation(s, init, k);
      RunKeepsInv(s, init);
      RunKeepsPlain(s, init);
      HcmStep(Run(s, init), last, k);
    }
  }

  // ---- both ledgers ----

  /** days * (decremented - debit recorded at HCM + credit recorded at HCM). */
  function Owed(k: Key, h: Store): Request -> real {
    (r: Request) =>
      if r.BalanceKey() == k
      then Held(r.balanceDecremented, r.days) - Held(SubmitKey(r.id) in h.idempotencyIndex, r.days)
           + Held(RefundKey(r.id) in h.idempotencyIndex, r.days)
      else 0.0
  }

  function Gap(s: State, k: Key): real {
    HcmDays(s, k) - LocalDays(s.tables, k)
  }

  lemma GapIsDifference(s: State, k: Key)
    ensures Gap(s, k) == HcmTotal(s, k) - LocalTotal(s.tables, k) + Total(s.tables.requests, Owed(k, s.hcm))
  {
    TotalDifference(s.tables.requests, Owed(k, s.hcm), DebitedDays(k), RecordedDays(k, s.hcm));
  }

  /**
   * The two-ledger identity, for every run under any interleaving of decisions, deliveries, losses, duplicates,
   * crashes, retries and replays: HCM minus local equals the opening gap plus what the requests owe, plus drift.
   */
  lemma TwoLedgerIdentity(s0: State, steps: seq<Step>, k: Key)
    requires Init(s0) && PlainSteps(steps) && Plain(k)
    ensures var s := Run(s0, steps);
            Gap(s, k) == Gap(s0, k) + Total(s.tables.requests, Owed(k, s.hcm))
                         + HcmDrifts(s0, steps, k) - LocalDrifts(s0, steps, k)
  {
    InitInv(s0);
    LocalConservation(s0, steps, k);
    HcmConservation(s0, steps, k);
    GapIsDifference(s0, k);
    GapIsDifference(Run(s0, steps), k);
  }

  /** No inbound balance, no operator edit and no SILENT_ACCEPT delivery. */
  predicate DriftFree(step: Step) {
    !(step.Webhook? || step.Row? || step.RefreshKey? || step.EditHcm? || (step.Deliver? && step.mode.SILENT_ACCEPT?))
  }

  lemma {:induction false} NoDrift(s: State, steps: seq<Step>, k: Key)
    requires forall i :: 0 <= i < |steps| ==> DriftFree(steps[i])
    ensures LocalDrifts(s, steps, k) == 0.0 && HcmDrifts(s, steps, k) == 0.0
  {
    if steps != [] {
      NoDrift(s, steps[..|steps| - 1], k);
      assert DriftFree(steps[|steps| - 1]);
    }
  }
}
