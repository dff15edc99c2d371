/** Local balances: the timestamp-guarded upsert from HCM and the optimistic update loop. */
module Balances {
  import opened Common
  import opened Entities

  /** What HCM says about one key, by webhook, batch row or refresh. */
  datatype BalanceUpdate = BalanceUpdate(key: Key, balanceDays: real, hcmUpdatedAt: int)

  /** Result of asking HCM for one balance. */
  datatype Fetch = Fetched(update: BalanceUpdate) | Missing | Unavailable

  // ---- the upsert ----

  /** An update is refused only when the row carries a strictly newer HCM timestamp. */
  predicate Accepts(b: Option<Balance>, u: BalanceUpdate) {
    b.None? || b.value.hcmUpdatedAt.None? || b.value.hcmUpdatedAt.value <= u.hcmUpdatedAt
  }

  function Upsert(b: Option<Balance>, u: BalanceUpdate): Balance {
    if b.None? then Balance(u.balanceDays, Some(u.hcmUpdatedAt), OK, 1)
    else if Accepts(b, u) then Balance(u.balanceDays, Some(u.hcmUpdatedAt), OK, b.value.version + 1)
    else b.value
  }

  function ApplyHcm(balances: map<Key, Balance>, u: BalanceUpdate): map<Key, Balance> {
    balances[u.key := Upsert(Lookup(balances, u.key), u)]
  }

  function MarkStale(b: Balance): Balance {
    b.(status := STALE, version := b.version + 1)
  }

  function Refresh(balances: map<Key, Balance>, k: Key, fetch: Fetch): Result<map<Key, Balance>> {
    match fetch
    case Unavailable => Failure(HcmUnavailable)
    case Missing =>
      if k in balances then Success(balances[k := MarkStale(balances[k])]) else Failure(NotFound)
    case Fetched(u) => Success(ApplyHcm(balances, u))
  }

  predicate NonNegative(balances: map<Key, Balance>) {
    forall k :: k in balances ==> balances[k].balanceDays >= 0.0
  }

  /** HCM down and nothing known change nothing; a balance unknown to HCM goes STALE as it stands. */
  lemma RefreshWithoutAnswer(balances: map<Key, Balance>, k: Key)
    ensures Refresh(balances, k, Unavailable) == Failure(HcmUnavailable)
    ensures k !in balances ==> Refresh(balances, k, Missing) == Failure(NotFound)
    ensures k in balances ==>
              && Refresh(balances, k, Missing).Success?
              && var b := Refresh(balances, k, Missing).value;
                 && b.Keys == balances.Keys && (forall x :: x in balances && x != k ==> b[x] == balances[x])
                 && b[k].status == STALE && b[k].balanceDays == balances[k].balanceDays
                 && b[k].hcmUpdatedAt == balances[k].hcmUpdatedAt
  {
  }

  // ---- order-independent convergence ----

  function ApplyAll(balances: map<Key, Balance>, us: seq<BalanceUpdate>): map<Key, Balance> {
    if us == [] then balances else ApplyHcm(ApplyAll(balances, us[..|us| - 1]), us[|us| - 1])
  }

  /** u carries the greatest timestamp among the updates for k. */
  predicate Latest(us: seq<BalanceUpdate>, k: Key, u: BalanceUpdate) {
    u in us && u.key == k && forall v :: v in us && v.key == k ==> v.hcmUpdatedAt <= u.hcmUpdatedAt
  }

  /** What a reader of the row sees: everything but the version counter. */
  predicate SameContent(a: Option<Balance>, b: Option<Balance>) {
    a.Some? == b.Some? && (a.Some? ==> a.value.(version := 0) == b.value.(version := 0))
  }

  ghost predicate SameUpdates(us: seq<BalanceUpdate>, vs: seq<BalanceUpdate>) {
    forall u :: u in us <==> u in vs
  }

  /** All updates tied at the greatest timestamp for k agree on the days. */
  ghost predicate Unanimous(us: seq<BalanceUpdate>, k: Key) {
    forall u, v :: Latest(us, k, u) && Latest(us, k, v) ==> u.balanceDays == v.balanceDays
  }

  /** The last applied among the updates for k with the greatest timestamp. */
  function Winner(us: seq<BalanceUpdate>, k: Key): Option<BalanceUpdate> {
    if us == [] then None
    else
      var w, last := Winner(us[..|us| - 1], k), us[|us| - 1];
      if last.key == k && (w.None? || w.value.hcmUpdatedAt <= last.hcmUpdatedAt) then Some(last) else w
  }

  /** The row after any sequence of updates is the row after the winner alone. */
  lemma {:induction false} ApplyAllIsWinner(balances: map<Key, Balance>, us: seq<BalanceUpdate>, k: Key)
    ensures match Winner(us, k)
            case None => Lookup(ApplyAll(balances, us), k) == Lookup(balances, k) && forall v :: v in us ==> v.key != k
            case Some(u) =>
              Latest(us, k, u) && SameContent(Lookup(ApplyAll(balances, us), k), Some(Upsert(Lookup(balances, k), u)))
  {
    if us != [] {
      var init, last := us[..|us| - 1], us[|us| - 1];
      assert us == init + [last];
      ApplyAllIsWinner(balances, init, k);
    }
  }

  /** What an update writes when it is not older than the row: a live row with its days and its timestamp. */
  predicate Carries(b: Option<Balance>, u: BalanceUpdate) {
    b.Some? && b.value.balanceDays == u.balanceDays && b.value.hcmUpdatedAt == Some(u.hcmUpdatedAt) && b.value.status == OK
  }

  /**
   * After any sequence of updates the row of k holds, live, one of those with the latest timestamp, unless the row was
   * newer than all of them; then, and when none was for k, it is the old row.
   */
  lemma LatestDecides(balances: map<Key, Balance>, us: seq<BalanceUpdate>, k: Key)
    ensures var b, b' := Lookup(balances, k), Lookup(ApplyAll(balances, us), k);
            if forall v :: v in us ==> v.key != k then b' == b
            else
              exists u :: Latest(us, k, u) &&
                if b.Some? && b.value.hcmUpdatedAt.Some? && b.value.hcmUpdatedAt.value > u.hcmUpdatedAt then SameContent(b', b)
                else Carries(b', u)
  {
    ApplyAllIsWinner(balances, us, k);
    if Winner(us, k).Some? {
      assert Latest(us, k, Winner(us, k).value);
    }
  }

  /** Of updates tied at the latest timestamp the one applied last decides. */
  lemma LastOfTiesDecides(balances: map<Key, Balance>, us: seq<BalanceUpdate>, u: BalanceUpdate)
    requires Latest(us + [u], u.key, u)
    requires u.key in balances && balances[u.key].hcmUpdatedAt.Some? ==> balances[u.key].hcmUpdatedAt.value <= u.hcmUpdatedAt
    ensures Carries(Lookup(ApplyAll(balances, us + [u]), u.key), u)
  {
    assert (us + [u])[..|us|] == us;
    LatestDecides(balances, us, u.key);
    assert forall v :: v in us ==> v in us + [u];
  }

  /** Applying the same updates again changes no content. */
  lemma ApplyAllIdempotent(balances: map<Key, Balance>, us: seq<BalanceUpdate>, k: Key)
    ensures var once := ApplyAll(balances, us);
            SameContent(Lookup(ApplyAll(once, us), k), Lookup(once, k))
  {
    ApplyAllIsWinner(balances, us, k);
    ApplyAllIsWinner(ApplyAll(balances, us), us, k);
  }

  /** The row for k converges to one content under every reordering and repetition. */
  ghost predicate Converges(balances: map<Key, Balance>, us: seq<BalanceUpdate>, k: Key) {
    forall vs, ws :: SameUpdates(us, vs) && SameUpdates(us, ws) ==>
      SameContent(Lookup(ApplyAll(balances, vs), k), Lookup(ApplyAll(balances, ws), k))
  }

  lemma OneOutcome(balances: map<Key, Balance>, us: seq<BalanceUpdate>, vs: seq<BalanceUpdate>, k: Key, u: BalanceUpdate)
    requires SameUpdates(us, vs) && Latest(us, k, u)
    requires Unanimous(us, k) || !Accepts(Lookup(balances, k), u)
    ensures SameContent(Lookup(ApplyAll(balances, vs), k), Some(Upsert(Lookup(balances, k), u)))
  {
    assert u in vs;
    ApplyAllIsWinner(balances, vs, k);
    var v := Winner(vs, k).value;
    assert Latest(us, k, v);
    assert u.hcmUpdatedAt == v.hcmUpdatedAt;
  }

  lemma TwoOutcomes(balances: map<Key, Balance>, us: seq<BalanceUpdate>, k: Key, u: BalanceUpdate, v: BalanceUpdate)
    requires Latest(us, k, u) && Latest(us, k, v) && u.balanceDays != v.balanceDays
    requires Accepts(Lookup(balances, k), u)
    ensures !Converges(balances, us, k)
  {
    var vs, ws := us + [u], us + [v];
    assert SameUpdates(us, vs) && SameUpdates(us, ws);
    assert vs[..|vs| - 1] == us && ws[..|ws| - 1] == us;
    assert Winner(vs, k) == Some(u) && Winner(ws, k) == Some(v) by {
      ApplyAllIsWinner(balances, us, k);
    }
    ApplyAllIsWinner(balances, vs, k);
    ApplyAllIsWinner(balances, ws, k);
    assert Accepts(Lookup(balances, k), v);
  }

  /** Convergence holds exactly when the latest updates agree or the row already holds something newer. */
  lemma OrderIndependence(balances: map<Key, Balance>, us: seq<BalanceUpdate>, k: Key)
    ensures Converges(balances, us, k) <==>
            Unanimous(us, k) || exists u :: Latest(us, k, u) && !Accepts(Lookup(balances, k), u)
  {
    ApplyAllIsWinner(balances, us, k);
    match Winner(us, k)
    case Some(u) =>
      if Unanimous(us, k) || !Accepts(Lookup(balances, k), u) {
        forall vs | SameUpdates(us, vs)
          ensures SameContent(Lookup(ApplyAll(balances, vs), k), Some(Upsert(Lookup(balances, k), u)))
        {
          OneOutcome(balances, us, vs, k, u);
        }
      } else {
        var v, w :| Latest(us, k, v) && Latest(us, k, w) && v.balanceDays != w.balanceDays;
        assert v.hcmUpdatedAt == u.hcmUpdatedAt;
        TwoOutcomes(balances, us, k, v, w);
        assert forall x :: Latest(us, k, x) ==> x.hcmUpdatedAt == u.hcmUpdatedAt;
      }
    case None =>
      forall vs | SameUpdates(us, vs)
        ensures Lookup(ApplyAll(balances, vs), k) == Lookup(balances, k)
      {
        ApplyAllIsWinner(balances, vs, k);
        if w :| Latest(vs, k, w) { assert w in us; }
      }
  }

  // ---- the optimistic update ----

  /** mutate without contention, as it runs inside a transaction. */
  function Adjust(balances: map<Key, Balance>, k: Key, delta: real): Result<map<Key, Balance>> {
    if k !in balances then Failure(NotFound)
    else
      var row := balances[k];
      if row.status.STALE? then Failure(BalanceStaleBlocked)
      else if row.balanceDays + delta < 0.0 then Failure(InsufficientBalance(row.balanceDays, -delta))
      else Success(balances[k := row.(balanceDays := row.balanceDays + delta, version := row.version + 1)])
  }

  /** One row changes by delta days under its next version, and nothing else does. */
  predicate MovesDays(a: map<Key, Balance>, b: map<Key, Balance>, k: Key, delta: real) {
    && k in a && a.Keys == b.Keys && (forall x :: x in a && x != k ==> b[x] == a[x])
    && b[k].balanceDays == a[k].balanceDays + delta && b[k].version == a[k].version + 1
    && b[k].hcmUpdatedAt == a[k].hcmUpdatedAt && b[k].status == a[k].status
  }

  /** Exactly when a change is refused, why, and what it does otherwise. */
  lemma AdjustExact(balances: map<Key, Balance>, k: Key, delta: real)
    ensures match Adjust(balances, k, delta)
            case Success(balances') =>
              MovesDays(balances, balances', k, delta) && balances[k].status.OK? && balances'[k].balanceDays >= 0.0
            case Failure(NotFound) => k !in balances
            case Failure(BalanceStaleBlocked) => k in balances && balances[k].status.STALE?
            case Failure(InsufficientBalance(have, need)) =>
              k in balances && balances[k].status.OK? && have == balances[k].balanceDays && need == -delta && have < need
            case Failure(_) => false
  {
  }

  /** Every row another writer could have read changes its version whenever it changes at all. */
  predicate Versioned(a: map<Key, Balance>, b: map<Key, Balance>) {
    a.Keys <= b.Keys && forall k :: k in a ==> b[k] == a[k] || b[k].version == a[k].version + 1
  }

  lemma WritesAreVersioned(balances: map<Key, Balance>, u: BalanceUpdate, k: Key, delta: real, fetch: Fetch)
    ensures Versioned(balances, ApplyHcm(balances, u))
    ensures Refresh(balances, k, fetch).Success? ==> Versioned(balances, Refresh(balances, k, fetch).value)
    ensures Adjust(balances, k, delta).Success? ==> Versioned(balances, Adjust(balances, k, delta).value)
  {
  }

  const MAX_ATTEMPTS: nat := 3

  /** What other writers do to the row between the read and the save of one attempt. */
  datatype Rival = Quiet | Write(balanceDays: real, hcmUpdatedAt: Option<int>, status: BalanceStatus)

  function RivalAt(rivals: seq<Rival>, attempt: nat): Rival {
    if 1 <= attempt <= |rivals| then rivals[attempt - 1] else Quiet
  }

  function RivalWrites(b: Balance, r: Rival): Balance {
    match r
    case Quiet => b
    case Write(d, t, s) => Balance(d, t, s, b.version + 1)
  }

  /** The row as the other writers alone leave it after n attempts' gaps. */
  function AfterRivals(b: Balance, rivals: seq<Rival>, n: nat): Balance {
    if n == 0 then b else RivalWrites(AfterRivals(b, rivals, n - 1), RivalAt(rivals, n))
  }

  datatype Mutation = Mutation(row: Balance, outcome: Result<Balance>)

  /** Attempts `attempt`, `attempt + 1`, ... of the retry loop on one row. */
  function MutateFrom(b: Balance, delta: real, rivals: seq<Rival>, attempt: nat): Mutation
    requires 1 <= attempt <= MAX_ATTEMPTS
    decreases MAX_ATTEMPTS - attempt
  {
    if b.status.STALE? then Mutation(b, Failure(BalanceStaleBlocked))
    else if b.balanceDays + delta < 0.0 then Mutation(b, Failure(InsufficientBalance(b.balanceDays, -delta)))
    else
      var now := RivalWrites(b, RivalAt(rivals, attempt));
      if now.version == b.version then
        var saved := b.(balanceDays := b.balanceDays + delta, version := b.version + 1);
        Mutation(saved, Success(saved))
      else if attempt == MAX_ATTEMPTS then Mutation(now, Failure(StaleBalance))
      else MutateFrom(now, delta, rivals, attempt + 1)
  }

  /**
   * No lost update: a success adds exactly delta to the value current at its commit, on a non-STALE row,
   * leaving it non-negative; any failure leaves only the other writers' work.
   */
  lemma {:induction false} MutateLosesNothing(b: Balance, delta: real, rivals: seq<Rival>, attempt: nat) returns (commit: nat)
    requires 1 <= attempt <= MAX_ATTEMPTS
    ensures attempt - 1 <= commit <= 3
    ensures var m := MutateFrom(AfterRivals(b, rivals, attempt - 1), delta, rivals, attempt);
            var current := AfterRivals(b, rivals, commit);
            match m.outcome
            case Success(saved) =>
              RivalAt(rivals, commit).Quiet? && current.status.OK? && m.row == saved &&
              saved == current.(balanceDays := current.balanceDays + delta, version := current.version + 1) &&
              saved.balanceDays >= 0.0
            case Failure(e) =>
              m.row == current &&
              match e
              case BalanceStaleBlocked => current.status.STALE?
              case InsufficientBalance(have, need) => have == current.balanceDays && need == -delta && have < need
              case StaleBalance => forall i :: attempt <= i <= 3 ==> !RivalAt(rivals, i).Quiet?
              case _ => false
    decreases MAX_ATTEMPTS - attempt
  {
    var row := AfterRivals(b, rivals, attempt - 1);
    if row.status.STALE? || row.balanceDays + delta < 0.0 {
      commit := attempt - 1;
    } else if RivalAt(rivals, attempt).Quiet? || attempt == MAX_ATTEMPTS {
      commit := attempt;
    } else {
      commit := MutateLosesNothing(b, delta, rivals, attempt + 1);
    }
  }

  /** Contention only: a mutation that could be applied is refused as STALE_BALANCE iff all three saves are beaten. */
  lemma BeatenThreeTimes(b: Balance, delta: real, rivals: seq<Rival>)
    requires forall n :: 0 <= n < 3 ==>
               AfterRivals(b, rivals, n).status.OK? && AfterRivals(b, rivals, n).balanceDays + delta >= 0.0
    ensures MutateFrom(b, delta, rivals, 1).outcome == Failure(StaleBalance) <==>
            forall i :: 1 <= i <= 3 ==> !RivalAt(rivals, i).Quiet?
  {
    assert AfterRivals(b, rivals, 0) == b;
    var b1, b2 := AfterRivals(b, rivals, 1), AfterRivals(b, rivals, 2);
    assert b1 == RivalWrites(b, RivalAt(rivals, 1)) && b2 == RivalWrites(b1, RivalAt(rivals, 2));
    assert b1.status.OK? && b2.status.OK?;
  }

  class BalancesService {
    const db: Database

    constructor (db: Database)
      ensures this.db == db
    {
      this.db := db;
    }

    method FindOne(k: Key) returns (b: Option<Balance>)
      ensures b == Lookup(db.balances, k)
    {
      b := if k in db.balances then Some(db.balances[k]) else None;
    }

    method ApplyHcmBalance(u: BalanceUpdate) returns (b: Balance)
      modifies db`balances
      ensures db.balances == ApplyHcm(old(db.balances), u)
      ensures b == db.balances[u.key]
      ensures forall k :: k in old(db.balances) && k != u.key ==> k in db.balances && db.balances[k] == old(db.balances)[k]
      ensures if u.key in old(db.balances) && old(db.balances)[u.key].hcmUpdatedAt.Some? &&
                 old(db.balances)[u.key].hcmUpdatedAt.value > u.hcmUpdatedAt
              then b == old(db.balances)[u.key]
              else b.balanceDays == u.balanceDays && b.hcmUpdatedAt == Some(u.hcmUpdatedAt) && b.status == OK
    {
      var existing := FindOne(u.key);
      if existing.Some? {
        if existing.value.hcmUpdatedAt.Some? && existing.value.hcmUpdatedAt.value > u.hcmUpdatedAt {
          assert db.balances == db.balances[u.key := existing.value];
          return existing.value;
        }
        b := Balance(u.balanceDays, Some(u.hcmUpdatedAt), OK, existing.value.version + 1);
      } else {
        b := Balance(u.balanceDays, Some(u.hcmUpdatedAt), OK, 1);
      }
      db.balances := db.balances[u.key := b];
    }

    method RefreshFromHcm(k: Key, fetch: Fetch) returns (r: Result<Balance>)
      modifies db`balances
      ensures match Refresh(old(db.balances), k, fetch)
              case Success(balances) =>
                db.balances == balances && r.Success? &&
                (if fetch.Fetched? then fetch.update.key in balances && r.value == balances[fetch.update.key]
                 else k in balances && r.value == balances[k])
              case Failure(e) => db.balances == old(db.balances) && r == Failure(e)
    {
      match fetch
      case Unavailable => r := Failure(HcmUnavailable);
      case Missing =>
        var existing := FindOne(k);
        if existing.None? {
          return Failure(NotFound);
        }
        var row := MarkStale(existing.value);
        db.balances := db.balances[k := row];
        r := Success(row);
      case Fetched(u) =>
        var row := ApplyHcmBalance(u);
        r := Success(row);
    }

    /** The retry loop; `rivals` is what other writers do between each read and save. */
    method Mutate(k: Key, delta: real, rivals: seq<Rival>) returns (r: Result<Balance>)
      modifies db`balances
      ensures if k !in old(db.balances) then r == Failure(NotFound) && db.balances == old(db.balances)
              else var m := MutateFrom(old(db.balances)[k], delta, rivals, 1);
                   r == m.outcome && db.balances == old(db.balances)[k := m.row]
    {
      ghost var start := db.balances;
      var attempt := 1;
      while attempt <= MAX_ATTEMPTS
        invariant 1 <= attempt <= MAX_ATTEMPTS
        invariant k !in start ==> db.balances == start
        invariant k in start ==>
          k in db.balances && db.balances == start[k := db.balances[k]] &&
          MutateFrom(start[k], delta, rivals, 1) == MutateFrom(db.balances[k], delta, rivals, attempt)
        decreases MAX_ATTEMPTS - attempt
      {
        if k !in db.balances {
          return Failure(NotFound);
        }
        var row := db.balances[k];
        if row.status.STALE? {
          return Failure(BalanceStaleBlocked);
        }
        var newDays := row.balanceDays + delta;
        if newDays < 0.0 {
          return Failure(InsufficientBalance(row.balanceDays, -delta));
        }
        db.balances := db.balances[k := RivalWrites(row, RivalAt(rivals, attempt))];
        if db.balances[k].version == row.version {
          var saved := row.(balanceDays := newDays, version := row.version + 1);
          db.balances := db.balances[k := saved];
          return Success(saved);
        }
        if attempt == MAX_ATTEMPTS {
          return Failure(StaleBalance);
        }
        attempt := attempt + 1;
      }
      r := Failure(StaleBalance);
    }

    /** Inside a transaction there are no rivals, and the loop is Adjust. */
    method MutateInTransaction(k: Key, delta: real) returns (r: Result<Balance>)
      modifies db`balances
      ensures match Adjust(old(db.balances), k, delta)
              case Success(balances) => db.balances == balances && r.Success?
              case Failure(e) => db.balances == old(db.balances) && r == Failure(e)
    {
      r := Mutate(k, delta, []);
      assert k in old(db.balances) ==> old(db.balances)[k := old(db.balances)[k]] == old(db.balances);
    }

    method Decrement(k: Key, days: real) returns (r: Result<Balance>)
      modifies db`balances
      ensures match Adjust(old(db.balances), k, -days)
              case Success(balances) => db.balances == balances && r.Success?
              case Failure(e) => db.balances == old(db.balances) && r == Failure(e)
    {
      r := MutateInTransaction(k, -days);
    }

    method Increment(k: Key, days: real) returns (r: Result<Balance>)
      modifies db`balances
      ensures match Adjust(old(db.balances), k, days)
              case Success(balances) => db.balances == balances && r.Success?
              case Failure(e) => db.balances == old(db.balances) && r == Failure(e)
    {
      r := MutateInTransaction(k, days);
    }
  }
}
