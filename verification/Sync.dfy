/** Reconciliation with HCM: single webhooks and full batches. */
module Sync {
  import opened Common
  import opened StateMachine
  import opened Sums
  import opened Entities
  import opened Balances
  import opened Requests
  import opened TimeOffRequests

  datatype Report = Report(applied: nat, drift: nat, created: nat, staled: nat, revoked: seq<string>)

  function Apply(t: Tables, u: BalanceUpdate): Tables {
    t.(balances := ApplyHcm(t.balances, u))
  }

  /** A webhook always revalidates, even when its update is refused as old. */
  function ApplyWebhook(t: Tables, u: BalanceUpdate): Tables {
    Revalidate(Apply(t, u), u.key)
  }

  predicate Drifts(t: Tables, u: BalanceUpdate) {
    u.key in t.balances && t.balances[u.key].balanceDays != u.balanceDays
  }

  /** A batch row revalidates only when the local days differed. */
  function BatchRow(t: Tables, u: BalanceUpdate): Tables {
    if Drifts(t, u) then Revalidate(Apply(t, u), u.key) else Apply(t, u)
  }

  function BatchRows(t: Tables, rows: seq<BalanceUpdate>): Tables {
    if rows == [] then t else BatchRow(BatchRows(t, rows[..|rows| - 1]), rows[|rows| - 1])
  }

  /** What one row adds to the report, seen from the tables before it. */
  function CountRow(t: Tables, u: BalanceUpdate, r: Report): Report {
    r.(applied := r.applied + 1,
       created := r.created + if u.key in t.balances then 0 else 1,
       drift := r.drift + if Drifts(t, u) then 1 else 0,
       revoked := r.revoked + if Drifts(t, u) then RevokedBy(Apply(t, u), u.key) else [])
  }

  function RowReport(t: Tables, rows: seq<BalanceUpdate>): Report {
    if rows == [] then Report(0, 0, 0, 0, [])
    else
      var init := rows[..|rows| - 1];
      CountRow(BatchRows(t, init), rows[|rows| - 1], RowReport(t, init))
  }

  function Seen(rows: seq<BalanceUpdate>): set<string> {
    if rows == [] then {} else Seen(rows[..|rows| - 1]) + {KeyString(rows[|rows| - 1].key)}
  }

  /** Keys of the live rows the batch did not mention. */
  function Absent(balances: map<Key, Balance>, seen: set<string>): set<Key> {
    set k | k in balances && balances[k].status.OK? && KeyString(k) !in seen
  }

  function Sweep(balances: map<Key, Balance>, seen: set<string>): map<Key, Balance> {
    map k | k in balances :: if k in Absent(balances, seen) then MarkStale(balances[k]) else balances[k]
  }

  function ApplyBatch(t: Tables, rows: seq<BalanceUpdate>): Tables {
    var t1 := BatchRows(t, rows);
    t1.(balances := Sweep(t1.balances, Seen(rows)))
  }

  function BatchReport(t: Tables, rows: seq<BalanceUpdate>): Report {
    RowReport(t, rows).(staled := |Absent(BatchRows(t, rows).balances, Seen(rows))|)
  }

  // ---- completeness ----

  /** On balances the batch is the plain fold of its rows. */
  lemma {:induction false} BatchRowsApply(t: Tables, rows: seq<BalanceUpdate>)
    ensures BatchRows(t, rows).balances == ApplyAll(t.balances, rows)
    ensures RowReport(t, rows).applied == |rows|
  {
    if rows != [] {
      BatchRowsApply(t, rows[..|rows| - 1]);
    }
  }

  function KeysOf(rows: seq<BalanceUpdate>): set<Key> {
    if rows == [] then {} else KeysOf(rows[..|rows| - 1]) + {rows[|rows| - 1].key}
  }

  lemma {:induction false} KeysOfRows(rows: seq<BalanceUpdate>)
    ensures forall u :: u in rows ==> u.key in KeysOf(rows) && KeyString(u.key) in Seen(rows)
    ensures forall k :: k in KeysOf(rows) ==> exists u :: u in rows && u.key == k
    ensures forall ks :: ks in Seen(rows) ==> exists u :: u in rows && KeyString(u.key) == ks
  {
    if rows != [] {
      var init, last := rows[..|rows| - 1], rows[|rows| - 1];
      KeysOfRows(init);
      assert rows == init + [last];
      assert last in rows;
    }
  }

  /** Distinct keys of the batch that had no local row. */
  function NewKeys(balances: map<Key, Balance>, rows: seq<BalanceUpdate>): set<Key> {
    KeysOf(rows) - balances.Keys
  }

  lemma {:induction false} BatchKeys(t: Tables, rows: seq<BalanceUpdate>)
    ensures BatchRows(t, rows).balances.Keys == t.balances.Keys + KeysOf(rows)
  {
    if rows != [] {
      BatchKeys(t, rows[..|rows| - 1]);
    }
  }

  lemma NewKeysGrow(balances: map<Key, Balance>, rows: seq<BalanceUpdate>)
    requires rows != []
    ensures var init, k := rows[..|rows| - 1], rows[|rows| - 1].key;
            |NewKeys(balances, rows)| == |NewKeys(balances, init)| + if k in balances.Keys + KeysOf(init) then 0 else 1
  {
    AddKey(KeysOf(rows[..|rows| - 1]), balances.Keys, rows[|rows| - 1].key);
  }

  lemma AddKey(keys: set<Key>, known: set<Key>, k: Key)
    ensures |(keys + {k}) - known| == |keys - known| + if k in known + keys then 0 else 1
  {
    if k in known + keys {
      assert (keys + {k}) - known == keys - known;
    } else {
      assert (keys + {k}) - known == (keys - known) + {k};
    }
  }

  lemma {:induction false} CreatedCountsNewKeys(t: Tables, rows: seq<BalanceUpdate>)
    ensures RowReport(t, rows).created == |NewKeys(t.balances, rows)|
  {
    if rows != [] {
      CreatedCountsNewKeys(t, rows[..|rows| - 1]);
      NewKeysGrow(t.balances, rows);
      BatchKeys(t, rows[..|rows| - 1]);
    }
  }

  lemma UnseenUntouched(t: Tables, rows: seq<BalanceUpdate>, k: Key)
    requires KeyString(k) !in Seen(rows)
    ensures Lookup(BatchRows(t, rows).balances, k) == Lookup(t.balances, k)
  {
    KeysOfRows(rows);
    BatchRowsApply(t, rows);
    ApplyAllIsWinner(t.balances, rows, k);
  }

  lemma AbsentUnchanged(t: Tables, rows: seq<BalanceUpdate>)
    ensures Absent(BatchRows(t, rows).balances, Seen(rows)) == Absent(t.balances, Seen(rows))
  {
    var b, b1 := t.balances, BatchRows(t, rows).balances;
    forall k | KeyString(k) !in Seen(rows)
      ensures k in Absent(b, Seen(rows)) <==> k in Absent(b1, Seen(rows))
    {
      UnseenUntouched(t, rows, k);
      assert Lookup(b, k) == Lookup(b1, k);
    }
  }

  predicate AsNew(balances: map<Key, Balance>, u: BalanceUpdate) {
    u.key in balances && balances[u.key].hcmUpdatedAt.Some? && u.hcmUpdatedAt <= balances[u.key].hcmUpdatedAt.value
  }

  lemma RowsAsNew(balances: map<Key, Balance>, rows: seq<BalanceUpdate>, i: nat)
    requires i < |rows|
    ensures AsNew(ApplyAll(balances, rows), rows[i])
  {
    ApplyAllIsWinner(balances, rows, rows[i].key);
    var row := Lookup(ApplyAll(balances, rows), rows[i].key);
    assert rows[i] in rows;
    assert row.Some?;
  }

  /** Each row's key has a local row with a timestamp no older than the row's. */
  predicate AtLeastAsNew(t: Tables, rows: seq<BalanceUpdate>) {
    forall i :: 0 <= i < |rows| ==> AsNew(t.balances, rows[i])
  }

  /** The report counts rows, distinct new keys and newly stale rows. */
  lemma BatchCounts(t: Tables, rows: seq<BalanceUpdate>)
    ensures var r := BatchReport(t, rows);
            && r.applied == |rows|
            && r.created == |NewKeys(t.balances, rows)|
            && r.staled == |Absent(t.balances, Seen(rows))|
  {
    BatchRowsApply(t, rows);
    CreatedCountsNewKeys(t, rows);
    AbsentUnchanged(t, rows);
  }

  predicate Differs(balances: map<Key, Balance>, u: BalanceUpdate) {
    u.key in balances && balances[u.key].balanceDays != u.balanceDays
  }

  /** The rows that find other days than their own, each over the balances the rows before it left. */
  function DriftingRows(balances: map<Key, Balance>, rows: seq<BalanceUpdate>): set<nat> {
    set i: nat | i < |rows| && Differs(ApplyAll(balances, rows[..i]), rows[i])
  }

  lemma DriftingRowsGrow(balances: map<Key, Balance>, rows: seq<BalanceUpdate>)
    requires rows != []
    ensures var n := |rows| - 1;
            var before := DriftingRows(balances, rows[..n]);
            && n !in before
            && DriftingRows(balances, rows) == if Differs(ApplyAll(balances, rows[..n]), rows[n]) then before + {n} else before
  {
    var n := |rows| - 1;
    forall i: nat | i < n
      ensures i in DriftingRows(balances, rows[..n]) <==> i in DriftingRows(balances, rows)
    {
      assert rows[..n][..i] == rows[..i] && rows[..n][i] == rows[i];
    }
  }

  lemma {:induction false} DriftCounts(t: Tables, rows: seq<BalanceUpdate>)
    ensures RowReport(t, rows).drift == |DriftingRows(t.balances, rows)|
  {
    if rows != [] {
      var n := |rows| - 1;
      DriftCounts(t, rows[..n]);
      BatchRowsApply(t, rows[..n]);
      DriftingRowsGrow(t.balances, rows);
    }
  }

  lemma {:induction false} RevokedIdsAre(before: seq<Request>, after: seq<Request>, id: string)
    requires |before| == |after|
    ensures id in RevokedIds(before, after) <==>
            exists i :: 0 <= i < |before| && before[i].id == id && before[i].status != after[i].status
  {
    if before != [] {
      var n := |before| - 1;
      RevokedIdsAre(before[..n], after[..n], id);
      assert forall i :: 0 <= i < n ==> before[..n][i] == before[i] && after[..n][i] == after[i];
    }
  }

  lemma RowReports(t: Tables, u: BalanceUpdate, id: string)
    requires Drifts(t, u)
    ensures |BatchRow(t, u).requests| == |t.requests|
    ensures id in RevokedBy(Apply(t, u), u.key) <==>
            exists i :: 0 <= i < |t.requests| && t.requests[i].id == id && t.requests[i] != BatchRow(t, u).requests[i]
  {
    var balance := Apply(t, u).balances[u.key].balanceDays;
    var out := Greedy(t.requests, u.key, balance).requests;
    RevokedAreReported(t.requests, u.key, balance);
    RevokedIdsAre(t.requests, out, id);
    forall i | 0 <= i < |t.requests| ensures t.requests[i] != out[i] <==> t.requests[i].status != out[i].status {
      RevokedOutcome(t.requests, u.key, balance, i);
    }
  }

  /** The report names exactly the requests the batch changed, and each of them was revoked. */
  lemma {:induction false} ReportedIffRevoked(t: Tables, rows: seq<BalanceUpdate>, i: nat)
    requires DistinctIds(t.requests) && i < |t.requests|
    ensures |BatchRows(t, rows).requests| == |t.requests|
    ensures var r, r' := t.requests[i], BatchRows(t, rows).requests[i];
            && (r.id in RowReport(t, rows).revoked <==> r' != r)
            && (r' != r ==> r.status == PendingApproval &&
                            r' == r.(status := HcmRejected, rejectionReason := Some("balance_revoked")))
  {
    BatchRowsTouch(t, rows);
    if rows != [] {
      var n := |rows| - 1;
      var t1, u := BatchRows(t, rows[..n]), rows[n];
      ReportedIffRevoked(t, rows[..n], i);
      BatchRowsTouch(t, rows[..n]);
      if Drifts(t1, u) {
        RowReports(t1, u, t.requests[i].id);
        forall j | 0 <= j < |t.requests| && t1.requests[j].id == t.requests[i].id ensures j == i {
          assert t1.requests[j].id == t.requests[j].id;
        }
        if t1.requests[i] != t.requests[i] {
          StaysRevoked(t1, u, i);
        }
      }
    }
  }

  /** The sweep marks the live rows whose key was not seen and leaves everything else as it is. */
  lemma SweepMarks(balances: map<Key, Balance>, seen: set<string>, k: Key)
    ensures Sweep(balances, seen).Keys == balances.Keys
    ensures k in balances ==>
              var b, b' := balances[k], Sweep(balances, seen)[k];
              if b.status == OK && KeyString(k) !in seen
              then b'.status == STALE && b'.balanceDays == b.balanceDays && b'.hcmUpdatedAt == b.hcmUpdatedAt && b'.version == b.version + 1
              else b' == b
  {
  }

  /**
   * After a batch a mentioned key's row holds, live, one of its latest batch rows, unless it was newer than all of them
   * and stayed as it was.
   */
  lemma MentionedKeyIsLive(t: Tables, rows: seq<BalanceUpdate>, k: Key)
    requires exists v :: v in rows && v.key == k
    ensures var b, b' := Lookup(t.balances, k), Lookup(ApplyBatch(t, rows).balances, k);
            exists u :: Latest(rows, k, u) &&
              if b.Some? && b.value.hcmUpdatedAt.Some? && b.value.hcmUpdatedAt.value > u.hcmUpdatedAt then SameContent(b', b)
              else Carries(b', u)
  {
    LatestDecides(t.balances, rows, k);
    BatchRowsApply(t, rows);
    KeysOfRows(rows);
    SweepMarks(BatchRows(t, rows).balances, Seen(rows), k);
  }

  /**
   * After a batch every mentioned key has a row at least as new as each of its batch rows, and every live local row
   * is one the batch mentioned.
   */
  lemma BatchComplete(t: Tables, rows: seq<BalanceUpdate>)
    ensures AtLeastAsNew(ApplyBatch(t, rows), rows)
    ensures var b := ApplyBatch(t, rows).balances;
            forall k :: k in b && b[k].status.OK? ==> KeyString(k) in Seen(rows)
  {
    BatchRowsApply(t, rows);
    forall i | 0 <= i < |rows| ensures AsNew(ApplyBatch(t, rows).balances, rows[i]) {
      RowsAsNew(t.balances, rows, i);
    }
  }

  /** When no employee id contains a colon, a live row after a batch belongs to a key of the batch itself. */
  lemma LiveRowsAreInBatch(t: Tables, rows: seq<BalanceUpdate>, k: Key)
    requires k in ApplyBatch(t, rows).balances && ApplyBatch(t, rows).balances[k].status.OK?
    requires Plain(k) && forall u :: u in rows ==> Plain(u.key)
    ensures exists u :: u in rows && u.key == k
  {
    BatchComplete(t, rows);
    KeysOfRows(rows);
    var u :| u in rows && KeyString(u.key) == KeyString(k);
    KeyStringInjective(u.key, k);
  }

  // ---- what a row does to the reservation ----

  lemma RowReserves(t: Tables, u: BalanceUpdate, k: Key)
    requires Backed(t) && NonNegative(t.balances) && u.balanceDays >= 0.0 && Reserved(t, k)
    ensures Reserved(BatchRow(t, u), k)
  {
    if Drifts(t, u) {
      RevalidateReserves(Apply(t, u), u.key, k);
    } else if u.key !in t.balances {
      NothingWaiting(t, u.key);
    }
  }

  /** The reservation invariant on all keys, over well-formed tables. */
  ghost predicate Solvent(t: Tables) {
    PositiveDays(t.requests) && Backed(t) && NonNegative(t.balances) && forall k :: Reserved(t, k)
  }

  /** The @Min(0) the endpoint demands of its rows. */
  predicate NonNegativeRows(rows: seq<BalanceUpdate>) {
    forall i :: 0 <= i < |rows| ==> rows[i].balanceDays >= 0.0
  }

  lemma RowKeepsBacked(t: Tables, u: BalanceUpdate)
    requires Backed(t)
    ensures Backed(BatchRow(t, u))
  {
    var t' := BatchRow(t, u);
    forall i | 0 <= i < |t'.requests| ensures t'.requests[i].BalanceKey() in t'.balances {
      if Drifts(t, u) {
        GreedyTouches(t.requests, u.key, Apply(t, u).balances[u.key].balanceDays, i);
      }
    }
  }

  lemma RowShrinks(t: Tables, u: BalanceUpdate, k: Key)
    requires PositiveDays(t.requests)
    ensures PositiveDays(BatchRow(t, u).requests)
    ensures Total(BatchRow(t, u).requests, PendingDays(k)) <= Total(t.requests, PendingDays(k))
  {
    if Drifts(t, u) {
      RevalidateShrinks(Apply(t, u), u.key, k);
    }
  }

  lemma RowKeepsSolvent(t: Tables, u: BalanceUpdate)
    requires Solvent(t) && u.balanceDays >= 0.0
    ensures Solvent(BatchRow(t, u))
  {
    RowKeepsBacked(t, u);
    RowShrinks(t, u, u.key);
    assert BatchRow(t, u).balances == ApplyHcm(t.balances, u);
    forall k ensures Reserved(BatchRow(t, u), k) {
      RowReserves(t, u, k);
    }
  }

  // ---- when a batch revokes ----

  /** Over balances b the row leaves its key alone, or leaves it with enough for what waits in t. */
  predicate RowSettles(t: Tables, b: map<Key, Balance>, u: BalanceUpdate) {
    u.key in b && b[u.key].balanceDays != u.balanceDays ==>
      Total(t.requests, PendingDays(u.key)) <= ApplyHcm(b, u)[u.key].balanceDays
  }

  predicate RowsSettle(t: Tables, rows: seq<BalanceUpdate>) {
    forall i :: 0 <= i < |rows| ==> RowSettles(t, ApplyAll(t.balances, rows[..i]), rows[i])
  }

  lemma RowsSettlePrefix(t: Tables, rows: seq<BalanceUpdate>)
    requires rows != []
    ensures var n := |rows| - 1;
            RowsSettle(t, rows) <==> RowsSettle(t, rows[..n]) && RowSettles(t, ApplyAll(t.balances, rows[..n]), rows[n])
  {
    var n := |rows| - 1;
    assert forall i :: 0 <= i < n ==> rows[..n][..i] == rows[..i] && rows[..n][i] == rows[i];
    if RowsSettle(t, rows[..n]) && RowSettles(t, ApplyAll(t.balances, rows[..n]), rows[n]) {
      forall i | 0 <= i < |rows| ensures RowSettles(t, ApplyAll(t.balances, rows[..i]), rows[i]) {
        assert i < n ==> RowSettles(t, ApplyAll(t.balances, rows[..n][..i]), rows[..n][i]);
      }
    }
    if RowsSettle(t, rows) {
      forall i | 0 <= i < n ensures RowSettles(t, ApplyAll(t.balances, rows[..n][..i]), rows[..n][i]) {
        assert RowSettles(t, ApplyAll(t.balances, rows[..i]), rows[i]);
      }
    }
  }

  lemma {:induction false} FoldNonNegative(balances: map<Key, Balance>, rows: seq<BalanceUpdate>)
    requires NonNegative(balances) && NonNegativeRows(rows)
    ensures NonNegative(ApplyAll(balances, rows))
  {
    if rows != [] {
      FoldNonNegative(balances, rows[..|rows| - 1]);
    }
  }

  lemma RowRevokesIff(t: Tables, u: BalanceUpdate)
    requires PositiveDays(t.requests) && NonNegative(t.balances) && u.balanceDays >= 0.0
    ensures BatchRow(t, u).requests == t.requests <==> RowSettles(t, t.balances, u)
    ensures Drifts(t, u) ==> (RevokedBy(Apply(t, u), u.key) == [] <==> RowSettles(t, t.balances, u))
  {
    if Drifts(t, u) {
      RevalidateRevokesIff(Apply(t, u), u.key);
    }
  }

  lemma StaysRevoked(t: Tables, u: BalanceUpdate, i: nat)
    requires i < |t.requests| && !t.requests[i].status.PendingApproval?
    ensures |BatchRow(t, u).requests| == |t.requests| && BatchRow(t, u).requests[i] == t.requests[i]
  {
    GreedyTouches(t.requests, u.key, Apply(t, u).balances[u.key].balanceDays, i);
  }

  lemma {:induction false} BatchRowsTouch(t: Tables, rows: seq<BalanceUpdate>)
    ensures |BatchRows(t, rows).requests| == |t.requests|
    ensures forall i :: 0 <= i < |t.requests| ==>
              var r := BatchRows(t, rows).requests[i];
              r == t.requests[i] || (t.requests[i].status.PendingApproval? && r == Revoke(t.requests[i]))
  {
    if rows != [] {
      var n := |rows| - 1;
      BatchRowsTouch(t, rows[..n]);
      var t1, u := BatchRows(t, rows[..n]), rows[n];
      if Drifts(t1, u) {
        forall i | 0 <= i < |t.requests|
          ensures var out := BatchRow(t1, u).requests[i];
                  out == t1.requests[i] || (t1.requests[i].status.PendingApproval? && out == Revoke(t1.requests[i]))
        {
          GreedyTouches(t1.requests, u.key, Apply(t1, u).balances[u.key].balanceDays, i);
        }
      }
    }
  }

  /** A revocation by one of the first rows is still there after the last. */
  lemma RevokedForGood(t: Tables, rows: seq<BalanceUpdate>)
    requires rows != [] && BatchRows(t, rows[..|rows| - 1]).requests != t.requests
    ensures BatchRows(t, rows).requests != t.requests
  {
    var t1 := BatchRows(t, rows[..|rows| - 1]);
    BatchRowsTouch(t, rows[..|rows| - 1]);
    var i :| 0 <= i < |t.requests| && t1.requests[i] != t.requests[i];
    StaysRevoked(t1, rows[|rows| - 1], i);
  }

  /**
   * For any tables and any batch: nothing is revoked, and nothing reported as revoked, exactly when every row either
   * finds its key's days as they are or leaves enough for everything waiting at the start.
   */
  lemma {:induction false} BatchRevokesNothingIff(t: Tables, rows: seq<BalanceUpdate>)
    requires PositiveDays(t.requests) && NonNegative(t.balances) && NonNegativeRows(rows)
    ensures BatchRows(t, rows).requests == t.requests <==> RowsSettle(t, rows)
    ensures RowReport(t, rows).revoked == [] <==> RowsSettle(t, rows)
  {
    if rows != [] {
      var n := |rows| - 1;
      var t1, u := BatchRows(t, rows[..n]), rows[n];
      BatchRevokesNothingIff(t, rows[..n]);
      RowsSettlePrefix(t, rows);
      BatchRowsApply(t, rows[..n]);
      if RowsSettle(t, rows[..n]) {
        FoldNonNegative(t.balances, rows[..n]);
        RowRevokesIff(t1, u);
      } else {
        RevokedForGood(t, rows);
      }
    }
  }

  // ---- repeating a batch ----

  /** Same balances up to version counters. */
  ghost predicate SameBalances(a: map<Key, Balance>, b: map<Key, Balance>) {
    forall k :: SameContent(Lookup(a, k), Lookup(b, k))
  }

  /** If the upsert accepts the row, the row grants what is waiting on its key. */
  predicate Covers(t: Tables, u: BalanceUpdate) {
    Accepts(Lookup(t.balances, u.key), u) ==> Total(t.requests, PendingDays(u.key)) <= u.balanceDays
  }

  predicate AllCovered(t: Tables, rows: seq<BalanceUpdate>) {
    forall i :: 0 <= i < |rows| ==> Covers(t, rows[i])
  }

  /** A row just applied to solvent tables covers what is waiting. */
  lemma AppliedRowCovers(t: Tables, u: BalanceUpdate)
    requires Solvent(t) && u.balanceDays >= 0.0
    ensures Covers(BatchRow(t, u), u)
  {
    RowReserves(t, u, u.key);
    if u.key !in t.balances {
      NothingWaiting(t, u.key);
      RowShrinks(t, u, u.key);
    }
  }

  /** Timestamps only grow and waiting days only shrink, so a row that covers goes on covering. */
  lemma StaysCovered(t: Tables, v: BalanceUpdate, u: BalanceUpdate)
    requires PositiveDays(t.requests) && Covers(t, u)
    ensures Covers(BatchRow(t, v), u)
  {
    RowShrinks(t, v, u.key);
    assert BatchRow(t, v).balances == ApplyHcm(t.balances, v);
  }

  lemma {:induction false} BatchCovers(t: Tables, rows: seq<BalanceUpdate>)
    requires Solvent(t) && NonNegativeRows(rows)
    ensures Solvent(BatchRows(t, rows)) && AllCovered(BatchRows(t, rows), rows)
  {
    if rows != [] {
      var n := |rows| - 1;
      var t1 := BatchRows(t, rows[..n]);
      BatchCovers(t, rows[..n]);
      RowKeepsSolvent(t1, rows[n]);
      AppliedRowCovers(t1, rows[n]);
      forall i | 0 <= i < n ensures Covers(BatchRow(t1, rows[n]), rows[i]) {
        assert Covers(t1, rows[..n][i]);
        StaysCovered(t1, rows[n], rows[i]);
      }
    }
  }

  /** The sweep changes no days, no timestamp and no request. */
  lemma SweepKeeps(t: Tables, rows: seq<BalanceUpdate>, seen: set<string>)
    requires Solvent(t) && AllCovered(t, rows)
    ensures var t' := t.(balances := Sweep(t.balances, seen));
            Solvent(t') && AllCovered(t', rows)
  {
    var t' := t.(balances := Sweep(t.balances, seen));
    forall k ensures Reserved(t', k) {
      assert Reserved(t, k);
    }
    forall i | 0 <= i < |rows| ensures Covers(t', rows[i]) {
      assert Covers(t, rows[i]);
    }
  }

  /** Rows that cover settle again in any order: what they leave is the row, or the balance that held the days anyway. */
  lemma CoveredRowsSettle(t: Tables, rows: seq<BalanceUpdate>)
    requires Solvent(t) && AllCovered(t, rows)
    ensures RowsSettle(t, rows)
  {
    forall i | 0 <= i < |rows| ensures RowSettles(t, ApplyAll(t.balances, rows[..i]), rows[i]) {
      CoveredRowSettles(t, rows, i);
    }
  }

  lemma CoveredRowSettles(t: Tables, rows: seq<BalanceUpdate>, i: nat)
    requires Solvent(t) && AllCovered(t, rows) && i < |rows|
    ensures RowSettles(t, ApplyAll(t.balances, rows[..i]), rows[i])
  {
    var u, b := rows[i], ApplyAll(t.balances, rows[..i]);
    var winner := Winner(rows[..i], u.key);
    ApplyAllIsWinner(t.balances, rows[..i], u.key);
    assert Covers(t, u) && Reserved(t, u.key);
    if winner.Some? {
      var j :| 0 <= j < i && rows[..i][j] == winner.value;
      assert Covers(t, rows[j]);
    }
    if u.key !in t.balances {
      NothingWaiting(t, u.key);
    }
  }

  /**
   * Repeating a batch, from any start that satisfies the reservation invariant, creates, stales and revokes nothing and
   * leaves every row's days, timestamp and status as they were, whatever its rows and their order.
   */
  lemma RepeatBatch(t0: Tables, rows: seq<BalanceUpdate>)
    requires Solvent(t0) && NonNegativeRows(rows)
    ensures var t := ApplyBatch(t0, rows);
            var t', r := ApplyBatch(t, rows), BatchReport(t, rows);
            && r.created == 0 && r.staled == 0 && r.revoked == []
            && t'.requests == t.requests && SameBalances(t'.balances, t.balances)
  {
    var t := ApplyBatch(t0, rows);
    BatchCovers(t0, rows);
    SweepKeeps(BatchRows(t0, rows), rows, Seen(rows));
    CoveredRowsSettle(t, rows);
    BatchRevokesNothingIff(t, rows);
    RepeatChangesNoRow(t0, rows, t);
  }

  /**
   * From a start that does not satisfy it, repeating still creates and stales nothing and keeps every row, and revokes
   * nothing exactly when the rows settle.
   */
  lemma RepeatBatchAnywhere(t0: Tables, rows: seq<BalanceUpdate>)
    requires PositiveDays(t0.requests) && NonNegative(t0.balances) && NonNegativeRows(rows)
    ensures var t := ApplyBatch(t0, rows);
            var t', r := ApplyBatch(t, rows), BatchReport(t, rows);
            && r.created == 0 && r.staled == 0 && SameBalances(t'.balances, t.balances)
            && (t'.requests == t.requests <==> RowsSettle(t, rows))
            && (r.revoked == [] <==> RowsSettle(t, rows))
  {
    var t := ApplyBatch(t0, rows);
    BatchRowsTouch(t0, rows);
    FoldNonNegative(t0.balances, rows);
    BatchRowsApply(t0, rows);
    BatchRevokesNothingIff(t, rows);
    RepeatChangesNoRow(t0, rows, t);
  }

  lemma RepeatChangesNoRow(t0: Tables, rows: seq<BalanceUpdate>, t: Tables)
    requires t == ApplyBatch(t0, rows)
    ensures BatchReport(t, rows).created == 0 && BatchReport(t, rows).staled == 0
    ensures SameBalances(ApplyBatch(t, rows).balances, t.balances)
  {
    RepeatFindsEveryKey(t0, rows, t);
    BatchCounts(t, rows);
    AbsentUnchanged(t, rows);
    assert ApplyBatch(t, rows).balances == BatchRows(t, rows).balances;
    RepeatKeepsBalances(t0, rows, t);
  }

  lemma RepeatFindsEveryKey(t0: Tables, rows: seq<BalanceUpdate>, t: Tables)
    requires t == ApplyBatch(t0, rows)
    ensures NewKeys(t.balances, rows) == {} && Absent(t.balances, Seen(rows)) == {}
  {
    BatchComplete(t0, rows);
    KeysOfRows(rows);
    forall u | u in rows ensures u.key in t.balances {
      var i :| 0 <= i < |rows| && rows[i] == u;
      assert AsNew(t.balances, rows[i]);
    }
  }

  lemma RepeatKeepsBalances(t0: Tables, rows: seq<BalanceUpdate>, t: Tables)
    requires t == ApplyBatch(t0, rows)
    ensures SameBalances(BatchRows(t, rows).balances, t.balances)
  {
    forall k ensures SameContent(Lookup(BatchRows(t, rows).balances, k), Lookup(t.balances, k)) {
      BatchRowsApply(t, rows);
      ApplyAllIsWinner(t.balances, rows, k);
      if Winner(rows, k).Some? {
        SweptRowIsWinner(t0, rows, k);
      }
    }
  }

  lemma SweptRowIsWinner(t0: Tables, rows: seq<BalanceUpdate>, k: Key)
    requires Winner(rows, k).Some?
    ensures var t := ApplyBatch(t0, rows);
            SameContent(Lookup(t.balances, k), Some(Upsert(Lookup(t.balances, k), Winner(rows, k).value)))
  {
    BatchRowsApply(t0, rows);
    ApplyAllIsWinner(t0.balances, rows, k);
    var u := Winner(rows, k).value;
    KeysOfRows(rows);
  }

  class SyncService {
    const db: Database
    const balances: BalancesService
    const requests: TimeOffRequestsService

    constructor (db: Database, balances: BalancesService, requests: TimeOffRequestsService)
      requires balances.db == db && requests.db == db && requests.Valid()
      ensures Valid() && this.db == db
    {
      this.db, this.balances, this.requests := db, balances, requests;
    }

    predicate Valid() {
      balances.db == db && requests.db == db && requests.Valid()
    }

    method ApplyWebhookUpdate(u: BalanceUpdate) returns (balance: Balance, revoked: seq<string>, drift: bool)
      requires Valid()
      modifies db
      ensures db.Value() == ApplyWebhook(old(db.Value()), u)
      ensures balance == db.balances[u.key]
      ensures revoked == RevokedBy(Apply(old(db.Value()), u), u.key)
      ensures drift == Drifts(old(db.Value()), u)
    {
      var before := balances.FindOne(u.key);
      balance := balances.ApplyHcmBalance(u);
      drift := before.Some? && before.value.balanceDays != u.balanceDays;
      revoked := requests.RevalidateAfterBalanceChange(u.key);
    }

    method ApplyRows(rows: seq<BalanceUpdate>) returns (report: Report, seenKeys: set<string>)
      requires Valid()
      modifies db
      ensures db.Value() == BatchRows(old(db.Value()), rows)
      ensures report == RowReport(old(db.Value()), rows)
      ensures seenKeys == Seen(rows)
    {
      ghost var start := db.Value();
      report := Report(0, 0, 0, 0, []);
      seenKeys := {};
      for i := 0 to |rows|
        invariant db.Value() == BatchRows(start, rows[..i])
        invariant report == RowReport(start, rows[..i])
        invariant seenKeys == Seen(rows[..i])
      {
        var row := rows[i];
        assert rows[..i + 1][..i] == rows[..i] && rows[..i + 1][i] == row;
        seenKeys := seenKeys + {row.key.employeeId + "::" + row.key.locationId};
        var before := balances.FindOne(row.key);
        var _ := balances.ApplyHcmBalance(row);
        if before.None? {
          report := report.(created := report.created + 1);
        } else if before.value.balanceDays != row.balanceDays {
          report := report.(drift := report.drift + 1);
        }
        report := report.(applied := report.applied + 1);
        if before.Some? && before.value.balanceDays != row.balanceDays {
          var revoked := requests.RevalidateAfterBalanceChange(row.key);
          report := report.(revoked := report.revoked + revoked);
        }
      }
      assert rows[..|rows|] == rows;
    }

    method SweepAbsent(seenKeys: set<string>) returns (staled: nat)
      modifies db`balances
      ensures db.balances == Sweep(old(db.balances), seenKeys)
      ensures staled == |Absent(old(db.balances), seenKeys)|
    {
      ghost var start := db.balances;
      ghost var absent := Absent(start, seenKeys);
      ghost var done: set<Key> := {};
      staled := 0;
      var allLocal := set k | k in db.balances && db.balances[k].status == OK;
      while allLocal != {}
        invariant db.balances.Keys == start.Keys
        invariant forall k :: k in start ==> db.balances[k] == if k in done then MarkStale(start[k]) else start[k]
        invariant forall k :: k in absent ==> k in done || k in allLocal
        invariant done <= absent && done !! allLocal && staled == |done|
        invariant forall k :: k in allLocal ==> k in start && start[k].status.OK?
        decreases |allLocal|
      {
        var k :| k in allLocal;
        if k.employeeId + "::" + k.locationId !in seenKeys {
          db.balances := db.balances[k := db.balances[k].(status := STALE, version := db.balances[k].version + 1)];
          staled := staled + 1;
          done := done + {k};
        }
        allLocal := allLocal - {k};
      }
      assert done == absent;
    }

    method ApplyFullBatch(rows: seq<BalanceUpdate>) returns (report: Report)
      requires Valid()
      modifies db
      ensures db.Value() == ApplyBatch(old(db.Value()), rows)
      ensures report == BatchReport(old(db.Value()), rows)
    {
      var seenKeys;
      report, seenKeys := ApplyRows(rows);
      var staled := SweepAbsent(seenKeys);
      report := report.(staled := staled);
    }
  }
}
