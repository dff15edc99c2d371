/** The mock HCM: a balance ledger that applies each idempotency key at most once. */
module Hcm {
  import opened Common
  import opened Entities

  datatype HcmBalance = HcmBalance(employeeId: string, locationId: string, balanceDays: real, hcmUpdatedAt: int)

  datatype HcmTransaction = HcmTransaction(transactionId: string, idempotencyKey: string, payload: Payload, recordedAt: int)

  /** The three maps of the store as one value. */
  datatype Store = Store(
    balances: map<string, HcmBalance>,
    transactions: map<string, HcmTransaction>,
    idempotencyIndex: map<string, string>
  )

  datatype FailureMode = NORMAL | DOWN | TIMEOUT | SILENT_ACCEPT | REJECT_ALL | INSUFFICIENT_BALANCE | FLAKY

  /** The error codes of the 4xx answers. */
  datatype Refusal = NoKey | ByMode | Conflict | Insufficient | UnknownBalance

  /** The code the client reads from a 4xx answer; the missing-header answer carries none. */
  function CodeText(code: Refusal): string {
    match code
    case NoKey => "HCM_REJECTED"
    case ByMode => "HCM_REJECTED"
    case Conflict => "IDEMPOTENCY_CONFLICT"
    case Insufficient => "INSUFFICIENT_BALANCE"
    case UnknownBalance => "UNKNOWN_LOCATION"
  }

  /** What the endpoint answers: 2xx with the transaction, 4xx with a code, or 5xx. */
  datatype Response = Created(tx: HcmTransaction) | ClientError(code: Refusal) | ServerError

  function BalanceString(b: HcmBalance): string {
    KeyString(Key(b.employeeId, b.locationId))
  }

  function PayloadString(p: Payload): string {
    KeyString(Key(p.employeeId, p.locationId))
  }

  function UpsertBalance(s: Store, b: HcmBalance): Store {
    s.(balances := s.balances[BalanceString(b) := b])
  }

  function FindTransaction(s: Store, key: string): Option<HcmTransaction> {
    if key in s.idempotencyIndex && s.idempotencyIndex[key] != "" && s.idempotencyIndex[key] in s.transactions
    then Some(s.transactions[s.idempotencyIndex[key]])
    else None
  }

  function RecordTransaction(s: Store, tx: HcmTransaction): Store {
    s.(transactions := s.transactions[tx.transactionId := tx],
       idempotencyIndex := s.idempotencyIndex[tx.idempotencyKey := tx.transactionId])
  }

  function Signed(txType: TxType, days: real): real {
    if txType.DEBIT? then -days else days
  }

  /**
   * POST /transactions. `flaky` says whether FLAKY mode fails this call; `txId` and `now` are the fresh
   * identifier and the clock.
   */
  function Submit(s: Store, mode: FailureMode, flaky: bool, key: string, body: Payload, txId: string, now: int): (Store, Response) {
    if key == "" then (s, ClientError(NoKey))
    else if mode.DOWN? || (mode.FLAKY? && flaky) then (s, ServerError)
    else if mode.REJECT_ALL? then (s, ClientError(ByMode))
    else
      match FindTransaction(s, key)
      case Some(existing) =>
        if existing.payload != body then (s, ClientError(Conflict)) else (s, Created(existing))
      case None =>
        if mode.INSUFFICIENT_BALANCE? then (s, ClientError(Insufficient))
        else if PayloadString(body) !in s.balances then (s, ClientError(UnknownBalance))
        else
          var balance := s.balances[PayloadString(body)];
          if !mode.SILENT_ACCEPT? && body.txType.DEBIT? && balance.balanceDays < body.days then
            (s, ClientError(Insufficient))
          else
            var tx := HcmTransaction(txId, key, body, now);
            var s' := if mode.SILENT_ACCEPT? then s
                      else UpsertBalance(s, balance.(balanceDays := balance.balanceDays + Signed(body.txType, body.days),
                                                     hcmUpdatedAt := now));
            (RecordTransaction(s', tx), Created(tx))
  }

  // ---- the maps agree ----

  /** Index and transactions are inverse to each other, and every balance stands under its own key. */
  predicate WellFormed(s: Store) {
    && (forall key :: key in s.idempotencyIndex ==>
          s.idempotencyIndex[key] != "" && s.idempotencyIndex[key] in s.transactions &&
          s.transactions[s.idempotencyIndex[key]].idempotencyKey == key)
    && (forall id :: id in s.transactions ==>
          s.transactions[id].transactionId == id &&
          s.transactions[id].idempotencyKey in s.idempotencyIndex &&
          s.idempotencyIndex[s.transactions[id].idempotencyKey] == id)
    && (forall ks :: ks in s.balances ==> BalanceString(s.balances[ks]) == ks)
  }

  predicate FreshId(s: Store, txId: string) {
    txId != "" && txId !in s.transactions
  }

  lemma SubmitKeepsMaps(s: Store, mode: FailureMode, flaky: bool, key: string, body: Payload, txId: string, now: int)
    requires WellFormed(s) && FreshId(s, txId)
    ensures WellFormed(Submit(s, mode, flaky, key, body, txId, now).0)
  {
    var s' := Submit(s, mode, flaky, key, body, txId, now).0;
    if s'.transactions != s.transactions {
      assert key !in s.idempotencyIndex;
      assert s'.transactions == s.transactions[txId := HcmTransaction(txId, key, body, now)];
    }
  }

  /** Looking a key up in a well-formed store finds the one transaction recorded under it, and fails only if there is none. */
  lemma FindIsTheRecorded(s: Store, key: string)
    requires WellFormed(s)
    ensures match FindTransaction(s, key)
            case Some(tx) =>
              && tx.idempotencyKey == key && tx.transactionId in s.transactions && s.transactions[tx.transactionId] == tx
              && forall id :: id in s.transactions && s.transactions[id].idempotencyKey == key ==> id == tx.transactionId
            case None => forall id :: id in s.transactions ==> s.transactions[id].idempotencyKey != key
  {
  }

  /** What was just recorded is found again, and what other keys find stays the same. */
  lemma FindAfterRecord(s: Store, tx: HcmTransaction, key: string)
    requires WellFormed(s) && FreshId(s, tx.transactionId) && tx.idempotencyKey !in s.idempotencyIndex
    ensures WellFormed(RecordTransaction(s, tx))
    ensures FindTransaction(RecordTransaction(s, tx), key) == if key == tx.idempotencyKey then Some(tx) else FindTransaction(s, key)
  {
    var s' := RecordTransaction(s, tx);
    if key in s.idempotencyIndex {
      assert s.idempotencyIndex[key] in s.transactions && s.idempotencyIndex[key] != tx.transactionId;
    }
  }

  /** However the store came about, a key names at most one recorded transaction. */
  lemma OneTransactionPerKey(s: Store, id1: string, id2: string)
    requires WellFormed(s) && id1 in s.transactions && id2 in s.transactions
    requires s.transactions[id1].idempotencyKey == s.transactions[id2].idempotencyKey
    ensures id1 == id2
  {
    assert s.idempotencyIndex[s.transactions[id1].idempotencyKey] == id1;
  }

  /**
   * Repeating an accepted call, in whatever mode and whatever else was submitted under other keys in between,
   * changes nothing: it returns the first transaction unless the mode answers before looking.
   */
  lemma AcceptedOnce(s: Store, mode: FailureMode, flaky: bool, key: string, body: Payload, txId: string, now: int)
    requires WellFormed(s) && key in s.idempotencyIndex && key != ""
    ensures var (s', r) := Submit(s, mode, flaky, key, body, txId, now);
            && s' == s
            && (r.Created? ==> r.tx == s.transactions[s.idempotencyIndex[key]] && r.tx.payload == body)
            && (r == ClientError(Conflict) <==>
                  !mode.DOWN? && !(mode.FLAKY? && flaky) && !mode.REJECT_ALL? &&
                  s.transactions[s.idempotencyIndex[key]].payload != body)
            && (mode.NORMAL? || mode.TIMEOUT? || mode.SILENT_ACCEPT? || mode.INSUFFICIENT_BALANCE? ==>
                  (r.Created? <==> s.transactions[s.idempotencyIndex[key]].payload == body))
  {
    assert FindTransaction(s, key) == Some(s.transactions[s.idempotencyIndex[key]]);
  }

  /** The modes in which the endpoint answers before it looks at the key's balance. */
  predicate Unreachable(mode: FailureMode, flaky: bool) {
    mode == DOWN || (mode == FLAKY && flaky)
  }

  /** The payload can be booked: the balance exists and, unless SILENT_ACCEPT ignores it, covers a debit. */
  predicate Bookable(s: Store, mode: FailureMode, body: Payload) {
    PayloadString(body) in s.balances &&
    (mode == SILENT_ACCEPT || body.txType == CREDIT || body.days <= s.balances[PayloadString(body)].balanceDays)
  }

  /** The store grew by one transaction: this key's, with these fields, under the fresh id. */
  predicate Gains(s: Store, s': Store, key: string, body: Payload, txId: string, now: int) {
    && s'.transactions == s.transactions[txId := HcmTransaction(txId, key, body, now)]
    && s'.idempotencyIndex == s.idempotencyIndex[key := txId]
  }

  /** One balance moved by these days at this time, or none if nothing was applied. */
  predicate Moved(s: Store, s': Store, ks: string, days: real, now: int) {
    && ks in s.balances && s'.balances.Keys == s.balances.Keys
    && (forall other :: other in s.balances && other != ks ==> s'.balances[other] == s.balances[other])
    && s'.balances[ks].balanceDays == s.balances[ks].balanceDays + days
    && s'.balances[ks].employeeId == s.balances[ks].employeeId && s'.balances[ks].locationId == s.balances[ks].locationId
    && s'.balances[ks].hcmUpdatedAt == now
  }

  /**
   * A new key is recorded exactly when HCM is reachable, in no refusing mode, and can book the payload; then the debit
   * or credit is applied unless SILENT_ACCEPT, and otherwise the store stays as it was.
   */
  lemma NewKeyIsBookedIff(s: Store, mode: FailureMode, flaky: bool, key: string, body: Payload, txId: string, now: int)
    requires WellFormed(s) && FreshId(s, txId) && key != "" && key !in s.idempotencyIndex
    ensures var (s', r) := Submit(s, mode, flaky, key, body, txId, now);
            var books := !Unreachable(mode, flaky) && mode != REJECT_ALL && mode != INSUFFICIENT_BALANCE && Bookable(s, mode, body);
            && (key in s'.idempotencyIndex <==> books) && (r.Created? <==> books)
            && (books ==> Gains(s, s', key, body, txId, now) && r == Created(s'.transactions[txId]))
            && (books && mode == SILENT_ACCEPT ==> s'.balances == s.balances)
            && (books && mode != SILENT_ACCEPT ==>
                  Moved(s, s', PayloadString(body), if body.txType == DEBIT then -body.days else body.days, now))
            && (!books ==> s' == s)
  {
    if PayloadString(body) in s.balances {
      assert BalanceString(s.balances[PayloadString(body)]) == PayloadString(body);
    }
  }

  /** What the endpoint answers when it does not book, in the order of its checks. */
  lemma RefusalAnswer(s: Store, mode: FailureMode, flaky: bool, key: string, body: Payload, txId: string, now: int)
    requires WellFormed(s) && key !in s.idempotencyIndex
    ensures var r := Submit(s, mode, flaky, key, body, txId, now).1;
            if key == "" then r == ClientError(NoKey)
            else if Unreachable(mode, flaky) then r == ServerError
            else if mode == REJECT_ALL then r == ClientError(ByMode)
            else if mode == INSUFFICIENT_BALANCE then r == ClientError(Insufficient)
            else if PayloadString(body) !in s.balances then r == ClientError(UnknownBalance)
            else !Bookable(s, mode, body) ==> r == ClientError(Insufficient)
  {
  }

  /** And for a key already recorded, in every mode. */
  lemma KnownKeyAnswer(s: Store, mode: FailureMode, flaky: bool, key: string, body: Payload, txId: string, now: int)
    requires WellFormed(s) && key in s.idempotencyIndex && key != ""
    ensures var (s', r) := Submit(s, mode, flaky, key, body, txId, now);
            var tx := s.transactions[s.idempotencyIndex[key]];
            && s' == s
            && r == if Unreachable(mode, flaky) then ServerError
                    else if mode == REJECT_ALL then ClientError(ByMode)
                    else if tx.payload == body then Created(tx)
                    else ClientError(Conflict)
  {
    assert FindTransaction(s, key) == Some(s.transactions[s.idempotencyIndex[key]]);
  }

  // ---- the ledger ----

  function DaysAt(s: Store, ks: string): real {
    if ks in s.balances then s.balances[ks].balanceDays else 0.0
  }

  /** Net days recorded as taken from one key by a map of transactions. */
  ghost function Taken(txs: map<string, HcmTransaction>, ks: string): real
    decreases |txs|
  {
    if txs == map[] then 0.0
    else
      var id :| id in txs;
      TakenBy(txs[id], ks) + Taken(txs - {id}, ks)
  }

  function TakenBy(tx: HcmTransaction, ks: string): real {
    if PayloadString(tx.payload) == ks then -Signed(tx.payload.txType, tx.payload.days) else 0.0
  }

  lemma {:induction false} TakenSplit(txs: map<string, HcmTransaction>, ks: string, id: string)
    requires id in txs
    ensures Taken(txs, ks) == TakenBy(txs[id], ks) + Taken(txs - {id}, ks)
    decreases |txs|
  {
    var other :| other in txs && Taken(txs, ks) == TakenBy(txs[other], ks) + Taken(txs - {other}, ks);
    if other != id {
      TakenSplit(txs - {other}, ks, id);
      TakenSplit(txs - {id}, ks, other);
      assert txs - {other} - {id} == txs - {id} - {other};
    }
  }

  lemma TakenAdd(txs: map<string, HcmTransaction>, ks: string, id: string, tx: HcmTransaction)
    requires id !in txs
    ensures Taken(txs[id := tx], ks) == Taken(txs, ks) + TakenBy(tx, ks)
  {
    TakenSplit(txs[id := tx], ks, id);
    assert txs[id := tx] - {id} == txs;
  }

  /** One call of the endpoint. */
  datatype Call = Call(mode: FailureMode, flaky: bool, key: string, body: Payload, txId: string, now: int)

  /** Any sequence of calls, by any clients, with any keys. */
  function Serve(s: Store, calls: seq<Call>): Store {
    if calls == [] then s
    else
      var c := calls[|calls| - 1];
      Submit(Serve(s, calls[..|calls| - 1]), c.mode, c.flaky, c.key, c.body, c.txId, c.now).0
  }

  predicate FreshIds(s: Store, calls: seq<Call>) {
    forall i :: 0 <= i < |calls| ==> FreshId(Serve(s, calls[..i]), calls[i].txId)
  }

  lemma SubmitLedger(s: Store, c: Call, ks: string)
    requires WellFormed(s) && FreshId(s, c.txId)
    ensures var s' := Submit(s, c.mode, c.flaky, c.key, c.body, c.txId, c.now).0;
            && (!c.mode.SILENT_ACCEPT? ==> DaysAt(s', ks) + Taken(s'.transactions, ks) == DaysAt(s, ks) + Taken(s.transactions, ks))
            && (c.mode.SILENT_ACCEPT? ==> DaysAt(s', ks) == DaysAt(s, ks))
            && (!c.mode.SILENT_ACCEPT? && c.body.days >= 0.0 && DaysAt(s, ks) >= 0.0 ==> DaysAt(s', ks) >= 0.0)
  {
    var s' := Submit(s, c.mode, c.flaky, c.key, c.body, c.txId, c.now).0;
    if s'.transactions != s.transactions {
      TakenAdd(s.transactions, ks, c.txId, HcmTransaction(c.txId, c.key, c.body, c.now));
    }
  }

  /**
   * Exactly-once effect, for every run outside SILENT_ACCEPT: each balance equals its seed minus the recorded
   * debits plus the recorded credits, each counted once, and stays non-negative.
   */
  lemma {:induction false} LedgerBalances(s: Store, calls: seq<Call>, ks: string)
    requires WellFormed(s) && FreshIds(s, calls)
    requires forall i :: 0 <= i < |calls| ==> !calls[i].mode.SILENT_ACCEPT?
    ensures var s' := Serve(s, calls);
            && WellFormed(s')
            && DaysAt(s', ks) == DaysAt(s, ks) + Taken(s.transactions, ks) - Taken(s'.transactions, ks)
            && ((forall i :: 0 <= i < |calls| ==> calls[i].body.days >= 0.0) && DaysAt(s, ks) >= 0.0 ==> DaysAt(s', ks) >= 0.0)
  {
    if calls != [] {
      var n := |calls| - 1;
      var c := calls[n];
      assert forall i :: 0 <= i < n ==> calls[..n][..i] == calls[..i];
      LedgerBalances(s, calls[..n], ks);
      SubmitKeepsMaps(Serve(s, calls[..n]), c.mode, c.flaky, c.key, c.body, c.txId, c.now);
      SubmitLedger(Serve(s, calls[..n]), c, ks);
    }
  }

  // ---- the store and the endpoint as objects ----

  class HcmStore {
    var balances: map<string, HcmBalance>
    var transactions: map<string, HcmTransaction>
    var idempotencyIndex: map<string, string>

    constructor ()
      ensures Value() == Store(map[], map[], map[])
    {
      balances, transactions, idempotencyIndex := map[], map[], map[];
    }

    function Value(): Store
      reads this
    {
      Store(balances, transactions, idempotencyIndex)
    }

    method Upsert(b: HcmBalance)
      modifies this`balances
      ensures Value() == UpsertBalance(old(Value()), b)
    {
      balances := balances[KeyString(Key(b.employeeId, b.locationId)) := b];
    }

    method GetBalance(employeeId: string, locationId: string) returns (b: Option<HcmBalance>)
      ensures b == if KeyString(Key(employeeId, locationId)) in balances
                   then Some(balances[KeyString(Key(employeeId, locationId))]) else None
    {
      var key := KeyString(Key(employeeId, locationId));
      b := if key in balances then Some(balances[key]) else None;
    }

    method FindTransactionByIdempotencyKey(key: string) returns (tx: Option<HcmTransaction>)
      ensures tx == FindTransaction(Value(), key)
      ensures WellFormed(Value()) ==>
                if tx.Some? then
                  tx.value.idempotencyKey == key && tx.value.transactionId in transactions &&
                  transactions[tx.value.transactionId] == tx.value
                else forall id :: id in transactions ==> transactions[id].idempotencyKey != key
    {
      if key in idempotencyIndex && idempotencyIndex[key] != "" {
        var id := idempotencyIndex[key];
        tx := if id in transactions then Some(transactions[id]) else None;
      } else {
        tx := None;
      }
    }

    method Record(tx: HcmTransaction)
      modifies this`transactions, this`idempotencyIndex
      ensures Value() == RecordTransaction(old(Value()), tx)
    {
      transactions := transactions[tx.transactionId := tx];
      idempotencyIndex := idempotencyIndex[tx.idempotencyKey := tx.transactionId];
    }
  }

  class TransactionsController {
    const store: HcmStore

    constructor (store: HcmStore)
      ensures this.store == store
    {
      this.store := store;
    }

    method SubmitTransaction(mode: FailureMode, flaky: bool, key: string, body: Payload, txId: string, now: int) returns (r: Response)
      modifies store
      ensures (store.Value(), r) == Submit(old(store.Value()), mode, flaky, key, body, txId, now)
      ensures WellFormed(old(store.Value())) && FreshId(old(store.Value()), txId) && key != "" &&
              key !in old(store.idempotencyIndex) ==>
                (r.Created? <==> !Unreachable(mode, flaky) && mode != REJECT_ALL && mode != INSUFFICIENT_BALANCE &&
                                 Bookable(old(store.Value()), mode, body))
    {
      if key == "" {
        return ClientError(NoKey);
      }
      if mode == DOWN {
        return ServerError;
      }
      if mode == FLAKY && flaky {
        return ServerError;
      }
      if mode == REJECT_ALL {
        return ClientError(ByMode);
      }
      var existing := store.FindTransactionByIdempotencyKey(key);
      if existing.Some? {
        var tx := existing.value.payload;
        if tx.employeeId != body.employeeId || tx.locationId != body.locationId || tx.days != body.days || tx.txType != body.txType {
          return ClientError(Conflict);
        }
        return Created(existing.value);
      }
      if mode == INSUFFICIENT_BALANCE {
        return ClientError(Insufficient);
      }
      var balance := store.GetBalance(body.employeeId, body.locationId);
      if balance.None? {
        return ClientError(UnknownBalance);
      }
      if mode != SILENT_ACCEPT {
        if body.txType == DEBIT && balance.value.balanceDays < body.days {
          return ClientError(Insufficient);
        }
        var newBalance := if body.txType == DEBIT then balance.value.balanceDays - body.days else balance.value.balanceDays + body.days;
        store.Upsert(balance.value.(balanceDays := newBalance, hcmUpdatedAt := now));
      }
      var tx := HcmTransaction(txId, key, body, now);
      store.Record(tx);
      r := Created(tx);
    }
  }
}
