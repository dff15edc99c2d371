/** The rows of the service's database and the database itself. */
module Entities {
  import opened Common
  import opened StateMachine

  datatype Request = Request(
    id: string,
    employeeId: string,
    locationId: string,
    startDate: string,
    endDate: string,
    days: real,
    status: Status,
    balanceDecremented: bool,
    hcmTransactionId: Option<string>,
    rejectionReason: Option<string>
  ) {
    function BalanceKey(): Key { Key(employeeId, locationId) }
  }

  datatype BalanceStatus = OK | STALE

  datatype Balance = Balance(balanceDays: real, hcmUpdatedAt: Option<int>, status: BalanceStatus, version: nat)

  datatype TxType = DEBIT | CREDIT

  datatype EventType = HCM_SUBMIT_DEBIT | HCM_SUBMIT_CREDIT

  datatype OutboxStatus = PENDING | IN_FLIGHT | SENT | FAILED | FAILED_PERMANENT

  datatype Payload = Payload(employeeId: string, locationId: string, days: real, txType: TxType)

  datatype OutboxEvent = OutboxEvent(
    aggregateId: string,
    eventType: EventType,
    idempotencyKey: string,
    payload: Payload,
    status: OutboxStatus,
    attempts: nat,
    nextAttemptAt: Option<int>
  )

  /**
   * The tables as one value. Requests and outbox events stand in insertion order, which is
   * the order of their createdAt columns; an event's primary key is its position.
   */
  datatype Tables = Tables(
    requests: seq<Request>,
    balances: map<Key, Balance>,
    events: seq<OutboxEvent>,
    locations: set<string>
  )

  function Lookup(balances: map<Key, Balance>, k: Key): Option<Balance> {
    if k in balances then Some(balances[k]) else None
  }

  /** Position of the request with this id, or |reqs|. */
  function IndexOf(reqs: seq<Request>, id: string): (i: nat)
    ensures i <= |reqs|
    ensures i < |reqs| ==> reqs[i].id == id
    ensures forall j :: 0 <= j < i ==> reqs[j].id != id
  {
    if reqs == [] then 0
    else
      var i := IndexOf(reqs[..|reqs| - 1], id);
      if i < |reqs| - 1 || reqs[|reqs| - 1].id == id then i else |reqs|
  }

  predicate DistinctIds(reqs: seq<Request>) {
    forall i, j :: 0 <= i < j < |reqs| ==> reqs[i].id != reqs[j].id
  }

  /** The repositories, shared by all services. */
  class Database {
    var requests: seq<Request>
    var balances: map<Key, Balance>
    var events: seq<OutboxEvent>
    var locations: set<string>

    function Value(): Tables
      reads this
    {
      Tables(requests, balances, events, locations)
    }
  }
}
