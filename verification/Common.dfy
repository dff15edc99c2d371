/** Shared value types: options, results, domain errors and the (employee, location) key. */
module Common {
  datatype Option<+T> = None | Some(value: T)

  datatype DomainError =
    | InsufficientBalance(have: real, need: real)
    | UnknownLocation
    | OverlappingRequest(otherId: string)
    | InvalidTransition
    | InvalidDateRange
    | StaleBalance
    | NotFound
    | BalanceStaleBlocked
    | HcmUnavailable
    | IdempotencyConflict

  datatype Result<+T> = Success(value: T) | Failure(error: DomainError)

  /** A balance belongs to one employee at one location. */
  datatype Key = Key(employeeId: string, locationId: string)

  /** The composite string under which both the mock HCM and the batch reconciler index a key. */
  function KeyString(k: Key): string {
    k.employeeId + "::" + k.locationId
  }

  /** Employee ids without a colon are the ones for which KeyString can be decoded. */
  predicate Plain(k: Key) {
    ':' !in k.employeeId
  }

  lemma FirstColon(k: Key)
    requires Plain(k)
    ensures |k.employeeId| < |KeyString(k)| && KeyString(k)[|k.employeeId|] == ':'
    ensures forall i :: 0 <= i < |k.employeeId| ==> KeyString(k)[i] != ':'
  {
    assert forall i :: 0 <= i < |k.employeeId| ==> KeyString(k)[i] == k.employeeId[i];
  }

  lemma KeyStringInjective(a: Key, b: Key)
    requires Plain(a) && Plain(b)
    requires KeyString(a) == KeyString(b)
    ensures a == b
  {
    FirstColon(a);
    FirstColon(b);
    var n := |a.employeeId|;
    assert n == |b.employeeId|;
    assert a.employeeId == KeyString(a)[..n] && b.employeeId == KeyString(b)[..n];
    assert a.locationId == KeyString(a)[n + 2..] && b.locationId == KeyString(b)[n + 2..];
  }

  /** Without that restriction two different keys can share one string. */
  lemma KeyStringCollision()
    ensures var a, b := Key("x", ":y"), Key("x:", "y");
            a != b && Plain(a) && !Plain(b) && KeyString(a) == KeyString(b)
  {
    assert KeyString(Key("x", ":y")) == "x:::y";
    assert KeyString(Key("x:", "y")) == "x:::y";
  }
}
