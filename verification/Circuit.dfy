/** The circuit breaker of the HCM client. */
module Circuit {
  const THRESHOLD: nat := 5
  const COOLDOWN_MS: nat := 10_000

  datatype Breaker = Breaker(failures: nat, openUntil: int)

  /** How an HTTP exchange ends: a 2xx or 4xx answer, a 404 of a balance query, or a failure. */
  datatype Outcome = Answered | NotFoundAnswer | Failed

  /** A client call: the clock at its circuit check and at its completion. */
  datatype Call = Call(start: int, finish: int, outcome: Outcome)

  predicate Open(b: Breaker, now: int) {
    now < b.openUntil
  }

  function NoteFailure(b: Breaker, now: int): Breaker {
    if b.failures + 1 >= THRESHOLD then Breaker(0, now + COOLDOWN_MS) else b.(failures := b.failures + 1)
  }

  function Perform(b: Breaker, c: Call): Breaker {
    if Open(b, c.start) then b
    else
      match c.outcome
      case Answered => b.(failures := 0)
      case NotFoundAnswer => b
      case Failed => NoteFailure(b, c.finish)
  }

  /** The breaker after sequential calls. */
  function PerformAll(b: Breaker, calls: seq<Call>): Breaker {
    if calls == [] then b else Perform(PerformAll(b, calls[..|calls| - 1]), calls[|calls| - 1])
  }

  /** Call i got past the circuit check, so it reached HTTP. */
  predicate Reached(b: Breaker, calls: seq<Call>, i: nat)
    requires i < |calls|
  {
    !Open(PerformAll(b, calls[..i]), calls[i].start)
  }

  /** Number of calls that reached HTTP and failed there. */
  function FailedCalls(b: Breaker, calls: seq<Call>): nat {
    if calls == [] then 0
    else
      var n := |calls| - 1;
      FailedCalls(b, calls[..n]) + if Reached(b, calls, n) && calls[n].outcome.Failed? then 1 else 0
  }

  predicate Forward(calls: seq<Call>) {
    forall i :: 0 <= i < |calls| ==> calls[i].start <= calls[i].finish
  }

  /** The counter never shows the threshold, and the circuit is never shortened. */
  lemma {:induction false} BreakerInvariant(b: Breaker, calls: seq<Call>)
    requires b.failures < THRESHOLD && Forward(calls)
    ensures PerformAll(b, calls).failures < THRESHOLD
    ensures PerformAll(b, calls).openUntil >= b.openUntil
  {
    if calls != [] {
      BreakerInvariant(b, calls[..|calls| - 1]);
    }
  }

  /** An open circuit refuses without a trace; a success clears the counter, and a balance that is not found leaves it. */
  lemma CallOutcome(b: Breaker, c: Call)
    ensures Open(b, c.start) ==> Perform(b, c) == b
    ensures !Open(b, c.start) && c.outcome == Answered ==> Perform(b, c) == Breaker(0, b.openUntil)
    ensures !Open(b, c.start) && c.outcome == NotFoundAnswer ==> Perform(b, c) == b
    ensures Open(b, c.start) <==> c.start < b.openUntil
  {
  }

  /**
   * Failures in a row from a cleared counter: the fifth, and no earlier one, opens the circuit, for ten seconds from its
   * completion.
   */
  lemma {:induction false} FifthFailureOpens(b: Breaker, calls: seq<Call>)
    requires b.failures == 0 && |calls| <= 5
    requires forall i :: 0 <= i < |calls| ==> Reached(b, calls, i) && calls[i].outcome == Failed
    ensures PerformAll(b, calls) ==
            if |calls| < 5 then Breaker(|calls|, b.openUntil) else Breaker(0, calls[4].finish + 10_000)
  {
    if calls != [] {
      var m := |calls| - 1;
      assert forall i :: 0 <= i < m ==> calls[..m][..i] == calls[..i] && calls[..m][i] == calls[i];
      assert forall i :: 0 <= i < m ==> Reached(b, calls[..m], i) == Reached(b, calls, i);
      FifthFailureOpens(b, calls[..m]);
      assert Reached(b, calls, m);
    }
  }

  lemma NextFailure(n: nat)
    ensures n % THRESHOLD == THRESHOLD - 1 ==> (n + 1) % THRESHOLD == 0 && (n + 1) / THRESHOLD == n / THRESHOLD + 1
    ensures n % THRESHOLD < THRESHOLD - 1 ==> (n + 1) % THRESHOLD == n % THRESHOLD + 1 && (n + 1) / THRESHOLD == n / THRESHOLD
  {
  }

  /** Where the breaker stands after n failures, each completed quintuple having cost a cooldown since `since`. */
  predicate Pushed(b: Breaker, n: nat, since: int) {
    b.failures == n % THRESHOLD && (n / THRESHOLD >= 1 ==> b.openUntil >= since + COOLDOWN_MS * (n / THRESHOLD))
  }

  lemma PushedStep(b: Breaker, n: nat, since: int, c: Call)
    requires Pushed(b, n, since) && !Open(b, c.start) && c.outcome.Failed? && since <= c.finish && c.start <= c.finish
    ensures Pushed(Perform(b, c), n + 1, since)
    ensures n / THRESHOLD >= 1 ==> c.finish >= since + COOLDOWN_MS * (n / THRESHOLD)
  {
    NextFailure(n);
  }

  lemma {:induction false} FailuresPushTheCircuit(b: Breaker, calls: seq<Call>, since: int)
    requires b.failures < THRESHOLD && Forward(calls)
    requires forall i :: 0 <= i < |calls| ==> since <= calls[i].finish
    requires forall i :: 0 <= i < |calls| && Reached(b, calls, i) ==> !calls[i].outcome.Answered?
    ensures Pushed(PerformAll(b, calls), b.failures + FailedCalls(b, calls), since)
  {
    if calls != [] {
      var m := |calls| - 1;
      assert forall i :: 0 <= i < m ==> calls[..m][..i] == calls[..i];
      assert forall i :: 0 <= i < m ==> Reached(b, calls[..m], i) == Reached(b, calls, i);
      FailuresPushTheCircuit(b, calls[..m], since);
      if Reached(b, calls, m) && calls[m].outcome.Failed? {
        PushedStep(PerformAll(b, calls[..m]), b.failures + FailedCalls(b, calls[..m]), since, calls[m]);
      }
    }
  }

  /**
   * Rate bound: within a window of `width` ms that contains no success, at most 5 * (width / 10000 + 1) calls reach
   * HTTP and fail, whatever the breaker's state at the start.
   */
  lemma {:induction false} FailureRateBound(b: Breaker, calls: seq<Call>, since: int, width: nat)
    requires b.failures < THRESHOLD && Forward(calls)
    requires forall i :: 0 <= i < |calls| ==> since <= calls[i].finish <= since + width
    requires forall i :: 0 <= i < |calls| && Reached(b, calls, i) ==> !calls[i].outcome.Answered?
    ensures FailedCalls(b, calls) <= 5 * (width / 10_000 + 1)
  {
    if calls != [] {
      var m := |calls| - 1;
      assert forall i :: 0 <= i < m ==> calls[..m][..i] == calls[..i];
      assert forall i :: 0 <= i < m ==> Reached(b, calls[..m], i) == Reached(b, calls, i);
      FailureRateBound(b, calls[..m], since, width);
      FailuresPushTheCircuit(b, calls[..m], since);
      if Reached(b, calls, m) && calls[m].outcome.Failed? {
        var n := b.failures + FailedCalls(b, calls[..m]);
        PushedStep(PerformAll(b, calls[..m]), n, since, calls[m]);
        assert n / THRESHOLD <= width / COOLDOWN_MS;
      }
    }
  }

  /** The bound is met: five failures can complete at once, and five more after each cooldown. */
  function Burst(periods: nat): seq<Call> {
    if periods == 0 then [] else Burst(periods - 1) + Five(COOLDOWN_MS * (periods - 1))
  }

  function Five(at: int): seq<Call> {
    var c := Call(at, at, Failed);
    [c, c, c, c, c]
  }

  lemma PerformAppend(b: Breaker, calls: seq<Call>, c: Call)
    ensures PerformAll(b, calls + [c]) == Perform(PerformAll(b, calls), c)
    ensures FailedCalls(b, calls + [c]) ==
            FailedCalls(b, calls) + if !Open(PerformAll(b, calls), c.start) && c.outcome.Failed? then 1 else 0
  {
    assert (calls + [c])[..|calls|] == calls;
  }

  /** One more failure at the moment the circuit closes. */
  lemma FailOnce(b: Breaker, calls: seq<Call>, at: int, failures: nat)
    requires PerformAll(b, calls) == Breaker(failures, at) && failures < THRESHOLD
    ensures var calls' := calls + [Call(at, at, Failed)];
            && PerformAll(b, calls') == (if failures + 1 < THRESHOLD then Breaker(failures + 1, at) else Breaker(0, at + COOLDOWN_MS))
            && FailedCalls(b, calls') == FailedCalls(b, calls) + 1
  {
    PerformAppend(b, calls, Call(at, at, Failed));
  }

  /** Five failures at a time when the circuit has just closed open it again. */
  lemma FiveMore(b: Breaker, calls: seq<Call>, at: int)
    requires PerformAll(b, calls) == Breaker(0, at)
    ensures PerformAll(b, calls + Five(at)) == Breaker(0, at + COOLDOWN_MS)
    ensures FailedCalls(b, calls + Five(at)) == FailedCalls(b, calls) + THRESHOLD
  {
    var c := Call(at, at, Failed);
    var s1 := calls + [c];
    var s2 := s1 + [c];
    var s3 := s2 + [c];
    var s4 := s3 + [c];
    FailOnce(b, calls, at, 0);
    FailOnce(b, s1, at, 1);
    FailOnce(b, s2, at, 2);
    FailOnce(b, s3, at, 3);
    FailOnce(b, s4, at, 4);
    assert s4 + [c] == calls + Five(at);
  }

  lemma {:induction false} BoundIsTight(periods: nat)
    ensures var b := Breaker(0, 0);
            && FailedCalls(b, Burst(periods)) == 5 * periods
            && PerformAll(b, Burst(periods)) == Breaker(0, 10_000 * periods)
            && forall i :: 0 <= i < |Burst(periods)| ==> 0 <= Burst(periods)[i].finish <= 10_000 * (periods - 1)
  {
    if periods > 0 {
      BoundIsTight(periods - 1);
      FiveMore(Breaker(0, 0), Burst(periods - 1), COOLDOWN_MS * (periods - 1));
    }
  }

  /** Call i opened the circuit. */
  predicate Opens(b: Breaker, calls: seq<Call>, i: nat)
    requires i < |calls|
  {
    Reached(b, calls, i) && calls[i].outcome.Failed? && PerformAll(b, calls[..i]).failures + 1 >= THRESHOLD
  }

  /** Successive openings are at least a cooldown apart. */
  lemma OpeningsAreApart(b: Breaker, calls: seq<Call>, i: nat, j: nat)
    requires b.failures < THRESHOLD && Forward(calls) && i < j < |calls|
    requires Opens(b, calls, i) && Opens(b, calls, j)
    ensures calls[i].finish + 10_000 <= calls[j].finish
  {
    BreakerInvariant(b, calls[..i + 1]);
    assert calls[..i + 1][..i] == calls[..i];
    PerformSplit(b, calls[..i + 1], calls[i + 1..j]);
    assert calls[..j] == calls[..i + 1] + calls[i + 1..j];
    BreakerInvariant(PerformAll(b, calls[..i + 1]), calls[i + 1..j]);
  }

  lemma {:induction false} PerformSplit(b: Breaker, first: seq<Call>, rest: seq<Call>)
    ensures PerformAll(b, first + rest) == PerformAll(PerformAll(b, first), rest)
  {
    if rest == [] {
      assert first + rest == first;
    } else {
      PerformSplit(b, first, rest[..|rest| - 1]);
      assert (first + rest)[..|first + rest| - 1] == first + rest[..|rest| - 1];
    }
  }

  class HcmClient {
    var failures: nat
    var circuitOpenUntil: int

    constructor ()
      ensures Value() == Breaker(0, 0)
    {
      failures, circuitOpenUntil := 0, 0;
    }

    function Value(): Breaker
      reads this
    {
      Breaker(failures, circuitOpenUntil)
    }

    method NoteFailureAt(now: int)
      modifies this
      ensures Value() == NoteFailure(old(Value()), now)
    {
      failures := failures + 1;
      if failures >= THRESHOLD {
        circuitOpenUntil := now + COOLDOWN_MS;
        failures := 0;
      }
    }

    /** The guard, one exchange and the bookkeeping after it; false means refused as circuit-open. */
    method Request(c: Call) returns (reached: bool)
      modifies this
      ensures Value() == Perform(old(Value()), c)
      ensures reached == !Open(old(Value()), c.start)
    {
      if c.start < circuitOpenUntil {
        return false;
      }
      match c.outcome {
        case Answered => failures := 0;
        case NotFoundAnswer =>
        case Failed => NoteFailureAt(c.finish);
      }
      reached := true;
    }
  }
}
