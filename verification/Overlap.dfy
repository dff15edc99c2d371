/** An employee never has two active requests on one day. */
module Overlap {
  import opened StateMachine
  import opened DateUtils
  import opened Common
  import opened Entities
  import opened Sums
  import opened Hcm
  import opened Requests
  import opened Protocol
  import opened Invariant
  import opened Reachable
  import opened Ledgers

  predicate Apart(a: Request, b: Request) {
    a.employeeId == b.employeeId && Active(a.status) && Active(b.status) ==>
      !RangesOverlap(a.startDate, a.endDate, b.startDate, b.endDate)
  }

  predicate NoOverlap(reqs: seq<Request>) {
    && (forall i :: 0 <= i < |reqs| ==> IsValidRange(reqs[i].startDate, reqs[i].endDate))
    && (forall i, j :: 0 <= i < j < |reqs| ==> Apart(reqs[i], reqs[j]))
  }

  /** No status change brings a request back among the active ones. */
  lemma EvolvedStaysApart(a: seq<Request>, b: seq<Request>)
    requires NoOverlap(a) && Evolves(a, b) && |a| == |b|
    ensures NoOverlap(b)
  {
    forall i | 0 <= i < |b| ensures IsValidRange(b[i].startDate, b[i].endDate) {
      assert SameRequest(a[i], b[i]);
    }
    forall i, j | 0 <= i < j < |b| ensures Apart(b[i], b[j]) {
      assert SameRequest(a[i], b[i]) && SameRequest(a[j], b[j]) && Apart(a[i], a[j]);
    }
  }

  lemma StepKeepsApart(s: State, step: Step)
    requires Inv(s) && NoOverlap(s.tables.requests)
    ensures NoOverlap(Next(s, step).tables.requests)
  {
    if !step.Create? {
      StepEvolves(s, step);
      SameLength(s, step);
      EvolvedStaysApart(s.tables.requests, Next(s, step).tables.requests);
    }
  }

  lemma {:induction false} RunKeepsApart(s: State, steps: seq<Step>)
    requires Inv(s) && NoOverlap(s.tables.requests)
    ensures NoOverlap(Run(s, steps).tables.requests)
  {
    if steps != [] {
      var n := |steps| - 1;
      RunKeepsApart(s, steps[..n]);
      RunKeepsInv(s, steps[..n]);
      StepKeepsApart(Run(s, steps[..n]), steps[n]);
    }
  }

  ghost predicate FullDate(s: string) {
    exists d :: Denotes(s, d)
  }

  /** The request blocks its employee on full-date days. */
  ghost predicate Dated(r: Request) {
    Active(r.status) && FullDate(r.startDate) && FullDate(r.endDate)
  }

  predicate CoversDay(r: Request, d: Date) {
    Covers(r.startDate, r.endDate, d)
  }

  lemma ApartOnEveryDay(a: Request, b: Request, d: Date)
    requires Apart(a, b) && a.employeeId == b.employeeId && Dated(a) && Dated(b)
    requires IsValidRange(a.startDate, a.endDate) && IsValidRange(b.startDate, b.endDate)
    ensures !(CoversDay(a, d) && CoversDay(b, d))
  {
    var a0 :| Denotes(a.startDate, a0);
    var a1 :| Denotes(a.endDate, a1);
    var b0 :| Denotes(b.startDate, b0);
    var b1 :| Denotes(b.endDate, b1);
    OverlapIsCommonDay(a.startDate, a.endDate, b.startDate, b.endDate, a0, a1, b0, b1);
  }

  /**
   * In every reachable state a calendar day is covered by at most one active request of an employee, as far as the
   * requests' dates are written as full dates.
   */
  lemma OneRequestPerDay(s0: State, steps: seq<Step>, i: nat, j: nat, d: Date)
    requires Init(s0) && i < j < |Run(s0, steps).tables.requests|
    ensures var a, b := Run(s0, steps).tables.requests[i], Run(s0, steps).tables.requests[j];
            a.employeeId == b.employeeId && Dated(a) && Dated(b) ==> !(CoversDay(a, d) && CoversDay(b, d))
  {
    InitInv(s0);
    RunKeepsApart(s0, steps);
    var a, b := Run(s0, steps).tables.requests[i], Run(s0, steps).tables.requests[j];
    if a.employeeId == b.employeeId && Dated(a) && Dated(b) {
      assert Apart(a, b);
      ApartOnEveryDay(a, b, d);
    }
  }

  // ---- dates with a time appended ----

  /** The request runs from d0 to d1, its date strings carrying t0 and t1 after the date. */
  predicate Spans(r: Request, d0: Date, t0: string, d1: Date, t1: string) {
    ValidDate(d0) && ValidDate(d1) && r.startDate == Format(d0) + t0 && r.endDate == Format(d1) + t1
  }

  /**
   * In every reachable state two active requests of an employee share a day only if one ends on the day the other starts
   * and the text after that start is not below the text after that end.
   */
  lemma SharedDayNeedsTimes(s0: State, steps: seq<Step>, i: nat, j: nat,
                            a0: Date, aT0: string, a1: Date, aT1: string, b0: Date, bT0: string, b1: Date, bT1: string)
    requires Init(s0) && i < j < |Run(s0, steps).tables.requests|
    ensures var a, b := Run(s0, steps).tables.requests[i], Run(s0, steps).tables.requests[j];
            a.employeeId == b.employeeId && Active(a.status) && Active(b.status) &&
            Spans(a, a0, aT0, a1, aT1) && Spans(b, b0, bT0, b1, bT1) && ShareDay(a0, a1, b0, b1) ==>
              (a0 == b1 && !LexLe(aT0, bT1)) || (b0 == a1 && !LexLe(bT0, aT1))
  {
    InitInv(s0);
    RunKeepsApart(s0, steps);
    var a, b := Run(s0, steps).tables.requests[i], Run(s0, steps).tables.requests[j];
    if Spans(a, a0, aT0, a1, aT1) && Spans(b, b0, bT0, b1, bT1) {
      assert Apart(a, b);
      TimedOverlap(a0, aT0, a1, aT1, b0, bT0, b1, bT1);
    }
  }

  /**
   * And then they can: once a request on a day exists, create accepts another one of the same employee on the same day
   * with a time appended, if nothing else stands in its way.
   */
  lemma SecondOnTheSameDay(t: Tables, first: NewRequest, id: string, second: NewRequest, id2: string, day: Date, time: string)
    requires ValidDate(day) && time != "" && second.employeeId == first.employeeId
    requires first.startDate == first.endDate == Format(day) && second.startDate == second.endDate == Format(day) + time
    requires Requests.Create(t, first, id).Success?
    ensures var t1 := Requests.Create(t, first, id).value;
            && NoClash(t1, second) == NoClash(t, second)
            && (Requests.Create(t1, second, id2).Success? <==>
                  second.days > 0.0 && second.locationId in t.locations && Affordable(t1, second) &&
                  t.balances[second.BalanceKey()].status.OK? && NoClash(t, second))
  {
    var t1 := Requests.Create(t, first, id).value;
    CreateIff(t, first, id);
    CreateIff(t1, second, id2);
    TimestampEscapesOverlap(Format(day), time);
    var r := Fresh(first, id);
    assert !Blocks(r, second);
    assert t1.requests == t.requests + [r];
    assert forall j :: 0 <= j < |t.requests| ==> t1.requests[j] == t.requests[j];
  }

  /** Such a start exists: two requests of one employee on one day, both waiting, after two creations. */
  lemma TwoOnOneDay(day: Date, time: string) returns (s0: State, steps: seq<Step>)
    requires ValidDate(day) && time != ""
    ensures Init(s0) && |Run(s0, steps).tables.requests| == 2
    ensures var reqs := Run(s0, steps).tables.requests;
            && reqs[0].employeeId == reqs[1].employeeId && Active(reqs[0].status) && Active(reqs[1].status)
            && Spans(reqs[0], day, "", day, "") && Spans(reqs[1], day, time, day, time)
  {
    var k := Key("E", "L");
    s0 := State(Tables([], map[k := Balance(2.0, None, OK, 1)], [], {"L"}), Store(map[], map[], map[]), Idle, {}, 8);
    var d := Format(day);
    var first, second := NewRequest("E", "L", d, d, 1.0), NewRequest("E", "L", d + time, d + time, 1.0);
    steps := [Step.Create(first, "1")] + [Step.Create(second, "2")];
    RunAppend(s0, [], Step.Create(first, "1"));
    RunAppend(s0, [Step.Create(first, "1")], Step.Create(second, "2"));
    assert [Step.Create(first, "1")] == [] + [Step.Create(first, "1")];
    BookTwice(s0.tables, k, first, second, day, time);
  }

  lemma BookTwice(t: Tables, k: Key, first: NewRequest, second: NewRequest, day: Date, time: string)
    requires ValidDate(day) && time != "" && t.requests == [] && k in t.balances && k.locationId in t.locations
    requires t.balances[k].status.OK? && t.balances[k].balanceDays == 2.0
    requires first == NewRequest(k.employeeId, k.locationId, Format(day), Format(day), 1.0)
    requires second == NewRequest(k.employeeId, k.locationId, Format(day) + time, Format(day) + time, 1.0)
    ensures DoCreate(t, first, "1").requests == [Fresh(first, "1")]
    ensures DoCreate(DoCreate(t, first, "1"), second, "2").requests == [Fresh(first, "1"), Fresh(second, "2")]
  {
    LexLeTotal(Format(day), Format(day));
    CreateIff(t, first, "1");
    var t1 := DoCreate(t, first, "1");
    assert t1.requests == [Fresh(first, "1")];
    assert t1.requests[..0] == [];
    assert Total(t1.requests, InflightDays(k)) == 1.0;
    SecondOnTheSameDay(t, first, "1", second, "2", day, time);
    CreateIff(t1, second, "2");
    assert "1" != "2";
    assert IndexOf(t1.requests, "2") == 1;
  }

  /** Over any stretch of a run requests keep their identity and data and only move forward in their lifecycle. */
  lemma {:induction false} RunEvolves(s: State, steps: seq<Step>)
    requires Inv(s)
    ensures Evolves(s.tables.requests, Run(s, steps).tables.requests)
  {
    if steps != [] {
      var n := |steps| - 1;
      RunEvolves(s, steps[..n]);
      RunKeepsInv(s, steps[..n]);
      StepEvolves(Run(s, steps[..n]), steps[n]);
      EvolvesTransitive(s.tables.requests, Run(s, steps[..n]).tables.requests, Run(s, steps).tables.requests);
    }
  }
}
