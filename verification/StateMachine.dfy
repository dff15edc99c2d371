/** The lifecycle of a time-off request. */
module StateMachine {
  import opened Common

  datatype Status =
    | PendingApproval
    | Approved
    | HcmConfirmed
    | HcmRejected
    | Rejected
    | Cancelled

  datatype Trigger = Approve | Reject | Cancel | HcmConfirm | HcmReject | BalanceRevoked

  function NextStatus(current: Status, trigger: Trigger): Option<Status> {
    match current
    case PendingApproval =>
      (match trigger
       case Approve => Some(Approved)
       case Reject => Some(Rejected)
       case Cancel => Some(Cancelled)
       case BalanceRevoked => Some(HcmRejected)
       case HcmReject => Some(HcmRejected)
       case HcmConfirm => None)
    case Approved =>
      (match trigger
       case HcmConfirm => Some(HcmConfirmed)
       case HcmReject => Some(HcmRejected)
       case Cancel => Some(Cancelled)
       case _ => None)
    case HcmConfirmed => if trigger.Cancel? then Some(Cancelled) else None
    case _ => None
  }

  predicate CanTransition(current: Status, trigger: Trigger) {
    NextStatus(current, trigger).Some?
  }

  /** Each trigger leads to one status, from the statuses in which it is allowed. */
  lemma EachTriggerHasOneTarget(st: Status, trigger: Trigger)
    ensures match trigger
            case Approve => NextStatus(st, trigger) == if st == PendingApproval then Some(Approved) else None
            case Reject => NextStatus(st, trigger) == if st == PendingApproval then Some(Rejected) else None
            case Cancel =>
              NextStatus(st, trigger) ==
              if st == PendingApproval || st == Approved || st == HcmConfirmed then Some(Cancelled) else None
            case HcmConfirm => NextStatus(st, trigger) == if st == Approved then Some(HcmConfirmed) else None
            case HcmReject =>
              NextStatus(st, trigger) == if st == PendingApproval || st == Approved then Some(HcmRejected) else None
            case BalanceRevoked => NextStatus(st, trigger) == if st == PendingApproval then Some(HcmRejected) else None
  {
  }

  /** TERMINAL_STATUSES as declared beside the entity. */
  const TERMINAL_STATUSES: set<Status> := {HcmConfirmed, HcmRejected, Rejected, Cancelled}

  /** Statuses whose dates block other requests of the employee. */
  predicate Active(st: Status) {
    st.PendingApproval? || st.Approved? || st.HcmConfirmed?
  }

  /** Statuses in which the local balance carries the request's debit. */
  predicate Debited(st: Status) {
    st.Approved? || st.HcmConfirmed?
  }

  function Rank(st: Status): nat {
    match st
    case PendingApproval => 0
    case Approved => 1
    case HcmConfirmed => 2
    case _ => 3
  }

  /** One legal change of status. */
  ghost predicate Moves(a: Status, b: Status) {
    exists t :: NextStatus(a, t) == Some(b)
  }

  /** Zero or more legal changes, in closed form: only PENDING_APPROVAL reaches REJECTED. */
  predicate Reaches(a: Status, b: Status) {
    a == b || (Rank(a) < Rank(b) && (b.Rejected? ==> a.PendingApproval?) && (b.HcmRejected? ==> !a.HcmConfirmed?))
  }

  /** A path of legal changes. */
  ghost predicate Path(p: seq<Status>) {
    |p| > 0 && forall i :: 0 <= i < |p| - 1 ==> Moves(p[i], p[i + 1])
  }

  /** Reaches is exactly reachability by legal changes, and no path is longer than three changes. */
  lemma ReachesIsReachability(a: Status, b: Status)
    ensures Reaches(a, b) <==> exists p :: Path(p) && p[0] == a && p[|p| - 1] == b
    ensures forall p :: Path(p) ==> |p| <= 4
  {
    forall p | Path(p)
      ensures Reaches(p[0], p[|p| - 1]) && Rank(p[|p| - 1]) >= |p| - 1
    {
      PathReaches(p);
    }
    assert Moves(PendingApproval, Approved) by { assert NextStatus(PendingApproval, Approve) == Some(Approved); }
    assert Moves(Approved, HcmConfirmed) by { assert NextStatus(Approved, HcmConfirm) == Some(HcmConfirmed); }
    assert Moves(PendingApproval, Rejected) by { assert NextStatus(PendingApproval, Reject) == Some(Rejected); }
    assert forall s: Status | s.PendingApproval? || s.Approved? :: Moves(s, HcmRejected) by {
      forall s: Status | s.PendingApproval? || s.Approved? ensures Moves(s, HcmRejected) {
        assert NextStatus(s, HcmReject) == Some(HcmRejected);
      }
    }
    assert forall s: Status | Active(s) :: Moves(s, Cancelled) by {
      forall s: Status | Active(s) ensures Moves(s, Cancelled) {
        assert NextStatus(s, Cancel) == Some(Cancelled);
      }
    }
    if Reaches(a, b) {
      var p := if a == b then [a] else if Moves(a, b) then [a, b] else [a, Approved, b];
      assert Path(p) && p[0] == a && p[|p| - 1] == b;
    }
  }

  lemma {:induction false} PathReaches(p: seq<Status>)
    requires Path(p)
    ensures Reaches(p[0], p[|p| - 1])
    ensures Rank(p[|p| - 1]) >= |p| - 1
  {
    if |p| > 1 {
      var q := p[..|p| - 1];
      assert Path(q) by {
        forall i | 0 <= i < |q| - 1 ensures Moves(q[i], q[i + 1]) {
          assert Moves(p[i], p[i + 1]);
        }
      }
      PathReaches(q);
      assert Moves(p[|p| - 2], p[|p| - 1]);
    }
  }

  /** The statuses called terminal are those with no way out, except that HCM_CONFIRMED can be cancelled. */
  lemma TerminalExceptConfirmed(st: Status)
    ensures (st in TERMINAL_STATUSES && st != HcmConfirmed) <==> forall t :: NextStatus(st, t) == None
    ensures st == HcmConfirmed ==> forall t :: CanTransition(st, t) <==> t == Cancel
  {
    assert st == PendingApproval ==> NextStatus(st, Cancel) == Some(Cancelled);
    assert st == Approved ==> NextStatus(st, Cancel) == Some(Cancelled);
    assert NextStatus(HcmConfirmed, Cancel) == Some(Cancelled);
  }
}
