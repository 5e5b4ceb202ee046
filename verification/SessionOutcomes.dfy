/**
 How waiting for a Session ends, and when: every outcome of `Run`, the number of resume
 requests included, in terms of the observations alone.
 */
module SessionOutcomes {
  import opened SessionWait

  /** Suspended by the idle policy: nobody asked for it, and the Ready condition gives that reason. */
  predicate SeenIdle(o: Observation) {
    && o.get.Got? && o.get.session.phase == Suspended
    && !o.get.session.suspendRequested && o.get.session.readyFalseIdle
  }

  predicate IdleBefore(all: seq<Observation>, k: nat)
    requires k <= |all|
  {
    exists j :: 0 <= j < k && SeenIdle(all[j])
  }

  /** Turn k decides nothing and comes to its sleep. */
  predicate Sleeps(all: seq<Observation>, reconnecting: bool, k: nat)
    requires k < |all|
  {
    match all[k].get
    case NotFound => false
    case GetError => true
    case Got(s) =>
      if s.phase == Failed then reconnecting
      else if SeenIdle(all[k]) then !reconnecting && if IdleBefore(all, k) then s.resumeRequested else all[k].resumeOk
      else s.phase != Ready || s.podName == ""
  }

  /** All turns before turn k came to their sleep, and nothing ended it early. */
  predicate Reaches(all: seq<Observation>, reconnecting: bool, k: nat) {
    k <= |all| && forall j :: 0 <= j < k ==> Sleeps(all, reconnecting, j) && all[j].retry == Continue
  }

  predicate ReturnsAt(all: seq<Observation>, k: nat, s: SessionObject)
    requires k < |all|
  {
    all[k].get == Got(s) && s.phase == Ready && s.podName != ""
  }

  predicate SuspendedAt(all: seq<Observation>, reconnecting: bool, k: nat)
    requires k < |all|
  {
    SeenIdle(all[k]) && reconnecting
  }

  predicate ClosedAt(all: seq<Observation>, reconnecting: bool, k: nat)
    requires k < |all|
  {
    Sleeps(all, reconnecting, k) && all[k].retry == TerminalClosed
  }

  /** The Session is gone or failed, its resume is refused or has expired, or the sleep is interrupted. */
  predicate FailsAt(all: seq<Observation>, reconnecting: bool, k: nat)
    requires k < |all|
  {
    || all[k].get.NotFound?
    || (all[k].get.Got? && all[k].get.session.phase == Failed && !reconnecting)
    || (SeenIdle(all[k]) && !reconnecting && !IdleBefore(all, k) && !all[k].resumeOk)
    || (SeenIdle(all[k]) && !reconnecting && IdleBefore(all, k) && !all[k].get.session.resumeRequested)
    || (Sleeps(all, reconnecting, k) && all[k].retry == Interrupted)
  }

  /** The first turn that sees an idle Session asks for a resume. */
  predicate AsksAt(all: seq<Observation>, reconnecting: bool, k: nat)
    requires k < |all|
  {
    SeenIdle(all[k]) && !reconnecting && !IdleBefore(all, k)
  }

  // ---------------------------------------------------------------- the turn that ends the wait

  /** Turn k, if there is one, ends the wait with this outcome. */
  predicate EndsAt(all: seq<Observation>, reconnecting: bool, k: nat, outcome: Outcome)
    requires k <= |all|
  {
    match outcome
    case Returned(s) => k < |all| && ReturnsAt(all, k, s)
    case IdleSuspended => k < |all| && SuspendedAt(all, reconnecting, k)
    case Closed => k < |all| && ClosedAt(all, reconnecting, k)
    case Error => k < |all| && FailsAt(all, reconnecting, k)
    case StillWaiting => k == |all|
  }

  lemma {:induction false} IdleNext(all: seq<Observation>, k: nat)
    requires k < |all|
    ensures IdleBefore(all, k + 1) <==> IdleBefore(all, k) || SeenIdle(all[k])
  {
  }

  lemma {:induction false} EndsFrom(all: seq<Observation>, reconnecting: bool, k: nat) returns (last: nat)
    requires Reaches(all, reconnecting, k)
    ensures Reaches(all, reconnecting, last)
    ensures EndsAt(all, reconnecting, last, Run(all[k..], reconnecting, IdleBefore(all, k)).outcome)
    decreases |all| - k
  {
    last := k;
    if k < |all| {
      assert all[k..][0] == all[k] && all[k..][1..] == all[k + 1..];
      IdleNext(all, k);
      if Sleeps(all, reconnecting, k) && all[k].retry == Continue {
        last := EndsFrom(all, reconnecting, k + 1);
      }
    }
  }

  /** Only one turn can end the wait, and only with one outcome. */
  lemma {:induction false} EndsOnce(
      all: seq<Observation>, reconnecting: bool, j: nat, k: nat, one: Outcome, other: Outcome)
    requires Reaches(all, reconnecting, j) && EndsAt(all, reconnecting, j, one)
    requires Reaches(all, reconnecting, k) && EndsAt(all, reconnecting, k, other)
    ensures j == k && one == other
  {
  }

  /** A wait has an outcome if and only if some turn is reached that ends it so. */
  lemma {:induction false} OutcomeIff(all: seq<Observation>, reconnecting: bool, outcome: Outcome)
    ensures Run(all, reconnecting, false).outcome == outcome <==>
      exists k :: 0 <= k <= |all| && Reaches(all, reconnecting, k) && EndsAt(all, reconnecting, k, outcome)
  {
    assert all[0..] == all && !IdleBefore(all, 0);
    var last := EndsFrom(all, reconnecting, 0);
    if k :| 0 <= k <= |all| && Reaches(all, reconnecting, k) && EndsAt(all, reconnecting, k, outcome) {
      EndsOnce(all, reconnecting, k, last, outcome, Run(all, reconnecting, false).outcome);
    }
  }

  predicate Returns(all: seq<Observation>, reconnecting: bool, s: SessionObject) {
    exists k :: 0 <= k < |all| && Reaches(all, reconnecting, k) && ReturnsAt(all, k, s)
  }

  /** A Session is returned if and only if some turn sees it ready with a Pod and every turn before goes on. */
  lemma {:induction false} ReturnedIff(all: seq<Observation>, reconnecting: bool, s: SessionObject)
    ensures Run(all, reconnecting, false).outcome == Returned(s) <==> Returns(all, reconnecting, s)
  {
    OutcomeIff(all, reconnecting, Returned(s));
  }

  lemma {:induction false} IdleSuspendedIff(all: seq<Observation>, reconnecting: bool)
    ensures Run(all, reconnecting, false).outcome == IdleSuspended <==>
      exists k :: 0 <= k < |all| && Reaches(all, reconnecting, k) && SuspendedAt(all, reconnecting, k)
  {
    OutcomeIff(all, reconnecting, IdleSuspended);
  }

  lemma {:induction false} ClosedIff(all: seq<Observation>, reconnecting: bool)
    ensures Run(all, reconnecting, false).outcome == Closed <==>
      exists k :: 0 <= k < |all| && Reaches(all, reconnecting, k) && ClosedAt(all, reconnecting, k)
  {
    OutcomeIff(all, reconnecting, Closed);
  }

  lemma {:induction false} ErrorIff(all: seq<Observation>, reconnecting: bool)
    ensures Run(all, reconnecting, false).outcome == Error <==>
      exists k :: 0 <= k < |all| && Reaches(all, reconnecting, k) && FailsAt(all, reconnecting, k)
  {
    OutcomeIff(all, reconnecting, Error);
  }

  lemma {:induction false} StillWaitingIff(all: seq<Observation>, reconnecting: bool)
    ensures Run(all, reconnecting, false).outcome == StillWaiting <==> Reaches(all, reconnecting, |all|)
  {
    OutcomeIff(all, reconnecting, StillWaiting);
  }

  // ---------------------------------------------------------------- the resume request

  predicate Asks(all: seq<Observation>, reconnecting: bool) {
    exists k :: 0 <= k < |all| && Reaches(all, reconnecting, k) && AsksAt(all, reconnecting, k)
  }

  lemma {:induction false} AsksFrom(all: seq<Observation>, reconnecting: bool, k: nat)
    requires Reaches(all, reconnecting, k)
    ensures Run(all[k..], reconnecting, IdleBefore(all, k)).resumes ==
      if exists j :: k <= j < |all| && Reaches(all, reconnecting, j) && AsksAt(all, reconnecting, j) then 1 else 0
    decreases |all| - k
  {
    if k < |all| {
      assert all[k..][0] == all[k] && all[k..][1..] == all[k + 1..];
      IdleNext(all, k);
      if Sleeps(all, reconnecting, k) && all[k].retry == Continue {
        AsksFrom(all, reconnecting, k + 1);
        assert AsksAt(all, reconnecting, k) ==> forall j :: k < j < |all| ==> !AsksAt(all, reconnecting, j);
      } else {
        assert forall j :: k < j < |all| ==> !Reaches(all, reconnecting, j);
      }
    }
  }

  /** One resume is requested if and only if the wait reaches a turn that is the first to see an idle Session. */
  lemma {:induction false} ResumesIff(all: seq<Observation>, reconnecting: bool)
    ensures Run(all, reconnecting, false).resumes == if Asks(all, reconnecting) then 1 else 0
  {
    assert all[0..] == all && !IdleBefore(all, 0);
    AsksFrom(all, reconnecting, 0);
  }
}
