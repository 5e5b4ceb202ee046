/**
 Waiting for a Session to become ready: waitForReadySession of
 internal/cli/session.go.  Each turn of its loop reads the Session once and
 then sleeps; what the API server, the resume request and the sleep answer is
 given by a list of observations, one for each turn.
 */
module SessionWait {
  import opened Wrappers

  datatype Phase = Ready | Failed | Suspended | Other

  datatype SessionObject = SessionObject(
    phase: Phase,
    podName: string,
    suspendRequested: bool,    // spec.suspend is true
    readyFalseIdle: bool,      // the Ready condition is False with the idle-policy reason
    resumeRequested: bool)     // the resume-request annotation is set

  predicate IsIdlePolicySuspended(s: SessionObject) {
    s.phase == Suspended && !s.suspendRequested && s.readyFalseIdle
  }

  datatype GetResult = NotFound | GetError | Got(session: SessionObject)
  datatype RetryResult = Continue | TerminalClosed | Interrupted
  datatype Observation = Observation(get: GetResult, resumeOk: bool, retry: RetryResult)

  datatype Outcome =
    | Returned(session: SessionObject)
    | IdleSuspended
    | Closed                  // the terminal exited without an error
    | Error
    | StillWaiting            // the observations end before the wait does

  /** The outcome, and how many resume requests were made. */
  datatype Wait = Wait(outcome: Outcome, resumes: nat)

  /** What one turn decides before sleeping: an outcome, or None to go on; and whether it asks for a resume. */
  function Turn(o: Observation, retryFailed: bool, resumeRequested: bool): (Option<Outcome>, bool) {
    match o.get
    case NotFound => (Some(Error), false)
    case GetError => (None, false)
    case Got(s) =>
      if s.phase == Failed then (if retryFailed then None else Some(Error), false)
      else if IsIdlePolicySuspended(s) then
        if retryFailed then (Some(IdleSuspended), false)
        else if resumeRequested then (if s.resumeRequested then None else Some(Error), false)
        else (if o.resumeOk then None else Some(Error), true)
      else if s.phase == Ready && s.podName != "" then (Some(Returned(s)), false)
      else (None, false)
  }

  function Run(observations: seq<Observation>, retryFailed: bool, resumeRequested: bool): Wait
    decreases |observations|
  {
    if observations == [] then Wait(StillWaiting, 0)
    else
      var (decided, asks) := Turn(observations[0], retryFailed, resumeRequested);
      var asked := if asks then 1 else 0;
      if decided.Some? then Wait(decided.value, asked)
      else if observations[0].retry == TerminalClosed then Wait(Closed, asked)
      else if observations[0].retry == Interrupted then Wait(Error, asked)
      else
        var later := Run(observations[1..], retryFailed, resumeRequested || asks);
        Wait(later.outcome, asked + later.resumes)
  }

  /** The loop.  The flag `reportedWaiting` only chooses which diagnostics are printed and is left out. */
  method WaitForReadySession(observations: seq<Observation>, retryFailed: bool) returns (wait: Wait)
    ensures wait == Run(observations, retryFailed, false)
  {
    var resumeRequested := false;
    var resumes := 0;
    for i := 0 to |observations|
      invariant var later := Run(observations[i..], retryFailed, resumeRequested);
        Run(observations, retryFailed, false) == Wait(later.outcome, resumes + later.resumes)
    {
      var o := observations[i];
      assert observations[i..][0] == o && observations[i..][1..] == observations[i + 1..];
      if o.get.NotFound? {
        return Wait(Error, resumes);
      }
      if o.get.Got? {
        var session := o.get.session;
        if session.phase == Failed {
          if !retryFailed {
            return Wait(Error, resumes);
          }
        } else if IsIdlePolicySuspended(session) {
          if retryFailed {
            return Wait(IdleSuspended, resumes);
          }
          if resumeRequested && !session.resumeRequested {
            return Wait(Error, resumes);
          }
          if !resumeRequested {
            resumes := resumes + 1;
            if !o.resumeOk {
              return Wait(Error, resumes);
            }
            resumeRequested := true;
          }
        } else if session.phase != Suspended && session.phase == Ready && session.podName != "" {
          return Wait(Returned(session), resumes);
        }
      }
      if o.retry == TerminalClosed {
        return Wait(Closed, resumes);
      }
      if o.retry == Interrupted {
        return Wait(Error, resumes);
      }
    }
    wait := Wait(StillWaiting, resumes);
  }

  /**
   A wait asks for at most one resume, and for none when the client was
   connected before; it gives up on an idle-suspended Session only then; and a
   Session it returns is ready, has a Pod, and is not idle-suspended.
   */
  lemma {:induction false} WaitGuarantees(observations: seq<Observation>, retryFailed: bool, resumeRequested: bool)
    ensures var w := Run(observations, retryFailed, resumeRequested);
      && w.resumes <= 1
      && (retryFailed || resumeRequested ==> w.resumes == 0)
      && (w.outcome == IdleSuspended ==> retryFailed)
      && (w.outcome.Returned? ==>
            w.outcome.session.phase == Ready && w.outcome.session.podName != ""
            && !IsIdlePolicySuspended(w.outcome.session))
    decreases |observations|
  {
    if observations != [] {
      var (decided, asks) := Turn(observations[0], retryFailed, resumeRequested);
      WaitGuarantees(observations[1..], retryFailed, resumeRequested || asks);
    }
  }

  predicate SawIdle(observations: seq<Observation>) {
    exists i :: 0 <= i < |observations| && observations[i].get.Got?
             && IsIdlePolicySuspended(observations[i].get.session)
  }

  /** A resume is requested only for a Session that was seen idle-suspended. */
  lemma {:induction false} ResumeOnlyWhenIdle(observations: seq<Observation>, retryFailed: bool, resumeRequested: bool)
    ensures Run(observations, retryFailed, resumeRequested).resumes > 0 ==> SawIdle(observations)
    decreases |observations|
  {
    if observations != [] {
      var o := observations[0];
      var (decided, asks) := Turn(o, retryFailed, resumeRequested);
      var tail := observations[1..];
      ResumeOnlyWhenIdle(tail, retryFailed, resumeRequested || asks);
      if asks {
        assert observations[0].get.Got? && IsIdlePolicySuspended(observations[0].get.session);
      } else if SawIdle(tail) {
        var i :| 0 <= i < |tail| && tail[i].get.Got? && IsIdlePolicySuspended(tail[i].get.session);
        assert observations[i + 1] == tail[i];
      }
    }
  }
}
