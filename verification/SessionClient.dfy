/**
 The loops of connectSessionWithDependencies, over the variables it updates in
 place.  Every method is one turn of a loop, and does what `Step` says.
 */
module SessionClient {
  import opened SessionProtocol
  import SessionWait

  class ReconnectingClient {
    var lastEventID: int
    var historyLastEventID: int
    var journalID: string
    var connectedBefore: bool
    var pendingRequests: seq<Pending>
    var link: Link
    var announceReconnect: bool
    var historyComplete: bool
    var resumePending: bool
    var writesLeft: nat
    ghost var trace: Trace

    ghost function State(): World
      reads this
    {
      World(Client(lastEventID, historyLastEventID, journalID, connectedBefore, pendingRequests, link,
                   announceReconnect, historyComplete, resumePending, writesLeft), trace)
    }

    constructor ()
      ensures State() == INITIAL
    {
      lastEventID, historyLastEventID, journalID, connectedBefore, pendingRequests := 0, 0, "", false, [];
      link, announceReconnect, historyComplete, resumePending, writesLeft := Down, false, false, false, 0;
      trace := INITIAL.trace;
    }

    /** One write to the stream; the request counts as encoded even when the write fails. */
    method Encode(r: Request) returns (ok: bool)
      modifies this`writesLeft, this`trace
      ensures ok == (old(writesLeft) > 0) && writesLeft == (if ok then old(writesLeft) - 1 else 0)
      ensures trace == old(trace).(encoded := old(trace).encoded + [r])
    {
      trace := trace.(encoded := trace.encoded + [r]);
      ok := writesLeft > 0;
      if ok {
        writesLeft := writesLeft - 1;
      }
    }

    method Connect(observations: seq<SessionWait.Observation>, openOk: bool, subscribeOk: bool, writes: nat)
      modifies this
      ensures State() == DoConnect(old(State()), Input.Connect(observations, openOk, subscribeOk, writes))
    {
      var wait := SessionWait.WaitForReadySession(observations, connectedBefore);
      trace := trace.(resumes := trace.resumes + wait.resumes);
      if !wait.outcome.Returned? {
        link := Exited;
        return;
      }
      if !openOk {
        return;
      }
      Subscribe();
      if !subscribeOk {
        return;
      }
      StartStream(wait.outcome.session, writes);
    }

    method Subscribe()
      modifies this`trace
      ensures trace == old(trace).(subscriptions :=
                old(trace).subscriptions + [Subscription(lastEventID, journalID)])
    {
      trace := trace.(subscriptions := trace.subscriptions + [Subscription(lastEventID, journalID)]);
    }

    method StartStream(session: SessionWait.SessionObject, writes: nat)
      modifies this
      ensures var c, t := old(State()).client, old(trace);
        State() == World(c.(link := Up, announceReconnect := c.connectedBefore, historyComplete := false,
                            resumePending := session.resumeRequested, writesLeft := writes),
                         t.(inPage := false, floor := c.lastEventID))
    {
      announceReconnect := connectedBefore;
      resumePending := session.resumeRequested;
      writesLeft := writes;
      historyComplete := false;
      link := Up;
      trace := trace.(inPage := false, floor := lastEventID);
    }

    method Submit(request: Request, freshId: string)
      modifies this
      ensures State() == Step(old(State()), Input.Submit(request, freshId))
    {
      if request.kind == "subscribe" {
        return;
      }
      if request.kind == "terminal.attach" {
        return;
      }
      var r := request;
      if r.id == "" {
        r := r.(id := freshId);
      }
      pendingRequests := pendingRequests + [Pending(r, false)];
      trace := trace.(accepted := trace.accepted + [r]);
      if !historyComplete {
        return;
      }
      ghost var p := old(pendingRequests);
      pendingRequests := pendingRequests[|pendingRequests| - 1 := Pending(r, true)];
      assert pendingRequests == p + [Pending(r, true)];
      var ok := Encode(r);
      if !ok {
        link := Broken;
      }
    }

    method RemovePendingRequest(id: string)
      modifies this`pendingRequests
      ensures pendingRequests == RemoveFirst(old(pendingRequests), id)
    {
      for i := 0 to |pendingRequests|
        invariant pendingRequests == old(pendingRequests)
        invariant forall j :: 0 <= j < i ==> pendingRequests[j].request.id != id
      {
        if pendingRequests[i].request.id == id {
          pendingRequests := pendingRequests[..i] + pendingRequests[i + 1..];
          return;
        }
      }
    }

    /** Marked first, then written: a request whose write fails counts as sent. */
    method SendPending(i: nat) returns (ok: bool)
      requires i < |pendingRequests|
      modifies this`pendingRequests, this`writesLeft, this`trace
      ensures pendingRequests == old(pendingRequests)[i := old(pendingRequests)[i].(sent := true)]
      ensures ok == (old(writesLeft) > 0) && writesLeft == (if ok then old(writesLeft) - 1 else 0)
      ensures trace == old(trace).(encoded := old(trace).encoded + [old(pendingRequests)[i].request])
    {
      pendingRequests := pendingRequests[i := pendingRequests[i].(sent := true)];
      ok := Encode(pendingRequests[i].request);
    }

    /** The flush at the end of the replay: mark and write what is still unsent, stop at the first failed write. */
    method FlushPending() returns (ok: bool)
      modifies this`pendingRequests, this`writesLeft, this`trace
      ensures var f := Flush(old(pendingRequests), old(writesLeft));
        && pendingRequests == f.pending && writesLeft == f.writesLeft && ok == f.ok
        && trace == old(trace).(encoded := old(trace).encoded + f.written)
    {
      ghost var all := Flush(pendingRequests, writesLeft);
      ghost var written: seq<Request> := [];
      FlushStarts(pendingRequests, writesLeft);
      for i := 0 to |pendingRequests|
        invariant |pendingRequests| == |old(pendingRequests)|
        invariant trace == old(trace).(encoded := old(trace).encoded + written)
        invariant FlushAt(all, pendingRequests, i, written, writesLeft)
      {
        FlushTurn(all, pendingRequests, i, written, writesLeft);
        if !pendingRequests[i].sent {
          written := written + [pendingRequests[i].request];
          var sent := SendPending(i);
          if !sent {
            return false;
          }
        }
      }
      FlushEnds(all, pendingRequests, written, writesLeft);
      ok := true;
    }

    method BeginHistory(e: Event)
      modifies this`journalID, this`historyLastEventID, this`lastEventID
      ensures State() == World(BeginReplay(old(State()).client, e), old(State()).trace)
    {
      journalID := e.journalId;
      historyLastEventID := e.lastEventId;
      if e.reset {
        lastEventID := 0;
      }
    }

    method EndHistory(ackOk: bool)
      requires link == Up
      modifies this
      ensures State() == EndReplay(old(State()), ackOk)
    {
      CatchUp();
      var ok := FlushPending();
      if !ok {
        link := Broken;
      }
      if link == Up && resumePending {
        Acknowledge(ackOk);
      }
    }

    /** The replay has brought the client up to its last event. */
    method CatchUp()
      modifies this
      ensures var c, t := old(State()).client, old(trace);
        State() == World(
          c.(lastEventID := if c.historyLastEventID > c.lastEventID then c.historyLastEventID else c.lastEventID,
             announceReconnect := false, connectedBefore := true, historyComplete := true),
          t.(replayed := true, reconnects := t.reconnects + (if c.announceReconnect then 1 else 0)))
    {
      if historyLastEventID > lastEventID {
        lastEventID := historyLastEventID;
      }
      if announceReconnect {
        trace := trace.(reconnects := trace.reconnects + 1);
        announceReconnect := false;
      }
      connectedBefore := true;
      historyComplete := true;
      trace := trace.(replayed := true);
    }

    method Acknowledge(ackOk: bool)
      modifies this`trace, this`link, this`resumePending
      ensures trace == old(trace).(acks := old(trace).acks + 1)
      ensures link == (if ackOk then old(link) else Broken) && resumePending == (old(resumePending) && !ackOk)
    {
      trace := trace.(acks := trace.acks + 1);
      if !ackOk {
        link := Broken;
      } else {
        resumePending := false;
      }
    }

    /** An event that carries a request id confirms the first pending request with that id. */
    method ConfirmRequest(id: string)
      modifies this`pendingRequests, this`trace
      ensures State() == Confirm(old(State()), id)
    {
      if id != "" {
        trace := trace.(confirmed := trace.confirmed + Removed(pendingRequests, id));
        RemovePendingRequest(id);
      }
    }

    /** The start and the end of a replay; pages of older history pass by. */
    method FollowReplay(e: Event, ackOk: bool)
      requires link == Up
      modifies this
      ensures var w := old(State());
        var w1 := if StartsReplay(e) then World(BeginReplay(w.client, e), w.trace) else w;
        State() == if EndsReplay(e) then EndReplay(w1, ackOk) else w1
    {
      if e.kind == HistoryStart && !e.page {
        BeginHistory(e);
      }
      if e.kind == HistoryEnd && !e.page {
        EndHistory(ackOk);
      }
    }

    method Receive(e: Event, ackOk: bool, sinkOk: bool)
      requires link == Up
      modifies this
      ensures State() == DoReceive(old(State()), e, ackOk, sinkOk)
    {
      ConfirmRequest(e.requestId);
      assert link == Up;
      FollowReplay(e, ackOk);
      if e.id > lastEventID {
        lastEventID := e.id;
      }
      trace := Observe(trace, e, sinkOk);
      if !sinkOk {
        link := Exited;
      }
    }

    method StreamLost()
      modifies this`link
      ensures State() == Step(old(State()), Lost)
    {
      link := Broken;
    }

    /** After the stream is closed: what was sent and not confirmed is reported and dropped, the rest is kept. */
    method DiscardUnconfirmed()
      modifies this
      ensures State() == DoTeardown(old(State()))
    {
      var retained: seq<Pending> := [];
      ghost var dropped: seq<Request> := [];
      for i := 0 to |pendingRequests|
        invariant retained == Retained(pendingRequests[..i]) && dropped == Sent(pendingRequests[..i])
        modifies {}
      {
        SplitNext(pendingRequests, i);
        if !pendingRequests[i].sent {
          retained := retained + [pendingRequests[i]];
        } else {
          dropped := dropped + [pendingRequests[i].request];
        }
      }
      assert pendingRequests[..|pendingRequests|] == pendingRequests;
      trace := trace.(discarded := trace.discarded + dropped);
      pendingRequests := retained;
      link := Down;
    }

    method Turn(input: Input)
      requires Enabled(State(), input)
      modifies this
      ensures State() == Step(old(State()), input)
    {
      match input
      case Connect(observations, openOk, subscribeOk, writes) => Connect(observations, openOk, subscribeOk, writes);
      case Submit(request, freshId) => Submit(request, freshId);
      case Receive(event, ackOk, sinkOk) => Receive(event, ackOk, sinkOk);
      case Lost => StreamLost();
      case Teardown => DiscardUnconfirmed();
      case Exit => link := Exited;
    }

    /** The two nested loops, driven by whatever the environment supplies. */
    method Serve(inputs: seq<Input>)
      requires Possible(State(), inputs)
      modifies this
      ensures State() == RunAll(old(State()), inputs)
    {
      for i := 0 to |inputs|
        invariant Possible(State(), inputs[i..])
        invariant RunAll(State(), inputs[i..]) == RunAll(old(State()), inputs)
      {
        assert inputs[i..][1..] == inputs[i + 1..];
        Turn(inputs[i]);
      }
    }
  }

  lemma {:induction false} SplitSnoc(p: seq<Pending>, x: Pending)
    ensures Retained(p + [x]) == Retained(p) + (if x.sent then [] else [x])
    ensures Sent(p + [x]) == Sent(p) + (if x.sent then [x.request] else [])
  {
    if p == [] {
      assert [] + [x] == [x] && [x][1..] == [];
    } else {
      assert (p + [x])[1..] == p[1..] + [x];
      SplitSnoc(p[1..], x);
      Assoc(if p[0].sent then [] else [p[0]], Retained(p[1..]), if x.sent then [] else [x]);
      Assoc(if p[0].sent then [p[0].request] else [], Sent(p[1..]), if x.sent then [x.request] else []);
    }
  }

  lemma {:induction false} SplitNext(p: seq<Pending>, i: nat)
    requires i < |p|
    ensures Retained(p[..i + 1]) == (if p[i].sent then Retained(p[..i]) else Retained(p[..i]) + [p[i]])
    ensures Sent(p[..i + 1]) == (if p[i].sent then Sent(p[..i]) + [p[i].request] else Sent(p[..i]))
  {
    SplitSnoc(p[..i], p[i]);
    assert p[..i + 1] == p[..i] + [p[i]];
  }

  /** The flush stands at index i: what is in front is done, what is behind will still be flushed. */
  ghost predicate FlushAt(all: Flushed, p: seq<Pending>, i: nat, written: seq<Request>, writes: nat) {
    && i <= |p|
    && var f := Flush(p[i..], writes);
       all == Flushed(p[..i] + f.pending, written + f.written, f.writesLeft, f.ok)
  }

  lemma {:induction false} FlushStarts(p: seq<Pending>, writes: nat)
    ensures FlushAt(Flush(p, writes), p, 0, [], writes)
  {
    assert p[0..] == p && p[..0] == [];
  }

  lemma {:induction false} FlushEnds(all: Flushed, p: seq<Pending>, written: seq<Request>, writes: nat)
    requires FlushAt(all, p, |p|, written, writes)
    ensures all == Flushed(p, written, writes, true)
  {
    assert p[|p|..] == [] && p[..|p|] + [] == p && written + [] == written;
  }

  lemma {:induction false} FlushTurn(all: Flushed, p: seq<Pending>, i: nat, written: seq<Request>, writes: nat)
    requires i < |p| && FlushAt(all, p, i, written, writes)
    ensures var q, w := p[i := p[i].(sent := true)], written + [p[i].request];
      && (p[i].sent ==> FlushAt(all, p, i + 1, written, writes))
      && (!p[i].sent && writes > 0 ==> FlushAt(all, q, i + 1, w, writes - 1))
      && (!p[i].sent && writes == 0 ==> all == Flushed(q, w, 0, false))
  {
    var q := p[i := p[i].(sent := true)];
    assert p[i..][1..] == p[i + 1..] == q[i + 1..];
    assert p[..i + 1] == p[..i] + [p[i]] && q[..i + 1] == p[..i] + [q[i]];
    if p[i].sent {
      var f := Flush(p[i + 1..], writes);
      assert p[..i] + ([p[i]] + f.pending) == p[..i + 1] + f.pending;
    } else if writes > 0 {
      var f := Flush(p[i + 1..], writes - 1);
      assert p[..i] + ([q[i]] + f.pending) == q[..i + 1] + f.pending;
      assert written + ([p[i].request] + f.written) == written + [p[i].request] + f.written;
    } else {
      assert p[..i] + ([q[i]] + p[i + 1..]) == q;
    }
  }
}
