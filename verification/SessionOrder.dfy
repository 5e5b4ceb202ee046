/**
 The exact condition for the order law of the Session protocol: over any run it holds
 at every point if and only if no event removes a request that was not sent.  And a
 run in which a client that reuses an id loses a request.
 */
module SessionOrder {
  import opened SessionProtocol
  import opened SessionGuarantees
  import SessionWait

  /** The order law holds now and after every further input. */
  predicate AlwaysFifo(w: World, inputs: seq<Input>)
    decreases |inputs|
  {
    Fifo(w) && (inputs == [] || AlwaysFifo(Step(w, inputs[0]), inputs[1..]))
  }

  /** The pending request that an id removes, if any, has been sent. */
  predicate RemovesSent(w: World, id: string) {
    id != "" && FirstMatch(w.client.pending, id) < |w.client.pending| ==>
      w.client.pending[FirstMatch(w.client.pending, id)].sent
  }

  predicate RemovesOnlySent(w: World, i: Input) {
    i.Receive? ==> RemovesSent(w, i.event.requestId)
  }

  /** Exactly when an event keeps the order law: the request it removes, if any, must have been sent. */
  lemma {:induction false} ConfirmKeepsFifoIff(w: World, id: string)
    requires Fifo(w) && id != ""
    ensures var p := w.client.pending; var k := FirstMatch(p, id);
      Fifo(Confirm(w, id)) <==> (k < |p| ==> p[k].sent)
  {
    var p := w.client.pending;
    RemovalKeepsUnsentIff(p, id);
    var a, b := Unsent(p), Unsent(RemoveFirst(p, id));
    if w.trace.encoded + a == w.trace.encoded + b {
      assert a == (w.trace.encoded + a)[|w.trace.encoded|..] == b;
    }
  }

  // ---------------------------------------------------------------- the sent flags

  lemma {:induction false} EndReplayFlags(w: World, ackOk: bool)
    requires w.client.link == Up
    ensures FlagsFollowReplay(EndReplay(w, ackOk).client)
  {
    FlushLaw(w.client.pending, w.client.writesLeft);
  }

  lemma {:induction false} ReceiveFlags(w: World, e: Event, ackOk: bool, sinkOk: bool)
    requires FlagsFollowReplay(w.client) && w.client.link == Up
    ensures FlagsFollowReplay(DoReceive(w, e, ackOk, sinkOk).client)
  {
    RemovalKeepsFlags(w.client.pending, e.requestId);
    var w1 := Confirm(w, e.requestId);
    assert FlagsFollowReplay(w1.client);
    var w2 := if StartsReplay(e) then World(BeginReplay(w1.client, e), w1.trace) else w1;
    if EndsReplay(e) {
      EndReplayFlags(w2, ackOk);
    }
  }

  lemma {:induction false} SubmitFlags(w: World, r: Request)
    requires FlagsFollowReplay(w.client) && w.client.link == Up
    ensures FlagsFollowReplay(DoSubmit(w, r).client)
  {
    var p := w.client.pending;
    assert AllSent(p) ==> AllSent(p + [Pending(r, true)]);
    assert NoneSent(p) ==> NoneSent(p + [Pending(r, false)]);
  }

  lemma {:induction false} FlagsStep(w: World, i: Input)
    requires FlagsFollowReplay(w.client) && Enabled(w, i)
    ensures FlagsFollowReplay(Step(w, i).client)
  {
    match i {
      case Submit(r, freshId) =>
        if IsQueued(r) {
          SubmitFlags(w, WithId(r, freshId));
        }
      case Receive(e, ackOk, sinkOk) => ReceiveFlags(w, e, ackOk, sinkOk);
      case Teardown => DiscardKeepsUnsent(w.client.pending);
      case _ =>
    }
  }

  // ---------------------------------------------------------------- the order law, step by step

  /** The end of a replay neither breaks the law nor mends it. */
  lemma {:induction false} EndReplayFifoIff(w: World, ackOk: bool)
    ensures Fifo(EndReplay(w, ackOk)) <==> Fifo(w)
  {
    var f := Flush(w.client.pending, w.client.writesLeft);
    FlushLaw(w.client.pending, w.client.writesLeft);
    assert w.trace.encoded + (f.written + Unsent(f.pending)) == (w.trace.encoded + f.written) + Unsent(f.pending);
  }

  lemma {:induction false} ReceiveFifoIff(w: World, e: Event, ackOk: bool, sinkOk: bool)
    requires Fifo(w)
    ensures Fifo(DoReceive(w, e, ackOk, sinkOk)) <==> RemovesSent(w, e.requestId)
  {
    if e.requestId != "" {
      ConfirmKeepsFifoIff(w, e.requestId);
    }
    var w1 := Confirm(w, e.requestId);
    var w2 := if StartsReplay(e) then World(BeginReplay(w1.client, e), w1.trace) else w1;
    assert Fifo(w2) <==> Fifo(w1);
    EndReplayFifoIff(w2, ackOk);
  }

  lemma {:induction false} FifoStepIff(w: World, i: Input)
    requires Fifo(w) && FlagsFollowReplay(w.client) && Enabled(w, i)
    ensures Fifo(Step(w, i)) <==> RemovesOnlySent(w, i)
  {
    match i {
      case Submit(r, freshId) =>
        if IsQueued(r) {
          SubmitFifo(w, WithId(r, freshId));
        }
      case Receive(e, ackOk, sinkOk) => ReceiveFifoIff(w, e, ackOk, sinkOk);
      case Teardown => DiscardKeepsUnsent(w.client.pending);
      case _ =>
    }
  }

  lemma {:induction false} FifoIffFrom(w: World, inputs: seq<Input>)
    requires Fifo(w) && FlagsFollowReplay(w.client) && Possible(w, inputs)
    ensures AlwaysFifo(w, inputs) <==> Along(w, inputs, RemovesOnlySent)
    decreases |inputs|
  {
    if inputs != [] {
      FifoStepIff(w, inputs[0]);
      FlagsStep(w, inputs[0]);
      if Fifo(Step(w, inputs[0])) {
        FifoIffFrom(Step(w, inputs[0]), inputs[1..]);
      }
    }
  }

  /**
   Over any run, whatever the client and the server do: the accepted requests are at every
   point those written, in order, and the unsent ones, if and only if every event removes
   only a request that was sent.
   */
  lemma {:induction false} AlwaysInOrderIff(inputs: seq<Input>)
    requires Possible(INITIAL, inputs)
    ensures AlwaysFifo(INITIAL, inputs) <==> Along(INITIAL, inputs, RemovesOnlySent)
  {
    FifoIffFrom(INITIAL, inputs);
  }

  // ---------------------------------------------------------------- a reused id

  const READY := SessionWait.SessionObject(SessionWait.Ready, "pod", false, false, false)
  const SEEN := SessionWait.Observation(SessionWait.Got(READY), true, SessionWait.Continue)
  const OPENED := Input.Connect([SEEN], true, true, 1)
  const REPLAYED := Event(HistoryEnd, 0, "", false, 0, "", false)

  function Echo(id: string): Event {
    Event(Other, 0, id, false, 0, "", false)
  }

  lemma {:induction false} Prepend(w: World, i: Input, rest: seq<Input>)
    requires Enabled(w, i) && Possible(Step(w, i), rest)
    ensures Possible(w, [i] + rest) && RunAll(w, [i] + rest) == RunAll(Step(w, i), rest)
  {
    assert ([i] + rest)[1..] == rest;
  }

  lemma {:induction false} Opens(w: World)
    requires w.client.link == Down
    ensures Enabled(w, OPENED)
    ensures var v := Step(w, OPENED);
      && v.client.link == Up && !v.client.historyComplete && v.client.writesLeft == 1 && !v.client.resumePending
      && v.client.pending == w.client.pending && v.trace.accepted == w.trace.accepted
      && v.trace.encoded == w.trace.encoded && v.trace.confirmed == w.trace.confirmed
      && v.trace.discarded == w.trace.discarded
  {
    assert SessionWait.Run([SEEN], w.client.connectedBefore, false) == SessionWait.Wait(SessionWait.Returned(READY), 0);
  }

  /** The first stream: replayed, the request written, then lost before anything confirms it. */
  function FirstStream(r: Request): seq<Input> {
    [OPENED] + ([Receive(REPLAYED, true, true)] + ([Submit(r, "")] + ([Lost] + ([Teardown] + []))))
  }

  /** The second: another request with that id, and the echo of the first. */
  function SecondStream(again: Request): seq<Input> {
    [OPENED] + ([Submit(again, "")] + ([Receive(Echo(again.id), true, true)] + []))
  }

  /** One request was written and reported as not confirmed. */
  predicate Dropped(w: World, r: Request) {
    && w.client.link == Down && w.client.pending == []
    && w.trace.accepted == w.trace.encoded == w.trace.discarded == [r] && w.trace.confirmed == []
  }

  lemma {:induction false} FirstStreamDrops(r: Request)
    requires IsQueued(r) && r.id != ""
    ensures Possible(INITIAL, FirstStream(r)) && Dropped(RunAll(INITIAL, FirstStream(r)), r)
  {
    Opens(INITIAL);
    var w1 := Step(INITIAL, OPENED);
    var w2 := Step(w1, Receive(REPLAYED, true, true));
    assert w2.client.link == Up && w2.client.historyComplete && w2.client.pending == [] && w2.client.writesLeft == 1;
    var w3 := Step(w2, Submit(r, ""));
    assert w3.client.pending == [Pending(r, true)] && w3.client.link == Up;
    var w4 := Step(w3, Lost);
    assert [Pending(r, true)][1..] == [] && Sent([Pending(r, true)]) == [r] && Retained([Pending(r, true)]) == [];
    var w5 := Step(w4, Teardown);
    assert Dropped(w5, r);
    assert Possible(w5, []) && RunAll(w5, []) == w5;
    Prepend(w4, Teardown, []);
    Prepend(w3, Lost, [Teardown] + []);
    Prepend(w2, Submit(r, ""), [Lost] + ([Teardown] + []));
    Prepend(w1, Receive(REPLAYED, true, true), [Submit(r, "")] + ([Lost] + ([Teardown] + [])));
    Prepend(INITIAL, OPENED,
            [Receive(REPLAYED, true, true)] + ([Submit(r, "")] + ([Lost] + ([Teardown] + []))));
  }

  lemma {:induction false} SecondStreamLoses(w: World, r: Request, again: Request)
    requires Dropped(w, r) && IsQueued(again) && again.id != ""
    ensures Possible(w, SecondStream(again))
    ensures var v := RunAll(w, SecondStream(again));
      && v.trace.accepted == [r] + [again] && v.trace.encoded == [r] && v.trace.confirmed == [again]
      && v.client.pending == []
  {
    Opens(w);
    var w1 := Step(w, OPENED);
    var w2 := Step(w1, Submit(again, ""));
    assert w2.client.pending == [Pending(again, false)] && w2.client.link == Up;
    assert FirstMatch(w2.client.pending, again.id) == 0;
    var w3 := Step(w2, Receive(Echo(again.id), true, true));
    assert Possible(w3, []) && RunAll(w3, []) == w3;
    Prepend(w2, Receive(Echo(again.id), true, true), []);
    Prepend(w1, Submit(again, ""), [Receive(Echo(again.id), true, true)] + []);
    Prepend(w, OPENED, [Submit(again, "")] + ([Receive(Echo(again.id), true, true)] + []));
  }

  lemma {:induction false} RunsJoin(w: World, a: seq<Input>, b: seq<Input>)
    requires Possible(w, a) && Possible(RunAll(w, a), b)
    ensures Possible(w, a + b) && RunAll(w, a + b) == RunAll(RunAll(w, a), b)
    decreases |a|
  {
    if a == [] {
      assert a + b == b;
    } else {
      RunsJoin(Step(w, a[0]), a[1..], b);
      Prepend(w, a[0], a[1..] + b);
      assert [a[0]] + (a[1..] + b) == a + b;
    }
  }

  /**
   Fresh ids are needed: in this run a second request with the id of a written one is
   removed as confirmed, by that id's replayed event, and never written.
   */
  lemma {:induction false} ReusedIdIsLost(r: Request, again: Request) returns (inputs: seq<Input>)
    requires IsQueued(r) && IsQueued(again) && r.id == again.id && r.id != ""
    ensures Possible(INITIAL, inputs)
    ensures var v := RunAll(INITIAL, inputs);
      && v.trace.accepted == [r] + [again] && v.trace.encoded == [r]
      && v.trace.confirmed == [again] && v.client.pending == []
  {
    FirstStreamDrops(r);
    SecondStreamLoses(RunAll(INITIAL, FirstStream(r)), r, again);
    RunsJoin(INITIAL, FirstStream(r), SecondStream(again));
    inputs := FirstStream(r) + SecondStream(again);
  }
}
