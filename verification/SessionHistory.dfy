/**
 What the inputs of a run say about the Session client: where each subscription starts, and
 which requests are accepted, confirmed and discarded.
 */
module SessionHistory {
  import opened Wrappers
  import opened SessionProtocol
  import opened SessionOutcomes
  import SessionWait

  lemma {:induction false} RunSnoc(w: World, h: seq<Input>, i: Input)
    ensures RunAll(w, h + [i]) == Step(RunAll(w, h), i)
    ensures Possible(w, h + [i]) <==> Possible(w, h) && Enabled(RunAll(w, h), i)
    decreases |h|
  {
    if h == [] {
      assert h + [i] == [i] && [i][1..] == [];
      assert RunAll(Step(w, i), []) == Step(w, i);
    } else {
      assert (h + [i])[1..] == h[1..] + [i] && (h + [i])[0] == h[0];
      RunSnoc(Step(w, h[0]), h[1..], i);
    }
  }

  lemma {:induction false} RunLast(h: seq<Input>)
    requires h != [] && Possible(INITIAL, h)
    ensures var before, i := h[..|h| - 1], h[|h| - 1];
      && h == before + [i] && Possible(INITIAL, before) && Enabled(RunAll(INITIAL, before), i)
      && RunAll(INITIAL, h) == Step(RunAll(INITIAL, before), i)
  {
    assert h == h[..|h| - 1] + [h[|h| - 1]];
    RunSnoc(INITIAL, h[..|h| - 1], h[|h| - 1]);
  }

  predicate ReplayStart(i: Input) {
    i.Receive? && i.event.kind == HistoryStart && !i.event.page
  }

  predicate ReplayEnd(i: Input) {
    i.Receive? && i.event.kind == HistoryEnd && !i.event.page
  }

  // ---------------------------------------------------------------- the cursor and the journal

  function LastStart(h: seq<Input>): Option<Event> {
    if h == [] then None
    else if ReplayStart(h[|h| - 1]) then Some(h[|h| - 1].event)
    else LastStart(h[..|h| - 1])
  }

  function Journal(h: seq<Input>): string {
    var e := LastStart(h);
    if e.Some? then e.value.journalId else ""
  }

  /** The last event id that the replay going on, or the last one, has named. */
  function Bound(h: seq<Input>): int {
    var e := LastStart(h);
    if e.Some? then e.value.lastEventId else 0
  }

  /** Where the journal was last reset: the ids before that count no more. */
  function LastReset(h: seq<Input>): nat {
    if h == [] then 0
    else if ReplayStart(h[|h| - 1]) && h[|h| - 1].event.reset then |h| - 1
    else LastReset(h[..|h| - 1])
  }

  /** Input k brings the id x: an event's own, or at the end of a replay the one it was announced with. */
  predicate Brings(h: seq<Input>, k: nat, x: int)
    requires k < |h|
  {
    h[k].Receive? && (x == h[k].event.id || (ReplayEnd(h[k]) && x == Bound(h[..k])))
  }

  /** The greatest of zero and the ids brought since the journal was last reset. */
  ghost predicate IsCursor(h: seq<Input>, c: int) {
    && 0 <= c
    && (forall k, x :: LastReset(h) <= k < |h| && Brings(h, k, x) ==> x <= c)
    && (c == 0 || exists k :: LastReset(h) <= k < |h| && Brings(h, k, c))
  }

  lemma {:induction false} BringsSnoc(h: seq<Input>, i: Input)
    ensures forall k, x :: 0 <= k < |h| ==> (Brings(h + [i], k, x) <==> Brings(h, k, x))
    ensures forall x :: Brings(h + [i], |h|, x) <==>
      i.Receive? && (x == i.event.id || (ReplayEnd(i) && x == Bound(h)))
    ensures LastReset(h + [i]) == if ReplayStart(i) && i.event.reset then |h| else LastReset(h)
    ensures LastReset(h) <= |h|
    ensures LastStart(h + [i]) == if ReplayStart(i) then Some(i.event) else LastStart(h)
    decreases |h|
  {
    assert (h + [i])[..|h|] == h;
    forall k, x | 0 <= k < |h|
      ensures Brings(h + [i], k, x) <==> Brings(h, k, x)
    {
      assert (h + [i])[..k] == h[..k] && (h + [i])[k] == h[k];
    }
    if h != [] {
      BringsSnoc(h[..|h| - 1], h[|h| - 1]);
      assert h == h[..|h| - 1] + [h[|h| - 1]];
    }
  }

  /** The ids that one more input brings, and the new maximum. */
  lemma {:induction false} CursorSnoc(h: seq<Input>, i: Input, c: int, d: int)
    requires IsCursor(h, c)
    requires var base := if ReplayStart(i) && i.event.reset then 0 else c;
      var end := if ReplayEnd(i) && Bound(h) > base then Bound(h) else base;
      d == if i.Receive? && i.event.id > end then i.event.id else end
    ensures IsCursor(h + [i], d)
  {
    BringsSnoc(h, i);
    var all := h + [i];
    if d != 0 {
      if d == c && !(ReplayStart(i) && i.event.reset) {
        var k :| LastReset(h) <= k < |h| && Brings(h, k, c);
        assert Brings(all, k, d);
      } else {
        assert Brings(all, |h|, d);
      }
    }
  }

  ghost predicate ReplayFollowed(c: Client, h: seq<Input>) {
    IsCursor(h, c.lastEventID) && c.historyLastEventID == Bound(h) && c.journalID == Journal(h)
  }

  lemma {:induction false} ReceiveCursorIs(w: World, e: Event, ackOk: bool, sinkOk: bool)
    ensures var c, d := w.client, DoReceive(w, e, ackOk, sinkOk).client;
      var starts, ends := e.kind == HistoryStart && !e.page, e.kind == HistoryEnd && !e.page;
      var base := if starts && e.reset then 0 else c.lastEventID;
      var end := if ends && c.historyLastEventID > base then c.historyLastEventID else base;
      && d.lastEventID == (if e.id > end then e.id else end)
      && d.historyLastEventID == (if starts then e.lastEventId else c.historyLastEventID)
      && d.journalID == (if starts then e.journalId else c.journalID)
  {
  }

  lemma {:induction false} ReplayFollowedStep(w: World, h: seq<Input>, i: Input)
    requires ReplayFollowed(w.client, h)
    ensures ReplayFollowed(Step(w, i).client, h + [i])
  {
    BringsSnoc(h, i);
    if i.Receive? {
      ReceiveCursorIs(w, i.event, i.ackOk, i.sinkOk);
    }
    CursorSnoc(h, i, w.client.lastEventID, Step(w, i).client.lastEventID);
  }

  lemma {:induction false} ReplayFollowedRun(h: seq<Input>)
    requires Possible(INITIAL, h)
    ensures ReplayFollowed(RunAll(INITIAL, h).client, h)
    decreases |h|
  {
    if h != [] {
      RunLast(h);
      ReplayFollowedRun(h[..|h| - 1]);
      ReplayFollowedStep(RunAll(INITIAL, h[..|h| - 1]), h[..|h| - 1], h[|h| - 1]);
    }
  }

  predicate Replayed(h: seq<Input>) {
    exists k :: 0 <= k < |h| && ReplayEnd(h[k])
  }

  /** After this history the connection attempt finds a Session to connect to. */
  ghost predicate Finds(h: seq<Input>, i: Input) {
    i.Connect? && exists s :: Returns(i.observations, Replayed(h), s)
  }

  /** One subscription for each stream that opens, from the cursor and the journal of its time. */
  ghost predicate SubscribedAs(h: seq<Input>, subs: seq<Subscription>) {
    if h == [] then subs == []
    else
      var before, i := h[..|h| - 1], h[|h| - 1];
      if Finds(before, i) && i.openOk then
        && subs != [] && SubscribedAs(before, subs[..|subs| - 1])
        && var s := subs[|subs| - 1]; IsCursor(before, s.since) && s.journalId == Journal(before)
      else SubscribedAs(before, subs)
  }

  lemma {:induction false} FindsIff(w: World, h: seq<Input>, i: Input)
    requires i.Connect? && w.client.connectedBefore == Replayed(h)
    ensures Finds(h, i) <==> SessionWait.Run(i.observations, w.client.connectedBefore, false).outcome.Returned?
    ensures forall s :: Returns(i.observations, Replayed(h), s) <==>
      SessionWait.Run(i.observations, w.client.connectedBefore, false).outcome == SessionWait.Returned(s)
  {
    forall s
      ensures Returns(i.observations, Replayed(h), s) <==>
        SessionWait.Run(i.observations, w.client.connectedBefore, false).outcome == SessionWait.Returned(s)
    {
      ReturnedIff(i.observations, Replayed(h), s);
    }
  }

  lemma {:induction false} ConnectedBeforeStep(w: World, h: seq<Input>, i: Input)
    requires w.client.connectedBefore == Replayed(h)
    ensures Step(w, i).client.connectedBefore == Replayed(h + [i])
  {
    ReplayedSnoc(h, i);
    if i.Receive? {
      ReceiveConnects(w, i.event, i.ackOk, i.sinkOk);
    }
  }

  lemma {:induction false} ReceiveConnects(w: World, e: Event, ackOk: bool, sinkOk: bool)
    ensures DoReceive(w, e, ackOk, sinkOk).client.connectedBefore == (w.client.connectedBefore || EndsReplay(e))
  {
  }

  lemma {:induction false} ReplayedSnoc(h: seq<Input>, i: Input)
    ensures Replayed(h + [i]) <==> Replayed(h) || ReplayEnd(i)
  {
    if Replayed(h) {
      var k :| 0 <= k < |h| && ReplayEnd(h[k]);
      assert (h + [i])[k] == h[k];
    }
    assert (h + [i])[|h|] == i;
  }

  /** A client counts as connected before exactly when some replay has ended. */
  lemma {:induction false} ConnectedBeforeIff(h: seq<Input>)
    requires Possible(INITIAL, h)
    ensures RunAll(INITIAL, h).client.connectedBefore <==> Replayed(h)
    decreases |h|
  {
    if h != [] {
      RunLast(h);
      ConnectedBeforeIff(h[..|h| - 1]);
      ConnectedBeforeStep(RunAll(INITIAL, h[..|h| - 1]), h[..|h| - 1], h[|h| - 1]);
    }
  }

  lemma {:induction false} SubscribesStep(w: World, h: seq<Input>, i: Input)
    requires w.client.connectedBefore == Replayed(h)
    ensures var subs := w.trace.subscriptions;
      Step(w, i).trace.subscriptions ==
        if Finds(h, i) && i.openOk then subs + [Subscription(w.client.lastEventID, w.client.journalID)] else subs
  {
    if i.Connect? {
      FindsIff(w, h, i);
    }
  }

  /**
   Over every run each subscription starts at the greatest id brought since the last reset of
   the journal, be it an event's own or the bound of a replay that ended, and names the
   journal of the last replay.
   */
  lemma {:induction false} SubscribesFromCursor(h: seq<Input>)
    requires Possible(INITIAL, h)
    ensures SubscribedAs(h, RunAll(INITIAL, h).trace.subscriptions)
    decreases |h|
  {
    if h != [] {
      RunLast(h);
      var before := h[..|h| - 1];
      var w := RunAll(INITIAL, before);
      SubscribesFromCursor(before);
      ReplayFollowedRun(before);
      ConnectedBeforeIff(before);
      SubscribesStep(w, before, h[|h| - 1]);
      assert (w.trace.subscriptions + [Subscription(w.client.lastEventID, w.client.journalID)])
               [..|w.trace.subscriptions|] == w.trace.subscriptions;
    }
  }

  // ---------------------------------------------------------------- the requests

  /** What the terminal submits, but for subscriptions and attachments, each under its id or a fresh one. */
  function Accepted(h: seq<Input>): seq<Request> {
    if h == [] then []
    else
      var i := h[|h| - 1];
      Accepted(h[..|h| - 1]) +
      if i.Submit? && i.request.kind !in {"subscribe", "terminal.attach"} then
        [Request(if i.request.id != "" then i.request.id else i.freshId, i.request.kind, i.request.text)]
      else []
  }

  lemma {:induction false} AcceptedIs(h: seq<Input>)
    requires Possible(INITIAL, h)
    ensures RunAll(INITIAL, h).trace.accepted == Accepted(h)
    decreases |h|
  {
    if h != [] {
      RunLast(h);
      AcceptedIs(h[..|h| - 1]);
      AcceptsStep(RunAll(INITIAL, h[..|h| - 1]), h[|h| - 1]);
    }
  }

  lemma {:induction false} AcceptsStep(w: World, i: Input)
    ensures Step(w, i).trace.accepted == w.trace.accepted +
      if i.Submit? && i.request.kind !in {"subscribe", "terminal.attach"} then
        [Request(if i.request.id != "" then i.request.id else i.freshId, i.request.kind, i.request.text)]
      else []
  {
    assert w.trace.accepted + [] == w.trace.accepted;
  }

  function PendingAfter(h: seq<Input>): seq<Pending> {
    RunAll(INITIAL, h).client.pending
  }

  /** Input k is an event with the id of this request, which is the first pending one with that id. */
  predicate Confirms(h: seq<Input>, k: nat, r: Request)
    requires k < |h|
  {
    && h[k].Receive? && r.id != "" && h[k].event.requestId == r.id
    && var p := PendingAfter(h[..k]);
       exists n :: 0 <= n < |p| && p[n].request == r && forall m :: 0 <= m < n ==> p[m].request.id != r.id
  }

  /** Input k takes a stream down on which this request was sent and not confirmed. */
  predicate Discards(h: seq<Input>, k: nat, r: Request)
    requires k < |h|
  {
    h[k].Teardown? && Pending(r, true) in PendingAfter(h[..k])
  }

  lemma {:induction false} RemovedIs(p: seq<Pending>, id: string, r: Request)
    ensures r in Removed(p, id) <==>
      r.id == id && exists n :: 0 <= n < |p| && p[n].request == r && forall m :: 0 <= m < n ==> p[m].request.id != r.id
  {
  }

  lemma {:induction false} SentIs(p: seq<Pending>, r: Request)
    ensures r in Sent(p) <==> Pending(r, true) in p
  {
    if p != [] {
      SentIs(p[1..], r);
      assert p == [p[0]] + p[1..];
    }
  }

  lemma {:induction false} TraceStep(w: World, i: Input)
    ensures Step(w, i).trace.confirmed == w.trace.confirmed +
      if i.Receive? && i.event.requestId != "" then Removed(w.client.pending, i.event.requestId) else []
    ensures Step(w, i).trace.discarded == w.trace.discarded + if i.Teardown? then Sent(w.client.pending) else []
  {
    assert w.trace.confirmed + [] == w.trace.confirmed && w.trace.discarded + [] == w.trace.discarded;
  }

  lemma {:induction false} FatesSnoc(h: seq<Input>, i: Input, r: Request)
    ensures var all := h + [i];
      && (forall k :: 0 <= k < |h| ==> (Confirms(all, k, r) <==> Confirms(h, k, r)))
      && (forall k :: 0 <= k < |h| ==> (Discards(all, k, r) <==> Discards(h, k, r)))
      && all[..|h|] == h && all[|h|] == i
  {
    var all := h + [i];
    forall k | 0 <= k < |h|
      ensures (Confirms(all, k, r) <==> Confirms(h, k, r)) && (Discards(all, k, r) <==> Discards(h, k, r))
    {
      assert all[..k] == h[..k] && all[k] == h[k];
    }
  }

  predicate WasConfirmed(h: seq<Input>, r: Request) {
    exists k :: 0 <= k < |h| && Confirms(h, k, r)
  }

  predicate WasDiscarded(h: seq<Input>, r: Request) {
    exists k :: 0 <= k < |h| && Discards(h, k, r)
  }

  lemma {:induction false} FatesLast(h: seq<Input>, i: Input, r: Request)
    ensures WasConfirmed(h + [i], r) <==> WasConfirmed(h, r) || Confirms(h + [i], |h|, r)
    ensures WasDiscarded(h + [i], r) <==> WasDiscarded(h, r) || Discards(h + [i], |h|, r)
  {
    FatesSnoc(h, i, r);
  }

  /** A request is confirmed exactly by an event with its id that finds it pending, and dropped exactly by a teardown
      that finds it sent. */
  lemma {:induction false} FatesIff(h: seq<Input>, r: Request)
    requires Possible(INITIAL, h)
    ensures r in RunAll(INITIAL, h).trace.confirmed <==> WasConfirmed(h, r)
    ensures r in RunAll(INITIAL, h).trace.discarded <==> WasDiscarded(h, r)
    decreases |h|
  {
    if h != [] {
      RunLast(h);
      var before, i := h[..|h| - 1], h[|h| - 1];
      FatesIff(before, r);
      FatesSnoc(before, i, r);
      FatesLast(before, i, r);
      TraceStep(RunAll(INITIAL, before), i);
      SentIs(PendingAfter(before), r);
      if i.Receive? {
        RemovedIs(PendingAfter(before), i.event.requestId, r);
      }
    }
  }
}
