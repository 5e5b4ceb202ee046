/**
 The Session reconnect protocol of internal/cli/session.go as a state machine.
 `Client` holds the variables of connectSessionWithDependencies, `Trace` records
 what went in and out, and `Step` is one turn of its loops.  The environment
 chooses the inputs: what the API server answers, when a stream opens, how many
 writes it takes before failing, which events it delivers, and when it is lost.
 */
module SessionProtocol {
  import SessionWait

  datatype Request = Request(id: string, kind: string, text: string)
  datatype Pending = Pending(request: Request, sent: bool)

  datatype EventKind = HistoryStart | HistoryEnd | Other
  datatype Event = Event(kind: EventKind, id: int, requestId: string, page: bool,
                         lastEventId: int, journalId: string, reset: bool)

  // Down: no stream.  Up: subscribed.  Broken: the stream is lost but not cleaned up.  Exited: returned.
  datatype Link = Down | Up | Broken | Exited

  datatype Client = Client(
    lastEventID: int,
    historyLastEventID: int,
    journalID: string,
    connectedBefore: bool,
    pending: seq<Pending>,
    link: Link,
    announceReconnect: bool,
    historyComplete: bool,
    resumePending: bool,       // the Session object carries a resume request to acknowledge
    writesLeft: nat)           // writes the current stream still takes

  /** What a stream is asked for: the events after `since` of this journal. */
  datatype Subscription = Subscription(since: int, journalId: string)

  datatype Trace = Trace(
    subscriptions: seq<Subscription>, // subscriptions handed to an encoder, over all streams
    accepted: seq<Request>,    // requests taken from the terminal into the pending queue
    encoded: seq<Request>,     // requests handed to a stream's encoder, over all streams
    confirmed: seq<Request>,   // requests removed because an event carried their id
    discarded: seq<Request>,   // requests reported as not confirmed and dropped
    resumes: nat,              // resume requests made
    acks: nat,                 // acknowledgements of a resume asked for
    reconnects: nat,           // times the terminal was told that it is connected again
    replayed: bool,            // some history replay has completed
    inPage: bool,              // the stream is inside a requested history page
    floor: int,                // highest event id this stream has sent outside pages, or its subscription cursor
    ids: seq<int>)             // event ids forwarded outside pages since the journal was last reset

  datatype World = World(client: Client, trace: Trace)

  datatype Input =
    | Connect(observations: seq<SessionWait.Observation>, openOk: bool, subscribeOk: bool, writes: nat)
    | Submit(request: Request, freshId: string)
    | Receive(event: Event, ackOk: bool, sinkOk: bool)
    | Lost
    | Teardown
    | Exit

  const INITIAL := World(Client(0, 0, "", false, [], Down, false, false, false, 0),
                         Trace([], [], [], [], [], 0, 0, 0, false, false, 0, []))

  // ---------------------------------------------------------------- the pending queue

  function Requests(p: seq<Pending>): seq<Request> {
    if p == [] then [] else [p[0].request] + Requests(p[1..])
  }

  function Unsent(p: seq<Pending>): seq<Request> {
    if p == [] then [] else (if p[0].sent then [] else [p[0].request]) + Unsent(p[1..])
  }

  function Sent(p: seq<Pending>): seq<Request> {
    if p == [] then [] else (if p[0].sent then [p[0].request] else []) + Sent(p[1..])
  }

  function Retained(p: seq<Pending>): seq<Pending> {
    if p == [] then [] else (if p[0].sent then [] else [p[0]]) + Retained(p[1..])
  }

  function FirstMatch(p: seq<Pending>, id: string): (k: nat)
    ensures k <= |p|
    ensures k < |p| ==> p[k].request.id == id
    ensures forall i :: 0 <= i < k ==> p[i].request.id != id
  {
    if p == [] || p[0].request.id == id then 0 else 1 + FirstMatch(p[1..], id)
  }

  function RemoveFirst(p: seq<Pending>, id: string): seq<Pending> {
    var k := FirstMatch(p, id);
    if k == |p| then p else p[..k] + p[k + 1..]
  }

  function Removed(p: seq<Pending>, id: string): seq<Request> {
    var k := FirstMatch(p, id);
    if k == |p| then [] else [p[k].request]
  }

  /** The queue after a flush, the requests written, the writes left, and whether every write succeeded. */
  datatype Flushed = Flushed(pending: seq<Pending>, written: seq<Request>, writesLeft: nat, ok: bool)

  function Flush(p: seq<Pending>, writes: nat): Flushed {
    if p == [] then Flushed([], [], writes, true)
    else if p[0].sent then
      var f := Flush(p[1..], writes);
      f.(pending := [p[0]] + f.pending)
    else if writes == 0 then Flushed([p[0].(sent := true)] + p[1..], [p[0].request], 0, false)
    else
      var f := Flush(p[1..], writes - 1);
      f.(pending := [p[0].(sent := true)] + f.pending, written := [p[0].request] + f.written)
  }

  // ---------------------------------------------------------------- the transitions

  predicate IsQueued(r: Request) {
    r.kind != "subscribe" && r.kind != "terminal.attach"
  }

  function WithId(r: Request, freshId: string): Request {
    if r.id == "" then r.(id := freshId) else r
  }

  function DoConnect(w: World, i: Input): World
    requires i.Connect?
  {
    var c := w.client;
    var wait := SessionWait.Run(i.observations, c.connectedBefore, false);
    var t := w.trace.(resumes := w.trace.resumes + wait.resumes);
    match wait.outcome
    case Returned(session) =>
      if !i.openOk then World(c, t)
      else
        var t1 := t.(subscriptions := t.subscriptions + [Subscription(c.lastEventID, c.journalID)]);
        if !i.subscribeOk then World(c, t1)
        else World(c.(link := Up, announceReconnect := c.connectedBefore, historyComplete := false,
                      resumePending := session.resumeRequested, writesLeft := i.writes),
                   t1.(inPage := false, floor := c.lastEventID))
    case _ => World(c.(link := Exited), t)
  }

  function DoSubmit(w: World, r: Request): World {
    var c, t := w.client, w.trace.(accepted := w.trace.accepted + [r]);
    if !c.historyComplete then World(c.(pending := c.pending + [Pending(r, false)]), t)
    else
      World(c.(pending := c.pending + [Pending(r, true)],
               link := if c.writesLeft == 0 then Broken else c.link,
               writesLeft := if c.writesLeft == 0 then 0 else c.writesLeft - 1),
            t.(encoded := t.encoded + [r]))
  }

  function Confirm(w: World, id: string): World {
    if id == "" then w
    else World(w.client.(pending := RemoveFirst(w.client.pending, id)),
               w.trace.(confirmed := w.trace.confirmed + Removed(w.client.pending, id)))
  }

  predicate StartsReplay(e: Event) { e.kind == HistoryStart && !e.page }
  predicate EndsReplay(e: Event) { e.kind == HistoryEnd && !e.page }
  predicate ResetsJournal(e: Event) { StartsReplay(e) && e.reset }

  function BeginReplay(c: Client, e: Event): Client {
    c.(journalID := e.journalId, historyLastEventID := e.lastEventId,
       lastEventID := if e.reset then 0 else c.lastEventID)
  }

  function EndReplay(w: World, ackOk: bool): World {
    var c, f := w.client, Flush(w.client.pending, w.client.writesLeft);
    var breaks := !f.ok || (c.resumePending && !ackOk);
    World(c.(lastEventID := if c.historyLastEventID > c.lastEventID then c.historyLastEventID else c.lastEventID,
             announceReconnect := false, connectedBefore := true, historyComplete := true,
             pending := f.pending, writesLeft := f.writesLeft,
             link := if breaks then Broken else c.link,
             resumePending := c.resumePending && breaks),
          w.trace.(encoded := w.trace.encoded + f.written, replayed := true,
                   acks := w.trace.acks + (if f.ok && c.resumePending then 1 else 0),
                   reconnects := w.trace.reconnects + (if c.announceReconnect then 1 else 0)))
  }

  /** What the observer notes about one event: page brackets, resets, and ids outside pages. */
  function Observe(t: Trace, e: Event, forwarded: bool): Trace {
    var inside := if e.page then e.kind == HistoryStart || t.inPage else t.inPage;
    var t1 := t.(floor := if ResetsJournal(e) then 0 else t.floor, ids := if ResetsJournal(e) then [] else t.ids);
    var outside := e.id > 0 && !inside;
    t1.(inPage := inside && !(e.page && e.kind == HistoryEnd),
        floor := if outside then e.id else t1.floor,
        ids := if outside && forwarded then t1.ids + [e.id] else t1.ids)
  }

  function DoReceive(w: World, e: Event, ackOk: bool, sinkOk: bool): World {
    var w1 := Confirm(w, e.requestId);
    var w2 := if StartsReplay(e) then World(BeginReplay(w1.client, e), w1.trace) else w1;
    var w3 := if EndsReplay(e) then EndReplay(w2, ackOk) else w2;
    var c := w3.client;
    World(c.(lastEventID := if e.id > c.lastEventID then e.id else c.lastEventID,
             link := if sinkOk then c.link else Exited),
          Observe(w3.trace, e, sinkOk))
  }

  function DoTeardown(w: World): World {
    World(w.client.(pending := Retained(w.client.pending), link := Down),
          w.trace.(discarded := w.trace.discarded + Sent(w.client.pending)))
  }

  function Step(w: World, i: Input): World {
    match i
    case Connect(_, _, _, _) => DoConnect(w, i)
    case Submit(r, freshId) => if IsQueued(r) then DoSubmit(w, WithId(r, freshId)) else w
    case Receive(e, ackOk, sinkOk) => DoReceive(w, e, ackOk, sinkOk)
    case Lost => World(w.client.(link := Broken), w.trace)
    case Teardown => DoTeardown(w)
    case Exit => World(w.client.(link := Exited), w.trace)
  }

  /** Which inputs a state can meet at all. */
  predicate Enabled(w: World, i: Input) {
    match i
    case Connect(observations, _, _, _) =>
      && w.client.link == Down
      && SessionWait.Run(observations, w.client.connectedBefore, false).outcome != SessionWait.StillWaiting
    case Submit(_, _) => w.client.link == Up
    case Receive(_, _, _) => w.client.link == Up
    case Lost => w.client.link == Up
    case Teardown => w.client.link == Broken
    case Exit => w.client.link != Exited
  }

  function RunAll(w: World, inputs: seq<Input>): World
    decreases |inputs|
  {
    if inputs == [] then w else RunAll(Step(w, inputs[0]), inputs[1..])
  }

  predicate Possible(w: World, inputs: seq<Input>)
    decreases |inputs|
  {
    inputs == [] || (Enabled(w, inputs[0]) && Possible(Step(w, inputs[0]), inputs[1..]))
  }

  // ---------------------------------------------------------------- the queue laws

  lemma Assoc<T>(a: seq<T>, b: seq<T>, c: seq<T>)
    ensures a + b + c == a + (b + c)
  {
  }

  lemma {:induction false} UnsentAppend(a: seq<Pending>, b: seq<Pending>)
    ensures Unsent(a + b) == Unsent(a) + Unsent(b)
  {
    if a == [] {
      assert a + b == b;
    } else {
      assert (a + b)[1..] == a[1..] + b;
      UnsentAppend(a[1..], b);
      Assoc(if a[0].sent then [] else [a[0].request], Unsent(a[1..]), Unsent(b));
    }
  }

  lemma {:induction false} RequestsAppend(a: seq<Pending>, b: seq<Pending>)
    ensures Requests(a + b) == Requests(a) + Requests(b)
  {
    if a == [] {
      assert a + b == b;
    } else {
      assert (a + b)[1..] == a[1..] + b;
      RequestsAppend(a[1..], b);
      Assoc([a[0].request], Requests(a[1..]), Requests(b));
    }
  }

  lemma Around<T>(p: seq<T>, k: nat)
    requires k < |p|
    ensures p == p[..k] + ([p[k]] + p[k + 1..]) && ([p[k]] + p[k + 1..])[1..] == p[k + 1..]
  {
  }

  lemma {:induction false} UnsentAround(p: seq<Pending>, k: nat)
    requires k < |p|
    ensures Unsent(p) == Unsent(p[..k]) + ((if p[k].sent then [] else [p[k].request]) + Unsent(p[k + 1..]))
  {
    Around(p, k);
    UnsentAppend(p[..k], [p[k]] + p[k + 1..]);
  }

  lemma {:induction false} RequestsAround(p: seq<Pending>, k: nat)
    requires k < |p|
    ensures Requests(p) == Requests(p[..k]) + ([p[k].request] + Requests(p[k + 1..]))
  {
    Around(p, k);
    RequestsAppend(p[..k], [p[k]] + p[k + 1..]);
  }

  lemma CutOut<T>(a: seq<T>, x: T, b: seq<T>)
    ensures multiset(a + ([x] + b)) == multiset(a + b) + multiset([x])
    ensures x in a + ([x] + b) && |a + ([x] + b)| == |a + b| + 1
  {
    assert (a + ([x] + b))[|a|] == x;
  }

  lemma {:induction false} RequestsAt(p: seq<Pending>)
    ensures |Requests(p)| == |p| && forall k :: 0 <= k < |p| ==> Requests(p)[k] == p[k].request
  {
    if p != [] {
      RequestsAt(p[1..]);
    }
  }

  /** Removing a confirmed request takes out the first one with its id and keeps all others, in order. */
  lemma {:induction false} RemovalKeepsOrder(p: seq<Pending>, id: string)
    ensures var all, left := Requests(p), Requests(RemoveFirst(p, id));
      if exists r :: r in all && r.id == id then
        exists k :: 0 <= k < |all| && all[k].id == id && (forall j :: 0 <= j < k ==> all[j].id != id)
          && left == all[..k] + all[k + 1..] && Removed(p, id) == [all[k]]
      else RemoveFirst(p, id) == p && Removed(p, id) == []
  {
    var k := FirstMatch(p, id);
    RequestsAt(p);
    RequestsAt(RemoveFirst(p, id));
    if k < |p| {
      assert Requests(p)[k] in Requests(p) && Requests(p)[k].id == id;
      assert Requests(RemoveFirst(p, id)) == Requests(p)[..k] + Requests(p)[k + 1..];
    }
  }

  /** So the removed one and the others make up the whole queue. */
  lemma {:induction false} RemovalKeepsOthers(p: seq<Pending>, id: string)
    ensures multiset(Requests(p)) == multiset(Requests(RemoveFirst(p, id))) + multiset(Removed(p, id))
    ensures FirstMatch(p, id) == |p| ==> RemoveFirst(p, id) == p
  {
    var k := FirstMatch(p, id);
    if k < |p| {
      CutRequests(p, k);
      assert RemoveFirst(p, id) == p[..k] + p[k + 1..] && Removed(p, id) == [p[k].request];
    } else {
      NothingCut(Requests(p));
    }
  }

  lemma NothingCut<T>(s: seq<T>)
    ensures multiset(s) == multiset(s) + multiset([])
  {
  }

  lemma {:induction false} CutRequests(p: seq<Pending>, k: nat)
    requires k < |p|
    ensures multiset(Requests(p)) == multiset(Requests(p[..k] + p[k + 1..])) + multiset([p[k].request])
  {
    RequestsAround(p, k);
    RequestsAppend(p[..k], p[k + 1..]);
    CutOut(Requests(p[..k]), p[k].request, Requests(p[k + 1..]));
  }

  lemma {:induction false} CutUnsent(p: seq<Pending>, k: nat)
    requires k < |p|
    ensures Unsent(p[..k] + p[k + 1..]) == Unsent(p) <==> p[k].sent
    ensures !p[k].sent ==> p[k].request in Unsent(p)
  {
    UnsentAround(p, k);
    UnsentAppend(p[..k], p[k + 1..]);
    if p[k].sent {
      assert [] + Unsent(p[k + 1..]) == Unsent(p[k + 1..]);
    } else {
      CutOut(Unsent(p[..k]), p[k].request, Unsent(p[k + 1..]));
    }
  }

  /** It leaves the unsent requests alone if and only if the removed one had been sent. */
  lemma {:induction false} RemovalKeepsUnsentIff(p: seq<Pending>, id: string)
    ensures Unsent(RemoveFirst(p, id)) == Unsent(p) <==> (FirstMatch(p, id) < |p| ==> p[FirstMatch(p, id)].sent)
    ensures FirstMatch(p, id) < |p| && !p[FirstMatch(p, id)].sent ==> p[FirstMatch(p, id)].request in Unsent(p)
  {
    if FirstMatch(p, id) < |p| {
      CutUnsent(p, FirstMatch(p, id));
    }
  }

  predicate AllSent(p: seq<Pending>) {
    forall i :: 0 <= i < |p| ==> p[i].sent
  }

  predicate NoneSent(p: seq<Pending>) {
    forall i :: 0 <= i < |p| ==> !p[i].sent
  }

  lemma {:induction false} AllSentMeansNoneUnsent(p: seq<Pending>)
    requires AllSent(p)
    ensures Unsent(p) == []
  {
    if p != [] {
      AllSentMeansNoneUnsent(p[1..]);
    }
  }

  /** A flush writes a prefix of the unsent requests, in order and each once; all of them when no write fails. */
  lemma {:induction false} FlushLaw(p: seq<Pending>, writes: nat)
    ensures var f := Flush(p, writes);
      && Unsent(p) == f.written + Unsent(f.pending)
      && Requests(f.pending) == Requests(p)
      && (f.ok ==> AllSent(f.pending) && f.writesLeft == writes - |f.written|)
      && (!f.ok ==> f.writesLeft == 0 && |f.written| == writes + 1)
  {
    if p != [] {
      var q := if p[0].sent then p[0] else p[0].(sent := true);
      if p[0].sent || writes > 0 {
        var f := Flush(p[1..], if p[0].sent then writes else writes - 1);
        FlushLaw(p[1..], if p[0].sent then writes else writes - 1);
        assert ([q] + f.pending)[1..] == f.pending;
      } else {
        assert ([q] + p[1..])[1..] == p[1..];
      }
    }
  }

  /** Discarding keeps exactly the unsent requests, in order. */
  lemma {:induction false} DiscardKeepsUnsent(p: seq<Pending>)
    ensures Unsent(Retained(p)) == Unsent(p)
    ensures Requests(Retained(p)) == Unsent(p)
    ensures NoneSent(Retained(p))
  {
    if p != [] {
      var kept := Retained(p[1..]);
      DiscardKeepsUnsent(p[1..]);
      if p[0].sent {
        assert Retained(p) == kept && Unsent(p) == Unsent(p[1..]);
      } else {
        assert ([p[0]] + kept)[1..] == kept;
      }
    }
  }

  lemma {:induction false} SentOrUnsent(p: seq<Pending>)
    ensures multiset(Requests(p)) == multiset(Unsent(p)) + multiset(Sent(p))
  {
    if p != [] {
      SentOrUnsent(p[1..]);
      if p[0].sent {
        assert Unsent(p) == Unsent(p[1..]);
      } else {
        assert Sent(p) == Sent(p[1..]);
      }
    }
  }
}
