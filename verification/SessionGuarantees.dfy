/**
 What the Session protocol guarantees over every run, with any number of
 reconnects: requests are written at most once and in order, none is lost
 silently, the resume cursor only moves forward between journal resets, and a
 reconnecting client never wakes an idle-suspended Session.
 */
module SessionGuarantees {
  import opened SessionProtocol
  import SessionWait

  predicate HasId(s: seq<Request>, id: string) {
    exists i :: 0 <= i < |s| && s[i].id == id
  }

  predicate DistinctIds(s: seq<Request>) {
    forall i, j :: 0 <= i < j < |s| ==> s[i].id != s[j].id
  }

  /** The environment's side: ids are fresh, and the server echoes only ids of requests that were written to it. */
  predicate FreshAndEchoed(w: World, i: Input) {
    match i
    case Submit(r, freshId) => IsQueued(r) ==> !HasId(w.trace.accepted, WithId(r, freshId).id)
    case Receive(e, _, _) => e.requestId != "" ==> HasId(w.trace.encoded, e.requestId)
    case _ => true
  }

  /** The environment's side for the cursor: outside pages a stream sends increasing ids above its subscription. */
  predicate IdsIncrease(w: World, i: Input) {
    match i
    case Receive(e, _, _) =>
      var inside := if e.page then e.kind == HistoryStart || w.trace.inPage else w.trace.inPage;
      e.id > 0 && !inside ==> e.id > (if ResetsJournal(e) then 0 else w.trace.floor)
    case _ => true
  }

  /** Every input of the run meets the condition in the state it arrives in. */
  predicate Along(w: World, inputs: seq<Input>, ok: (World, Input) -> bool)
    decreases |inputs|
  {
    inputs == [] || (ok(w, inputs[0]) && Along(Step(w, inputs[0]), inputs[1..], ok))
  }

  // ---------------------------------------------------------------- at most once, in order, nothing lost

  /** Before the replay ends no pending request has been written to the stream; after it, every one has. */
  predicate FlagsFollowReplay(c: Client) {
    && (c.link == Down || (c.link == Up && !c.historyComplete) ==> NoneSent(c.pending))
    && (c.link == Up && c.historyComplete ==> AllSent(c.pending))
  }

  predicate Fifo(w: World) {
    w.trace.accepted == w.trace.encoded + Unsent(w.client.pending)
  }

  predicate Conserved(w: World) {
    multiset(w.trace.accepted) ==
      multiset(Requests(w.client.pending)) + multiset(w.trace.confirmed) + multiset(w.trace.discarded)
  }

  predicate Sound(w: World) {
    Fifo(w) && Conserved(w) && FlagsFollowReplay(w.client) && DistinctIds(w.trace.accepted)
  }

  lemma {:induction false} NoneSentIsAllUnsent(p: seq<Pending>)
    requires NoneSent(p)
    ensures Unsent(p) == Requests(p)
  {
    if p != [] {
      NoneSentIsAllUnsent(p[1..]);
    }
  }

  lemma {:induction false} DistinctSnoc(s: seq<Request>, r: Request)
    requires DistinctIds(s) && !HasId(s, r.id)
    ensures DistinctIds(s + [r])
  {
  }

  lemma {:induction false} DistinctAcross(a: seq<Request>, b: seq<Request>, i: nat, j: nat)
    requires DistinctIds(a + b) && i < |a| && j < |b|
    ensures a[i].id != b[j].id
  {
    assert (a + b)[i] == a[i] && (a + b)[|a| + j] == b[j];
  }

  lemma {:induction false} QueueGrows(p: seq<Pending>, r: Request, sent: bool)
    ensures Requests(p + [Pending(r, sent)]) == Requests(p) + [r]
    ensures Unsent(p + [Pending(r, sent)]) == Unsent(p) + (if sent then [] else [r])
  {
    UnsentAppend(p, [Pending(r, sent)]);
    RequestsAppend(p, [Pending(r, sent)]);
    assert [Pending(r, sent)][1..] == [];
  }

  lemma {:induction false} SubmitFifo(w: World, r: Request)
    requires Fifo(w) && FlagsFollowReplay(w.client) && w.client.link == Up
    ensures Fifo(DoSubmit(w, r))
  {
    var p, sent := w.client.pending, w.client.historyComplete;
    QueueGrows(p, r, sent);
    if sent {
      AllSentMeansNoneUnsent(p);
    } else {
      assert w.trace.encoded + (Unsent(p) + [r]) == w.trace.accepted + [r];
    }
  }

  lemma {:induction false} SubmitSound(w: World, r: Request)
    requires Sound(w) && w.client.link == Up && !HasId(w.trace.accepted, r.id)
    ensures Sound(DoSubmit(w, r))
  {
    SubmitFifo(w, r);
    SubmitConserved(w, r);
    DistinctSnoc(w.trace.accepted, r);
    var p := w.client.pending;
    assert AllSent(p) ==> AllSent(p + [Pending(r, true)]);
    assert NoneSent(p) ==> NoneSent(p + [Pending(r, false)]);
  }

  lemma {:induction false} SubmitConserved(w: World, r: Request)
    requires Conserved(w)
    ensures Conserved(DoSubmit(w, r))
  {
    QueueGrows(w.client.pending, r, w.client.historyComplete);
  }

  /** The echoed id belongs to a written request, so the pending one it removes is that one, not an unsent one. */
  lemma {:induction false} EchoFindsSent(w: World, id: string)
    requires Fifo(w) && DistinctIds(w.trace.accepted) && HasId(w.trace.encoded, id)
    ensures var k := FirstMatch(w.client.pending, id); k < |w.client.pending| ==> w.client.pending[k].sent
  {
    var p, e := w.client.pending, w.trace.encoded;
    var k := FirstMatch(p, id);
    if k < |p| && !p[k].sent {
      RemovalKeepsUnsentIff(p, id);
      var i :| 0 <= i < |e| && e[i].id == id;
      var j :| 0 <= j < |Unsent(p)| && Unsent(p)[j] == p[k].request;
      DistinctAcross(e, Unsent(p), i, j);
    }
  }

  lemma {:induction false} RemovalKeepsFlags(p: seq<Pending>, id: string)
    ensures AllSent(p) ==> AllSent(RemoveFirst(p, id))
    ensures NoneSent(p) ==> NoneSent(RemoveFirst(p, id))
  {
  }

  lemma {:induction false} ConfirmSound(w: World, id: string)
    requires Sound(w) && (id != "" ==> HasId(w.trace.encoded, id))
    ensures Sound(Confirm(w, id))
  {
    if id != "" {
      EchoFindsSent(w, id);
      RemovalKeepsUnsentIff(w.client.pending, id);
      RemovalKeepsOthers(w.client.pending, id);
      RemovalKeepsFlags(w.client.pending, id);
      assert multiset(w.trace.confirmed + Removed(w.client.pending, id))
          == multiset(w.trace.confirmed) + multiset(Removed(w.client.pending, id));
    }
  }

  lemma {:induction false} EndReplaySound(w: World, ackOk: bool)
    requires Sound(w) && w.client.link == Up
    ensures Sound(EndReplay(w, ackOk))
  {
    var f := Flush(w.client.pending, w.client.writesLeft);
    FlushLaw(w.client.pending, w.client.writesLeft);
    assert w.trace.encoded + (f.written + Unsent(f.pending)) == (w.trace.encoded + f.written) + Unsent(f.pending);
  }

  lemma {:induction false} ReceiveSound(w: World, e: Event, ackOk: bool, sinkOk: bool)
    requires Sound(w) && w.client.link == Up && (e.requestId != "" ==> HasId(w.trace.encoded, e.requestId))
    ensures Sound(DoReceive(w, e, ackOk, sinkOk))
  {
    ConfirmSound(w, e.requestId);
    var w1 := Confirm(w, e.requestId);
    var w2 := if StartsReplay(e) then World(BeginReplay(w1.client, e), w1.trace) else w1;
    assert Sound(w2);
    if EndsReplay(e) {
      EndReplaySound(w2, ackOk);
    }
  }

  lemma {:induction false} TeardownSound(w: World)
    requires Sound(w)
    ensures Sound(DoTeardown(w))
  {
    DiscardKeepsUnsent(w.client.pending);
    SentOrUnsent(w.client.pending);
  }

  lemma {:induction false} StepSound(w: World, i: Input)
    requires Sound(w) && Enabled(w, i) && FreshAndEchoed(w, i)
    ensures Sound(Step(w, i))
  {
    match i {
      case Connect(_, _, _, _) =>
      case Submit(r, freshId) =>
        if IsQueued(r) {
          SubmitSound(w, WithId(r, freshId));
        }
      case Receive(e, ackOk, sinkOk) => ReceiveSound(w, e, ackOk, sinkOk);
      case Lost =>
      case Teardown => TeardownSound(w);
      case Exit =>
    }
  }

  lemma {:induction false} RunSound(w: World, inputs: seq<Input>)
    requires Sound(w) && Possible(w, inputs) && Along(w, inputs, FreshAndEchoed)
    ensures Sound(RunAll(w, inputs))
    decreases |inputs|
  {
    if inputs != [] {
      StepSound(w, inputs[0]);
      RunSound(Step(w, inputs[0]), inputs[1..]);
    }
  }

  /**
   At most once, first in first out.  Over any run the accepted requests are
   those ever handed to an encoder, across all streams and in order, followed by
   the pending ones not yet sent; so none is written twice or out of order.
   */
  lemma {:induction false} AtMostOnceInOrder(inputs: seq<Input>)
    requires Possible(INITIAL, inputs) && Along(INITIAL, inputs, FreshAndEchoed)
    ensures var w := RunAll(INITIAL, inputs);
      && w.trace.accepted == w.trace.encoded + Unsent(w.client.pending)
      && DistinctIds(w.trace.encoded)
      && FlagsFollowReplay(w.client)
  {
    RunSound(INITIAL, inputs);
    var w := RunAll(INITIAL, inputs);
    assert forall i :: 0 <= i < |w.trace.encoded| ==> w.trace.accepted[i] == w.trace.encoded[i];
  }

  lemma {:induction false} DistinctCountsOne(s: seq<Request>, k: nat)
    requires DistinctIds(s) && k < |s|
    ensures multiset(s)[s[k]] == 1
  {
    assert s == s[..k] + [s[k]] + s[k + 1..];
    CutOut(s[..k], s[k], s[k + 1..]);
    assert s[k] !in s[..k] && s[k] !in s[k + 1..];
  }

  /**
   No silent loss.  At every point of a run each accepted request is in exactly
   one place: waiting to be sent, sent on the current stream, confirmed by an
   event carrying its id, or reported as discarded.
   */
  lemma {:induction false} NoSilentLoss(inputs: seq<Input>, r: Request)
    requires Possible(INITIAL, inputs) && Along(INITIAL, inputs, FreshAndEchoed)
    requires r in RunAll(INITIAL, inputs).trace.accepted
    ensures var w := RunAll(INITIAL, inputs); var p := w.client.pending;
      && multiset(Unsent(p))[r] + multiset(Sent(p))[r]
         + multiset(w.trace.confirmed)[r] + multiset(w.trace.discarded)[r] == 1
      && (w.client.link == Down ==> Sent(p) == [])
  {
    RunSound(INITIAL, inputs);
    var w := RunAll(INITIAL, inputs);
    var k :| 0 <= k < |w.trace.accepted| && w.trace.accepted[k] == r;
    DistinctCountsOne(w.trace.accepted, k);
    SentOrUnsent(w.client.pending);
    if w.client.link == Down {
      NoneSentMeansNoSent(w.client.pending);
    }
  }

  lemma {:induction false} NoneSentMeansNoSent(p: seq<Pending>)
    requires NoneSent(p)
    ensures Sent(p) == []
  {
    if p != [] {
      NoneSentMeansNoSent(p[1..]);
    }
  }

  // ---------------------------------------------------------------- the resume cursor

  predicate Increasing(s: seq<int>) {
    forall i, j :: 0 <= i < j < |s| ==> s[i] < s[j]
  }

  predicate CursorCovers(w: World) {
    && Increasing(w.trace.ids)
    && (forall i :: 0 <= i < |w.trace.ids| ==> 0 < w.trace.ids[i] <= w.client.lastEventID)
    && (w.client.link == Up ==> forall i :: 0 <= i < |w.trace.ids| ==> w.trace.ids[i] <= w.trace.floor)
  }

  /** Only a journal reset moves the cursor back, and then to zero. */
  lemma {:induction false} CursorStep(w: World, i: Input)
    ensures Step(w, i).client.lastEventID >= w.client.lastEventID || (i.Receive? && ResetsJournal(i.event))
    ensures i.Receive? ==> Step(w, i).client.lastEventID >= i.event.id
  {
    if i.Receive? {
      ReceiveCursor(w, i.event, i.ackOk, i.sinkOk);
    }
  }

  predicate NoReset(inputs: seq<Input>) {
    forall k :: 0 <= k < |inputs| ==> !(inputs[k].Receive? && ResetsJournal(inputs[k].event))
  }

  /**
   Over any run without a journal reset, whatever streams it goes through, the cursor
   never decreases and covers every event received, those inside history pages included.
   */
  lemma {:induction false} CursorOverRun(w: World, inputs: seq<Input>, k: nat)
    requires NoReset(inputs)
    ensures RunAll(w, inputs).client.lastEventID >= w.client.lastEventID
    ensures k < |inputs| && inputs[k].Receive? ==> RunAll(w, inputs).client.lastEventID >= inputs[k].event.id
    decreases |inputs|
  {
    if inputs != [] {
      var v := Step(w, inputs[0]);
      CursorStep(w, inputs[0]);
      CursorOverRun(v, inputs[1..], if k > 0 then k - 1 else 0);
      if 0 < k < |inputs| {
        assert inputs[1..][k - 1] == inputs[k];
      }
    }
  }

  /** What one event does to the cursor and to the observer's notes. */
  lemma {:induction false} ReceiveCursor(w: World, e: Event, ackOk: bool, sinkOk: bool)
    ensures var t := DoReceive(w, e, ackOk, sinkOk);
      var inside := if e.page then e.kind == HistoryStart || w.trace.inPage else w.trace.inPage;
      var ids, floor := if ResetsJournal(e) then [] else w.trace.ids, if ResetsJournal(e) then 0 else w.trace.floor;
      && t.client.lastEventID >= e.id
      && (!ResetsJournal(e) ==> t.client.lastEventID >= w.client.lastEventID)
      && t.trace.ids == (if e.id > 0 && !inside && sinkOk then ids + [e.id] else ids)
      && t.trace.floor == (if e.id > 0 && !inside then e.id else floor)
      && (t.client.link == Up ==> sinkOk)
  {
    var w1 := Confirm(w, e.requestId);
    var w2 := if StartsReplay(e) then World(BeginReplay(w1.client, e), w1.trace) else w1;
    var w3 := if EndsReplay(e) then EndReplay(w2, ackOk) else w2;
    assert w1.trace.ids == w2.trace.ids == w3.trace.ids == w.trace.ids;
    assert w3.trace.floor == w.trace.floor && w3.trace.inPage == w.trace.inPage;
    assert w3.client.lastEventID >= w2.client.lastEventID;
  }

  lemma {:induction false} CoversNext(ids: seq<int>, floor: int, id: int)
    requires Increasing(ids) && 0 < id && floor < id
    requires forall i :: 0 <= i < |ids| ==> ids[i] <= floor
    ensures Increasing(ids + [id])
    ensures forall i :: 0 <= i < |ids + [id]| ==> (ids + [id])[i] <= id
  {
  }

  lemma {:induction false} ReceiveCovers(w: World, e: Event, ackOk: bool, sinkOk: bool)
    requires CursorCovers(w) && w.client.link == Up && IdsIncrease(w, Receive(e, ackOk, sinkOk))
    ensures CursorCovers(DoReceive(w, e, ackOk, sinkOk))
  {
    ReceiveCursor(w, e, ackOk, sinkOk);
    var inside := if e.page then e.kind == HistoryStart || w.trace.inPage else w.trace.inPage;
    var ids, floor := if ResetsJournal(e) then [] else w.trace.ids, if ResetsJournal(e) then 0 else w.trace.floor;
    if e.id > 0 && !inside {
      CoversNext(ids, floor, e.id);
    }
  }

  lemma {:induction false} CursorCoversStep(w: World, i: Input)
    requires CursorCovers(w) && Enabled(w, i) && IdsIncrease(w, i)
    ensures CursorCovers(Step(w, i))
  {
    match i {
      case Receive(e, ackOk, sinkOk) => ReceiveCovers(w, e, ackOk, sinkOk);
      case _ =>
    }
  }

  /**
   The resume cursor.  If each stream sends increasing ids above the cursor it
   was subscribed with, then over any run the ids forwarded outside history
   pages since the last journal reset are strictly increasing, and the cursor of
   the next subscription is at least every one of them.
   */
  lemma {:induction false} CursorCoversRun(w: World, inputs: seq<Input>)
    requires CursorCovers(w) && Possible(w, inputs) && Along(w, inputs, IdsIncrease)
    ensures CursorCovers(RunAll(w, inputs))
    decreases |inputs|
  {
    if inputs != [] {
      CursorCoversStep(w, inputs[0]);
      CursorCoversRun(Step(w, inputs[0]), inputs[1..]);
    }
  }

  lemma {:induction false} ForwardedIdsIncrease(inputs: seq<Input>)
    requires Possible(INITIAL, inputs) && Along(INITIAL, inputs, IdsIncrease)
    ensures var w := RunAll(INITIAL, inputs);
      Increasing(w.trace.ids) && forall i :: 0 <= i < |w.trace.ids| ==> w.trace.ids[i] <= w.client.lastEventID
  {
    CursorCoversRun(INITIAL, inputs);
  }

  // ---------------------------------------------------------------- idle suspension

  lemma {:induction false} ResumeStep(w: World, i: Input)
    requires w.trace.replayed ==> w.client.connectedBefore
    ensures Step(w, i).trace.replayed ==> Step(w, i).client.connectedBefore
    ensures w.trace.replayed ==> Step(w, i).trace.replayed
    ensures w.trace.resumes <= Step(w, i).trace.resumes <= w.trace.resumes + 1
    ensures w.trace.replayed ==> Step(w, i).trace.resumes == w.trace.resumes
    ensures Step(w, i).trace.resumes > w.trace.resumes ==> i.Connect?
  {
    if i.Connect? {
      SessionWait.WaitGuarantees(i.observations, w.client.connectedBefore, false);
    }
  }

  lemma {:induction false} ResumeRun(w: World, inputs: seq<Input>)
    requires w.trace.replayed ==> w.client.connectedBefore
    ensures var t := RunAll(w, inputs);
      && (t.trace.replayed ==> t.client.connectedBefore)
      && (w.trace.replayed ==> t.trace.resumes == w.trace.resumes)
    decreases |inputs|
  {
    if inputs != [] {
      ResumeStep(w, inputs[0]);
      ResumeRun(Step(w, inputs[0]), inputs[1..]);
    }
  }

  lemma {:induction false} RunsCompose(w: World, a: seq<Input>, b: seq<Input>)
    ensures RunAll(w, a + b) == RunAll(RunAll(w, a), b)
    decreases |a|
  {
    if a == [] {
      assert a + b == b;
    } else {
      assert (a + b)[1..] == a[1..] + b;
      RunsCompose(Step(w, a[0]), a[1..], b);
    }
  }

  /** A reconnect never wakes an idle-suspended Session: after a completed replay no later step asks for a resume. */
  lemma {:induction false} NeverWakesAfterReplay(before: seq<Input>, after: seq<Input>)
    requires RunAll(INITIAL, before).trace.replayed
    ensures RunAll(INITIAL, before + after).trace.resumes == RunAll(INITIAL, before).trace.resumes
  {
    RunsCompose(INITIAL, before, after);
    ResumeRun(INITIAL, before);
    ResumeRun(RunAll(INITIAL, before), after);
  }

  /** A stream is only opened on a Session that is ready, has a Pod, and is not idle-suspended. */
  lemma {:induction false} StreamsOnlyToReady(w: World, i: Input)
    requires w.client.link == Down && i.Connect? && Step(w, i).client.link == Up
    ensures var o := SessionWait.Run(i.observations, w.client.connectedBefore, false).outcome;
      && o.Returned? && o.session.phase == SessionWait.Ready && o.session.podName != ""
      && !SessionWait.IsIdlePolicySuspended(o.session)
  {
    SessionWait.WaitGuarantees(i.observations, w.client.connectedBefore, false);
  }
}
