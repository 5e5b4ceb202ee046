/**
 The streams of a Session client over a run: when a stream is up, broken or taken down, when
 the function returns, and when a resume is requested, acknowledged or announced, in terms
 of the inputs and of how much was written.
 */
module SessionStreams {
  import opened SessionProtocol
  import opened SessionOutcomes
  import opened SessionHistory
  import SessionWait

  // ---------------------------------------------------------------- the current stream

  ghost predicate Opens(h: seq<Input>, i: Input) {
    Finds(h, i) && i.openOk && i.subscribeOk
  }

  /** The number of inputs up to the one that opened the last stream; 0 when none has been opened. */
  ghost function Opened(h: seq<Input>): (n: nat)
    ensures n <= |h|
    ensures n > 0 ==> Opens(h[..n - 1], h[n - 1])
  {
    if h == [] then 0
    else if Opens(h[..|h| - 1], h[|h| - 1]) then |h|
    else
      var n := Opened(h[..|h| - 1]);
      assert n > 0 ==> h[..|h| - 1][..n - 1] == h[..n - 1];
      n
  }

  /** Input k ends the first replay on the last stream. */
  ghost predicate EndsFirst(h: seq<Input>, k: int) {
    && 0 < Opened(h) <= k < |h| && ReplayEnd(h[k])
    && forall j :: Opened(h) <= j < k ==> !ReplayEnd(h[j])
  }

  ghost predicate Completed(h: seq<Input>) {
    exists k :: EndsFirst(h, k)
  }

  /** The Session object of the last stream carries a resume request to acknowledge. */
  ghost predicate ResumeOwed(h: seq<Input>) {
    && Opened(h) > 0
    && exists s :: Returns(h[Opened(h) - 1].observations, Replayed(h[..Opened(h) - 1]), s) && s.resumeRequested
  }

  ghost predicate AckRefused(h: seq<Input>) {
    ResumeOwed(h) && exists k :: EndsFirst(h, k) && !h[k].ackOk
  }

  ghost predicate OnStream(h: seq<Input>, i: Input) {
    exists k :: 0 < Opened(h) <= k < |h| && h[k] == i
  }

  /** Requests handed to the encoder of the last stream, and the number of writes it takes. */
  ghost function Written(h: seq<Input>): int {
    |RunAll(INITIAL, h).trace.encoded| - |RunAll(INITIAL, h[..Opened(h)]).trace.encoded|
  }

  ghost function Room(h: seq<Input>): nat {
    if Opened(h) == 0 then 0 else h[Opened(h) - 1].writes
  }

  /** What makes the function return: the terminal, a sink that fails, or a wait without a Session. */
  ghost predicate Leaves(h: seq<Input>, k: nat)
    requires k < |h|
  {
    h[k].Exit? || (h[k].Receive? && !h[k].sinkOk) || (h[k].Connect? && !Finds(h[..k], h[k]))
  }

  ghost predicate Left(h: seq<Input>) {
    exists k :: 0 <= k < |h| && Leaves(h, k)
  }

  ghost predicate BrokenOff(h: seq<Input>) {
    OnStream(h, Lost) || Written(h) > Room(h) || AckRefused(h)
  }

  /** The link, and what the client keeps about the last stream. */
  ghost predicate StreamIs(w: World, h: seq<Input>) {
    var c := w.client;
    && c.connectedBefore == Replayed(h)
    && (c.link == Exited <==> Left(h))
    && (c.link == Down <==> !Left(h) && (Opened(h) == 0 || OnStream(h, Teardown)))
    && (c.link == Broken <==> !Left(h) && Opened(h) > 0 && !OnStream(h, Teardown) && BrokenOff(h))
    && (c.historyComplete <==> Completed(h))
    && (c.link == Up ==>
          && c.writesLeft == Room(h) - Written(h)
          && c.resumePending == (ResumeOwed(h) && !Completed(h))
          && c.announceReconnect == (Replayed(h) && !Completed(h)))
  }

  lemma {:induction false} OpenedSnoc(h: seq<Input>, i: Input)
    ensures Opened(h + [i]) == if Opens(h, i) then |h| + 1 else Opened(h)
  {
    assert (h + [i])[..|h|] == h;
  }

  /** An input that opens no stream adds itself to the last one. */
  lemma {:induction false} SameStream(h: seq<Input>, i: Input)
    requires !Opens(h, i)
    ensures var all := h + [i];
      && Opened(all) == Opened(h) && all[..Opened(h)] == h[..Opened(h)] && Room(all) == Room(h)
      && (ResumeOwed(all) <==> ResumeOwed(h))
      && (forall j :: OnStream(all, j) <==> OnStream(h, j) || (Opened(h) > 0 && j == i))
  {
    var all := h + [i];
    OpenedSnoc(h, i);
    assert all[..Opened(h)] == h[..Opened(h)];
    if Opened(h) > 0 {
      assert all[Opened(h) - 1] == h[Opened(h) - 1] && all[..Opened(h) - 1] == h[..Opened(h) - 1];
      assert all[|h|] == i;
    }
    forall j
      ensures OnStream(all, j) <==> OnStream(h, j) || (Opened(h) > 0 && j == i)
    {
      if OnStream(h, j) {
        var k :| 0 < Opened(h) <= k < |h| && h[k] == j;
        assert all[k] == j;
      }
    }
  }

  lemma {:induction false} EndsFirstSnoc(h: seq<Input>, i: Input)
    requires !Opens(h, i)
    ensures forall k :: EndsFirst(h, k) ==> EndsFirst(h + [i], k) && (h + [i])[k] == h[k]
    ensures Completed(h) ==> forall k :: EndsFirst(h + [i], k) ==> EndsFirst(h, k)
    ensures !Completed(h) ==> forall k :: EndsFirst(h + [i], k) <==> k == |h| && Opened(h) > 0 && ReplayEnd(i)
  {
    var all := h + [i];
    SameStream(h, i);
    assert all[|h|] == i && forall k :: 0 <= k < |h| ==> all[k] == h[k];
    if !Completed(h) && Opened(h) > 0 {
      NoReplayEnd(h, |h|);
    }
  }

  /** When no replay end is the first on the stream there is none. */
  lemma {:induction false} NoReplayEnd(h: seq<Input>, n: nat)
    requires !Completed(h) && 0 < Opened(h) <= n <= |h|
    ensures forall k :: Opened(h) <= k < n ==> !ReplayEnd(h[k])
  {
    if Opened(h) < n {
      NoReplayEnd(h, n - 1);
      assert !EndsFirst(h, n - 1);
    }
  }

  lemma {:induction false} CompletedSnoc(h: seq<Input>, i: Input)
    requires !Opens(h, i)
    ensures Completed(h + [i]) <==> Completed(h) || (Opened(h) > 0 && ReplayEnd(i))
  {
    EndsFirstSnoc(h, i);
    if Completed(h) {
      var k :| EndsFirst(h, k);
      assert EndsFirst(h + [i], k);
    } else if Opened(h) > 0 && ReplayEnd(i) {
      assert EndsFirst(h + [i], |h|);
    }
  }

  lemma {:induction false} RefusedSnoc(h: seq<Input>, i: Input)
    requires !Opens(h, i)
    ensures AckRefused(h + [i]) <==>
      AckRefused(h) || (ResumeOwed(h) && !Completed(h) && Opened(h) > 0 && ReplayEnd(i) && !i.ackOk)
  {
    var all := h + [i];
    SameStream(h, i);
    EndsFirstSnoc(h, i);
    assert all[|h|] == i;
    if AckRefused(h) {
      var k :| EndsFirst(h, k) && !h[k].ackOk;
      assert EndsFirst(all, k) && all[k] == h[k];
    } else if !Completed(h) && Opened(h) > 0 && ReplayEnd(i) {
      assert EndsFirst(all, |h|);
    }
  }

  lemma {:induction false} LeftSnoc(h: seq<Input>, i: Input)
    ensures Left(h + [i]) <==> Left(h) || i.Exit? || (i.Receive? && !i.sinkOk) || (i.Connect? && !Finds(h, i))
  {
    var all := h + [i];
    assert all[|h|] == i && all[..|h|] == h;
    assert Leaves(all, |h|) <==> i.Exit? || (i.Receive? && !i.sinkOk) || (i.Connect? && !Finds(h, i));
    forall k | 0 <= k < |h|
      ensures Leaves(all, k) <==> Leaves(h, k)
    {
      assert all[k] == h[k] && all[..k] == h[..k];
    }
  }

  lemma {:induction false} WrittenSnoc(h: seq<Input>, i: Input)
    requires !Opens(h, i)
    ensures Written(h + [i]) ==
      Written(h) + |Step(RunAll(INITIAL, h), i).trace.encoded| - |RunAll(INITIAL, h).trace.encoded|
  {
    SameStream(h, i);
    RunSnoc(INITIAL, h, i);
  }

  lemma {:induction false} ReplayEndOnStream(w: World, ackOk: bool)
    ensures var c, v := w.client, EndReplay(w, ackOk);
      var wrote := |v.trace.encoded| - |w.trace.encoded|;
      && v.client.historyComplete && !v.client.announceReconnect && 0 <= wrote <= c.writesLeft + 1
      && v.client.writesLeft == (if wrote <= c.writesLeft then c.writesLeft - wrote else 0)
      && v.client.link == (if wrote > c.writesLeft || (c.resumePending && !ackOk) then Broken else c.link)
      && v.trace.acks == w.trace.acks + (if wrote <= c.writesLeft && c.resumePending then 1 else 0)
      && (wrote <= c.writesLeft && ackOk ==> !v.client.resumePending)
  {
    FlushLaw(w.client.pending, w.client.writesLeft);
  }

  /** What one event does to the stream it came on. */
  lemma {:induction false} ReceiveOnStream(w: World, e: Event, ackOk: bool, sinkOk: bool)
    requires w.client.link == Up
    ensures var c, v := w.client, DoReceive(w, e, ackOk, sinkOk);
      var wrote := |v.trace.encoded| - |w.trace.encoded|;
      && v.client.historyComplete == (c.historyComplete || EndsReplay(e))
      && v.client.announceReconnect == (c.announceReconnect && !EndsReplay(e))
      && 0 <= wrote <= c.writesLeft + 1 && (!EndsReplay(e) ==> wrote == 0)
      && v.client.writesLeft == (if wrote <= c.writesLeft then c.writesLeft - wrote else 0)
      && (v.client.link == Exited <==> !sinkOk)
      && (v.client.link == Broken <==>
            sinkOk && (wrote > c.writesLeft || (EndsReplay(e) && c.resumePending && !ackOk)))
      && v.client.link != Down
      && (v.client.link == Up ==> v.client.resumePending == (c.resumePending && !EndsReplay(e)))
      && v.trace.acks == w.trace.acks + (if EndsReplay(e) && wrote <= c.writesLeft && c.resumePending then 1 else 0)
      && v.trace.reconnects == w.trace.reconnects + (if EndsReplay(e) && c.announceReconnect then 1 else 0)
      && v.trace.resumes == w.trace.resumes
  {
    var w1 := Confirm(w, e.requestId);
    var w2 := if StartsReplay(e) then World(BeginReplay(w1.client, e), w1.trace) else w1;
    if EndsReplay(e) {
      ReplayEndOnStream(w2, ackOk);
    }
  }

  lemma {:induction false} ReceiveStreamIs(w: World, h: seq<Input>, i: Input)
    requires w == RunAll(INITIAL, h) && StreamIs(w, h) && Enabled(w, i) && i.Receive?
    ensures StreamIs(Step(w, i), h + [i])
  {
    ReceiveOnStream(w, i.event, i.ackOk, i.sinkOk);
    ReplayedSnoc(h, i);
    SameStream(h, i);
    CompletedSnoc(h, i);
    RefusedSnoc(h, i);
    LeftSnoc(h, i);
    WrittenSnoc(h, i);
  }

  lemma {:induction false} SubmitStreamIs(w: World, h: seq<Input>, i: Input)
    requires w == RunAll(INITIAL, h) && StreamIs(w, h) && Enabled(w, i) && i.Submit?
    ensures StreamIs(Step(w, i), h + [i])
  {
    ReplayedSnoc(h, i);
    SameStream(h, i);
    CompletedSnoc(h, i);
    RefusedSnoc(h, i);
    LeftSnoc(h, i);
    WrittenSnoc(h, i);
  }

  lemma {:induction false} EndStreamIs(w: World, h: seq<Input>, i: Input)
    requires w == RunAll(INITIAL, h) && StreamIs(w, h) && Enabled(w, i) && (i.Lost? || i.Teardown? || i.Exit?)
    ensures StreamIs(Step(w, i), h + [i])
  {
    ReplayedSnoc(h, i);
    SameStream(h, i);
    CompletedSnoc(h, i);
    RefusedSnoc(h, i);
    LeftSnoc(h, i);
    WrittenSnoc(h, i);
  }

  lemma {:induction false} NewStream(h: seq<Input>, i: Input)
    requires Opens(h, i)
    ensures var all := h + [i];
      && Opened(all) == |all| && all[..Opened(all)] == all && all[..Opened(all) - 1] == h && Room(all) == i.writes
      && !Completed(all) && !AckRefused(all) && (forall j :: !OnStream(all, j)) && Written(all) == 0
  {
    OpenedSnoc(h, i);
    assert (h + [i])[..|h| + 1] == h + [i] && (h + [i])[..|h|] == h && (h + [i])[|h|] == i;
  }

  lemma {:induction false} ConnectStreamIs(w: World, h: seq<Input>, i: Input)
    requires w == RunAll(INITIAL, h) && StreamIs(w, h) && Enabled(w, i) && i.Connect?
    ensures StreamIs(Step(w, i), h + [i])
  {
    ReplayedSnoc(h, i);
    LeftSnoc(h, i);
    FindsIff(w, h, i);
    if Opens(h, i) {
      NewStream(h, i);
    } else {
      SameStream(h, i);
      CompletedSnoc(h, i);
      RefusedSnoc(h, i);
      WrittenSnoc(h, i);
    }
  }

  /**
   Over every run: a stream is up from its opening until it is lost, its encoder has been
   handed more requests than it takes, or the resume it owes is not acknowledged when its
   first replay ends; then it is broken until it is taken down; and the function has
   returned exactly when the terminal left, the sink failed, or a wait found no Session.
   */
  lemma {:induction false} StreamIsOverRun(h: seq<Input>)
    requires Possible(INITIAL, h)
    ensures StreamIs(RunAll(INITIAL, h), h)
    decreases |h|
  {
    if h != [] {
      RunLast(h);
      var before, i := h[..|h| - 1], h[|h| - 1];
      var w := RunAll(INITIAL, before);
      StreamIsOverRun(before);
      match i
      case Connect(_, _, _, _) => ConnectStreamIs(w, before, i);
      case Submit(_, _) => SubmitStreamIs(w, before, i);
      case Receive(_, _, _) => ReceiveStreamIs(w, before, i);
      case _ => EndStreamIs(w, before, i);
    }
  }

  // ---------------------------------------------------------------- what is asked and announced

  /** The waits that ask for a resume. */
  function ResumesOf(h: seq<Input>): nat {
    if h == [] then 0
    else
      var before, i := h[..|h| - 1], h[|h| - 1];
      ResumesOf(before) + if i.Connect? && Asks(i.observations, Replayed(before)) then 1 else 0
  }

  /** The first replay end of a stream that owes an acknowledgement, if all that was to be written is written. */
  ghost function AcksOf(h: seq<Input>): nat {
    if h == [] then 0
    else
      var before, i := h[..|h| - 1], h[|h| - 1];
      AcksOf(before) +
      if ReplayEnd(i) && ResumeOwed(before) && !Completed(before) && Written(h) <= Room(before) then 1 else 0
  }

  /** The first replay end of each stream after the first of all. */
  ghost function ReconnectsOf(h: seq<Input>): nat {
    if h == [] then 0
    else
      var before, i := h[..|h| - 1], h[|h| - 1];
      ReconnectsOf(before) + if ReplayEnd(i) && Replayed(before) && !Completed(before) then 1 else 0
  }

  lemma {:induction false} AsksStep(w: World, h: seq<Input>, i: Input)
    requires w == RunAll(INITIAL, h) && StreamIs(w, h) && Enabled(w, i)
    ensures var t, u := w.trace, Step(w, i).trace;
      && u.resumes == t.resumes + (if i.Connect? && Asks(i.observations, Replayed(h)) then 1 else 0)
      && u.reconnects == t.reconnects + (if ReplayEnd(i) && Replayed(h) && !Completed(h) then 1 else 0)
      && u.acks == t.acks +
           if ReplayEnd(i) && ResumeOwed(h) && !Completed(h) && Written(h + [i]) <= Room(h) then 1 else 0
  {
    if i.Connect? {
      ResumesIff(i.observations, Replayed(h));
    }
    if i.Receive? {
      WrittenSnoc(h, i);
      ReceiveOnStream(w, i.event, i.ackOk, i.sinkOk);
    }
  }

  lemma {:induction false} AskedOverRun(h: seq<Input>)
    requires Possible(INITIAL, h)
    ensures var t := RunAll(INITIAL, h).trace;
      t.resumes == ResumesOf(h) && t.acks == AcksOf(h) && t.reconnects == ReconnectsOf(h)
    decreases |h|
  {
    if h != [] {
      RunLast(h);
      var before, i := h[..|h| - 1], h[|h| - 1];
      AskedOverRun(before);
      StreamIsOverRun(before);
      AsksStep(RunAll(INITIAL, before), before, i);
    }
  }
}
