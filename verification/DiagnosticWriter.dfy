/**
 The terminal diagnostic writer of internal/cli/session.go: it reassembles the
 arbitrary chunks the exec stream hands it into lines and sends each non-empty
 line as one diagnostic event.
 */
module DiagnosticWriter {
  import opened Lines

  datatype Diagnostic = Diagnostic(text: string, status: string)

  function ToSend(text: string): seq<Diagnostic> {
    if text == "" then [] else [Diagnostic(text, "")]
  }

  /** What a sequence of lines should produce: each line less one carriage return, unless that leaves nothing. */
  function Emitted(lines: seq<string>): seq<Diagnostic> {
    if lines == [] then []
    else
      ToSend(TrimCR(lines[0])) + Emitted(lines[1..])
  }

  function Take<T>(s: seq<T>, n: nat): seq<T> {
    if n < |s| then s[..n] else s
  }

  function Concat(chunks: seq<string>): string {
    if chunks == [] then "" else chunks[0] + Concat(chunks[1..])
  }

  lemma {:induction false} EmittedAppend(a: seq<string>, b: seq<string>)
    ensures Emitted(a + b) == Emitted(a) + Emitted(b)
  {
    if a == [] {
      assert a + b == b;
    } else {
      assert (a + b)[1..] == a[1..] + b;
      EmittedAppend(a[1..], b);
      Joins(ToSend(TrimCR(a[0])), Emitted(a[1..]), Emitted(b));
    }
  }

  lemma {:induction false} ConcatSnoc(chunks: seq<string>, i: nat)
    requires i < |chunks|
    ensures Concat(chunks[..i + 1]) == Concat(chunks[..i]) + chunks[i]
  {
    if i == 0 {
      assert chunks[..1] == [chunks[0]];
      assert [chunks[0]][1..] == [];
    } else {
      assert chunks[..i + 1][1..] == chunks[1..][..i];
      assert chunks[..i][1..] == chunks[1..][..i - 1];
      ConcatSnoc(chunks[1..], i - 1);
    }
  }

  /** The reading "non-empty lines, each less one carriage return" decides emptiness before trimming. */
  function EmptyDecidedFirst(lines: seq<string>): seq<Diagnostic> {
    if lines == [] then []
    else (if lines[0] == "" then [] else [Diagnostic(TrimCR(lines[0]), "")]) + EmptyDecidedFirst(lines[1..])
  }

  lemma {:induction false} TrimsToNothing(line: string)
    ensures TrimCR(line) == "" <==> line == "" || line == "\r"
  {
    if |line| > 0 && line[|line| - 1] == '\r' {
      assert line == line[..|line| - 1] + "\r";
    }
  }

  /** The two readings differ exactly on streams holding a line that is a lone carriage return: the writer drops it. */
  lemma {:induction false} LoneCarriageReturnDropped(lines: seq<string>)
    ensures |Emitted(lines)| <= |EmptyDecidedFirst(lines)|
    ensures Emitted(lines) == EmptyDecidedFirst(lines) <==> "\r" !in lines
    ensures "\r" in lines ==> |Emitted(lines)| < |EmptyDecidedFirst(lines)|
  {
    if lines != [] {
      LoneCarriageReturnDropped(lines[1..]);
      assert lines == [lines[0]] + lines[1..];
      if lines[0] == "\r" {
        assert TrimCR(lines[0]) == "";
      } else if lines[0] != "" {
        TrimsToNothing(lines[0]);
        var head := [Diagnostic(TrimCR(lines[0]), "")];
        assert (head + Emitted(lines[1..]))[1..] == Emitted(lines[1..]);
        assert (head + EmptyDecidedFirst(lines[1..]))[1..] == EmptyDecidedFirst(lines[1..]);
      }
    }
  }

  /** One more line is one more event, without a carriage return at its end; none for an empty line, nor for one that
      is a lone carriage return. */
  lemma {:induction false} OneMoreLine(lines: seq<string>, line: string)
    ensures Emitted(lines + [line]) == Emitted(lines) +
      if line == "" || line == "\r" then []
      else if line[|line| - 1] == '\r' then [Diagnostic(line[..|line| - 1], "")]
      else [Diagnostic(line, "")]
  {
    EmittedAppend(lines, [line]);
    EmittedCons(line, []);
    TrimsToNothing(line);
    assert [line] + [] == [line];
  }

  /** What one turn of the writer's loop takes off the pending text. */
  lemma {:induction false} NextLine(pending: string)
    requires '\n' in pending
    ensures var i := NewlineAt(pending);
      && Rest(pending) == Rest(pending[i + 1..])
      && Emitted(Terminated(pending)) ==
         ToSend(TrimCR(pending[..i])) + Emitted(Terminated(pending[i + 1..]))
  {
    var i := NewlineAt(pending);
    TakeLine(pending);
    EmittedCons(pending[..i], Terminated(pending[i + 1..]));
  }

  lemma {:induction false} EmittedCons(line: string, later: seq<string>)
    ensures Emitted([line] + later) == ToSend(TrimCR(line)) + Emitted(later)
  {
    assert ([line] + later)[1..] == later && ([line] + later)[0] == line;
  }

  /** The flush adds the unterminated line, if it is not empty. */
  lemma {:induction false} LastLine(s: string)
    ensures Emitted(AllLines(s)) == Emitted(Terminated(s)) + ToSend(TrimCR(Rest(s)))
  {
    EmittedAppend(Terminated(s), [Rest(s)]);
    EmittedCons(Rest(s), []);
    assert [Rest(s)] + [] == [Rest(s)];
  }

  lemma TakeMore<T>(all: seq<T>, more: seq<T>, n: nat)
    requires |more| <= 1
    ensures |all| > n ==> Take(all + more, n) == Take(all, n)
    ensures |all| <= n ==> Take(all + more, n) == all + Take(more, n - |all|)
  {
  }

  /** Between two turns of Write's loop: `all` is due for the stream so far, `left` for what of it is pending. */
  ghost predicate DrainedTo(
    all: seq<Diagnostic>, events: seq<Diagnostic>, room: nat, failed: bool, capacity: nat, left: seq<Diagnostic>)
  {
    && room == capacity - |events|
    && if failed then events == Take(all, capacity) && |all| > capacity else all == events + left
  }

  /** One event sent, refused, or not worth sending. */
  lemma {:induction false} DrainOne(
      all: seq<Diagnostic>, events: seq<Diagnostic>, room: nat, capacity: nat, text: string, left: seq<Diagnostic>)
    requires DrainedTo(all, events, room, false, capacity, ToSend(text) + left)
    ensures text == "" ==> DrainedTo(all, events, room, false, capacity, left)
    ensures text != "" && room > 0 ==> DrainedTo(all, events + ToSend(text), room - 1, false, capacity, left)
    ensures text != "" && room == 0 ==> DrainedTo(all, events, 0, true, capacity, left)
  {
    if text == "" {
      assert ToSend(text) + left == left;
    } else if room > 0 {
      Joins(events, ToSend(text), left);
    } else {
      DrainRefused(all, events, Diagnostic(text, ""), left);
    }
  }

  /** An event for which there is no room: what was delivered is the beginning of what was due. */
  lemma {:induction false} DrainRefused(
      all: seq<Diagnostic>, events: seq<Diagnostic>, next: Diagnostic, left: seq<Diagnostic>)
    requires all == events + ([next] + left)
    ensures |all| > |events| && Take(all, |events|) == events
  {
    assert all[..|events|] == events;
  }

  /** One turn of Write's loop, seen on the sink: what was due was sent, refused, or not worth sending. */
  lemma {:induction false} TurnDrains(
      all: seq<Diagnostic>, events: seq<Diagnostic>, room: nat, failed: bool, capacity: nat, pending: string)
    requires '\n' in pending
    requires DrainedTo(all, events, room, failed, capacity, Emitted(Terminated(pending)))
    ensures var i := NewlineAt(pending); var text, left := TrimCR(pending[..i]), Emitted(Terminated(pending[i + 1..]));
      if failed || text == "" then DrainedTo(all, events, room, failed, capacity, left)
      else if room > 0 then DrainedTo(all, events + ToSend(text), room - 1, false, capacity, left)
      else DrainedTo(all, events, 0, true, capacity, left)
  {
    NextLine(pending);
    if !failed {
      var i := NewlineAt(pending);
      DrainOne(all, events, room, capacity, TrimCR(pending[..i]), Emitted(Terminated(pending[i + 1..])));
    }
  }

  /** The event sink.  It takes `room` more deliveries; the first one beyond that fails, and so does every later one. */
  class EventSink {
    var events: seq<Diagnostic>
    var room: nat
    var failed: bool

    constructor (capacity: nat)
      ensures events == [] && room == capacity && !failed
    {
      events, room, failed := [], capacity, false;
    }

    method Send(event: Diagnostic) returns (ok: bool)
      modifies this
      ensures ok == (old(room) > 0)
      ensures ok ==> events == old(events) + [event] && room == old(room) - 1 && failed == old(failed)
      ensures !ok ==> events == old(events) && room == 0 && failed
    {
      ok := room > 0;
      if ok {
        events, room := events + [event], room - 1;
      } else {
        failed := true;
      }
    }
  }

  class Writer {
    var pending: string
    const sink: EventSink
    // Everything written since construction, and the sink's room at that time.
    ghost var received: string
    ghost const capacity: nat

    ghost predicate Valid()
      reads this, sink
    {
      && sink.room == capacity - |sink.events|
      && var due := Emitted(Terminated(received));
         if sink.failed then |due| > capacity && sink.events == Take(due, capacity)
         else sink.events == due && pending == Rest(received)
    }

    constructor (sink: EventSink)
      requires sink.events == [] && !sink.failed
      ensures Valid() && this.sink == sink && capacity == sink.room && received == ""
    {
      this.sink, pending, received, capacity := sink, "", "", sink.room;
    }

    method SendEvent(line: string, status: string) returns (ok: bool)
      modifies sink
      ensures line == "" && status == "" ==>
        ok && sink.events == old(sink.events) && sink.room == old(sink.room) && sink.failed == old(sink.failed)
      ensures line != "" || status != "" ==>
        && ok == (old(sink.room) > 0)
        && sink.events == old(sink.events) + (if ok then [Diagnostic(line, status)] else [])
        && sink.room == old(sink.room) - (if ok then 1 else 0)
        && sink.failed == (old(sink.failed) || !ok)
    {
      if line == "" && status == "" {
        return true;
      }
      ok := sink.Send(Diagnostic(line, status));
    }

    ghost predicate Draining(all: seq<Diagnostic>)
      reads this, sink
    {
      DrainedTo(all, sink.events, sink.room, sink.failed, capacity, Emitted(Terminated(pending)))
    }

    method Write(data: string) returns (ok: bool)
      requires Valid()
      modifies this, sink
      ensures Valid() && received == old(received) + data
      ensures !ok ==> sink.failed
    {
      SplitAppend(received, data);
      EmittedAppend(Terminated(received), Terminated(Rest(received) + data));
      received := received + data;
      pending := pending + data;
      ghost var all, rest := Emitted(Terminated(received)), Rest(received);
      ok := true;
      while ok && '\n' in pending
        invariant Draining(all)
        invariant !sink.failed ==> rest == Rest(pending)
        invariant received == old(received) + data
        invariant !ok ==> sink.failed
        decreases ok, |pending|
      {
        ok := SendNextLine(all);
      }
      if !sink.failed {
        assert Terminated(pending) == [];
        assert all == sink.events;
      }
    }

    // One turn of Write's loop.
    method SendNextLine(ghost all: seq<Diagnostic>) returns (ok: bool)
      requires Draining(all) && '\n' in pending
      modifies this`pending, sink
      ensures Draining(all) && |pending| < |old(pending)|
      ensures !sink.failed ==> ok && !old(sink.failed) && Rest(pending) == Rest(old(pending))
      ensures !ok ==> sink.failed
    {
      TakeLine(pending);
      TurnDrains(all, sink.events, sink.room, sink.failed, capacity, pending);
      var newline := NewlineAt(pending);
      var line := TrimCR(pending[..newline]);
      pending := pending[newline + 1..];
      ok := SendEvent(line, "");
    }

    method Flush() returns (ok: bool)
      requires Valid()
      modifies this, sink
      ensures pending == "" && received == old(received)
      ensures sink.events == Take(Emitted(AllLines(received)), capacity)
      ensures !ok ==> sink.failed
    {
      var line := TrimCR(pending);
      LastLine(received);
      TakeMore(Emitted(Terminated(received)), ToSend(TrimCR(Rest(received))), capacity);
      pending := "";
      ok := SendEvent(line, "");
    }
  }

  /**
   Chunk invariance: whatever the chunks, the events are the first `capacity`
   of the non-empty lines of the concatenated stream.
   */
  method Relay(chunks: seq<string>, capacity: nat) returns (events: seq<Diagnostic>)
    ensures events == Take(Emitted(AllLines(Concat(chunks))), capacity)
  {
    var sink := new EventSink(capacity);
    var writer := new Writer(sink);
    for i := 0 to |chunks|
      invariant writer.Valid() && writer.received == Concat(chunks[..i])
      invariant writer.sink == sink && writer.capacity == capacity
      invariant fresh(sink) && fresh(writer)
    {
      ConcatSnoc(chunks, i);
      var _ := writer.Write(chunks[i]);
    }
    assert chunks[..|chunks|] == chunks;
    var _ := writer.Flush();
    events := sink.events;
  }
}
