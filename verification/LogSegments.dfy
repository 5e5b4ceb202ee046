/**
 Cutting one task's output out of a worker's log: filterTaskLogSegment of
 internal/cli/logs.go.  A worker prints a start marker, the agent's output and
 an end marker for each task it runs.
 */
module LogSegments {
  import opened Lines

  const TASK_START_MARKER := "---KELOS_TASK_START---"
  const TASK_END_MARKER := "---KELOS_TASK_END---"
  const MAX_TOKEN_SIZE := 10 * 1024 * 1024

  function StartMarker(name: string): string { TASK_START_MARKER + " " + name }
  function EndMarker(name: string): string { TASK_END_MARKER + " " + name }

  datatype FilterError = NoError | TokenTooLong | SegmentNotFound | WriteFailed

  // ---------------------------------------------------------------- the whole-log definition

  /** The lines the scanner delivers: it gives up at the first line that does not fit its buffer. */
  function Scanned(lines: seq<string>): seq<string> {
    if lines == [] || |lines[0]| >= MAX_TOKEN_SIZE then []
    else [TrimCR(lines[0])] + Scanned(lines[1..])
  }

  predicate AllFit(lines: seq<string>) {
    lines == [] || (|lines[0]| < MAX_TOKEN_SIZE && AllFit(lines[1..]))
  }

  /** Index of the first line equal to x, or the number of lines. */
  function FirstAt(lines: seq<string>, x: string): (i: nat)
    ensures i <= |lines| && x !in lines[..i]
    ensures i < |lines| ==> lines[i] == x
  {
    if lines == [] || lines[0] == x then 0
    else
      var i := FirstAt(lines[1..], x);
      assert lines[..1 + i] == [lines[0]] + lines[1..][..i];
      1 + i
  }

  /** The lines strictly between the first start marker and the next end marker, or the end of the log. */
  function Segment(scanned: seq<string>, name: string): seq<string> {
    var i := FirstAt(scanned, StartMarker(name));
    if i == |scanned| then [] else scanned[i + 1..][..FirstAt(scanned[i + 1..], EndMarker(name))]
  }

  predicate Closed(scanned: seq<string>, name: string) {
    EndMarker(name) in scanned[FirstAt(scanned, StartMarker(name))..]
  }

  function ErrorOf(lines: seq<string>, name: string): FilterError {
    var scanned := Scanned(lines);
    if Closed(scanned, name) then NoError
    else if !AllFit(lines) then TokenTooLong
    else if StartMarker(name) !in scanned then SegmentNotFound
    else NoError
  }

  lemma MarkersDiffer(a: string, b: string)
    ensures StartMarker(a) != EndMarker(b)
  {
    assert StartMarker(a)[14] == 'S' && EndMarker(b)[14] == 'E';
  }

  // ---------------------------------------------------------------- the program

  function Written(segment: seq<string>, room: nat): seq<string> {
    if |segment| > room then segment[..room] else segment
  }

  /** The program, with a writer that takes `room` lines and refuses the next. */
  method FilterTaskLogSegment(stream: string, name: string, room: nat) returns (out: string, err: FilterError)
    ensures var segment := Segment(Scanned(AllLines(stream)), name);
      && out == Render(Written(segment, room))
      && err == if |segment| > room then WriteFailed else ErrorOf(AllLines(stream), name)
  {
    ghost var all, later := Scanned(AllLines(stream)), Scanned(AllLines(stream));
    var startMarker, endMarker := StartMarker(name), EndMarker(name);
    var inSegment, found := false, false;
    var unread := stream;
    var writes := room;
    out := "";
    ghost var before: seq<string>, body: seq<string> := [], [];
    while unread != ""
      invariant found == inSegment
      invariant At(all, before, inSegment, body, later, name)
      invariant later == Scanned(AllLines(unread))
      invariant AllFit(AllLines(stream)) == AllFit(AllLines(unread))
      invariant out == Render(body) && |body| + writes == room
      decreases |unread|
    {
      ScanStep(unread);
      var newline := NewlineAt(unread);
      if newline >= MAX_TOKEN_SIZE {
        FoundSoFar(all, before, inSegment, body, name);
        return out, TokenTooLong;
      }
      var line := TrimCR(unread[..newline]);
      unread := AfterFirst(unread);
      Advance(all, before, inSegment, body, later, name);
      later := later[1..];
      if !inSegment && line == startMarker {
        inSegment, found := true, true;
      } else if inSegment && line == endMarker {
        return out, NoError;
      } else if inSegment {
        if writes == 0 {
          Refused(all, before, body, line, later, name);
          return out, WriteFailed;
        }
        RenderSnoc(body, line);
        writes := writes - 1;
        out := out + line + "\n";
        body := body + [line];
      } else {
        before := before + [line];
      }
    }
    FoundSoFar(all, before, inSegment, body, name);
    err := if found then NoError else SegmentNotFound;
  }

  /** Where the scan stands: `before` was skipped, `body` was written, `later` is still to be scanned. */
  ghost predicate At(all: seq<string>, before: seq<string>, inSegment: bool, body: seq<string>, later: seq<string>,
                     name: string)
  {
    && StartMarker(name) !in before && EndMarker(name) !in body
    && (!inSegment ==> body == [] && all == before + later)
    && (inSegment ==> all == before + ([StartMarker(name)] + (body + later)))
  }

  lemma {:induction false} Advance(all: seq<string>, before: seq<string>, inSegment: bool, body: seq<string>,
                                   later: seq<string>, name: string)
    requires At(all, before, inSegment, body, later, name) && later != []
    ensures !inSegment && later[0] == StartMarker(name) ==> At(all, before, true, [], later[1..], name)
    ensures !inSegment && later[0] != StartMarker(name) ==> At(all, before + [later[0]], false, [], later[1..], name)
    ensures inSegment && later[0] == EndMarker(name) ==> Segment(all, name) == body && Closed(all, name)
    ensures inSegment && later[0] != EndMarker(name) ==> At(all, before, true, body + [later[0]], later[1..], name)
  {
    assert later == [later[0]] + later[1..];
    if inSegment {
      if later[0] == EndMarker(name) {
        ClosedAt(all, before, body, later[1..], name);
      } else {
        assert body + later == (body + [later[0]]) + later[1..];
      }
    } else if later[0] == StartMarker(name) {
      assert [] + later[1..] == later[1..];
    } else {
      assert before + later == (before + [later[0]]) + later[1..];
    }
  }

  /** One call of Scan: it fails on a line that is too long, and otherwise delivers it. */
  lemma {:induction false} ScanStep(unread: string)
    requires unread != ""
    ensures NewlineAt(unread) >= MAX_TOKEN_SIZE ==> Scanned(AllLines(unread)) == [] && !AllFit(AllLines(unread))
    ensures NewlineAt(unread) < MAX_TOKEN_SIZE ==>
      && Scanned(AllLines(unread)) == [TrimCR(unread[..NewlineAt(unread)])] + Scanned(AllLines(AfterFirst(unread)))
      && AllFit(AllLines(unread)) == AllFit(AllLines(AfterFirst(unread)))
  {
    FirstLine(unread);
    var line, later := unread[..NewlineAt(unread)], AllLines(AfterFirst(unread));
    assert ([line] + later)[1..] == later;
  }

  /** The segment of a scan that stopped before its end marker. */
  lemma {:induction false} FoundSoFar(
      all: seq<string>, before: seq<string>, inSegment: bool, body: seq<string>, name: string)
    requires At(all, before, inSegment, body, [], name)
    ensures Segment(all, name) == body && !Closed(all, name)
    ensures StartMarker(name) in all <==> inSegment
  {
    assert body + [] == body && before + [] == before;
    if inSegment {
      FirstAtSplit(before, StartMarker(name), body);
      FirstAtEnd(body, EndMarker(name));
      assert all[|before| + 1..] == body && body[..|body|] == body;
      assert all[|before|..] == [StartMarker(name)] + body;
      MarkersDiffer(name, name);
    } else {
      assert all == before;
      FirstAtEnd(before, StartMarker(name));
      assert all[|before|..] == [];
    }
  }

  /** A line that the writer refuses: what was written is the segment up to it. */
  lemma {:induction false} Refused(
      all: seq<string>, before: seq<string>, body: seq<string>, line: string, later: seq<string>, name: string)
    requires At(all, before, true, body + [line], later, name)
    ensures Written(Segment(all, name), |body|) == body && |Segment(all, name)| > |body|
  {
    var rest := (body + [line]) + later;
    FirstAtSplit(before, StartMarker(name), rest);
    assert all[|before| + 1..] == rest;
    FirstAtBeyond(body + [line], later, EndMarker(name));
    Front(body, line, later, FirstAt(rest, EndMarker(name)));
  }

  lemma {:induction false} FirstAtBeyond(a: seq<string>, b: seq<string>, x: string)
    requires x !in a
    ensures FirstAt(a + b, x) >= |a|
  {
    if a != [] {
      assert (a + b)[1..] == a[1..] + b && (a + b)[0] == a[0];
      FirstAtBeyond(a[1..], b, x);
    }
  }

  lemma Front<T>(body: seq<T>, next: T, later: seq<T>, end: nat)
    requires |body| < end <= |body| + 1 + |later|
    ensures ((body + [next]) + later)[..end][..|body|] == body
  {
  }

  /** The segment of a scan that has reached its end marker. */
  lemma {:induction false} ClosedAt(
      all: seq<string>, before: seq<string>, body: seq<string>, later: seq<string>, name: string)
    requires StartMarker(name) !in before && EndMarker(name) !in body
    requires all == before + ([StartMarker(name)] + (body + ([EndMarker(name)] + later)))
    ensures Segment(all, name) == body && Closed(all, name)
  {
    var rest := body + ([EndMarker(name)] + later);
    FirstAtSplit(before, StartMarker(name), rest);
    FirstAtSplit(body, EndMarker(name), later);
    assert all[|before| + 1..] == rest && rest[..|body|] == body;
    assert all[|before|..][1 + |body|] == EndMarker(name);
  }

  lemma {:induction false} FirstAtSplit(before: seq<string>, x: string, after: seq<string>)
    requires x !in before
    ensures FirstAt(before + ([x] + after), x) == |before|
  {
    var s := before + ([x] + after);
    if before != [] {
      assert s[1..] == before[1..] + ([x] + after);
      FirstAtSplit(before[1..], x, after);
    }
  }

  lemma {:induction false} FirstAtEnd(lines: seq<string>, x: string)
    requires x !in lines
    ensures FirstAt(lines, x) == |lines|
  {
  }

  // ---------------------------------------------------------------- round trip

  function TrimAll(lines: seq<string>): seq<string> {
    if lines == [] then [] else [TrimCR(lines[0])] + TrimAll(lines[1..])
  }

  /** What a worker prints for one task. */
  function TaskLog(name: string, body: seq<string>): seq<string> {
    [StartMarker(name)] + body + [EndMarker(name)]
  }

  /** Lines as a worker can print them: no newline inside, and within the scanner's buffer. */
  predicate Printable(lines: seq<string>) {
    NoNewlines(lines) && AllFit(lines)
  }

  predicate EndsInCR(line: string) {
    |line| > 0 && line[|line| - 1] == '\r'
  }

  predicate NoneEndsInCR(lines: seq<string>) {
    lines == [] || (!EndsInCR(lines[0]) && NoneEndsInCR(lines[1..]))
  }

  /**
   Round trip.  Whatever was printed before (without this task's start marker)
   and whatever follows, filtering for the task returns its body without error;
   the bytes are exactly those printed if and only if no body line ends in a
   carriage return, which the scanner would remove.
   */
  lemma {:induction false} SegmentRoundTrip(before: seq<string>, name: string, body: seq<string>, tail: string)
    requires Printable(before + TaskLog(name, body))
    requires !EndsInCR(name)
    requires StartMarker(name) !in TrimAll(before) && EndMarker(name) !in TrimAll(body)
    ensures var lines := AllLines(Render(before + TaskLog(name, body)) + tail);
      var out := Render(Segment(Scanned(lines), name));
      && Segment(Scanned(lines), name) == TrimAll(body)
      && ErrorOf(lines, name) == NoError
      && (out == Render(body) <==> NoneEndsInCR(body))
  {
    var printed := before + TaskLog(name, body);
    LinesOfRendered(printed, tail);
    ScannedAppend(printed, AllLines(tail));
    TrimmedLog(before, name, body, Scanned(AllLines(tail)));
    ClosedAt(TrimAll(printed) + Scanned(AllLines(tail)), TrimAll(before), TrimAll(body), Scanned(AllLines(tail)), name);
    RenderTrimmed(body);
  }

  lemma {:induction false} TrimmedLog(before: seq<string>, name: string, body: seq<string>, later: seq<string>)
    requires !EndsInCR(name)
    ensures TrimAll(before + TaskLog(name, body)) + later ==
      TrimAll(before) + ([StartMarker(name)] + (TrimAll(body) + ([EndMarker(name)] + later)))
  {
    TrimAllAppend(before, TaskLog(name, body));
    TrimAllAppend([StartMarker(name)] + body, [EndMarker(name)]);
    TrimAllAppend([StartMarker(name)], body);
    TrimOne(StartMarker(name));
    TrimOne(EndMarker(name));
  }

  lemma {:induction false} TrimOne(line: string)
    ensures TrimAll([line]) == [TrimCR(line)]
  {
    assert [line][1..] == [];
  }

  lemma {:induction false} ScannedAppend(lines: seq<string>, more: seq<string>)
    requires Printable(lines)
    ensures Scanned(lines + more) == TrimAll(lines) + Scanned(more)
  {
    if lines == [] {
      assert lines + more == more;
    } else {
      assert (lines + more)[1..] == lines[1..] + more;
      ScannedAppend(lines[1..], more);
    }
  }

  lemma {:induction false} TrimAllAppend(a: seq<string>, b: seq<string>)
    ensures TrimAll(a + b) == TrimAll(a) + TrimAll(b)
  {
    if a == [] {
      assert a + b == b;
    } else {
      assert (a + b)[1..] == a[1..] + b;
      TrimAllAppend(a[1..], b);
    }
  }

  lemma SameTail(head: string, a: string, b: string)
    requires head + a == head + b
    ensures a == b
  {
    assert (head + a)[|head|..] == a && (head + b)[|head|..] == b;
  }

  /** Trimming changes the bytes exactly when some line ends in a carriage return. */
  lemma {:induction false} RenderTrimmed(lines: seq<string>)
    ensures |Render(TrimAll(lines))| <= |Render(lines)|
    ensures Render(TrimAll(lines)) == Render(lines) <==> NoneEndsInCR(lines)
    ensures Render(TrimAll(lines)) != Render(lines) ==> |Render(TrimAll(lines))| < |Render(lines)|
  {
    if lines != [] {
      var later := TrimAll(lines[1..]);
      RenderTrimmed(lines[1..]);
      assert ([TrimCR(lines[0])] + later)[1..] == later;
      if !EndsInCR(lines[0]) && Render(TrimAll(lines)) == Render(lines) {
        SameTail(lines[0] + "\n", Render(later), Render(lines[1..]));
      }
    }
  }
}
