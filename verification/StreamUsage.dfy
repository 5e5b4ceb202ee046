/**
 The one-pass usage capture of internal/capture/usage.go.  StreamUsage forwards
 a stream while an accumulator watches its lines; the specification defines the
 same outcome on the whole stream.  JSON decoding and the field extractors are
 functions the theorems quantify over.
 */
module StreamUsage {
  import opened Wrappers
  import opened Lines
  import opened BufferedOutput
  import ClaudeResult

  newtype int64 = x: int | -0x8000_0000_0000_0000 <= x < 0x8000_0000_0000_0000

  const TWO64 := 0x1_0000_0000_0000_0000

  /** The int64 that Go's wrapping addition leaves for the mathematical value n. */
  function Wrap64(n: int): int64 {
    var m := n % TWO64;
    (if m < 0x8000_0000_0000_0000 then m else m - TWO64) as int64
  }

  function Add64(a: int64, b: int64): int64 {
    Wrap64(a as int + b as int)
  }

  lemma WrapAdd(n: int, b: int64)
    ensures Add64(Wrap64(n), b) == Wrap64(n + b as int)
  {
    var w := Wrap64(n) as int;
    var k := (n - w) / TWO64;
    assert n - w == k * TWO64;
    assert (n + b as int) % TWO64 == (w + b as int + k * TWO64) % TWO64 == (w + b as int) % TWO64;
  }

  /** A value of the usage map; the decimal and base64 spellings are left out. */
  datatype Field = Literal(text: string) | Count(n: int64) | Base64(text: string)
  type Usage = map<string, Field>

  datatype Decoders<!Rec> = Decoders(
    parse: string -> Option<Rec>,
    kind: Rec -> string,
    claudeUsage: Rec -> Option<Usage>,
    geminiUsage: Rec -> Option<Usage>,
    cursorUsage: Rec -> Option<Usage>,
    geminiResponse: Rec -> string,
    codexResponse: Rec -> string,
    opencodeResponse: Rec -> string,
    codexCounts: Rec -> (int64, int64),
    opencodeCounts: Rec -> (int64, int64),
    completion: Rec -> ClaudeResult.Result)

  /** The accumulator of an agent type: which record it keeps, or which counts it adds up. */
  datatype Plan<!Rec> =
    | LastResult(extract: Rec -> Option<Usage>, response: Option<Rec -> string>)
    | Sum(event: string, counts: Rec -> (int64, int64), response: Option<Rec -> string>)

  function PlanFor<Rec>(agentType: string, d: Decoders<Rec>): Option<Plan<Rec>> {
    if agentType == "claude-code" then Some(LastResult(d.claudeUsage, None))
    else if agentType == "codex" then Some(Sum("turn.completed", d.codexCounts, Some(d.codexResponse)))
    else if agentType == "gemini" then Some(LastResult(d.geminiUsage, Some(d.geminiResponse)))
    else if agentType == "opencode" then Some(Sum("step_finish", d.opencodeCounts, Some(d.opencodeResponse)))
    else if agentType == "cursor" then Some(LastResult(d.cursorUsage, None))
    else None
  }

  // ---------------------------------------------------------------- the whole-stream definition

  /** The records of a stream: one for each non-empty line that parses. */
  function Records<Rec>(lines: seq<string>, parse: string -> Option<Rec>): seq<Rec> {
    if lines == [] then []
    else
      var line := lines[|lines| - 1];
      var r := if line == "" then None else parse(line);
      Records(lines[..|lines| - 1], parse) + (if r.Some? then [r.value] else [])
  }

  /** The last element satisfying p. */
  function Last<T>(s: seq<T>, p: T -> bool): Option<T> {
    if s == [] then None
    else if p(s[|s| - 1]) then Some(s[|s| - 1])
    else Last(s[..|s| - 1], p)
  }

  function LastResponse<Rec>(records: seq<Rec>, response: Option<Rec -> string>): string {
    if response.None? then ""
    else
      match Last(records, r => response.value(r) != "")
      case Some(r) => response.value(r)
      case None => ""
  }

  /** Mathematical totals, with no wrap-around. */
  function Totals<Rec>(records: seq<Rec>, d: Decoders<Rec>, event: string, counts: Rec -> (int64, int64)): (int, int) {
    if records == [] then (0, 0)
    else
      var r := records[|records| - 1];
      var (i, o) := Totals(records[..|records| - 1], d, event, counts);
      if d.kind(r) == event then (i + counts(r).0 as int, o + counts(r).1 as int) else (i, o)
  }

  function TokenResult(input: int64, output: int64): Option<Usage> {
    if input == 0 && output == 0 then None
    else Some((if input != 0 then map["input-tokens" := Count(input)] else map[])
              + (if output != 0 then map["output-tokens" := Count(output)] else map[]))
  }

  function WithField(usage: Option<Usage>, key: string, value: Field): Option<Usage> {
    Some((if usage.Some? then usage.value else map[])[key := value])
  }

  /** The usage of a stream, from all its records at once. */
  function UsageOf<Rec>(records: seq<Rec>, d: Decoders<Rec>, plan: Plan<Rec>): Option<Usage> {
    var response := LastResponse(records, plan.response);
    match plan
    case LastResult(extract, _) =>
      var last := Last(records, r => d.kind(r) == "result");
      var usage := if last.Some? then extract(last.value) else None;
      if response == "" || (usage.Some? && "response" in usage.value) then usage
      else WithField(usage, "response", Base64(response))
    case Sum(event, counts, _) =>
      var (i, o) := Totals(records, d, event, counts);
      var usage := TokenResult(Wrap64(i), Wrap64(o));
      if response == "" then usage else WithField(usage, "response", Base64(response))
  }

  datatype Failure = ReadFailed | WriteFailed | RunFailed(message: ClaudeResult.Message)

  /** What StreamUsage returns at end of input. */
  function Outcome<Rec>(agentType: string, records: seq<Rec>, d: Decoders<Rec>): (Option<Usage>, Option<Failure>) {
    match PlanFor(agentType, d)
    case None => (None, None)
    case Some(plan) =>
      var usage := UsageOf(records, d, plan);
      var last := Last(records, r => d.kind(r) == "result");
      if agentType != "claude-code" || last.None? then (usage, None)
      else
        var c := d.completion(last.value);
        var status := ClaudeResult.StatusOf(c);
        (if status == ClaudeResult.Incomplete && ClaudeResult.IsDegenerateOutput(c)
           then WithField(usage, "degenerate", Literal("true")) else usage,
         if status != ClaudeResult.Completed then Some(RunFailed(ClaudeResult.FailureMessage(c))) else None)
  }

  // ---------------------------------------------------------------- properties of the definition

  predicate LastAt<T>(s: seq<T>, p: T -> bool, i: int) {
    0 <= i < |s| && p(s[i]) && forall j :: i < j < |s| ==> !p(s[j])
  }

  /** Last picks an element satisfying p with none after it, and fails only when there is none. */
  lemma {:induction false} LastIsLast<T>(s: seq<T>, p: T -> bool)
    ensures Last(s, p).None? <==> forall i :: 0 <= i < |s| ==> !p(s[i])
    ensures Last(s, p).Some? ==> exists i :: LastAt(s, p, i) && Last(s, p) == Some(s[i])
  {
    if s != [] {
      var n := |s| - 1;
      if p(s[n]) {
        assert LastAt(s, p, n);
      } else {
        LastIsLast(s[..n], p);
        if Last(s[..n], p).Some? {
          var i :| LastAt(s[..n], p, i) && Last(s[..n], p) == Some(s[..n][i]);
          assert LastAt(s, p, i);
        }
      }
    }
  }

  predicate Fits64(n: int) {
    -0x8000_0000_0000_0000 <= n < 0x8000_0000_0000_0000
  }

  lemma WrapExactIff(n: int)
    ensures Wrap64(n) as int == n <==> Fits64(n)
    ensures Wrap64(n) == 0 <==> n % TWO64 == 0
  {
  }

  /** The count a usage map reports; an absent one is zero. */
  function ReportedCount(usage: Option<Usage>, key: string): int {
    if usage.Some? && key in usage.value && usage.value[key].Count? then usage.value[key].n as int else 0
  }

  /**
   Each total that is reported is the true sum of all its events exactly when that sum
   fits an int64, however the partial sums wrap; and a total is left out exactly when the
   sum is a multiple of 2^64, which is more than the sum zero.
   */
  lemma {:induction false} TotalExactIff<Rec>(records: seq<Rec>, d: Decoders<Rec>, event: string,
                                              counts: Rec -> (int64, int64), response: Option<Rec -> string>)
    ensures var usage := UsageOf(records, d, Sum(event, counts, response));
      var (i, o) := Totals(records, d, event, counts);
      && (ReportedCount(usage, "input-tokens") == i <==> Fits64(i))
      && (ReportedCount(usage, "output-tokens") == o <==> Fits64(o))
      && ((usage.None? || "input-tokens" !in usage.value) <==> i % TWO64 == 0)
      && ((usage.None? || "output-tokens" !in usage.value) <==> o % TWO64 == 0)
  {
    var (i, o) := Totals(records, d, event, counts);
    WrapExactIff(i);
    WrapExactIff(o);
  }

  lemma {:induction false} TotalsSnoc<Rec>(records: seq<Rec>, r: Rec, d: Decoders<Rec>, event: string,
                                           counts: Rec -> (int64, int64))
    ensures var before := Totals(records, d, event, counts);
      Totals(records + [r], d, event, counts) ==
        if d.kind(r) == event then (before.0 + counts(r).0 as int, before.1 + counts(r).1 as int) else before
  {
    assert (records + [r])[..|records|] == records;
  }

  /** Four events of 2^62 tokens: the true total is 2^64, and none is reported. */
  lemma {:induction false} FullCircleIsAbsent<Rec>(r: Rec, d: Decoders<Rec>, event: string,
                                                   counts: Rec -> (int64, int64), response: Option<Rec -> string>)
    requires d.kind(r) == event && counts(r) == (0x4000_0000_0000_0000, 0)
    ensures var usage := UsageOf([r, r, r, r], d, Sum(event, counts, response));
      && Totals([r, r, r, r], d, event, counts).0 == TWO64
      && (usage.None? || "input-tokens" !in usage.value)
  {
    TotalsSnoc([], r, d, event, counts);
    TotalsSnoc([r], r, d, event, counts);
    TotalsSnoc([r, r], r, d, event, counts);
    TotalsSnoc([r, r, r], r, d, event, counts);
    assert [] + [r] == [r] && [r] + [r] == [r, r] && [r, r] + [r] == [r, r, r] && [r, r, r] + [r] == [r, r, r, r];
    TotalExactIff([r, r, r, r], d, event, counts, response);
  }

  /**
   The Claude Code contract: an error exactly when a result record exists whose
   status is not completed, carrying that record's message; the degenerate mark
   exactly when that message is the degenerate one; and the response, tokens and
   cost of an incomplete run still reported.
   */
  lemma {:induction false} ClaudeOutcome<Rec>(records: seq<Rec>, d: Decoders<Rec>)
    requires forall r :: d.claudeUsage(r).Some? ==> "degenerate" !in d.claudeUsage(r).value
    ensures var (usage, err) := Outcome("claude-code", records, d);
      var last := Last(records, r => d.kind(r) == "result");
      && (err.Some? <==> last.Some? && ClaudeResult.StatusOf(d.completion(last.value)) != ClaudeResult.Completed)
      && (err.Some? ==> err.value == RunFailed(ClaudeResult.FailureMessage(d.completion(last.value))))
      && ((usage.Some? && "degenerate" in usage.value)
          <==> err.Some? && err.value.message.DegenerateMessage?)
      && (last.Some? && d.claudeUsage(last.value).Some? ==>
           usage.Some? && usage.value - {"degenerate"} == d.claudeUsage(last.value).value)
  {
    var last := Last(records, r => d.kind(r) == "result");
    if last.Some? {
      var c := d.completion(last.value);
      ClaudeResult.FailureExplained(c);
      var reported := d.claudeUsage(last.value);
      if reported.Some? {
        assert reported.value - {"degenerate"} == reported.value;
        assert reported.value["degenerate" := Literal("true")] - {"degenerate"} == reported.value;
      }
    }
  }

  /** Adding a line extends the records by at most that line's record. */
  lemma {:induction false} RecordsSnoc<Rec>(lines: seq<string>, line: string, parse: string -> Option<Rec>)
    ensures Records(lines + [line], parse) ==
      Records(lines, parse) + (if line != "" && parse(line).Some? then [parse(line).value] else [])
  {
    assert (lines + [line])[..|lines|] == lines;
  }

  // ---------------------------------------------------------------- the one-pass program

  class LastResultAccumulator<Rec> {
    const d: Decoders<Rec>
    const extract: Rec -> Option<Usage>
    const extractResponse: Option<Rec -> string>
    var last: Option<Rec>
    var response: string
    ghost var seen: seq<Rec>

    ghost predicate Valid()
      reads this
    {
      last == Last(seen, r => d.kind(r) == "result") && response == LastResponse(seen, extractResponse)
    }

    constructor (d: Decoders<Rec>, extract: Rec -> Option<Usage>, extractResponse: Option<Rec -> string>)
      ensures Valid() && seen == []
      ensures this.d == d && this.extract == extract && this.extractResponse == extractResponse
    {
      this.d, this.extract, this.extractResponse := d, extract, extractResponse;
      last, response, seen := None, "", [];
    }

    method AddLine(line: string)
      requires Valid()
      modifies this
      ensures Valid()
      ensures seen == old(seen) + (if d.parse(line).Some? then [d.parse(line).value] else [])
    {
      var m := d.parse(line);
      if m.None? {
        return;
      }
      seen := seen + [m.value];
      assert seen[..|seen| - 1] == old(seen);
      if d.kind(m.value) == "result" {
        last := m;
      }
      if extractResponse.Some? {
        var r := extractResponse.value(m.value);
        if r != "" {
          response := r;
        }
      }
    }

    method Result() returns (usage: Option<Usage>)
      requires Valid()
      ensures usage == UsageOf(seen, d, LastResult(extract, extractResponse))
    {
      if last.None? && response == "" {
        return None;
      }
      usage := None;
      if last.Some? {
        usage := extract(last.value);
      }
      if response != "" {
        if usage.None? {
          usage := Some(map[]);
        }
        if "response" !in usage.value {
          usage := Some(usage.value["response" := Base64(response)]);
        }
      }
    }
  }

  /** One more event moves the wrapped totals by one wrapping addition. */
  lemma {:induction false} WrappedTotalsSnoc<Rec>(records: seq<Rec>, r: Rec, d: Decoders<Rec>, event: string,
                                                 counts: Rec -> (int64, int64))
    ensures var before, after := Totals(records, d, event, counts), Totals(records + [r], d, event, counts);
      if d.kind(r) == event
        then Wrap64(after.0) == Add64(Wrap64(before.0), counts(r).0)
             && Wrap64(after.1) == Add64(Wrap64(before.1), counts(r).1)
        else after == before
  {
    TotalsSnoc(records, r, d, event, counts);
    WrapAdd(Totals(records, d, event, counts).0, counts(r).0);
    WrapAdd(Totals(records, d, event, counts).1, counts(r).1);
  }

  class SumAccumulator<Rec> {
    const d: Decoders<Rec>
    const event: string
    const counts: Rec -> (int64, int64)
    const extractResponse: Option<Rec -> string>
    var input: int64
    var output: int64
    var response: string
    ghost var seen: seq<Rec>

    ghost predicate Valid()
      reads this
    {
      && input == Wrap64(Totals(seen, d, event, counts).0)
      && output == Wrap64(Totals(seen, d, event, counts).1)
      && response == LastResponse(seen, extractResponse)
    }

    constructor (d: Decoders<Rec>, event: string, counts: Rec -> (int64, int64), extractResponse: Option<Rec -> string>)
      ensures Valid() && seen == []
      ensures this.d == d && this.event == event && this.counts == counts && this.extractResponse == extractResponse
    {
      this.d, this.event, this.counts, this.extractResponse := d, event, counts, extractResponse;
      input, output, response, seen := 0, 0, "", [];
    }

    method AddLine(line: string)
      requires Valid()
      modifies this
      ensures Valid()
      ensures seen == old(seen) + (if d.parse(line).Some? then [d.parse(line).value] else [])
    {
      var m := d.parse(line);
      if m.None? {
        return;
      }
      ghost var before := seen;
      seen := seen + [m.value];
      assert seen[..|seen| - 1] == before;
      WrappedTotalsSnoc(before, m.value, d, event, counts);
      if d.kind(m.value) == event {
        var (i, o) := counts(m.value);
        input := Add64(input, i);
        output := Add64(output, o);
      }
      if extractResponse.Some? {
        var r := extractResponse.value(m.value);
        if r != "" {
          response := r;
        }
      }
    }

    method Result() returns (usage: Option<Usage>)
      requires Valid()
      ensures usage == UsageOf(seen, d, Sum(event, counts, extractResponse))
    {
      usage := TokenResult(input, output);
      if response != "" {
        if usage.None? {
          usage := Some(map[]);
        }
        usage := Some(usage.value["response" := Base64(response)]);
      }
    }
  }

  /** The bytes StreamUsage writes: the input, with a final newline when the input has an unterminated last line. */
  function Forwarded(input: string): string {
    input + (if input != "" && input[|input| - 1] != '\n' then "\n" else "")
  }

  /** What is forwarded is exactly the lines of the input, each newline-terminated; forwarding twice changes nothing. */
  lemma {:induction false} ForwardedIsRendered(input: string)
    ensures Forwarded(input) == Render(AllLines(input))
    ensures Forwarded(Forwarded(input)) == Forwarded(input)
  {
    RenderSplit(input);
    RestHasNoNewline(input);
    if Rest(input) == "" {
      RenderEndsInNewline(Terminated(input));
      assert Render(Terminated(input)) + "" == Render(Terminated(input));
    } else {
      RenderRest(Terminated(input), Rest(input));
      assert input[|input| - 1] == Rest(input)[|Rest(input)| - 1];
      assert Forwarded(input) == input + "\n";
    }
  }

  lemma {:induction false} RenderRest(lines: seq<string>, rest: string)
    ensures Render(lines + [rest]) == (Render(lines) + rest) + "\n"
  {
    RenderAppend(lines, [rest]);
    assert [rest][1..] == [] && Render([rest]) == rest + "\n" + "";
    assert Render(lines) + (rest + "\n" + "") == (Render(lines) + rest) + "\n";
  }

  lemma {:induction false} RenderEndsInNewline(lines: seq<string>)
    ensures lines != [] ==> Render(lines) != "" && Render(lines)[|Render(lines)| - 1] == '\n'
  {
    if lines != [] {
      RenderEndsInNewline(lines[1..]);
    }
  }

  // ---------------------------------------------------------------- what is returned when not everything fits

  /** What stays in the output buffer after a line: one piece, or two when its newline has to be added. */
  function LineHeld(held: nat, n: nat, terminated: bool): (h: nat)
    requires held <= BUFFER_SIZE
    ensures h <= BUFFER_SIZE && h <= held + n + 1
  {
    if terminated then Held(held, n + 1) else Held(Held(held, n), 1)
  }

  /** What stays in the buffer at the end of the input. */
  function HeldAt(held: nat, input: string): (h: nat)
    requires held <= BUFFER_SIZE
    ensures h <= BUFFER_SIZE
    decreases |input|
  {
    if input == "" then held
    else HeldAt(LineHeld(held, NewlineAt(input), NewlineAt(input) < |input|), AfterFirst(input))
  }

  /** What StreamUsage returns, for a destination that takes `room` bytes. */
  function Returned<Rec>(agentType: string, input: string, readFails: bool, room: nat, d: Decoders<Rec>)
    : (Option<Usage>, Option<Failure>)
  {
    var outcome := Outcome(agentType, Records(AllLines(input), d.parse), d);
    if |Forwarded(input)| - HeldAt(0, input) > room then (None, Some(WriteFailed))
    else if readFails then (None, Some(ReadFailed))
    else if |Forwarded(input)| > room then (outcome.0, if outcome.1.Some? then outcome.1 else Some(WriteFailed))
    else outcome
  }

  /** A truncated output never comes without an error; a complete one never with a write error. */
  lemma {:induction false} TruncationIsReported<Rec>(
      agentType: string, input: string, readFails: bool, room: nat, d: Decoders<Rec>)
    ensures var err := Returned(agentType, input, readFails, room, d).1;
      && (|Forwarded(input)| > room ==> err.Some?)
      && (err == Some(WriteFailed) ==> |Forwarded(input)| > room)
  {
  }

  /**
   Truncation is reported as something else than a write error exactly when the bytes
   that do not fit never leave the buffer before the final flush, and the run has an
   error of its own.
   */
  lemma {:induction false} WriteErrorHiddenIff<Rec>(
      agentType: string, input: string, readFails: bool, room: nat, d: Decoders<Rec>)
    ensures |Forwarded(input)| > room && Returned(agentType, input, readFails, room, d).1 != Some(WriteFailed) <==>
      && |Forwarded(input)| - HeldAt(0, input) <= room < |Forwarded(input)|
      && (readFails || Outcome(agentType, Records(AllLines(input), d.parse), d).1.Some?)
  {
  }

  /** Decoders that read every line as a result record of an interrupted run. */
  function Interrupted(): Decoders<int> {
    Decoders(_ => Some(0), _ => "result", _ => None, _ => None, _ => None, _ => "", _ => "", _ => "",
             _ => (0, 0), _ => (0, 0), _ => ClaudeResult.Result("success", false, "", "aborted", "", 1))
  }

  /** Such an input: one short line and no room at all.  Nothing is delivered, and the error says nothing of it. */
  lemma {:induction false} WriteErrorHidden()
    ensures Received(Forwarded("x\n"), 0) == ""
    ensures Returned("claude-code", "x\n", false, 0, Interrupted()).1 ==
      Some(RunFailed(ClaudeResult.RunIncomplete([ClaudeResult.TerminalReason("aborted")])))
  {
    var d := Interrupted();
    var completion := d.completion(0);
    var s := "x\n";
    assert s[1..] == "\n" && NewlineAt(s[1..]) == 0 && NewlineAt(s) == 1;
    FirstLine(s);
    assert AfterFirst(s) == "" && s[..1] == "x" && AllLines("") == [] && ["x"] + [] == ["x"];
    assert AllLines(s) == ["x"];
    assert HeldAt(0, "x\n") == HeldAt(2, "") == 2;
    assert ["x"][..0] == [];
    assert Records([], d.parse) == [] && Records(["x"], d.parse) == [] + [0] == [0];
    assert Last([0], r => d.kind(r) == "result") == Some(0);
    assert ClaudeResult.StatusOf(completion) == ClaudeResult.Incomplete;
    assert ClaudeResult.Details(completion) == [ClaudeResult.TerminalReason("aborted")];
  }

  /** What is in the buffer came through it: the bytes passed on only grow. */
  lemma {:induction false} HeldAtMost(held: nat, input: string)
    requires held <= BUFFER_SIZE
    ensures HeldAt(held, input) <= held + |Render(AllLines(input))|
    decreases |input|
  {
    if input != "" {
      var n := NewlineAt(input);
      FirstLine(input);
      assert ([input[..n]] + AllLines(AfterFirst(input)))[1..] == AllLines(AfterFirst(input));
      HeldAtMost(LineHeld(held, n, n < |input|), AfterFirst(input));
    }
  }

  /**
   The program: read a line up to and including its newline, forward it, hand its body
   to the accumulator, and report at the end of the input.  `readFails` says whether the
   input ends in a read error instead of an end of file, `room` how many bytes the
   destination takes.
   */
  method Run<Rec>(agentType: string, input: string, readFails: bool, room: nat, d: Decoders<Rec>)
    returns (output: string, usage: Option<Usage>, err: Option<Failure>)
    ensures output == Received(Forwarded(input), room)
    ensures (usage, err) == Returned(agentType, input, readFails, room, d)
  {
    var plan := PlanFor(agentType, d);
    var lastAcc, sumAcc := NewAccumulator(plan, d);
    var out := new BufferedWriter(room);
    ForwardedIsRendered(input);
    var ok := ForwardAll(plan, d, lastAcc, sumAcc, out, input);
    if !ok {
      return out.destination, None, Some(WriteFailed);
    }
    if readFails {
      usage, err := None, Some(ReadFailed);
    } else {
      usage, err := Report(agentType, plan, d, lastAcc, sumAcc, Records(AllLines(input), d.parse));
    }
    var flushed := out.Flush();
    if !flushed && err.None? {
      err := Some(WriteFailed);
    }
    output := out.destination;
  }

  /** The loop over the lines, up to the end of the input or the first write error. */
  method ForwardAll<Rec>(plan: Option<Plan<Rec>>, d: Decoders<Rec>, lastAcc: LastResultAccumulator?<Rec>,
                         sumAcc: SumAccumulator?<Rec>, out: BufferedWriter, input: string)
    returns (ok: bool)
    requires out.Valid() && !out.failed && out.given == "" && out.held == 0
    requires Tracks(plan, d, lastAcc, sumAcc, [])
    modifies out, lastAcc, sumAcc
    ensures out.Valid() && ok == !out.failed
    ensures ok <==> |Render(AllLines(input))| - HeldAt(0, input) <= out.capacity
    ensures if ok then
        out.given == Render(AllLines(input)) && Tracks(plan, d, lastAcc, sumAcc, Records(AllLines(input), d.parse))
      else
        out.destination == Received(Render(AllLines(input)), out.capacity)
  {
    var unread := input;
    ghost var done: seq<string> := [];
    while unread != ""
      invariant AllLines(input) == done + AllLines(unread)
      invariant out.Valid() && !out.failed && out.given == Render(done)
      invariant HeldAt(out.held, unread) == HeldAt(0, input)
      invariant Tracks(plan, d, lastAcc, sumAcc, Records(done, d.parse))
      decreases |unread|
    {
      ok := TakeLine(plan, d, lastAcc, sumAcc, out, unread, AllLines(input), done);
      if !ok {
        return;
      }
      done := done + [unread[..NewlineAt(unread)]];
      unread := AfterFirst(unread);
    }
    assert done + AllLines("") == done;
    ok := true;
  }

  method NewAccumulator<Rec>(plan: Option<Plan<Rec>>, d: Decoders<Rec>)
    returns (lastAcc: LastResultAccumulator?<Rec>, sumAcc: SumAccumulator?<Rec>)
    ensures (lastAcc != null ==> fresh(lastAcc)) && (sumAcc != null ==> fresh(sumAcc))
    ensures Tracks(plan, d, lastAcc, sumAcc, [])
  {
    lastAcc, sumAcc := null, null;
    if plan.Some? {
      match plan.value
      case LastResult(extract, response) => lastAcc := new LastResultAccumulator(d, extract, response);
      case Sum(event, counts, response) => sumAcc := new SumAccumulator(d, event, counts, response);
    }
  }

  /** One turn of the loop: the first unread line is forwarded, then handed to the accumulator. */
  method TakeLine<Rec>(plan: Option<Plan<Rec>>, d: Decoders<Rec>, lastAcc: LastResultAccumulator?<Rec>,
                       sumAcc: SumAccumulator?<Rec>, out: BufferedWriter, unread: string,
                       ghost all: seq<string>, ghost done: seq<string>)
    returns (ok: bool)
    requires unread != "" && all == done + AllLines(unread)
    requires out.Valid() && !out.failed && out.given == Render(done)
    requires Tracks(plan, d, lastAcc, sumAcc, Records(done, d.parse))
    modifies out, lastAcc, sumAcc
    ensures out.Valid() && ok == !out.failed
    ensures var now := done + [unread[..NewlineAt(unread)]];
      if ok then
        && all == now + AllLines(AfterFirst(unread)) && out.given == Render(now)
        && HeldAt(out.held, AfterFirst(unread)) == HeldAt(old(out.held), unread)
        && Tracks(plan, d, lastAcc, sumAcc, Records(now, d.parse))
      else
        && out.destination == Received(Render(all), out.capacity)
        && |Render(all)| - HeldAt(old(out.held), unread) > out.capacity
  {
    var newline := NewlineAt(unread);
    var body := unread[..newline];
    NextLine(all, done, unread);
    RenderSnoc(done, body);
    RecordsSnoc(done, body, d.parse);
    ok := ForwardLine(out, body, newline < |unread|);
    if !ok {
      Stopped(all, done + [body], AfterFirst(unread), out.given, out.capacity);
      HeldAtMost(LineHeld(old(out.held), newline, newline < |unread|), AfterFirst(unread));
      return;
    }
    if body != "" {
      AddLine(plan, d, lastAcc, sumAcc, body, Records(done, d.parse));
    }
  }

  /** A line as it was read, and a newline if it came without one. */
  method ForwardLine(out: BufferedWriter, body: string, terminated: bool) returns (ok: bool)
    requires out.Valid() && !out.failed
    modifies out
    ensures out.Valid() && ok == !out.failed
    ensures out.given <= old(out.given) + body + "\n"
    ensures var kept := LineHeld(old(out.held), |body|, terminated);
      if ok then out.given == old(out.given) + body + "\n" && out.held == kept
      else |old(out.given)| + |body| + 1 - kept > out.capacity
  {
    if terminated {
      ok := out.Write(body + "\n");
      assert old(out.given) + (body + "\n") == old(out.given) + body + "\n";
    } else {
      ok := out.Write(body);
      if ok {
        ok := out.Write("\n");
      }
    }
  }

  /** A write error: the destination has the beginning of what was to be forwarded. */
  lemma {:induction false} Stopped(
      all: seq<string>, done: seq<string>, rest: string, given: string, room: nat)
    requires all == done + AllLines(rest) && given <= Render(done) && |given| > room
    ensures given[..room] == Received(Render(all), room) && |Render(all)| > room
    ensures |Render(all)| == |Render(done)| + |Render(AllLines(rest))|
  {
    RenderAppend(done, AllLines(rest));
  }

  /** The accumulator in use is the one the plan asks for, and it has seen exactly these records. */
  ghost predicate Tracks<Rec>(plan: Option<Plan<Rec>>, d: Decoders<Rec>, lastAcc: LastResultAccumulator?<Rec>,
                              sumAcc: SumAccumulator?<Rec>, records: seq<Rec>)
    reads lastAcc, sumAcc
  {
    match plan
    case None => lastAcc == null && sumAcc == null
    case Some(LastResult(extract, response)) =>
      && sumAcc == null && lastAcc != null && lastAcc.Valid() && lastAcc.d == d && lastAcc.seen == records
      && lastAcc.extract == extract && lastAcc.extractResponse == response
    case Some(Sum(event, counts, response)) =>
      && lastAcc == null && sumAcc != null && sumAcc.Valid() && sumAcc.d == d && sumAcc.seen == records
      && sumAcc.event == event && sumAcc.counts == counts && sumAcc.extractResponse == response
  }

  method AddLine<Rec>(plan: Option<Plan<Rec>>, d: Decoders<Rec>, lastAcc: LastResultAccumulator?<Rec>,
                      sumAcc: SumAccumulator?<Rec>, line: string, ghost records: seq<Rec>)
    requires Tracks(plan, d, lastAcc, sumAcc, records)
    modifies lastAcc, sumAcc
    ensures Tracks(plan, d, lastAcc, sumAcc, records + (if d.parse(line).Some? then [d.parse(line).value] else []))
  {
    if lastAcc != null {
      lastAcc.AddLine(line);
    } else if sumAcc != null {
      sumAcc.AddLine(line);
    }
  }

  method Report<Rec>(agentType: string, plan: Option<Plan<Rec>>, d: Decoders<Rec>, lastAcc: LastResultAccumulator?<Rec>,
                     sumAcc: SumAccumulator?<Rec>, ghost records: seq<Rec>)
    returns (usage: Option<Usage>, err: Option<Failure>)
    requires plan == PlanFor(agentType, d) && Tracks(plan, d, lastAcc, sumAcc, records)
    ensures (usage, err) == Outcome(agentType, records, d)
  {
    usage, err := None, None;
    if lastAcc != null {
      usage := lastAcc.Result();
      if agentType == "claude-code" && lastAcc.last.Some? {
        var completion := d.completion(lastAcc.last.value);
        var status := ClaudeResult.StatusOf(completion);
        if status == ClaudeResult.Incomplete && ClaudeResult.IsDegenerateOutput(completion) {
          if usage.None? {
            usage := Some(map[]);
          }
          usage := Some(usage.value["degenerate" := Literal("true")]);
        }
        if status != ClaudeResult.Completed {
          err := Some(RunFailed(ClaudeResult.FailureMessage(completion)));
        }
      }
    } else if sumAcc != null {
      usage := sumAcc.Result();
    }
  }

  /** One turn of the loop: the first line of the unread input moves to the lines done. */
  lemma {:induction false} NextLine(all: seq<string>, done: seq<string>, unread: string)
    requires unread != "" && all == done + AllLines(unread)
    ensures all == (done + [unread[..NewlineAt(unread)]]) + AllLines(AfterFirst(unread))
  {
    FirstLine(unread);
    assert done + ([unread[..NewlineAt(unread)]] + AllLines(AfterFirst(unread)))
        == (done + [unread[..NewlineAt(unread)]]) + AllLines(AfterFirst(unread));
  }
}
