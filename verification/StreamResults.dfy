/**
 What StreamUsage reports for each agent type, in terms of the records of the stream: which
 of them count, what is read from them, and when nothing is reported.
 */
module StreamResults {
  import opened Wrappers
  import opened Lines
  import opened BufferedOutput
  import opened StreamUsage
  import ClaudeResult

  /** The sum of f over the records that p picks. */
  function SumWhere<Rec>(records: seq<Rec>, p: Rec -> bool, f: Rec -> int): int {
    if records == [] then 0
    else (if p(records[0]) then f(records[0]) else 0) + SumWhere(records[1..], p, f)
  }

  lemma {:induction false} SumWhereSnoc<Rec>(records: seq<Rec>, r: Rec, p: Rec -> bool, f: Rec -> int)
    ensures SumWhere(records + [r], p, f) == SumWhere(records, p, f) + if p(r) then f(r) else 0
  {
    if records == [] {
      assert [r][1..] == [] && records + [r] == [r];
    } else {
      assert (records + [r])[1..] == records[1..] + [r];
      SumWhereSnoc(records[1..], r, p, f);
    }
  }

  lemma {:induction false} TotalsAreSums<Rec>(records: seq<Rec>, d: Decoders<Rec>, event: string,
                                              counts: Rec -> (int64, int64), p: Rec -> bool,
                                              input: Rec -> int, output: Rec -> int)
    requires forall r :: p(r) == (d.kind(r) == event)
    requires forall r :: input(r) == counts(r).0 as int && output(r) == counts(r).1 as int
    ensures Totals(records, d, event, counts) == (SumWhere(records, p, input), SumWhere(records, p, output))
  {
    if records != [] {
      var front, r := records[..|records| - 1], records[|records| - 1];
      TotalsAreSums(front, d, event, counts, p, input, output);
      assert records == front + [r];
      SumWhereSnoc(front, r, p, input);
      SumWhereSnoc(front, r, p, output);
    }
  }

  /** What f gives for the last record it finds anything in, or nothing. */
  predicate IsLastText<Rec>(records: seq<Rec>, f: Rec -> string, text: string) {
    if text == "" then forall k :: 0 <= k < |records| ==> f(records[k]) == ""
    else
      exists k :: 0 <= k < |records| && f(records[k]) == text
        && forall j :: k < j < |records| ==> f(records[j]) == ""
  }

  lemma {:induction false} LastTextIs<Rec>(records: seq<Rec>, f: Rec -> string)
    ensures IsLastText(records, f, LastResponse(records, Some(f)))
  {
    var p := r => f(r) != "";
    LastIsLast(records, p);
    assert LastResponse(records, Some(f)) == match Last(records, p) case Some(r) => f(r) case None => "" by {
      SameLast(records, p, r => Some(f).value(r) != "");
    }
    if Last(records, p).Some? {
      var i :| LastAt(records, p, i) && Last(records, p) == Some(records[i]);
      assert f(records[i]) == LastResponse(records, Some(f));
    }
  }

  lemma {:induction false} SameLast<T>(s: seq<T>, p: T -> bool, q: T -> bool)
    requires forall x :: p(x) == q(x)
    ensures Last(s, p) == Last(s, q)
  {
    if s != [] {
      SameLast(s[..|s| - 1], p, q);
    }
  }

  /** A count is shown, less a multiple of 2^64, unless it is one. */
  predicate ShowsCount(usage: Option<Usage>, key: string, n: int) {
    if n % 0x1_0000_0000_0000_0000 == 0 then usage.None? || key !in usage.value
    else
      && usage.Some? && key in usage.value && usage.value[key].Count?
      && (n - usage.value[key].n as int) % 0x1_0000_0000_0000_0000 == 0
  }

  predicate ShowsResponse(usage: Option<Usage>, text: string) {
    if text == "" then usage.None? || "response" !in usage.value
    else usage.Some? && "response" in usage.value && usage.value["response"] == Base64(text)
  }

  /** Two counts, a response, and nothing else; nothing at all when there is none of them. */
  predicate ReportsSums(usage: Option<Usage>, input: int, output: int, text: string) {
    && ShowsCount(usage, "input-tokens", input) && ShowsCount(usage, "output-tokens", output)
    && ShowsResponse(usage, text)
    && (usage.Some? ==> usage.value.Keys <= {"input-tokens", "output-tokens", "response"} && usage.value != map[])
  }

  lemma WrapModulo(n: int)
    ensures (n - Wrap64(n) as int) % 0x1_0000_0000_0000_0000 == 0
    ensures Wrap64(n) == 0 <==> n % 0x1_0000_0000_0000_0000 == 0
  {
  }

  lemma {:induction false} SumsReported<Rec>(records: seq<Rec>, d: Decoders<Rec>, event: string,
                                             counts: Rec -> (int64, int64), text: Rec -> string)
    ensures var (i, o) := Totals(records, d, event, counts);
      ReportsSums(UsageOf(records, d, Sum(event, counts, Some(text))), i, o, LastResponse(records, Some(text)))
  {
    var (i, o) := Totals(records, d, event, counts);
    WrapModulo(i);
    WrapModulo(o);
  }

  // ---------------------------------------------------------------- the agents

  /** Codex: the sums over the completed turns, and the last message. */
  lemma {:induction false} CodexReports<Rec>(records: seq<Rec>, d: Decoders<Rec>) returns (text: string)
    ensures IsLastText(records, d.codexResponse, text)
    ensures var (usage, err) := Outcome("codex", records, d);
      && err.None?
      && ReportsSums(usage,
                     SumWhere(records, r => d.kind(r) == "turn.completed", r => d.codexCounts(r).0 as int),
                     SumWhere(records, r => d.kind(r) == "turn.completed", r => d.codexCounts(r).1 as int), text)
  {
    text := LastResponse(records, Some(d.codexResponse));
    LastTextIs(records, d.codexResponse);
    SumsReported(records, d, "turn.completed", d.codexCounts, d.codexResponse);
    TotalsAreSums(records, d, "turn.completed", d.codexCounts, r => d.kind(r) == "turn.completed",
                  r => d.codexCounts(r).0 as int, r => d.codexCounts(r).1 as int);
  }

  /** Opencode: the sums over the finished steps, and the last text. */
  lemma {:induction false} OpencodeReports<Rec>(records: seq<Rec>, d: Decoders<Rec>) returns (text: string)
    ensures IsLastText(records, d.opencodeResponse, text)
    ensures var (usage, err) := Outcome("opencode", records, d);
      && err.None?
      && ReportsSums(usage,
                     SumWhere(records, r => d.kind(r) == "step_finish", r => d.opencodeCounts(r).0 as int),
                     SumWhere(records, r => d.kind(r) == "step_finish", r => d.opencodeCounts(r).1 as int), text)
  {
    text := LastResponse(records, Some(d.opencodeResponse));
    LastTextIs(records, d.opencodeResponse);
    SumsReported(records, d, "step_finish", d.opencodeCounts, d.opencodeResponse);
    TotalsAreSums(records, d, "step_finish", d.opencodeCounts, r => d.kind(r) == "step_finish",
                  r => d.opencodeCounts(r).0 as int, r => d.opencodeCounts(r).1 as int);
  }

  /** The last record of kind "result", if there is one. */
  ghost predicate IsLastResult<Rec>(records: seq<Rec>, d: Decoders<Rec>, last: Option<Rec>) {
    match last
    case None => forall k :: 0 <= k < |records| ==> d.kind(records[k]) != "result"
    case Some(r) =>
      exists k :: 0 <= k < |records| && records[k] == r && d.kind(r) == "result"
        && forall j :: k < j < |records| ==> d.kind(records[j]) != "result"
  }

  lemma {:induction false} LastResultIs<Rec>(records: seq<Rec>, d: Decoders<Rec>, last: Option<Rec>)
    requires IsLastResult(records, d, last)
    ensures Last(records, r => d.kind(r) == "result") == last
  {
    var p := r => d.kind(r) == "result";
    LastIsLast(records, p);
    if last.Some? {
      var k :| 0 <= k < |records| && records[k] == last.value && p(last.value)
               && forall j :: k < j < |records| ==> !p(records[j]);
      assert p(records[k]);
      var i :| LastAt(records, p, i) && Last(records, p) == Some(records[i]);
      assert i == k;
    }
  }

  function FieldsOf<Rec>(last: Option<Rec>, extract: Rec -> Option<Usage>): Option<Usage> {
    if last.Some? then extract(last.value) else None
  }

  /** Cursor: the fields of the last result. */
  lemma {:induction false} CursorReports<Rec>(records: seq<Rec>, d: Decoders<Rec>, last: Option<Rec>)
    requires IsLastResult(records, d, last)
    ensures Outcome("cursor", records, d) == (FieldsOf(last, d.cursorUsage), None)
  {
    LastResultIs(records, d, last);
  }

  /** Gemini: the fields of the last result, and the last message unless the result has a response of its own. */
  lemma {:induction false} GeminiReports<Rec>(records: seq<Rec>, d: Decoders<Rec>, last: Option<Rec>)
    returns (text: string)
    requires IsLastResult(records, d, last)
    ensures IsLastText(records, d.geminiResponse, text)
    ensures var (usage, err) := Outcome("gemini", records, d); var fields := FieldsOf(last, d.geminiUsage);
      && err.None?
      && if text == "" || (fields.Some? && "response" in fields.value) then usage == fields
         else
           && usage.Some? && usage.value.Keys == (if fields.Some? then fields.value.Keys else {}) + {"response"}
           && usage.value["response"] == Base64(text)
           && (fields.Some? ==> forall key :: key in fields.value ==> usage.value[key] == fields.value[key])
  {
    text := LastResponse(records, Some(d.geminiResponse));
    LastTextIs(records, d.geminiResponse);
    LastResultIs(records, d, last);
  }

  /** Claude Code: the fields of the last result; an error unless it is complete; a mark when it is only too short. */
  lemma {:induction false} ClaudeReports<Rec>(records: seq<Rec>, d: Decoders<Rec>, last: Option<Rec>)
    requires IsLastResult(records, d, last)
    ensures var (usage, err) := Outcome("claude-code", records, d); var fields := FieldsOf(last, d.claudeUsage);
      if last.None? then usage.None? && err.None?
      else
        var c := d.completion(last.value);
        && (err.None? <==> ClaudeResult.Complete(c))
        && (err.Some? ==> err.value == RunFailed(ClaudeResult.FailureMessage(c)))
        && if ClaudeResult.TooShort(c) && !ClaudeResult.ErrorResult(c) then
             && usage.Some? && usage.value.Keys == (if fields.Some? then fields.value.Keys else {}) + {"degenerate"}
             && usage.value["degenerate"] == Literal("true")
             && (fields.Some? ==>
                   forall key :: key in fields.value && key != "degenerate" ==> usage.value[key] == fields.value[key])
           else usage == fields
  {
    LastResultIs(records, d, last);
  }

  /** Any other agent type: nothing. */
  lemma {:induction false} OthersReportNothing<Rec>(agentType: string, records: seq<Rec>, d: Decoders<Rec>)
    requires agentType !in {"claude-code", "codex", "gemini", "opencode", "cursor"}
    ensures Outcome(agentType, records, d) == (None, None)
  {
  }

  // ---------------------------------------------------------------- one run

  /**
   What a run returns: the outcome of its records when the whole input was read and
   forwarded; nothing but the error when a write failed on the way or the read did; and
   the usage with the write error, unless it has an error of its own, when only the
   final flush failed.
   */
  lemma {:induction false} RunReturns<Rec>(
      agentType: string, input: string, readFails: bool, room: nat, d: Decoders<Rec>)
    ensures var (usage, err) := Returned(agentType, input, readFails, room, d);
      var (whole, own) := Outcome(agentType, Records(AllLines(input), d.parse), d);
      var all, early := |Forwarded(input)|, |Forwarded(input)| - HeldAt(0, input);
      && (err == Some(ReadFailed) <==> readFails && early <= room)
      && (readFails || early > room ==> usage.None? && err.Some?)
      && (!readFails && early <= room ==> usage == whole)
      && (!readFails && all <= room ==> err == own)
      && (err == Some(WriteFailed) <==> early > room || (!readFails && all > room && own.None?))
      && (err.Some? && err.value.RunFailed? <==> !readFails && early <= room && own.Some?)
  {
  }

  /** The whole output waits in the buffer exactly when it is no longer than the buffer. */
  lemma {:induction false} AllHeldIff(held: nat, input: string)
    requires held <= BUFFER_SIZE
    ensures var all := held + |Render(AllLines(input))|;
      HeldAt(held, input) <= all && (HeldAt(held, input) == all <==> all <= 4096)
    decreases |input|
  {
    if input == "" {
      assert AllLines("") == [];
    } else {
      var n := NewlineAt(input);
      var h := LineHeld(held, n, n < |input|);
      FirstLine(input);
      assert ([input[..n]] + AllLines(AfterFirst(input)))[1..] == AllLines(AfterFirst(input));
      AllHeldIff(h, AfterFirst(input));
      LineHeldIff(held, n, n < |input|);
    }
  }

  lemma {:induction false} LineHeldIff(held: nat, n: nat, terminated: bool)
    requires held <= BUFFER_SIZE
    ensures LineHeld(held, n, terminated) == held + n + 1 <==> held + n + 1 <= 4096
  {
    HeldIff(held, n + 1);
    HeldIff(held, n);
    HeldIff(Held(held, n), 1);
  }

  lemma {:induction false} HeldIff(held: nat, n: nat)
    requires held <= BUFFER_SIZE
    ensures Held(held, n) == held + n <==> held + n <= 4096
  {
  }
}
