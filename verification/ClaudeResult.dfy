/** The classification of a Claude Code result line: internal/claudecode/result.go. */
module ClaudeResult {
  import opened Text

  const DEGENERATE_TURN_FLOOR := 10
  const DEGENERATE_CHAR_FLOOR := 200

  // The text is a sequence of characters, not bytes: its length is the rune count of the program.
  datatype Result = Result(subtype: string, isError: bool, stopReason: string, terminalReason: string,
                           text: string, numTurns: int)

  datatype Status = Completed | Error | Incomplete

  datatype Detail = Subtype(s: string) | IsError | TerminalReason(s: string) | StopReason(s: string)
                  | DegenerateOutput(turns: int, chars: nat)

  datatype Message = Unsuccessful(details: seq<Detail>) | DegenerateMessage(details: seq<Detail>)
                   | RunIncomplete(details: seq<Detail>) | NoMessage

  function TextLen(r: Result): nat {
    |TrimSpace(r.text)|
  }

  predicate IsDegenerateOutput(r: Result) {
    r.numTurns >= DEGENERATE_TURN_FLOOR && TextLen(r) < DEGENERATE_CHAR_FLOOR
  }

  function StatusOf(r: Result): Status {
    if r.isError || r.subtype != "success" then Error
    else if r.terminalReason != "" && r.terminalReason != "completed" then Incomplete
    else if r.stopReason != "" && r.stopReason != "end_turn" then Incomplete
    else if IsDegenerateOutput(r) then Incomplete
    else Completed
  }

  function Details(r: Result): seq<Detail> {
    if StatusOf(r) == Error then
      (if r.subtype != "" then [Subtype(r.subtype)] else []) + (if r.isError then [IsError] else [])
    else
      (if r.terminalReason != "" && r.terminalReason != "completed" then [TerminalReason(r.terminalReason)] else [])
      + (if r.stopReason != "" && r.stopReason != "end_turn" then [StopReason(r.stopReason)] else [])
      + (if IsDegenerateOutput(r) then [DegenerateOutput(r.numTurns, TextLen(r))] else [])
  }

  function FailureMessage(r: Result): Message {
    match StatusOf(r)
    case Error => Unsuccessful(Details(r))
    case Incomplete => if IsDegenerateOutput(r) then DegenerateMessage(Details(r)) else RunIncomplete(Details(r))
    case Completed => NoMessage
  }

  /**
   Every run that is not completed gets a message, an incomplete one always says
   why, and only an error result that carries neither a subtype nor the error
   flag gets a message without a reason.
   */
  lemma FailureExplained(r: Result)
    ensures FailureMessage(r) == NoMessage <==> StatusOf(r) == Completed
    ensures StatusOf(r) == Incomplete ==> FailureMessage(r).details != []
    ensures StatusOf(r) == Error ==> (FailureMessage(r).details == [] <==> r.subtype == "" && !r.isError)
    ensures FailureMessage(r).DegenerateMessage? ==>
      DegenerateOutput(r.numTurns, TextLen(r)) in FailureMessage(r).details
    ensures StatusOf(r) == Error ==> forall d :: d in Details(r) ==> !d.DegenerateOutput?
  {
  }

  // ---------------------------------------------------------------- the verdict on the fields

  /** A successful result that gives no other reason, and an answer that is long enough for the turns it took. */
  predicate Complete(c: Result) {
    && !c.isError && c.subtype == "success"
    && (c.terminalReason == "" || c.terminalReason == "completed")
    && (c.stopReason == "" || c.stopReason == "end_turn")
    && !TooShort(c)
  }

  predicate TooShort(c: Result) {
    c.numTurns >= 10 && |TrimSpace(c.text)| < 200
  }

  predicate ErrorResult(c: Result) {
    c.isError || c.subtype != "success"
  }

  lemma {:induction false} StatusIff(r: Result)
    ensures StatusOf(r) == Error <==> ErrorResult(r)
    ensures StatusOf(r) == Completed <==> Complete(r)
    ensures StatusOf(r) == Incomplete <==> !ErrorResult(r) && !Complete(r)
  {
  }

  /** The details of an error: the subtype, if there is one, and the error flag, if it is set. */
  predicate ErrorDetail(r: Result, d: Detail) {
    || (r.subtype != "" && d == Subtype(r.subtype))
    || (r.isError && d == IsError)
  }

  /** The details of an incomplete run: every reason that is not the normal one. */
  predicate IncompleteDetail(r: Result, d: Detail) {
    || (r.terminalReason !in {"", "completed"} && d == TerminalReason(r.terminalReason))
    || (r.stopReason !in {"", "end_turn"} && d == StopReason(r.stopReason))
    || (TooShort(r) && d == DegenerateOutput(r.numTurns, |TrimSpace(r.text)|))
  }

  function Place(d: Detail): nat {
    match d
    case Subtype(_) => 0
    case IsError => 1
    case TerminalReason(_) => 2
    case StopReason(_) => 3
    case DegenerateOutput(_, _) => 4
  }

  predicate InPlace(details: seq<Detail>) {
    forall i, j :: 0 <= i < j < |details| ==> Place(details[i]) < Place(details[j])
  }

  /** Which message a result gets, and exactly which details it carries, in order. */
  lemma {:induction false} MessageIs(r: Result)
    ensures InPlace(Details(r))
    ensures var m := FailureMessage(r);
      if ErrorResult(r) then m.Unsuccessful? && forall d :: d in m.details <==> ErrorDetail(r, d)
      else if Complete(r) then m == NoMessage
      else if TooShort(r) then m.DegenerateMessage? && forall d :: d in m.details <==> IncompleteDetail(r, d)
      else m.RunIncomplete? && forall d :: d in m.details <==> IncompleteDetail(r, d)
  {
    StatusIff(r);
  }

  /** Surrounding white space never makes an answer long enough. */
  lemma {:induction false} PaddingIsNotAnAnswer(r: Result, left: string, right: string)
    requires forall c :: c in left + right ==> IsSpace(c)
    ensures TextLen(r.(text := left + r.text + right)) == TextLen(r)
  {
    TrimSpacePad(left, r.text, right);
  }
}
