/**
 Browsing earlier prompts with the Up key: internal/cli/session_terminal_prompts.go.
 Prompts arrive in pages, the newest page first; inside a page they are in the
 order they were submitted.
 */
module PromptPaging {

  const PROMPT_REQUEST_PREFIX := "prompts-"

  /** A request for a page of prompts, and whether it could be written. */
  datatype Asked = Asked(id: string, cursor: string, ok: bool)

  datatype Pager = Pager(history: seq<string>, historyAt: int, cursor: string, requestId: string,
                         draft: string, input: string, failed: bool, asked: seq<Asked>)

  datatype Reply = Page(requestId: string, cursor: string, prompts: seq<string>) | ErrorReply(requestId: string)

  // The environment of one request: the fresh id, and whether writing the request succeeds.
  datatype Sending = Sending(id: string, ok: bool)

  const INITIAL := Pager([], -1, "", "", "", "", false, [])

  function NonEmpty(prompts: seq<string>): seq<string> {
    if prompts == [] then []
    else NonEmpty(prompts[..|prompts| - 1]) + (if prompts[|prompts| - 1] == "" then [] else [prompts[|prompts| - 1]])
  }

  // ---------------------------------------------------------------- the transitions

  function Request(p: Pager, s: Sending): Pager {
    var id := PROMPT_REQUEST_PREFIX + s.id;
    p.(requestId := id, failed := p.failed || !s.ok, asked := p.asked + [Asked(id, p.cursor, s.ok)])
  }

  function Show(p: Pager, at: nat): Pager
    requires at < |p.history|
  {
    p.(historyAt := at, input := p.history[at])
  }

  function Previous(p: Pager, connected: bool, s: Sending): Pager
    requires -1 <= p.historyAt < |p.history|
  {
    if p.requestId != "" || !connected then p
    else if p.historyAt == -1 then Request(p.(draft := p.input, history := [], cursor := ""), s)
    else if p.historyAt > 0 then Show(p, p.historyAt - 1)
    else if p.cursor != "" then Request(p, s)
    else p
  }

  function Reset(p: Pager): Pager {
    p.(requestId := "", cursor := "", history := [], input := if p.historyAt >= 0 then p.draft else p.input,
       historyAt := -1, draft := "")
  }

  predicate Accepts(p: Pager, r: Reply) {
    p.requestId != "" && r.requestId == p.requestId
  }

  function Receive(p: Pager, r: Reply, s: Sending): Pager {
    if !Accepts(p, r) then p
    else if r.ErrorReply? then Reset(p)
    else
      var prompts := NonEmpty(r.prompts);
      var q := p.(requestId := "", cursor := r.cursor);
      if prompts == [] then if r.cursor != "" then Request(q, s) else q
      else Show(q.(history := prompts + q.history), |prompts| - 1)
  }

  /** The Down key: towards newer prompts, and past the newest one back to the draft. */
  function Next(p: Pager): Pager
    requires -1 <= p.historyAt < |p.history|
  {
    if p.historyAt == -1 then p
    else if p.historyAt < |p.history| - 1 then Show(p, p.historyAt + 1)
    else p.(historyAt := -1, input := p.draft)
  }

  /** Editing or submitting leaves the browsing mode but keeps the loaded pages. */
  function Leave(p: Pager, input: string): Pager {
    p.(requestId := "", historyAt := -1, input := input)
  }

  // ---------------------------------------------------------------- the program

  class PromptHistory {
    var history: seq<string>
    var historyAt: int
    var promptCursor: string
    var promptRequestID: string
    var draft: string
    var input: string
    var failed: bool
    var asked: seq<Asked>

    function State(): Pager
      reads this
    {
      Pager(history, historyAt, promptCursor, promptRequestID, draft, input, failed, asked)
    }

    constructor ()
      ensures State() == INITIAL
    {
      history, historyAt, promptCursor, promptRequestID, draft, input := [], -1, "", "", "", "";
      failed, asked := false, [];
    }

    method PreviousInput(connected: bool, s: Sending)
      requires -1 <= historyAt < |history|
      modifies this
      ensures State() == Previous(old(State()), connected, s)
    {
      if promptRequestID != "" || !connected {
        return;
      }
      if historyAt == -1 {
        draft := input;
        history := [];
        promptCursor := "";
        RequestPromptHistory(s);
        return;
      }
      if historyAt > 0 {
        historyAt := historyAt - 1;
        input := history[historyAt];
      } else if promptCursor != "" {
        RequestPromptHistory(s);
      }
    }

    method RequestPromptHistory(s: Sending)
      modifies this
      ensures State() == Request(old(State()), s)
    {
      promptRequestID := PROMPT_REQUEST_PREFIX + s.id;
      asked := asked + [Asked(promptRequestID, promptCursor, s.ok)];
      if !s.ok {
        failed := true;
      }
    }

    method ReceivePromptHistory(r: Reply, s: Sending)
      modifies this
      ensures State() == Receive(old(State()), r, s)
    {
      if promptRequestID == "" || r.requestId != promptRequestID {
        return;
      }
      promptRequestID := "";
      if r.ErrorReply? {
        ResetPromptHistory();
        return;
      }
      promptCursor := r.cursor;
      var prompts: seq<string> := [];
      for i := 0 to |r.prompts|
        invariant prompts == NonEmpty(r.prompts[..i])
        invariant State() == old(State()).(requestId := "", cursor := r.cursor)
      {
        assert r.prompts[..i + 1][..i] == r.prompts[..i];
        if r.prompts[i] != "" {
          prompts := prompts + [r.prompts[i]];
        }
      }
      assert r.prompts[..|r.prompts|] == r.prompts;
      if |prompts| == 0 {
        if promptCursor != "" {
          RequestPromptHistory(s);
        }
        return;
      }
      history := prompts + history;
      historyAt := |prompts| - 1;
      input := history[historyAt];
    }

    method ResetPromptHistory()
      modifies this
      ensures State() == Reset(old(State()))
    {
      promptRequestID := "";
      promptCursor := "";
      history := [];
      if historyAt >= 0 {
        input := draft;
      }
      historyAt := -1;
      draft := "";
    }

    method NextInput()
      requires -1 <= historyAt < |history|
      modifies this
      ensures State() == Next(old(State()))
    {
      if historyAt == -1 {
        return;
      }
      if historyAt < |history| - 1 {
        historyAt := historyAt + 1;
        input := history[historyAt];
      } else {
        historyAt := -1;
        input := draft;
      }
    }

    /** One key press or event: the Down key, like an edit, first gives up a request in progress. */
    method Handle(a: Action)
      requires InRange(State())
      modifies this
      ensures State() == Act(old(State()), a)
    {
      match a
      case Press(connected, s) => PreviousInput(connected, s);
      case Answer(r, s) => ReceivePromptHistory(r, s);
      case Down =>
        promptRequestID := "";
        NextInput();
      case Edit(text) =>
        promptRequestID := "";
        historyAt := -1;
        input := text;
      case OtherKey => promptRequestID := "";
      case Cancel => ResetPromptHistory();
    }

    /** Any sequence of presses, pages and edits, with what was received and put on screen. */
    method Browse(actions: seq<Action>) returns (ghost session: Session)
      requires InRange(State())
      modifies this
      ensures session == Run(Session(old(State()), [], []), actions) && session.pager == State()
    {
      session := Session(State(), [], []);
      for i := 0 to |actions|
        invariant session.pager == State() && InRange(State())
        invariant Run(session, actions[i..]) == Run(Session(old(State()), [], []), actions)
      {
        assert actions[i..][1..] == actions[i + 1..];
        session := Step(session, actions[i]);
        Handle(actions[i]);
      }
    }
  }

  // ---------------------------------------------------------------- runs

  datatype Action =
    | Press(connected: bool, sending: Sending)
    | Answer(reply: Reply, sending: Sending)
    | Down
    | Edit(text: string)
    | OtherKey                  // gives up a request in progress, and leaves the text alone
    | Cancel

  predicate InRange(p: Pager) {
    -1 <= p.historyAt < |p.history|
  }

  function Act(p: Pager, a: Action): (q: Pager)
    requires InRange(p)
    ensures InRange(q)
  {
    match a
    case Press(connected, s) => Previous(p, connected, s)
    case Answer(r, s) => Receive(p, r, s)
    case Down => Next(p.(requestId := ""))
    case Edit(text) => Leave(p, text)
    case OtherKey => p.(requestId := "")
    case Cancel => Reset(p)
  }

  /** The pager, every page it accepted (first to last), and every prompt it put on screen. */
  datatype Session = Session(pager: Pager, pages: seq<seq<string>>, shown: seq<string>)

  const START := Session(INITIAL, [], [])

  predicate Puts(p: Pager, a: Action) {
    match a
    case Press(connected, _) => p.requestId == "" && connected && p.historyAt > 0
    case Answer(r, _) => Accepts(p, r) && r.Page? && NonEmpty(r.prompts) != []
    case _ => false
  }

  function Step(s: Session, a: Action): Session
    requires InRange(s.pager)
  {
    var q := Act(s.pager, a);
    Session(q,
            if a.Answer? && a.reply.Page? && Accepts(s.pager, a.reply) then s.pages + [a.reply.prompts] else s.pages,
            if Puts(s.pager, a) then s.shown + [q.input] else s.shown)
  }

  function Run(s: Session, actions: seq<Action>): (t: Session)
    requires InRange(s.pager)
    ensures InRange(t.pager)
    decreases |actions|
  {
    if actions == [] then s else Run(Step(s, actions[0]), actions[1..])
  }

  /** All non-empty prompts of the pages in the order they were submitted: later pages hold older prompts. */
  function AllPrompts(pages: seq<seq<string>>): seq<string> {
    if pages == [] then [] else NonEmpty(pages[|pages| - 1]) + AllPrompts(pages[..|pages| - 1])
  }

  function Reverse(s: seq<string>): seq<string> {
    if s == [] then [] else Reverse(s[1..]) + [s[0]]
  }

  /** Only Up presses, and answers other than errors. */
  predicate Browsing(actions: seq<Action>) {
    forall i :: 0 <= i < |actions| ==> actions[i].Press? || (actions[i].Answer? && actions[i].reply.Page?)
  }

  predicate ShownInOrder(s: Session) {
    && InRange(s.pager)
    && s.pager.history == AllPrompts(s.pages)
    && s.shown == (if s.pager.historyAt == -1 then [] else Reverse(s.pager.history[s.pager.historyAt..]))
    && (s.pager.historyAt == -1 ==> s.pager.history == [])
    && (s.pager.requestId != "" ==> s.pager.historyAt <= 0)
  }

  lemma {:induction false} ShowOlder(history: seq<string>, at: nat)
    requires 0 < at < |history|
    ensures Reverse(history[at - 1..]) == Reverse(history[at..]) + [history[at - 1]]
  {
    assert history[at - 1..][1..] == history[at..];
  }

  lemma {:induction false} PressShowsInOrder(s: Session, a: Action)
    requires ShownInOrder(s) && a.Press?
    ensures ShownInOrder(Step(s, a))
  {
    if Puts(s.pager, a) {
      ShowOlder(s.pager.history, s.pager.historyAt);
    } else {
      PressPutsNothing(s, a);
    }
  }

  lemma {:induction false} PressPutsNothing(s: Session, a: Action)
    requires ShownInOrder(s) && a.Press? && !Puts(s.pager, a)
    ensures ShownInOrder(Step(s, a))
  {
  }

  lemma {:induction false} AnswerShowsInOrder(s: Session, a: Action)
    requires ShownInOrder(s) && a.Answer? && a.reply.Page?
    ensures ShownInOrder(Step(s, a))
  {
    if Accepts(s.pager, a.reply) {
      PageExtends(s.pages, a.reply.prompts);
      if NonEmpty(a.reply.prompts) == [] {
        EmptyPage(s, a);
      } else {
        FullPage(s, a);
        PageJoins(s, NonEmpty(a.reply.prompts));
      }
    }
  }

  lemma {:induction false} EmptyPage(s: Session, a: Action)
    requires InRange(s.pager) && a.Answer? && a.reply.Page? && Accepts(s.pager, a.reply)
    requires NonEmpty(a.reply.prompts) == []
    ensures var t := Step(s, a);
      && t.pager.history == s.pager.history == NonEmpty(a.reply.prompts) + s.pager.history
      && t.pager.historyAt == s.pager.historyAt && t.shown == s.shown && t.pages == s.pages + [a.reply.prompts]
  {
  }

  lemma {:induction false} FullPage(s: Session, a: Action)
    requires InRange(s.pager) && a.Answer? && a.reply.Page? && Accepts(s.pager, a.reply)
    requires NonEmpty(a.reply.prompts) != []
    ensures var t, prompts := Step(s, a), NonEmpty(a.reply.prompts);
      && t.pager.history == prompts + s.pager.history
      && t.pager.historyAt == |prompts| - 1 && t.pager.requestId == ""
      && t.shown == s.shown + [prompts[|prompts| - 1]] && t.pages == s.pages + [a.reply.prompts]
  {
  }

  lemma {:induction false} PageExtends(pages: seq<seq<string>>, page: seq<string>)
    ensures AllPrompts(pages + [page]) == NonEmpty(page) + AllPrompts(pages)
  {
    assert (pages + [page])[..|pages|] == pages;
  }

  /** A page is only awaited with nothing shown, or with its newer neighbour shown to the end: the two join up. */
  lemma {:induction false} PageJoins(s: Session, prompts: seq<string>)
    requires ShownInOrder(s) && prompts != [] && s.pager.historyAt <= 0
    ensures Reverse((prompts + s.pager.history)[|prompts| - 1..]) == s.shown + [prompts[|prompts| - 1]]
  {
    var h := prompts + s.pager.history;
    assert h[|prompts| - 1..][1..] == s.pager.history;
    assert s.pager.history[0..] == s.pager.history;
  }

  /**
   Page independence.  However the prompts are cut into pages, over any run of
   Up presses and page answers the prompts put on screen are the newest ones of
   everything received, newest first, none skipped and none repeated.
   */
  lemma {:induction false} BrowsingShowsInOrder(s: Session, actions: seq<Action>)
    requires ShownInOrder(s) && Browsing(actions)
    ensures ShownInOrder(Run(s, actions))
    decreases |actions|
  {
    if actions != [] {
      if actions[0].Press? {
        PressShowsInOrder(s, actions[0]);
      } else {
        AnswerShowsInOrder(s, actions[0]);
      }
      BrowsingShowsInOrder(Step(s, actions[0]), actions[1..]);
    }
  }

  lemma {:induction false} ReversePrefix(s: seq<string>, at: nat)
    requires at <= |s|
    ensures Reverse(s[at..]) <= Reverse(s) && |Reverse(s[at..])| == |s| - at
    decreases at
  {
    if at == 0 {
      assert s[0..] == s;
      ReverseLength(s);
    } else {
      ReversePrefix(s[1..], at - 1);
      assert s[1..][at - 1..] == s[at..];
      assert Reverse(s) == Reverse(s[1..]) + [s[0]];
    }
  }

  lemma {:induction false} ReverseLength(s: seq<string>)
    ensures |Reverse(s)| == |s|
  {
    if s != [] {
      ReverseLength(s[1..]);
    }
  }

  lemma {:induction false} PageIndependence(a: seq<Action>, b: seq<Action>)
    requires Browsing(a) && Browsing(b)
    ensures var x, y := Run(START, a), Run(START, b);
      && x.shown <= Reverse(AllPrompts(x.pages))
      && (AllPrompts(x.pages) == AllPrompts(y.pages) && |x.shown| == |y.shown| ==> x.shown == y.shown)
  {
    ShownIsPrefix(a);
    ShownIsPrefix(b);
  }

  lemma {:induction false} ShownIsPrefix(a: seq<Action>)
    requires Browsing(a)
    ensures var x := Run(START, a);
      && x.shown <= Reverse(AllPrompts(x.pages))
      && x.shown == Reverse(AllPrompts(x.pages))[..|x.shown|]
  {
    BrowsingShowsInOrder(START, a);
    var x := Run(START, a);
    if x.pager.historyAt >= 0 {
      ReversePrefix(x.pager.history, x.pager.historyAt);
    }
  }

  // ---------------------------------------------------------------- back again

  /** What is on screen while browsing is the prompt at the position; a page awaited from the draft finds the draft. */
  predicate OnScreen(p: Pager) {
    && InRange(p)
    && (p.historyAt >= 0 ==> p.input == p.history[p.historyAt])
    && (p.requestId != "" ==> p.historyAt <= 0)
    && (p.requestId != "" && p.historyAt == -1 ==> p.draft == p.input && p.history == [])
  }

  lemma {:induction false} OnScreenOverRun(s: Session, actions: seq<Action>)
    requires OnScreen(s.pager)
    ensures OnScreen(Run(s, actions).pager)
    decreases |actions|
  {
    if actions != [] {
      OnScreenOverRun(Step(s, actions[0]), actions[1..]);
    }
  }

  /**
   Down undoes Up.  In every run, whatever came before: when a press or a page puts an
   older prompt on screen, the Down key restores the text that was there, be it a
   prompt or the draft, and the distance from the newest prompt.
   */
  lemma {:induction false} DownUndoesUp(actions: seq<Action>, a: Action)
    requires Puts(Run(START, actions).pager, a)
    ensures var p := Run(START, actions).pager; var q := Act(Act(p, a), Down);
      && q.input == p.input && (q.historyAt == -1 <==> p.historyAt == -1)
      && (p.historyAt >= 0 ==> |q.history| - q.historyAt == |p.history| - p.historyAt)
  {
    OnScreenOverRun(START, actions);
    var p := Run(START, actions).pager;
    if a.Answer? && p.historyAt == 0 {
      assert (NonEmpty(a.reply.prompts) + p.history)[|NonEmpty(a.reply.prompts)|] == p.history[0];
    }
  }
}
