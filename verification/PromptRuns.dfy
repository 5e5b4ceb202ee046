/**
 What a run of keys and answers leaves behind: what the user typed is never lost, the pages
 that are loaded, which requests were made and for which page, and the one outstanding.
 */
module PromptRuns {
  import opened PromptPaging

  function After(h: seq<Action>): (p: Pager)
    ensures InRange(p)
  {
    Run(START, h).pager
  }

  lemma {:induction false} RunSnoc(s: Session, h: seq<Action>, a: Action)
    requires InRange(s.pager)
    ensures Run(s, h + [a]) == Step(Run(s, h), a)
    decreases |h|
  {
    if h == [] {
      assert h + [a] == [a] && [a][1..] == [];
      assert Run(Step(s, a), []) == Step(s, a);
    } else {
      assert (h + [a])[1..] == h[1..] + [a] && (h + [a])[0] == h[0];
      RunSnoc(Step(s, h[0]), h[1..], a);
    }
  }

  lemma {:induction false} RunLast(h: seq<Action>)
    requires h != []
    ensures After(h) == Act(After(h[..|h| - 1]), h[|h| - 1])
  {
    assert h == h[..|h| - 1] + [h[|h| - 1]];
    RunSnoc(START, h[..|h| - 1], h[|h| - 1]);
  }

  // ---------------------------------------------------------------- the text

  /** What the user typed last. */
  function Typed(h: seq<Action>): string {
    if h == [] then ""
    else if h[|h| - 1].Edit? then h[|h| - 1].text
    else Typed(h[..|h| - 1])
  }

  predicate TextKept(p: Pager, typed: string) {
    && OnScreen(p)
    && (p.historyAt == -1 ==> p.input == typed)
    && (p.historyAt >= 0 ==> p.draft == typed)
  }

  lemma {:induction false} TextKeptStep(p: Pager, a: Action, typed: string)
    requires TextKept(p, typed)
    ensures TextKept(Act(p, a), if a.Edit? then a.text else typed)
  {
  }

  /**
   Browsing never loses what was typed: in every run the text on screen is what was typed
   last or, while an earlier prompt is shown, that prompt, and the draft that Down and
   Cancel bring back is what was typed last.
   */
  lemma {:induction false} TextIsNeverLost(h: seq<Action>)
    ensures var p := After(h);
      if p.historyAt == -1 then p.input == Typed(h)
      else p.input == p.history[p.historyAt] && p.draft == Typed(h) && Act(p, Cancel).input == Typed(h)
  {
    TextKeptRun(h);
  }

  lemma {:induction false} TextKeptRun(h: seq<Action>)
    ensures TextKept(After(h), Typed(h))
    decreases |h|
  {
    if h != [] {
      RunLast(h);
      TextKeptRun(h[..|h| - 1]);
      TextKeptStep(After(h[..|h| - 1]), h[|h| - 1], Typed(h[..|h| - 1]));
    }
  }

  // ---------------------------------------------------------------- the pages

  /** The answer is to the request outstanding. */
  predicate Awaited(h: seq<Action>, a: Action) {
    a.Answer? && After(h).requestId != "" && a.reply.requestId == After(h).requestId
  }

  /** Up, with the connection there and nothing outstanding. */
  predicate UpCounts(h: seq<Action>, a: Action) {
    a.Press? && a.connected && After(h).requestId == ""
  }

  /** The loaded pages go when browsing begins anew, is cancelled, or a request is answered with an error. */
  predicate Unloads(h: seq<Action>, a: Action) {
    || (UpCounts(h, a) && After(h).historyAt == -1)
    || a.Cancel?
    || (Awaited(h, a) && a.reply.ErrorReply?)
  }

  function Pages(h: seq<Action>): (pages: seq<Reply>)
    ensures forall r :: r in pages ==> r.Page?
  {
    if h == [] then []
    else
      var before, a := h[..|h| - 1], h[|h| - 1];
      if Unloads(before, a) then []
      else if Awaited(before, a) then Pages(before) + [a.reply]
      else Pages(before)
  }

  /** The prompts of the pages in the order they were submitted, empty ones left out. */
  function PromptsOf(pages: seq<Reply>): seq<string>
    requires forall r :: r in pages ==> r.Page?
  {
    if pages == [] then [] else Texts(pages[|pages| - 1].prompts) + PromptsOf(pages[..|pages| - 1])
  }

  function Texts(prompts: seq<string>): seq<string> {
    if prompts == [] then [] else (if prompts[0] != "" then [prompts[0]] else []) + Texts(prompts[1..])
  }

  /** Where the page before the oldest loaded one is found; "" for the newest, and when there is none before. */
  function CursorOf(pages: seq<Reply>): string
    requires forall r :: r in pages ==> r.Page?
  {
    if pages == [] then "" else pages[|pages| - 1].cursor
  }

  lemma {:induction false} TextsSnoc(prompts: seq<string>, t: string)
    ensures Texts(prompts + [t]) == Texts(prompts) + (if t != "" then [t] else [])
  {
    if prompts == [] {
      assert prompts + [t] == [t] && [t][1..] == [];
    } else {
      assert (prompts + [t])[1..] == prompts[1..] + [t];
      TextsSnoc(prompts[1..], t);
    }
  }

  lemma {:induction false} TextsAre(prompts: seq<string>)
    ensures NonEmpty(prompts) == Texts(prompts)
  {
    if prompts != [] {
      var n := |prompts| - 1;
      TextsAre(prompts[..n]);
      TextsSnoc(prompts[..n], prompts[n]);
      assert prompts == prompts[..n] + [prompts[n]];
    }
  }

  lemma {:induction false} PageTaken(pages: seq<Reply>, r: Reply)
    requires r.Page? && forall q :: q in pages ==> q.Page?
    ensures PromptsOf(pages + [r]) == Texts(r.prompts) + PromptsOf(pages) && CursorOf(pages + [r]) == r.cursor
  {
    assert (pages + [r])[..|pages|] == pages;
  }

  predicate Loaded(p: Pager, pages: seq<Reply>)
    requires forall r :: r in pages ==> r.Page?
  {
    p.history == PromptsOf(pages) && p.cursor == CursorOf(pages)
  }

  /** A page that was awaited. */
  lemma {:induction false} PageLoaded(p: Pager, a: Action, pages: seq<Reply>)
    requires InRange(p) && a.Answer? && a.reply.Page? && Accepts(p, a.reply)
    requires (forall r :: r in pages ==> r.Page?) && Loaded(p, pages)
    ensures Loaded(Act(p, a), pages + [a.reply])
  {
    TextsAre(a.reply.prompts);
    PageTaken(pages, a.reply);
    assert [] + PromptsOf(pages) == PromptsOf(pages);
  }

  /** Anything but a page that was awaited. */
  lemma {:induction false} NoPageLoaded(p: Pager, a: Action)
    requires InRange(p) && !(a.Answer? && a.reply.Page? && Accepts(p, a.reply))
    ensures var q := Act(p, a);
      if (a.Press? && a.connected && p.requestId == "" && p.historyAt == -1) || a.Cancel?
         || (a.Answer? && Accepts(p, a.reply))
      then q.history == [] && q.cursor == ""
      else q.history == p.history && q.cursor == p.cursor
  {
  }

  lemma {:induction false} LoadedStep(h: seq<Action>)
    requires h != [] && Loaded(After(h[..|h| - 1]), Pages(h[..|h| - 1]))
    ensures Loaded(After(h), Pages(h))
  {
    var before, a := h[..|h| - 1], h[|h| - 1];
    RunLast(h);
    if Awaited(before, a) && a.reply.Page? {
      PageLoaded(After(before), a, Pages(before));
    } else {
      NoPageLoaded(After(before), a);
    }
  }

  /** In every run the history is the prompts of the pages answered since it was last unloaded. */
  lemma {:induction false} HistoryIsLoaded(h: seq<Action>)
    ensures After(h).history == PromptsOf(Pages(h)) && After(h).cursor == CursorOf(Pages(h))
    decreases |h|
  {
    if h != [] {
      HistoryIsLoaded(h[..|h| - 1]);
      LoadedStep(h);
    }
  }

  // ---------------------------------------------------------------- the requests

  /** Up asks at the draft for the newest page, and at the oldest loaded prompt for the page before, if there is one. */
  predicate UpAsks(h: seq<Action>, a: Action) {
    UpCounts(h, a) && (After(h).historyAt == -1 || (After(h).historyAt == 0 && CursorOf(Pages(h)) != ""))
  }

  /** A page without a prompt is followed by the one before, if there is one. */
  predicate PageAsks(h: seq<Action>, a: Action) {
    Awaited(h, a) && a.reply.Page? && a.reply.cursor != "" && Texts(a.reply.prompts) == []
  }

  predicate Asks(h: seq<Action>, a: Action) {
    UpAsks(h, a) || PageAsks(h, a)
  }

  function AskedBy(h: seq<Action>): seq<Asked> {
    if h == [] then []
    else
      var before, a := h[..|h| - 1], h[|h| - 1];
      AskedBy(before) +
      if Asks(before, a) then [Asked("prompts-" + a.sending.id, CursorOf(Pages(h)), a.sending.ok)] else []
  }

  /** The request outstanding: the last one made, until it is answered or any key but Up is pressed. */
  function Outstanding(h: seq<Action>): string {
    if h == [] then ""
    else
      var before, a := h[..|h| - 1], h[|h| - 1];
      if Asks(before, a) then "prompts-" + a.sending.id
      else if Awaited(before, a) || a.Down? || a.Edit? || a.OtherKey? || a.Cancel? then ""
      else Outstanding(before)
  }

  /** What an action other than an answer does to the requests. */
  lemma {:induction false} KeyAsks(p: Pager, a: Action)
    requires InRange(p) && !a.Answer?
    ensures var q := Act(p, a);
      if a.Press? && a.connected && p.requestId == ""
         && (p.historyAt == -1 || (p.historyAt == 0 && p.cursor != ""))
      then Made(p, q, a.sending)
      else q.asked == p.asked && q.failed == p.failed && q.requestId == if a.Press? then p.requestId else ""
  {
  }

  /** What an answer does to the requests. */
  lemma {:induction false} AnswerAsks(p: Pager, a: Action)
    requires InRange(p) && a.Answer?
    ensures var q := Act(p, a);
      if !Accepts(p, a.reply) then q == p
      else if a.reply.Page? && a.reply.cursor != "" && Texts(a.reply.prompts) == [] then Made(p, q, a.sending)
      else q.asked == p.asked && q.failed == p.failed && q.requestId == ""
  {
    if a.reply.Page? {
      TextsAre(a.reply.prompts);
    }
  }

  predicate Made(p: Pager, q: Pager, s: Sending) {
    && q.requestId == "prompts-" + s.id && q.failed == (p.failed || !s.ok)
    && q.asked == p.asked + [Asked("prompts-" + s.id, q.cursor, s.ok)]
  }

  lemma {:induction false} AskedStep(h: seq<Action>)
    requires h != []
    ensures var before, a, p := h[..|h| - 1], h[|h| - 1], After(h[..|h| - 1]);
      && After(h).asked == p.asked +
           (if Asks(before, a) then [Asked("prompts-" + a.sending.id, CursorOf(Pages(h)), a.sending.ok)] else [])
      && After(h).requestId == (
           if Asks(before, a) then "prompts-" + a.sending.id
           else if Awaited(before, a) || a.Down? || a.Edit? || a.OtherKey? || a.Cancel? then ""
           else p.requestId)
      && After(h).failed == (p.failed || (Asks(before, a) && !a.sending.ok))
  {
    var before, a := h[..|h| - 1], h[|h| - 1];
    RunLast(h);
    HistoryIsLoaded(before);
    HistoryIsLoaded(h);
    if a.Answer? {
      AnswerAsks(After(before), a);
    } else {
      KeyAsks(After(before), a);
    }
  }

  predicate NotWritten(asked: seq<Asked>) {
    exists k :: 0 <= k < |asked| && !asked[k].ok
  }

  /**
   In every run the requests made are those of Up at the draft and at the oldest loaded
   prompt, and of answers without a prompt, each for the page before the oldest loaded
   one; at most one is outstanding; and the terminal fails when one could not be written.
   */
  lemma {:induction false} RequestsFollowPages(h: seq<Action>)
    ensures After(h).asked == AskedBy(h) && After(h).requestId == Outstanding(h)
    ensures After(h).failed <==> NotWritten(AskedBy(h))
    decreases |h|
  {
    if h != [] {
      RequestsFollowPages(h[..|h| - 1]);
      AskedStep(h);
      OneMoreAsked(AskedBy(h[..|h| - 1]), AskedBy(h));
    }
  }

  lemma {:induction false} OneMoreAsked(before: seq<Asked>, after: seq<Asked>)
    requires before <= after && |after| <= |before| + 1
    ensures NotWritten(after) <==> NotWritten(before) || (|after| > |before| && !after[|before|].ok)
  {
    if NotWritten(before) {
      var k :| 0 <= k < |before| && !before[k].ok;
      assert !after[k].ok;
    }
  }
}
