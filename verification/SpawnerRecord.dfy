/**
 What a cycle does with every item, in terms of the list of Tasks it began with and of
 what each of its calls was answered: which items are kept, deleted, tried and held back,
 what becomes of each, and what the status says in the end.
 */
module SpawnerRecord {
  import opened Spawner
  import opened SpawnerItems
  import opened Wrappers

  /** An item that was matched against the list, and whether the deletion, if there was one, succeeded. */
  datatype Match = Match(item: Item, deleted: bool)

  /** An item that was tried: the answer to its create, and after a conflict the Task that was read. */
  datatype Attempt = Attempt(item: Item, reply: Reply, found: Option<Task>)

  /** What an observer of the calls notes about the cycle in progress. */
  datatype Notes = Notes(
    items: seq<Item>, listing: map<string, Task>, total: int, matches: seq<Match>, attempts: seq<Attempt>)

  const NONE := Notes([], map[], 0, [], [])

  function Note(n: Notes, w: World, i: Input): Notes
    requires Enabled(w, i)
  {
    match i
    case Begin(items) => Notes(items, w.tasks, w.status.total, [], [])
    case Scan(ok, _) => n.(matches := n.matches + [Match(w.cycle.todo[0], ok)])
    case Create(reply) =>
      if reply == Conflict then n else n.(attempts := n.attempts + [Attempt(w.cycle.todo[0], reply, None)])
    case Confirm(getOk) =>
      var name := w.cycle.todo[0].name.value;
      var found := if getOk && name in w.tasks then Some(w.tasks[name]) else None;
      n.(attempts := n.attempts + [Attempt(w.cycle.todo[0], Conflict, found)])
    case _ => n
  }

  function NotesOf(n: Notes, w: World, inputs: seq<Input>): Notes
    requires Possible(w, inputs)
    decreases |inputs|
  {
    if inputs == [] then n else NotesOf(Note(n, w, inputs[0]), Step(w, inputs[0]), inputs[1..])
  }

  // ---------------------------------------------------------------- the rules

  predicate IsOwn(spec: Spec, t: Task) {
    t.spawnerLabel == spec.name && (t.controllers == [] || spec.uid in t.controllers)
  }

  /** Ownership of a Task that was not in the list. */
  predicate IsOurs(spec: Spec, t: Task) {
    (t.controllers != [] && spec.uid in t.controllers) || (t.controllers == [] && t.spawnerLabel == spec.name)
  }

  predicate Finished(t: Task) {
    t.phase == Succeeded || t.phase == Failed
  }

  predicate Outlives(x: Item, t: Task) {
    x.trigger.Some? && Finished(t) && t.completion.Some? && x.trigger.value > t.completion.value
  }

  function OwnIn(spec: Spec, listing: map<string, Task>): map<string, Task> {
    map n | n in listing && IsOwn(spec, listing[n]) :: listing[n]
  }

  function Unfinished(spec: Spec, listing: map<string, Task>): nat {
    |set n | n in listing && IsOwn(spec, listing[n]) && !Finished(listing[n])|
  }

  /** It has no Task of the spawner in the list, or one that it outlives and that was deleted. */
  predicate BecomesNew(spec: Spec, listing: map<string, Task>, m: Match) {
    m.item.name.Some? &&
      var n := m.item.name.value;
      n !in listing || !IsOwn(spec, listing[n]) || (Outlives(m.item, listing[n]) && m.deleted)
  }

  function NewOnes(spec: Spec, listing: map<string, Task>, matches: seq<Match>): seq<Item> {
    if matches == [] then []
    else
      var m := matches[|matches| - 1];
      NewOnes(spec, listing, matches[..|matches| - 1]) + if BecomesNew(spec, listing, m) then [m.item] else []
  }

  /** The others stay: with their Task, or with one whose deletion failed. */
  function Stayers(spec: Spec, listing: map<string, Task>, matches: seq<Match>): seq<Outcome> {
    if matches == [] then []
    else
      var m := matches[|matches| - 1];
      var before := Stayers(spec, listing, matches[..|matches| - 1]);
      if BecomesNew(spec, listing, m) || m.item.name.None? || m.item.name.value !in listing then before
      else before + [Outcome(m.item, if Outlives(m.item, listing[m.item.name.value]) then DeleteFailed else Kept)]
  }

  /** In discovery order, or by rank and in discovery order within a rank. */
  ghost predicate Arranged(spec: Spec, found: seq<Item>, s: seq<Item>) {
    if spec.prioritized then SortedByRank(s) && forall r: nat :: OfRank(s, r) == OfRank(found, r) else s == found
  }

  predicate Fails(spec: Spec, a: Attempt) {
    || a.reply == NotPrepared || a.reply.Failure?
    || (a.reply == Conflict && (a.found.None? || !IsOurs(spec, a.found.value)))
  }

  /** The fate of a tried item, as its answers have it. */
  predicate Answered(spec: Spec, a: Attempt, o: Outcome) {
    && o.item == a.item
    && (o.fate == Created <==> a.reply == Accepted)
    && (o.fate == Duplicate <==> a.reply == Conflict && a.found.Some? && IsOurs(spec, a.found.value))
    && (o.fate == Errored <==> Fails(spec, a))
  }

  function AcceptedIn(attempts: seq<Attempt>): nat {
    if attempts == [] then 0
    else AcceptedIn(attempts[..|attempts| - 1]) + if attempts[|attempts| - 1].reply == Accepted then 1 else 0
  }

  /** The guards of the create loop; the first compares the count as an int32. */
  predicate Reached(spec: Spec, active: nat, total: int) {
    || (spec.maxConcurrency > 0 && (active + 0x8000_0000) % 0x1_0000_0000 - 0x8000_0000 >= spec.maxConcurrency)
    || (spec.maxTotal > 0 && total >= spec.maxTotal)
  }

  /** The limits as they stand before attempt k. */
  predicate ReachedAt(spec: Spec, n: Notes, k: nat)
    requires k <= |n.attempts|
  {
    var accepted := AcceptedIn(n.attempts[..k]);
    Reached(spec, Unfinished(spec, n.listing) + accepted, n.total + accepted)
  }

  // ---------------------------------------------------------------- what holds at every point of a cycle

  /** The items matched so far are the discovered ones, in order, and each went where the rules send it. */
  ghost predicate MatchedAs(spec: Spec, c: Cycle, n: Notes) {
    && |n.matches| <= |n.items| && (forall k :: 0 <= k < |n.matches| ==> n.matches[k].item == n.items[k])
    && c.kept == Stayers(spec, n.listing, n.matches)
    && if c.stage == Scanning then
         c.todo == n.items[|n.matches|..] && c.newItems == NewOnes(spec, n.listing, n.matches)
       else
         |n.matches| == |n.items| && Arranged(spec, NewOnes(spec, n.listing, n.matches), c.newItems)
  }

  /** Each tried item has the fate its answers gave it; the rest is held back, if a limit was reached, and only then. */
  predicate TriedAs(spec: Spec, c: Cycle, n: Notes) {
    && |n.attempts| <= |c.tried|
    && (forall k :: 0 <= k < |n.attempts| ==> Answered(spec, n.attempts[k], c.tried[k]))
    && (forall k :: 0 <= k < |n.attempts| ==> !ReachedAt(spec, n, k))
    && (forall k :: |n.attempts| <= k < |c.tried| ==> c.tried[k].fate == Blocked)
    && (|n.attempts| < |c.tried| ==> c.stage == Reporting && ReachedAt(spec, n, |n.attempts|))
    && (c.stage == Scanning ==> c.tried == [])
    && (c.stage == Confirming ==> !ReachedAt(spec, n, |n.attempts|))
  }

  predicate Counted(spec: Spec, c: Cycle, n: Notes) {
    && c.discovered == n.items && c.base == n.total && c.known == OwnIn(spec, n.listing)
    && c.created == AcceptedIn(n.attempts) && c.active == Unfinished(spec, n.listing) + AcceptedIn(n.attempts)
    && (c.errors > 0 <==> exists k :: 0 <= k < |n.attempts| && Fails(spec, n.attempts[k]))
  }

  ghost predicate Recorded(w: World, n: Notes) {
    w.cycle.stage != Idle ==>
      MatchedAs(w.spec, w.cycle, n) && TriedAs(w.spec, w.cycle, n) && Counted(w.spec, w.cycle, n)
  }

  lemma {:induction false} SameRules(spec: Spec)
    ensures forall t :: Owned(spec, t) <==> IsOwn(spec, t)
    ensures forall t :: Belongs(spec, t) <==> IsOurs(spec, t)
    ensures forall x, t :: Retriggers(x, t) <==> Outlives(x, t)
  {
  }

  lemma {:induction false} BeginRecorded(w: World, n: Notes, items: seq<Item>)
    requires Enabled(w, Begin(items))
    ensures Recorded(Step(w, Begin(items)), Note(n, w, Begin(items)))
  {
    SameRules(w.spec);
    assert Known(w.spec, w.tasks) == OwnIn(w.spec, w.tasks);
    assert LiveNames(w.spec, w.tasks) ==
      set n | n in w.tasks && IsOwn(w.spec, w.tasks[n]) && !Finished(w.tasks[n]);
  }

  lemma {:induction false} MatchSnoc(spec: Spec, listing: map<string, Task>, matches: seq<Match>, m: Match)
    ensures NewOnes(spec, listing, matches + [m]) ==
      NewOnes(spec, listing, matches) + if BecomesNew(spec, listing, m) then [m.item] else []
    ensures m.item.name.Some? ==>
      Stayers(spec, listing, matches + [m]) == (
        Stayers(spec, listing, matches) +
        if BecomesNew(spec, listing, m) then []
        else [Outcome(m.item, if Outlives(m.item, listing[m.item.name.value]) then DeleteFailed else Kept)])
  {
    assert (matches + [m])[..|matches|] == matches;
  }

  lemma {:induction false} ScanRecorded(w: World, n: Notes, ok: bool, effect: Effect)
    requires Enabled(w, Scan(ok, effect)) && Recorded(w, n)
    ensures Recorded(Step(w, Scan(ok, effect)), Note(n, w, Scan(ok, effect)))
  {
    SameRules(w.spec);
    MatchSnoc(w.spec, n.listing, n.matches, Match(w.cycle.todo[0], ok));
    assert n.items[|n.matches|..][1..] == n.items[|n.matches| + 1..];
    ScanMoves(w, ok, effect);
  }

  /** Where the scan of one item leaves the variables of the cycle. */
  lemma {:induction false} ScanMoves(w: World, ok: bool, effect: Effect)
    requires Enabled(w, Scan(ok, effect)) && w.cycle.known == OwnIn(w.spec, w.cycle.known)
    ensures var c, d, x := w.cycle, Step(w, Scan(ok, effect)).cycle, w.cycle.todo[0];
      var joins := x.name.value !in c.known || (Outlives(x, c.known[x.name.value]) && ok);
      d == c.(todo := c.todo[1..], newItems := c.newItems + (if joins then [x] else []),
              kept := c.kept + (if joins then [] else
                [Outcome(x, if Outlives(x, c.known[x.name.value]) then DeleteFailed else Kept)]))
  {
    var c, x := w.cycle, w.cycle.todo[0];
    assert c.newItems + [] == c.newItems && c.kept + [] == c.kept;
  }

  lemma {:induction false} OrderRecorded(w: World, n: Notes)
    requires Enabled(w, Order) && Recorded(w, n)
    ensures Recorded(Step(w, Order), Note(n, w, Order))
  {
    SortIsStable(w.cycle.newItems);
  }

  lemma {:induction false} AcceptedSnoc(attempts: seq<Attempt>, a: Attempt)
    ensures AcceptedIn(attempts + [a]) == AcceptedIn(attempts) + (if a.reply == Accepted then 1 else 0)
    ensures forall k :: 0 <= k <= |attempts| ==> (attempts + [a])[..k] == attempts[..k]
    ensures attempts[..|attempts|] == attempts
  {
    assert (attempts + [a])[..|attempts|] == attempts;
  }

  lemma {:induction false} SettleTried(spec: Spec, c: Cycle, n: Notes, a: Attempt, fate: Fate)
    requires c.stage in {Creating, Confirming} && c.todo != []
    requires TriedAs(spec, c, n) && !ReachedAt(spec, n, |n.attempts|) && Answered(spec, a, Outcome(c.todo[0], fate))
    ensures TriedAs(spec, Settle(c, fate), n.(attempts := n.attempts + [a]))
  {
    var d, m := Settle(c, fate), n.(attempts := n.attempts + [a]);
    AcceptedSnoc(n.attempts, a);
    assert |n.attempts| == |c.tried|;
    forall k | 0 <= k < |m.attempts|
      ensures Answered(spec, m.attempts[k], d.tried[k])
    {
      assert k < |n.attempts| ==> m.attempts[k] == n.attempts[k] && d.tried[k] == c.tried[k];
    }
    forall k | 0 <= k < |m.attempts|
      ensures !ReachedAt(spec, m, k)
    {
      assert m.attempts[..k] == n.attempts[..k] && !ReachedAt(spec, n, k);
    }
  }

  lemma {:induction false} SettleCounted(spec: Spec, c: Cycle, n: Notes, a: Attempt, fate: Fate)
    requires c.todo != [] && Counted(spec, c, n) && Answered(spec, a, Outcome(c.todo[0], fate))
    ensures Counted(spec, Settle(c, fate), n.(attempts := n.attempts + [a]))
  {
    AcceptedSnoc(n.attempts, a);
    FailsSnoc(spec, n.attempts, a);
  }

  /** The item in hand is settled as its answers have it. */
  lemma {:induction false} SettleRecorded(spec: Spec, c: Cycle, n: Notes, a: Attempt, fate: Fate)
    requires c.stage in {Creating, Confirming} && c.todo != []
    requires MatchedAs(spec, c, n) && TriedAs(spec, c, n) && Counted(spec, c, n) && !ReachedAt(spec, n, |n.attempts|)
    requires Answered(spec, a, Outcome(c.todo[0], fate))
    ensures var d, m := Settle(c, fate), n.(attempts := n.attempts + [a]);
      MatchedAs(spec, d, m) && TriedAs(spec, d, m) && Counted(spec, d, m)
  {
    SettleTried(spec, c, n, a, fate);
    SettleCounted(spec, c, n, a, fate);
  }

  lemma {:induction false} FailsSnoc(spec: Spec, attempts: seq<Attempt>, a: Attempt)
    ensures var more := attempts + [a];
      (exists k :: 0 <= k < |more| && Fails(spec, more[k])) <==>
        Fails(spec, a) || exists k :: 0 <= k < |attempts| && Fails(spec, attempts[k])
  {
    var more := attempts + [a];
    assert more[|attempts|] == a && forall k :: 0 <= k < |attempts| ==> more[k] == attempts[k];
  }

  lemma {:induction false} FullIff(w: World, n: Notes)
    requires Counted(w.spec, w.cycle, n)
    ensures Full(w) <==> ReachedAt(w.spec, n, |n.attempts|)
  {
    assert n.attempts[..|n.attempts|] == n.attempts;
  }

  lemma {:induction false} CreateRecorded(w: World, n: Notes, reply: Reply)
    requires Enabled(w, Input.Create(reply)) && Recorded(w, n)
    ensures Recorded(Step(w, Input.Create(reply)), Note(n, w, Input.Create(reply)))
  {
    FullIff(w, n);
    if reply != Conflict {
      var a := Attempt(w.cycle.todo[0], reply, None);
      SettleRecorded(w.spec, w.cycle, n, a, if reply == Accepted then Created else Errored);
    }
  }

  lemma {:induction false} ConfirmRecorded(w: World, n: Notes, getOk: bool)
    requires Enabled(w, Confirm(getOk)) && Recorded(w, n)
    ensures Recorded(Step(w, Confirm(getOk)), Note(n, w, Confirm(getOk)))
  {
    SameRules(w.spec);
    var name := w.cycle.todo[0].name.value;
    var found := if getOk && name in w.tasks then Some(w.tasks[name]) else None;
    var ours := found.Some? && IsOurs(w.spec, found.value);
    SettleRecorded(w.spec, w.cycle, n, Attempt(w.cycle.todo[0], Conflict, found), if ours then Duplicate else Errored);
  }

  lemma {:induction false} LeaveRecorded(w: World, n: Notes)
    requires Enabled(w, Leave) && Recorded(w, n)
    ensures Recorded(Step(w, Leave), Note(n, w, Leave))
  {
    LeaveTried(w, n);
  }

  lemma {:induction false} LeaveTried(w: World, n: Notes)
    requires Enabled(w, Leave) && TriedAs(w.spec, w.cycle, n) && Counted(w.spec, w.cycle, n)
    ensures TriedAs(w.spec, Step(w, Leave).cycle, n)
  {
    FullIff(w, n);
    var before, after := w.cycle.tried, Step(w, Leave).cycle.tried;
    assert forall k :: 0 <= k < |before| ==> after[k] == before[k];
    assert w.cycle.todo == [] ==> after == before;
  }

  lemma {:induction false} RecordedStep(w: World, n: Notes, i: Input)
    requires Enabled(w, i) && Recorded(w, n)
    ensures Recorded(Step(w, i), Note(n, w, i))
  {
    match i
    case Begin(items) => BeginRecorded(w, n, items);
    case Scan(ok, effect) => ScanRecorded(w, n, ok, effect);
    case Order => OrderRecorded(w, n);
    case Create(reply) => CreateRecorded(w, n, reply);
    case Confirm(getOk) => ConfirmRecorded(w, n, getOk);
    case Leave => LeaveRecorded(w, n);
    case _ =>
  }

  /**
   In every run, at every point of a cycle: what was kept, what is to be created, in which
   order, what became of each item tried and which were held back is what the list of
   Tasks and the answers to the calls say.
   */
  lemma {:induction false} RecordedOverRun(w: World, n: Notes, inputs: seq<Input>)
    requires Possible(w, inputs) && Recorded(w, n)
    ensures Recorded(RunAll(w, inputs), NotesOf(n, w, inputs))
    decreases |inputs|
  {
    if inputs != [] {
      RecordedStep(w, n, inputs[0]);
      RecordedOverRun(Step(w, inputs[0]), Note(n, w, inputs[0]), inputs[1..]);
    }
  }

  /** At the report every new item, in its order, has been tried with the answers noted, or was held back by a limit. */
  lemma {:induction false} FatesFollowAnswers(spec: Spec, tasks: map<string, Task>, status: Status, inputs: seq<Input>)
    requires var w := Initial(spec, tasks, status); Possible(w, inputs) && RunAll(w, inputs).cycle.stage == Reporting
    ensures var w := Initial(spec, tasks, status);
      var c, n := RunAll(w, inputs).cycle, NotesOf(NONE, w, inputs);
      && |n.matches| == |n.items| && (forall k :: 0 <= k < |n.items| ==> n.matches[k].item == n.items[k])
      && c.kept == Stayers(spec, n.listing, n.matches)
      && Arranged(spec, NewOnes(spec, n.listing, n.matches), Items(c.tried))
      && |n.attempts| <= |c.tried|
      && (forall k :: 0 <= k < |n.attempts| ==> !ReachedAt(spec, n, k) && Answered(spec, n.attempts[k], c.tried[k]))
      && (forall k :: |n.attempts| <= k < |c.tried| ==> c.tried[k].fate == Blocked)
      && (|n.attempts| < |c.tried| ==> ReachedAt(spec, n, |n.attempts|))
  {
    var w := Initial(spec, tasks, status);
    RecordedOverRun(w, NONE, inputs);
    SpecKept(w, inputs);
    PlacedOverRun(w, inputs);
  }

  lemma {:induction false} SpecKept(w: World, inputs: seq<Input>)
    requires Possible(w, inputs)
    ensures RunAll(w, inputs).spec == w.spec
    decreases |inputs|
  {
    if inputs != [] {
      SpecKept(Step(w, inputs[0]), inputs[1..]);
    }
  }

  /**
   What the status says after every step of every run: a report that is written counts the
   discovered items, adds the accepted creates to the total and to the unfinished Tasks of
   the list, shows an error exactly when some answer was one, and moves the watermark; a
   recorded failure breaks the health and shows an error; nothing else changes the status.
   */
  lemma {:induction false} StatusFollowsAnswers(
      spec: Spec, tasks: map<string, Task>, status: Status, inputs: seq<Input>, i: Input)
    requires var w := Initial(spec, tasks, status); Possible(w, inputs) && Enabled(RunAll(w, inputs), i)
    ensures var w := Initial(spec, tasks, status);
      var v, n := RunAll(w, inputs), NotesOf(NONE, w, inputs);
      var before, after, accepted := v.status, Step(v, i).status, AcceptedIn(n.attempts);
      if i.Report? && i.committed then
        after == Status(before.total + accepted, |n.items|, Unfinished(spec, n.listing) + accepted, Healthy,
                        exists k :: 0 <= k < |n.attempts| && Fails(spec, n.attempts[k]),
                        spec.maxTotal > 0 && before.total + accepted >= spec.maxTotal, i.now)
      else if i.Abort? && i.recorded then
        after == Status(before.total, before.discovered, before.active, Broken, true, before.limitReached,
                        before.lastDiscovery)
      else after == before
  {
    var w := Initial(spec, tasks, status);
    RecordedOverRun(w, NONE, inputs);
    SpecKept(w, inputs);
  }

  /**
   What the spawner's own steps do to the Tasks, in every run: a create that took effect
   stores a Task with the spawner's label and controller reference under a free name, a
   delete strikes what holds the name of a listed Task that the item outlives, and
   nothing else changes a Task.
   */
  lemma {:induction false} TasksFollowCalls(
      spec: Spec, tasks: map<string, Task>, status: Status, inputs: seq<Input>, i: Input)
    requires var w := Initial(spec, tasks, status); Possible(w, inputs) && Enabled(RunAll(w, inputs), i)
    requires OfSpawner(i)
    ensures var w := Initial(spec, tasks, status);
      var v, n := RunAll(w, inputs), NotesOf(NONE, w, inputs);
      var before, after := v.tasks, Step(v, i).tasks;
      if i.Create? && (i.reply == Accepted || i.reply == Failure(true)) then
        var name := v.cycle.todo[0].name.value;
        name !in before && after == before[name := Task([spec.uid], spec.name, Unset, None, false)]
      else if i.Scan? && i.effect != Untouched then
        && |n.matches| < |n.items| && n.items[|n.matches|].name.Some?
        && var x := n.items[|n.matches|];
           var name := x.name.value;
           if name in before && name in n.listing && IsOwn(spec, n.listing[name]) && Outlives(x, n.listing[name]) then
             after == if i.effect == Gone then before - {name} else before[name := before[name].(terminating := true)]
           else after == before
      else after == before
  {
    var w := Initial(spec, tasks, status);
    RecordedOverRun(w, NONE, inputs);
    SpecKept(w, inputs);
    SameRules(spec);
  }
}
