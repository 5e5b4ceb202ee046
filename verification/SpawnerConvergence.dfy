/**
 Convergence: after a cycle in which nothing goes wrong and no limit is hit every
 discovered name is held by a Task, and the spawner by itself changes none.  Only the
 completion of a finalizer wakes it, and then it makes that Task anew.
 */
module SpawnerConvergence {
  import opened Wrappers
  import opened Spawner
  import opened SpawnerStability

  // ---------------------------------------------------------------- clean cycles

  /** Nobody interferes, every call succeeds at once, every name resolves, and nothing is held back by a limit. */
  predicate Clean(w: World, i: Input) {
    match i
    case Scan(ok, _) => ok
    case Order => true
    case Create(reply) => reply in {Accepted, Conflict}
    case Confirm(getOk) => getOk
    case Leave => w.cycle.todo == []
    case _ => false
  }

  predicate CleanRun(w: World, inputs: seq<Input>)
    requires Possible(w, inputs)
    decreases |inputs|
  {
    inputs == [] || (Clean(w, inputs[0]) && CleanRun(Step(w, inputs[0]), inputs[1..]))
  }

  /** The names whose Task a retrigger of this step or an earlier one deleted, and which its finalizer still keeps. */
  function LingeringAfter(w: World, i: Input, before: set<string>): set<string>
    requires Enabled(w, i)
  {
    if !i.Scan? || Decide(w.cycle.known, w.cycle.todo[0]) != AsRetrigger then before
    else if w.cycle.todo[0].name.value !in w.tasks then before
    else
      match i.effect
      case Untouched => before
      case Gone => before - {w.cycle.todo[0].name.value}
      case Lingers => before + {w.cycle.todo[0].name.value}
  }

  function Lingering(w: World, inputs: seq<Input>, before: set<string>): set<string>
    requires Possible(w, inputs)
    decreases |inputs|
  {
    if inputs == [] then before
    else Lingering(Step(w, inputs[0]), inputs[1..], LingeringAfter(w, inputs[0], before))
  }

  // ---------------------------------------------------------------- the invariant of a clean cycle

  predicate ToBeCreated(c: Cycle, n: string) {
    || (c.stage == Scanning && exists k :: 0 <= k < |c.newItems| && c.newItems[k].name == Some(n))
    || (c.stage in {Creating, Confirming} && exists k :: 0 <= k < |c.todo| && c.todo[k].name == Some(n))
  }

  /** Where a discovered item stands: still to be matched; else held or about to be, and outlived only if lingering. */
  predicate Tended(w: World, x: Item, left: set<string>) {
    || (w.cycle.stage == Scanning && x in w.cycle.todo)
    || (&& x.name.Some? && (x.name.value in w.tasks || ToBeCreated(w.cycle, x.name.value))
        && (Outlived(w.spec, w.tasks, x) ==> x.name.value in left))
  }

  /** A listed Task is there, perhaps terminating, or deleted to be created anew; none of the spawner's was missed. */
  predicate ListedTended(w: World) {
    w.cycle.stage == Scanning ==>
      && (forall n :: n in w.cycle.known ==>
            && Owned(w.spec, w.cycle.known[n])
            && if n in w.tasks then SameTask(w.tasks[n], w.cycle.known[n]) else ToBeCreated(w.cycle, n))
      && (forall n :: n in w.tasks && Owned(w.spec, w.tasks[n]) ==> n in w.cycle.known)
  }

  predicate SameTask(t: Task, listed: Task) {
    t == listed || t == listed.(terminating := true)
  }

  /** A lingering Task is terminating, and outlived by some discovered item. */
  predicate LeftBehind(w: World, items: seq<Item>, n: string) {
    && n in w.tasks && w.tasks[n].terminating
    && exists x :: x in items && x.name == Some(n) && Outlived(w.spec, w.tasks, x)
  }

  predicate Tidy(w: World, items: seq<Item>, left: set<string>) {
    && w.cycle.stage in {Scanning, Creating, Confirming, Reporting}
    && (w.cycle.stage == Confirming ==>
          w.cycle.todo != [] && w.cycle.todo[0].name.Some? && w.cycle.todo[0].name.value in w.tasks)
    && (w.cycle.stage == Scanning ==> forall x :: x in w.cycle.todo ==> x in items)
    && ListedTended(w)
    && (forall x :: x in items ==> Tended(w, x, left))
    && (forall n :: n in left ==> LeftBehind(w, items, n))
  }

  lemma {:induction false} NewItemTended(c: Cycle, x: Item, n: string)
    requires c.stage == Scanning && x.name.Some?
    ensures var d := c.(newItems := c.newItems + [x]);
      && ToBeCreated(d, x.name.value) && (ToBeCreated(c, n) ==> ToBeCreated(d, n))
  {
    var d := c.(newItems := c.newItems + [x]);
    assert d.newItems[|c.newItems|] == x;
    if ToBeCreated(c, n) {
      var k :| 0 <= k < |c.newItems| && c.newItems[k].name == Some(n);
      assert d.newItems[k].name == Some(n);
    }
  }

  /** What is to be created stays so, and the item at hand joins it unless its Task is kept. */
  lemma {:induction false} ScanQueues(w: World, effect: Effect)
    requires Enabled(w, Scan(true, effect))
    ensures var v := Step(w, Scan(true, effect));
      && (forall n :: ToBeCreated(w.cycle, n) ==> ToBeCreated(v.cycle, n))
      && (Decide(w.cycle.known, w.cycle.todo[0]) != AsKept ==> ToBeCreated(v.cycle, w.cycle.todo[0].name.value))
  {
    var v := Step(w, Scan(true, effect));
    var c := w.cycle.(todo := w.cycle.todo[1..]);
    forall n
      ensures ToBeCreated(w.cycle, n) ==> ToBeCreated(v.cycle, n)
      ensures Decide(c.known, w.cycle.todo[0]) != AsKept ==> ToBeCreated(v.cycle, w.cycle.todo[0].name.value)
    {
      NewItemTended(c, w.cycle.todo[0], n);
    }
  }

  lemma {:induction false} ScanKeepsListed(w: World, effect: Effect)
    requires Enabled(w, Scan(true, effect)) && ListedTended(w)
    ensures ListedTended(Step(w, Scan(true, effect)))
  {
    ScanQueues(w, effect);
  }

  lemma {:induction false} ScanTends(w: World, effect: Effect, y: Item, left: set<string>)
    requires Enabled(w, Scan(true, effect)) && ListedTended(w) && Tended(w, y, left)
    ensures Tended(Step(w, Scan(true, effect)), y, LingeringAfter(w, Scan(true, effect), left))
  {
    ScanQueues(w, effect);
    assert w.cycle.todo == [w.cycle.todo[0]] + Step(w, Scan(true, effect)).cycle.todo;
  }

  lemma {:induction false} ScanLeaves(w: World, effect: Effect, items: seq<Item>, left: set<string>, n: string)
    requires Enabled(w, Scan(true, effect)) && ListedTended(w) && w.cycle.todo[0] in items
    requires n in LingeringAfter(w, Scan(true, effect), left) && (n in left ==> LeftBehind(w, items, n))
    ensures LeftBehind(Step(w, Scan(true, effect)), items, n)
  {
    var v, x := Step(w, Scan(true, effect)), w.cycle.todo[0];
    if Some(n) == x.name && Decide(w.cycle.known, x) == AsRetrigger && n in w.tasks {
      assert SameTask(w.tasks[n], w.cycle.known[n]);
      assert x in items && Outlived(v.spec, v.tasks, x);
    } else {
      var y :| y in items && y.name == Some(n) && Outlived(w.spec, w.tasks, y);
      assert Outlived(v.spec, v.tasks, y);
    }
  }

  lemma {:induction false} ScanTidies(w: World, effect: Effect, items: seq<Item>, left: set<string>)
    requires Enabled(w, Scan(true, effect)) && Tidy(w, items, left)
    ensures Tidy(Step(w, Scan(true, effect)), items, LingeringAfter(w, Scan(true, effect), left))
  {
    var v, after := Step(w, Scan(true, effect)), LingeringAfter(w, Scan(true, effect), left);
    ScanKeepsListed(w, effect);
    assert w.cycle.todo == [w.cycle.todo[0]] + v.cycle.todo && w.cycle.todo[0] in items;
    forall y | y in items
      ensures Tended(v, y, after)
    {
      ScanTends(w, effect, y, left);
    }
    forall n | n in after
      ensures LeftBehind(v, items, n)
    {
      ScanLeaves(w, effect, items, left, n);
    }
  }

  lemma {:induction false} OrderQueues(w: World)
    requires Enabled(w, Order)
    ensures forall n :: ToBeCreated(w.cycle, n) ==> ToBeCreated(Step(w, Order).cycle, n)
  {
    SortKeepsMembers(w.cycle.newItems);
    forall n | ToBeCreated(w.cycle, n)
      ensures ToBeCreated(Step(w, Order).cycle, n)
    {
      var k :| 0 <= k < |w.cycle.newItems| && w.cycle.newItems[k].name == Some(n);
      assert w.cycle.newItems[k] in Step(w, Order).cycle.todo;
    }
  }

  /** Nothing is lost when the Tasks stay as they are and what is to be created stays so. */
  lemma {:induction false} QuietTidies(w: World, v: World, items: seq<Item>, left: set<string>)
    requires Tidy(w, items, left) && v.tasks == w.tasks && v.spec == w.spec
    requires w.cycle.stage == Scanning ==> w.cycle.todo == []
    requires v.cycle.stage in {Creating, Confirming, Reporting}
    requires v.cycle.stage == Confirming ==>
      v.cycle.todo != [] && v.cycle.todo[0].name.Some? && v.cycle.todo[0].name.value in v.tasks
    requires forall n :: ToBeCreated(w.cycle, n) ==> n in v.tasks || ToBeCreated(v.cycle, n)
    ensures Tidy(v, items, left)
  {
    forall y | y in items
      ensures Tended(v, y, left)
    {
      assert Tended(w, y, left);
    }
    forall n | n in left
      ensures LeftBehind(v, items, n)
    {
      var y :| y in items && y.name == Some(n) && Outlived(w.spec, w.tasks, y);
      assert Outlived(v.spec, v.tasks, y);
    }
  }

  /** The queue without its head: what else was to be created still is. */
  lemma {:induction false} SettleQueues(c: Cycle, fate: Fate, n: string)
    requires c.stage in {Creating, Confirming} && c.todo != [] && ToBeCreated(c, n) && c.todo[0].name != Some(n)
    ensures ToBeCreated(Settle(c, fate), n)
  {
    var k :| 0 <= k < |c.todo| && c.todo[k].name == Some(n);
    assert c.todo[k] == Settle(c, fate).todo[k - 1];
  }

  lemma {:induction false} AcceptTidies(w: World, items: seq<Item>, left: set<string>)
    requires Enabled(w, Input.Create(Accepted)) && Tidy(w, items, left)
    ensures Tidy(Step(w, Input.Create(Accepted)), items, left)
  {
    var v := Step(w, Input.Create(Accepted));
    forall n | ToBeCreated(w.cycle, n) && w.cycle.todo[0].name != Some(n)
      ensures ToBeCreated(v.cycle, n)
    {
      SettleQueues(w.cycle, Created, n);
    }
    forall y | y in items
      ensures Tended(v, y, left)
    {
      assert Tended(w, y, left);
    }
    forall n | n in left
      ensures LeftBehind(v, items, n)
    {
      var y :| y in items && y.name == Some(n) && Outlived(w.spec, w.tasks, y);
      assert Outlived(v.spec, v.tasks, y);
    }
  }

  lemma {:induction false} ConfirmTidies(w: World, getOk: bool, items: seq<Item>, left: set<string>)
    requires Enabled(w, Confirm(getOk)) && Tidy(w, items, left)
    ensures Tidy(Step(w, Confirm(getOk)), items, left)
  {
    var v := Step(w, Confirm(getOk));
    forall n | ToBeCreated(w.cycle, n)
      ensures n in v.tasks || ToBeCreated(v.cycle, n)
    {
      if w.cycle.todo[0].name != Some(n) {
        SettleQueues(w.cycle, v.cycle.tried[|v.cycle.tried| - 1].fate, n);
      }
    }
    QuietTidies(w, v, items, left);
  }

  lemma {:induction false} CleanStep(w: World, i: Input, items: seq<Item>, left: set<string>)
    requires Enabled(w, i) && Clean(w, i) && Tidy(w, items, left)
    ensures Tidy(Step(w, i), items, LingeringAfter(w, i, left)) && Step(w, i).spec == w.spec
  {
    match i
    case Scan(_, effect) => ScanTidies(w, effect, items, left);
    case Order =>
      OrderQueues(w);
      QuietTidies(w, Step(w, i), items, left);
    case Create(reply) =>
      if reply == Accepted {
        AcceptTidies(w, items, left);
      } else {
        QuietTidies(w, Step(w, i), items, left);
      }
    case Confirm(getOk) => ConfirmTidies(w, getOk, items, left);
    case Leave => QuietTidies(w, Step(w, i), items, left);
  }

  lemma {:induction false} CleanRunTidies(w: World, inputs: seq<Input>, items: seq<Item>, left: set<string>)
    requires Possible(w, inputs) && CleanRun(w, inputs) && Tidy(w, items, left)
    ensures Tidy(RunAll(w, inputs), items, Lingering(w, inputs, left)) && RunAll(w, inputs).spec == w.spec
    decreases |inputs|
  {
    if inputs != [] {
      CleanStep(w, inputs[0], items, left);
      CleanRunTidies(Step(w, inputs[0]), inputs[1..], items, LingeringAfter(w, inputs[0], left));
    }
  }

  lemma {:induction false} BeginTidies(w: World, items: seq<Item>)
    requires w.cycle.stage == Idle
    ensures Tidy(Step(w, Begin(items)), items, {})
  {
  }

  // ---------------------------------------------------------------- the results

  /** A clean cycle over these items, from an idle spawner to its report. */
  predicate CleanCycle(w: World, items: seq<Item>, inputs: seq<Input>) {
    && w.cycle.stage == Idle
    && Possible(Step(w, Begin(items)), inputs) && CleanRun(Step(w, Begin(items)), inputs)
    && RunAll(Step(w, Begin(items)), inputs).cycle.stage == Reporting
  }

  function AfterCycle(w: World, items: seq<Item>, inputs: seq<Input>, now: int): World
    requires CleanCycle(w, items, inputs)
  {
    Step(RunAll(Step(w, Begin(items)), inputs), Report(true, now))
  }

  /**
   After a clean cycle every discovered name is held by a Task, and the spawner by itself
   never changes a Task again, over any cycles with the same items.  It is settled, with
   nothing left to wait for, if and only if no Task it deleted lingers.
   */
  lemma {:induction false} CleanCycleConverges(w: World, items: seq<Item>, inputs: seq<Input>, now: int)
    requires CleanCycle(w, items, inputs)
    ensures var v := AfterCycle(w, items, inputs, now);
      && (forall x :: x in items ==> HeldItem(v.tasks, x))
      && Quiescent(v.spec, v.tasks, items) && Stable(v, items)
      && (Settled(v.spec, v.tasks, items) <==> Lingering(Step(w, Begin(items)), inputs, {}) == {})
  {
    var w1 := Step(w, Begin(items));
    var left := Lingering(w1, inputs, {});
    BeginTidies(w, items);
    CleanRunTidies(w1, inputs, items, {});
    var r, v := RunAll(w1, inputs), AfterCycle(w, items, inputs, now);
    ReportIsQuiescent(r, items, left);
    ReportIsIdle(r, now);
    QuiescentWakesIff(v, items);
  }

  lemma ReportIsIdle(r: World, now: int)
    requires r.cycle.stage == Reporting
    ensures var v := Step(r, Report(true, now));
      && v.cycle == IDLE && v.spec == r.spec && v.tasks == r.tasks
      && v.status.total == r.status.total + r.cycle.created
  {
  }

  lemma {:induction false} ReportIsQuiescent(r: World, items: seq<Item>, left: set<string>)
    requires Tidy(r, items, left) && r.cycle.stage == Reporting
    ensures Quiescent(r.spec, r.tasks, items)
    ensures Settled(r.spec, r.tasks, items) <==> left == {}
  {
    forall x | x in items
      ensures HeldItem(r.tasks, x)
      ensures Outlived(r.spec, r.tasks, x) ==> x.name.value in left && r.tasks[x.name.value].terminating
    {
      assert Tended(r, x, left);
      if Outlived(r.spec, r.tasks, x) {
        assert LeftBehind(r, items, x.name.value);
      }
    }
    if left != {} {
      var n :| n in left;
      assert LeftBehind(r, items, n);
    }
  }

  /**
   With finalizers completing beside it, the spawner changes a Task after a clean cycle in
   some run if and only if some set of Tasks being deleted holds a discovered name and
   leaves room under the limits once it is gone.
   */
  lemma {:induction false} WakesAfterCycleIff(w: World, items: seq<Item>, inputs: seq<Input>, now: int)
    requires CleanCycle(w, items, inputs)
    ensures var v := AfterCycle(w, items, inputs, now);
      && (forall x :: x in items ==> x.name.Some?)
      && (Wakes(v, items) <==>
            exists names, x ::
              Finalizable(v, names) && x in items && x.name.value in names && !NoRoom(Without(v, names)))
  {
    CleanCycleConverges(w, items, inputs, now);
    ReportIsIdle(RunAll(Step(w, Begin(items)), inputs), now);
    QuiescentWakesIff(AfterCycle(w, items, inputs, now), items);
  }

  /**
   In every such run the spawner deletes and marks nothing: each step of it that changes a
   Task makes one anew, under a discovered name, that was being deleted after the cycle.
   */
  lemma {:induction false} OnlyRenewsAfterCycle(
      w: World, items: seq<Item>, inputs: seq<Input>, now: int, later: seq<Input>)
    requires CleanCycle(w, items, inputs)
    requires Possible(AfterCycle(w, items, inputs, now), later) && OwnOrFinal(later, items)
    ensures var v := AfterCycle(w, items, inputs, now); OnlyRenews(v, v, items, later)
  {
    CleanCycleConverges(w, items, inputs, now);
    ReportIsIdle(RunAll(Step(w, Begin(items)), inputs), now);
    var v := AfterCycle(w, items, inputs, now);
    OnlyRenewsOverRun(v, v, items, later);
  }

  /** A cycle that lists no outlived Task has nothing to delete, and is settled at once. */
  lemma {:induction false} NothingToDelete(w: World, items: seq<Item>, inputs: seq<Input>, now: int)
    requires CleanCycle(w, items, inputs)
    requires forall x :: x in items ==> !Outlived(w.spec, w.tasks, x)
    ensures var v := AfterCycle(w, items, inputs, now); Settled(v.spec, v.tasks, items)
  {
    NoneDecided(Step(w, Begin(items)), inputs, items);
    CleanCycleConverges(w, items, inputs, now);
  }

  lemma {:induction false} NoneDecided(w: World, inputs: seq<Input>, items: seq<Item>)
    requires Possible(w, inputs) && CleanRun(w, inputs)
    requires w.cycle.stage == Scanning ==> forall x :: x in w.cycle.todo ==> x in items
    requires forall x :: x in items && x.name.Some? ==> Decide(w.cycle.known, x) != AsRetrigger
    ensures Lingering(w, inputs, {}) == {}
    decreases |inputs|
  {
    if inputs != [] {
      NoneDecided(Step(w, inputs[0]), inputs[1..], items);
    }
  }

  // ---------------------------------------------------------------- a run that lingers

  lemma {:induction false} CleanPrepend(w: World, i: Input, rest: seq<Input>)
    requires Enabled(w, i) && Possible(Step(w, i), rest)
    ensures Possible(w, [i] + rest) && RunAll(w, [i] + rest) == RunAll(Step(w, i), rest)
    ensures CleanRun(w, [i] + rest) <==> Clean(w, i) && CleanRun(Step(w, i), rest)
  {
    assert ([i] + rest)[1..] == rest;
  }

  function Finished(spec: Spec): Task {
    Task([spec.uid], spec.name, Succeeded, Some(1), false)
  }

  const AGAIN := Item("i", Some("t"), Some(2), 0)
  const WAITING := [Scan(true, Lingers), Order, Input.Create(Conflict), Confirm(true), Leave]

  /** The state of a cycle over AGAIN when it comes to create: the finished Task is being deleted. */
  function Queued(spec: Spec, status: Status): World {
    World(spec, map["t" := Finished(spec).(terminating := true)], status,
          Cycle(Creating, [AGAIN], [AGAIN], map["t" := Finished(spec)], 0, [AGAIN], status.total, 0, 0, [], []),
          Past(0, 0, 0, [Deletion(AGAIN, Finished(spec), Finished(spec))]))
  }

  lemma {:induction false} LingeringMatch(spec: Spec, status: Status)
    ensures var w1 := Step(Initial(spec, map["t" := Finished(spec)], status), Begin([AGAIN]));
      && Enabled(w1, Scan(true, Lingers)) && Enabled(Step(w1, Scan(true, Lingers)), Order)
      && Step(Step(w1, Scan(true, Lingers)), Order) == Queued(spec, status)
  {
    var w := Initial(spec, map["t" := Finished(spec)], status);
    var w1 := Step(w, Begin([AGAIN]));
    assert LiveNames(spec, w.tasks) == {} && w1.cycle.known == map["t" := Finished(spec)];
    var w2 := Step(w1, Scan(true, Lingers));
    assert w2.cycle.newItems == [AGAIN] && w2.cycle.todo == [];
    assert [AGAIN][1..] == [] && SortByRank([]) == [];
  }

  lemma {:induction false} LingeringConflict(w3: World)
    requires w3.cycle.stage == Creating && w3.cycle.todo == [AGAIN] && w3.cycle.active == 0 && "t" in w3.tasks
    requires !AtTotal(w3.spec.maxTotal, w3.cycle.base + w3.cycle.created)
    ensures var rest := [Input.Create(Conflict)] + ([Confirm(true)] + ([Leave] + []));
      && Possible(w3, rest) && CleanRun(w3, rest)
      && var r := RunAll(w3, rest);
         && r.cycle.stage == Reporting && r.tasks == w3.tasks && r.spec == w3.spec
         && r.status == w3.status && r.cycle.created == w3.cycle.created
  {
    var w4 := Step(w3, Input.Create(Conflict));
    var w5 := Step(w4, Confirm(true));
    var w6 := Step(w5, Leave);
    assert Possible(w6, []) && CleanRun(w6, []);
    CleanPrepend(w5, Leave, []);
    CleanPrepend(w4, Confirm(true), [Leave] + []);
    CleanPrepend(w3, Input.Create(Conflict), [Confirm(true)] + ([Leave] + []));
  }

  predicate Waits(v: World, spec: Spec) {
    v.cycle == IDLE && v.spec == spec && v.tasks == map["t" := Finished(spec).(terminating := true)]
    && !AtTotal(spec.maxTotal, v.status.total)
  }

  /** A clean cycle that finds the finished Task, deletes it, and leaves it waiting for its finalizer. */
  lemma {:induction false} LingeringCycle(spec: Spec, status: Status)
    requires !AtTotal(spec.maxTotal, status.total)
    ensures var w := Initial(spec, map["t" := Finished(spec)], status);
      CleanCycle(w, [AGAIN], WAITING) && Waits(AfterCycle(w, [AGAIN], WAITING, 3), spec)
  {
    var w1 := Step(Initial(spec, map["t" := Finished(spec)], status), Begin([AGAIN]));
    var w3, rest := Queued(spec, status), [Input.Create(Conflict)] + ([Confirm(true)] + ([Leave] + []));
    LingeringMatch(spec, status);
    LingeringConflict(w3);
    CleanPrepend(Step(w1, Scan(true, Lingers)), Order, rest);
    CleanPrepend(w1, Scan(true, Lingers), [Order] + rest);
    assert WAITING == [Scan(true, Lingers)] + ([Order] + rest);
    ReportIsIdle(RunAll(w3, rest), 3);
  }

  /** The finalizer completes, and the next cycle makes the Task anew. */
  lemma {:induction false} WaitingWakes(v: World)
    requires Waits(v, v.spec)
    ensures var all := [Finalize("t")] + ([Begin([AGAIN])] + RECREATE);
      Possible(v, all) && Acts(v, all) && RunAll(v, all).tasks == map["t" := NewTask(v.spec)]
  {
    var u := Step(v, Finalize("t"));
    assert u.tasks == map[] && LiveNames(u.spec, u.tasks) == {};
    assert !NoRoom(u);
    FreeNameIsCreated(u, AGAIN);
    ActsPrepend(v, Finalize("t"), [Begin([AGAIN])] + RECREATE);
  }

  /**
   A run that is not settled: from a start with one finished Task, a clean cycle leaves it
   being deleted, the spawner changes nothing until the finalizer completes, and then makes
   the Task anew.
   */
  lemma {:induction false} LingeringTaskIsRenewed(spec: Spec, status: Status)
    requires !AtTotal(spec.maxTotal, status.total)
    ensures var w := Initial(spec, map["t" := Finished(spec)], status);
      && CleanCycle(w, [AGAIN], WAITING)
      && var v, all := AfterCycle(w, [AGAIN], WAITING, 3), [Finalize("t")] + ([Begin([AGAIN])] + RECREATE);
         && v.tasks == map["t" := Finished(spec).(terminating := true)]
         && !Settled(v.spec, v.tasks, [AGAIN]) && Stable(v, [AGAIN])
         && Possible(v, all) && Acts(v, all) && RunAll(v, all).tasks == map["t" := NewTask(spec)]
  {
    var w := Initial(spec, map["t" := Finished(spec)], status);
    LingeringCycle(spec, status);
    var v := AfterCycle(w, [AGAIN], WAITING, 3);
    CleanCycleConverges(w, [AGAIN], WAITING, 3);
    assert Outlived(v.spec, v.tasks, AGAIN);
    WaitingWakes(v);
  }
}
