/**
 When the spawner, left to itself, changes a Task: exactly when some discovered name
 is free and the limits leave room, or some finished Task has been outlived and is not
 being deleted yet.  And when the completion of finalizers wakes it.
 */
module SpawnerStability {
  import opened Wrappers
  import opened Spawner
  import SpawnerItems

  // ---------------------------------------------------------------- settled, quiescent, at rest

  predicate HeldItem(tasks: map<string, Task>, x: Item) {
    x.name.Some? && x.name.value in tasks
  }

  /** The item's name is held by a finished Task of the spawner, and the item was triggered after it finished. */
  predicate Outlived(spec: Spec, tasks: map<string, Task>, x: Item) {
    HeldItem(tasks, x) && Owned(spec, tasks[x.name.value]) && Retriggers(x, tasks[x.name.value])
  }

  predicate Settled(spec: Spec, tasks: map<string, Task>, items: seq<Item>) {
    forall x :: x in items ==> HeldItem(tasks, x) && !Outlived(spec, tasks, x)
  }

  /** Every name is held, and what is outlived is already being deleted and waits for its finalizer. */
  predicate Quiescent(spec: Spec, tasks: map<string, Task>, items: seq<Item>) {
    forall x :: x in items ==> HeldItem(tasks, x) && (Outlived(spec, tasks, x) ==> tasks[x.name.value].terminating)
  }

  /** A cycle that begins now may create nothing. */
  predicate NoRoom(w: World) {
    AtConcurrency(w.spec.maxConcurrency, Live(w)) || AtTotal(w.spec.maxTotal, w.status.total)
  }

  /** No named item calls for a step: its Task is there or held back by a limit, or is already being deleted. */
  predicate AtRest(w: World, items: seq<Item>) {
    forall x :: x in items && x.name.Some? ==>
      if HeldItem(w.tasks, x) then Outlived(w.spec, w.tasks, x) ==> w.tasks[x.name.value].terminating else NoRoom(w)
  }

  // ---------------------------------------------------------------- the spawner by itself, and finalizers

  /** The spawner's own steps, over cycles that discover only these items. */
  predicate OwnStep(i: Input, items: seq<Item>) {
    OfSpawner(i) && (i.Begin? ==> forall x :: x in i.items ==> x in items)
  }

  predicate OwnSteps(inputs: seq<Input>, items: seq<Item>) {
    forall k :: 0 <= k < |inputs| ==> OwnStep(inputs[k], items)
  }

  predicate OwnOrFinal(inputs: seq<Input>, items: seq<Item>) {
    forall k :: 0 <= k < |inputs| ==> OwnStep(inputs[k], items) || inputs[k].Finalize?
  }

  /** Some step of the spawner in this run changes a Task. */
  predicate Acts(w: World, inputs: seq<Input>)
    requires Possible(w, inputs)
    decreases |inputs|
  {
    inputs != [] &&
    ((OfSpawner(inputs[0]) && Step(w, inputs[0]).tasks != w.tasks) || Acts(Step(w, inputs[0]), inputs[1..]))
  }

  /** No run of the spawner alone, over any cycles with these items, changes a Task. */
  ghost predicate Stable(w: World, items: seq<Item>) {
    forall inputs :: Possible(w, inputs) && OwnSteps(inputs, items) ==> !Acts(w, inputs)
  }

  /** Some run in which only the spawner and finalizers take part has the spawner change a Task. */
  ghost predicate Wakes(w: World, items: seq<Item>) {
    exists inputs :: Possible(w, inputs) && OwnOrFinal(inputs, items) && Acts(w, inputs)
  }

  /** Tasks whose finalizers may complete. */
  predicate Finalizable(w: World, names: set<string>) {
    forall n :: n in names ==> n in w.tasks && w.tasks[n].terminating
  }

  function Without(w: World, names: set<string>): World {
    w.(tasks := w.tasks - names)
  }

  lemma {:induction false} SortKeepsMembers(s: seq<Item>)
    ensures forall x :: x in SortByRank(s) <==> x in s
  {
    SpawnerItems.SortIsStable(s);
    forall x
      ensures x in SortByRank(s) <==> x in s
    {
      assert x in multiset(SortByRank(s)) <==> x in multiset(s);
    }
  }

  // ---------------------------------------------------------------- before the first change

  /**
   Since `w` the spawner has changed nothing: the finalizers of `gone` have completed,
   those of `listed` before the cycle in progress listed the Tasks.
   */
  predicate Calm(w: World, u: World, gone: set<string>, listed: set<string>, items: seq<Item>) {
    && u.spec == w.spec && u.status.total == w.status.total && u.tasks == w.tasks - gone
    && listed <= gone && Finalizable(w, gone)
    && CalmCycle(w, u.cycle, listed, items)
  }

  predicate CalmCycle(w: World, c: Cycle, listed: set<string>, items: seq<Item>) {
    && c.created == 0
    && (c.stage != Idle ==>
          && c.known == Known(w.spec, w.tasks - listed) && c.active == Live(Without(w, listed))
          && c.base == w.status.total)
    && (c.stage == Idle ==> c.todo == [] && c.newItems == [])
    && (forall x :: x in c.todo ==> x in items)
    && (forall x :: x in c.newItems ==> x in items && x.name.Some? && Decide(c.known, x) != AsKept)
    && (c.stage in {Creating, Confirming} ==> forall x :: x in c.todo ==> x in c.newItems)
  }

  lemma {:induction false} FinalizeStaysCalm(
      w: World, u: World, gone: set<string>, listed: set<string>, items: seq<Item>, n: string)
    requires Calm(w, u, gone, listed, items) && Enabled(u, Finalize(n))
    ensures Calm(w, Step(u, Finalize(n)), gone + {n}, listed, items)
  {
    assert u.tasks - {n} == w.tasks - (gone + {n});
  }

  lemma {:induction false} BeginStaysCalm(
      w: World, u: World, gone: set<string>, listed: set<string>, items: seq<Item>, found: seq<Item>)
    requires Calm(w, u, gone, listed, items) && Enabled(u, Begin(found)) && forall x :: x in found ==> x in items
    ensures Calm(w, Step(u, Begin(found)), gone, gone, items)
  {
  }

  lemma {:induction false} ScanStaysCalm(
      w: World, u: World, gone: set<string>, listed: set<string>, items: seq<Item>, ok: bool, effect: Effect)
    requires Calm(w, u, gone, listed, items) && Enabled(u, Scan(ok, effect)) && DoScan(u, ok, effect).tasks == u.tasks
    ensures Calm(w, DoScan(u, ok, effect), gone, listed, items)
  {
    var c, d := u.cycle, DoScan(u, ok, effect).cycle;
    assert c.todo == [c.todo[0]] + d.todo;
    assert d.newItems == c.newItems || d.newItems == c.newItems + [c.todo[0]];
  }

  lemma {:induction false} OrderStaysCalm(w: World, u: World, gone: set<string>, listed: set<string>, items: seq<Item>)
    requires Calm(w, u, gone, listed, items) && Enabled(u, Order)
    ensures Calm(w, DoOrder(u), gone, listed, items)
  {
    SortKeepsMembers(u.cycle.newItems);
  }

  lemma {:induction false} OtherStepStaysCalm(
      w: World, u: World, gone: set<string>, listed: set<string>, items: seq<Item>, i: Input)
    requires Calm(w, u, gone, listed, items) && Enabled(u, i) && OfSpawner(i) && Step(u, i).tasks == u.tasks
    requires !i.Begin? && !i.Scan? && !i.Order?
    ensures Calm(w, Step(u, i), gone, listed, items)
  {
    var c, d := u.cycle, Step(u, i).cycle;
    assert forall x :: x in d.todo ==> x in c.todo;
  }

  lemma {:induction false} StaysCalm(
      w: World, u: World, gone: set<string>, listed: set<string>, items: seq<Item>, i: Input)
    requires Calm(w, u, gone, listed, items) && Enabled(u, i) && OwnStep(i, items) && Step(u, i).tasks == u.tasks
    ensures Calm(w, Step(u, i), gone, if i.Begin? then gone else listed, items)
  {
    if i.Begin? {
      BeginStaysCalm(w, u, gone, listed, items, i.items);
    } else if i.Scan? {
      ScanStaysCalm(w, u, gone, listed, items, i.ok, i.effect);
    } else if i.Order? {
      OrderStaysCalm(w, u, gone, listed, items);
    } else {
      OtherStepStaysCalm(w, u, gone, listed, items, i);
    }
  }

  // ---------------------------------------------------------------- the first change

  /** A name that is to be created was not among the unfinished Tasks when they were counted. */
  lemma {:induction false} CreatedWasNotLive(w: World, listed: set<string>, x: Item)
    requires x.name.Some? && Decide(Known(w.spec, w.tasks - listed), x) != AsKept
    ensures Live(Without(w, listed + {x.name.value})) == Live(Without(w, listed))
  {
    var t := w.tasks - listed;
    assert LiveNames(w.spec, w.tasks - (listed + {x.name.value})) == LiveNames(w.spec, t);
  }

  lemma {:induction false} FirstScan(
      w: World, u: World, gone: set<string>, listed: set<string>, items: seq<Item>, ok: bool, effect: Effect)
    requires Calm(w, u, gone, listed, items) && Enabled(u, Scan(ok, effect)) && DoScan(u, ok, effect).tasks != u.tasks
    ensures !AtRest(Without(w, {}), items)
  {
    var x := u.cycle.todo[0];
    var n := x.name.value;
    assert n in u.tasks && Decide(u.cycle.known, x) == AsRetrigger;
    assert w.tasks - {} == w.tasks && Outlived(w.spec, w.tasks, x);
  }

  lemma {:induction false} FirstCreate(
      w: World, u: World, gone: set<string>, listed: set<string>, items: seq<Item>, reply: Reply)
    returns (names: set<string>)
    requires Calm(w, u, gone, listed, items) && Enabled(u, Input.Create(reply))
    requires DoCreate(u, reply).tasks != u.tasks
    ensures Finalizable(w, names) && !AtRest(Without(w, names), items)
    ensures gone == {} ==> names == {}
  {
    var x := u.cycle.todo[0];
    var n := x.name.value;
    assert x in u.cycle.newItems && x in items && n !in u.tasks;
    CreatedWasNotLive(w, listed, x);
    if n in w.tasks {
      names := listed + {n};
    } else {
      names := listed;
      assert w.tasks - listed == w.tasks - (listed + {n});
    }
    assert !HeldItem(Without(w, names).tasks, x) && !NoRoom(Without(w, names));
  }

  /** From calm to the first change of a Task: it was called for, after some finalizers. */
  lemma {:induction false} FirstChange(
      w: World, u: World, gone: set<string>, listed: set<string>, items: seq<Item>, inputs: seq<Input>)
    returns (names: set<string>)
    requires Calm(w, u, gone, listed, items) && Possible(u, inputs) && OwnOrFinal(inputs, items) && Acts(u, inputs)
    ensures Finalizable(w, names) && !AtRest(Without(w, names), items)
    ensures gone == {} && OwnSteps(inputs, items) ==> names == {}
    decreases |inputs|
  {
    var i := inputs[0];
    if i.Finalize? {
      FinalizeStaysCalm(w, u, gone, listed, items, i.name);
      names := FirstChange(w, Step(u, i), gone + {i.name}, listed, items, inputs[1..]);
    } else if Step(u, i).tasks == u.tasks {
      StaysCalm(w, u, gone, listed, items, i);
      names := FirstChange(w, Step(u, i), gone, if i.Begin? then gone else listed, items, inputs[1..]);
    } else if i.Scan? {
      FirstScan(w, u, gone, listed, items, i.ok, i.effect);
      names := {};
    } else {
      names := FirstCreate(w, u, gone, listed, items, i.reply);
    }
  }

  // ---------------------------------------------------------------- what is called for happens

  lemma {:induction false} ActsPrepend(w: World, i: Input, rest: seq<Input>)
    requires Enabled(w, i) && Possible(Step(w, i), rest)
    ensures Possible(w, [i] + rest) && RunAll(w, [i] + rest) == RunAll(Step(w, i), rest)
    ensures Acts(w, [i] + rest) <==> (OfSpawner(i) && Step(w, i).tasks != w.tasks) || Acts(Step(w, i), rest)
  {
    assert ([i] + rest)[1..] == rest;
  }

  /** The state of a cycle over one free name when it comes to create. */
  function Creating1(w: World, x: Item): World {
    w.(cycle := Cycle(Creating, [x], [x], Known(w.spec, w.tasks), Live(w), [x], w.status.total, 0, 0, [], []),
       past := w.past.(lostNow := 0))
  }

  lemma {:induction false} SortOne(x: Item)
    ensures SortByRank([x]) == [x]
  {
    assert [x][1..] == [] && SortByRank([]) == [];
  }

  lemma {:induction false} MatchFree(w: World, x: Item)
    requires w.cycle == IDLE && x.name.Some? && x.name.value !in w.tasks
    ensures var w1 := Step(w, Begin([x]));
      && Enabled(w1, Scan(true, Lingers)) && Enabled(Step(w1, Scan(true, Lingers)), Order)
      && Step(Step(w1, Scan(true, Lingers)), Order) == Creating1(w, x)
  {
    var w2 := Step(Step(w, Begin([x])), Scan(true, Lingers));
    assert w2.cycle.newItems == [x] && w2.cycle.todo == [];
    SortOne(x);
  }

  const RECREATE := [Scan(true, Lingers), Order, Input.Create(Accepted)]

  lemma {:induction false} FreeNameIsCreated(w: World, x: Item)
    requires w.cycle == IDLE && x.name.Some? && x.name.value !in w.tasks && !NoRoom(w)
    ensures var all := [Begin([x])] + RECREATE;
      Possible(w, all) && Acts(w, all) && RunAll(w, all).tasks == w.tasks[x.name.value := NewTask(w.spec)]
  {
    MatchFree(w, x);
    var w1 := Step(w, Begin([x]));
    var w3 := Creating1(w, x);
    var v := Step(w3, Input.Create(Accepted));
    assert x.name.value in v.tasks;
    assert Possible(v, []);
    ActsPrepend(w3, Input.Create(Accepted), []);
    ActsPrepend(Step(w1, Scan(true, Lingers)), Order, [Input.Create(Accepted)] + []);
    ActsPrepend(w1, Scan(true, Lingers), [Order] + ([Input.Create(Accepted)] + []));
    ActsPrepend(w, Begin([x]), [Scan(true, Lingers)] + ([Order] + ([Input.Create(Accepted)] + [])));
    assert RECREATE == [Scan(true, Lingers)] + ([Order] + ([Input.Create(Accepted)] + []));
  }

  lemma {:induction false} OutlivedIsDeleted(w: World, x: Item)
    requires w.cycle == IDLE && Outlived(w.spec, w.tasks, x) && !w.tasks[x.name.value].terminating
    ensures var all := [Begin([x])] + [Scan(true, Lingers)]; Possible(w, all) && Acts(w, all)
  {
    var w1 := Step(w, Begin([x]));
    var v := Step(w1, Scan(true, Lingers));
    assert w1.cycle.known[x.name.value] == w.tasks[x.name.value];
    assert v.tasks[x.name.value].terminating;
    assert Possible(v, []);
    ActsPrepend(w1, Scan(true, Lingers), []);
    ActsPrepend(w, Begin([x]), [Scan(true, Lingers)] + []);
    assert [Scan(true, Lingers)] + [] == [Scan(true, Lingers)];
  }

  lemma {:induction false} RestlessActs(w: World, items: seq<Item>) returns (inputs: seq<Input>)
    requires w.cycle == IDLE && !AtRest(w, items)
    ensures Possible(w, inputs) && OwnSteps(inputs, items) && Acts(w, inputs)
  {
    var x :| x in items && x.name.Some?
             && !(if HeldItem(w.tasks, x) then Outlived(w.spec, w.tasks, x) ==> w.tasks[x.name.value].terminating
                  else NoRoom(w));
    if HeldItem(w.tasks, x) {
      OutlivedIsDeleted(w, x);
      inputs := [Begin([x])] + [Scan(true, Lingers)];
    } else {
      FreeNameIsCreated(w, x);
      inputs := [Begin([x])] + RECREATE;
    }
  }

  lemma {:induction false} FinalizeAll(w: World, names: set<string>, rest: seq<Input>) returns (inputs: seq<Input>)
    requires Finalizable(w, names) && Possible(Without(w, names), rest)
    ensures Possible(w, inputs) && (Acts(w, inputs) <==> Acts(Without(w, names), rest))
    ensures forall k :: 0 <= k < |inputs| ==> inputs[k].Finalize? || inputs[k] in rest
    decreases |names|
  {
    if names == {} {
      assert w.tasks - {} == w.tasks && Without(w, {}) == w;
      return rest;
    }
    var n :| n in names;
    var v := Step(w, Finalize(n));
    assert v.tasks - (names - {n}) == w.tasks - names;
    assert Without(v, names - {n}) == Without(w, names);
    var later := FinalizeAll(v, names - {n}, rest);
    ActsPrepend(w, Finalize(n), later);
    inputs := [Finalize(n)] + later;
  }

  // ---------------------------------------------------------------- the results

  lemma {:induction false} IdleIsCalm(w: World, items: seq<Item>)
    requires w.cycle == IDLE
    ensures Calm(w, w, {}, {}, items)
  {
    assert w.tasks - {} == w.tasks;
  }

  /**
   The spawner by itself never changes a Task again, over any cycles with these items,
   failures and crashes included, if and only if no item calls for a step.
   */
  lemma {:induction false} StableIff(w: World, items: seq<Item>)
    requires w.cycle == IDLE
    ensures Stable(w, items) <==> AtRest(w, items)
  {
    if AtRest(w, items) {
      forall inputs | Possible(w, inputs) && OwnSteps(inputs, items)
        ensures !Acts(w, inputs)
      {
        if Acts(w, inputs) {
          IdleIsCalm(w, items);
          assert w.tasks - {} == w.tasks && Without(w, {}) == w;
          var names := FirstChange(w, w, {}, {}, items, inputs);
        }
      }
    } else {
      var inputs := RestlessActs(w, items);
    }
  }

  /**
   With finalizers completing beside it, the spawner changes a Task in some run if and
   only if some set of Tasks being deleted is such that, once they are gone, an item
   calls for a step.
   */
  lemma {:induction false} WakesIff(w: World, items: seq<Item>)
    requires w.cycle == IDLE
    ensures Wakes(w, items) <==> exists names :: Finalizable(w, names) && !AtRest(Without(w, names), items)
  {
    if Wakes(w, items) {
      var inputs :| Possible(w, inputs) && OwnOrFinal(inputs, items) && Acts(w, inputs);
      IdleIsCalm(w, items);
      var names := FirstChange(w, w, {}, {}, items, inputs);
    }
    if names :| Finalizable(w, names) && !AtRest(Without(w, names), items) {
      var later := RestlessActs(Without(w, names), items);
      var inputs := FinalizeAll(w, names, later);
      assert OwnOrFinal(inputs, items);
    }
  }

  /** From a quiescent state it takes the finalizer of a discovered name, and room. */
  lemma {:induction false} QuiescentWakesIff(w: World, items: seq<Item>)
    requires w.cycle == IDLE && Quiescent(w.spec, w.tasks, items)
    ensures Stable(w, items)
    ensures Wakes(w, items) <==>
      exists names, x :: Finalizable(w, names) && x in items && x.name.value in names && !NoRoom(Without(w, names))
  {
    StableIff(w, items);
    WakesIff(w, items);
    forall names | Finalizable(w, names)
      ensures !AtRest(Without(w, names), items) <==>
        exists x :: x in items && x.name.value in names && !NoRoom(Without(w, names))
    {
      RestWithout(w, items, names);
    }
  }

  lemma {:induction false} RestWithout(w: World, items: seq<Item>, names: set<string>)
    requires Quiescent(w.spec, w.tasks, items)
    ensures !AtRest(Without(w, names), items) <==>
      exists x :: x in items && x.name.value in names && !NoRoom(Without(w, names))
  {
    var v := Without(w, names);
    assert forall x :: x in items ==> HeldItem(w.tasks, x);
    assert forall x :: x in items && HeldItem(v.tasks, x) && Outlived(v.spec, v.tasks, x) ==>
      Outlived(w.spec, w.tasks, x) && v.tasks[x.name.value].terminating;
    assert forall x :: x in items ==> (HeldItem(v.tasks, x) <==> x.name.value !in names);
  }

  // ---------------------------------------------------------------- only what was being deleted is made anew

  /** Since a quiescent `w`: Tasks being deleted may be gone, or made anew; all others are as they were. */
  predicate Renewing(w: World, u: World, items: seq<Item>) {
    && u.spec == w.spec && u.tasks.Keys <= w.tasks.Keys
    && (forall n :: n in w.tasks && !w.tasks[n].terminating ==> n in u.tasks)
    && (forall n :: n in u.tasks ==> Renewed(w, n, u.tasks[n]))
    && RenewingCycle(w, u, items)
  }

  predicate Renewed(w: World, n: string, t: Task)
    requires n in w.tasks
  {
    t == w.tasks[n] || (w.tasks[n].terminating && t == NewTask(w.spec))
  }

  predicate RenewingCycle(w: World, u: World, items: seq<Item>) {
    && (forall n :: n in u.cycle.known ==>
          n in w.tasks && Renewed(w, n, u.cycle.known[n]) && Owned(w.spec, u.cycle.known[n]))
    && (u.cycle.stage == Scanning ==>
          forall n :: n in u.cycle.known && n in u.tasks ==> u.tasks[n] == u.cycle.known[n])
    && (forall x :: x in u.cycle.todo ==> x in items)
    && (forall x :: x in u.cycle.newItems ==> x in items)
  }

  /** Each change by the spawner stores a new Task under a discovered name whose Task was being deleted. */
  predicate OnlyRenews(w: World, u: World, items: seq<Item>, inputs: seq<Input>)
    requires Possible(u, inputs)
    decreases |inputs|
  {
    inputs == [] ||
    (&& (OfSpawner(inputs[0]) && Step(u, inputs[0]).tasks != u.tasks ==> Renews(w, u, items, Step(u, inputs[0])))
     && OnlyRenews(w, Step(u, inputs[0]), items, inputs[1..]))
  }

  predicate Renews(w: World, u: World, items: seq<Item>, v: World) {
    exists x :: x in items && x.name.Some? && x.name.value in w.tasks && w.tasks[x.name.value].terminating
                && x.name.value !in u.tasks && v.tasks == u.tasks[x.name.value := NewTask(w.spec)]
  }

  lemma {:induction false} RenewingScan(w: World, u: World, items: seq<Item>, ok: bool, effect: Effect)
    requires Quiescent(w.spec, w.tasks, items) && Renewing(w, u, items) && Enabled(u, Scan(ok, effect))
    ensures DoScan(u, ok, effect).tasks == u.tasks && Renewing(w, DoScan(u, ok, effect), items)
  {
    var x := u.cycle.todo[0];
    var n := x.name.value;
    assert x in items;
    if Decide(u.cycle.known, x) == AsRetrigger && n in u.tasks {
      assert Outlived(w.spec, w.tasks, x) && u.tasks[n] == w.tasks[n];
      assert u.tasks[n].(terminating := true) == u.tasks[n];
    }
    assert u.cycle.todo == [x] + DoScan(u, ok, effect).cycle.todo;
  }

  lemma {:induction false} RenewingCreate(w: World, u: World, items: seq<Item>, reply: Reply)
    requires Quiescent(w.spec, w.tasks, items) && Renewing(w, u, items) && Enabled(u, Input.Create(reply))
    ensures var v := DoCreate(u, reply); Renewing(w, v, items) && (v.tasks != u.tasks ==> Renews(w, u, items, v))
  {
    var x := u.cycle.todo[0];
    assert x in items && HeldItem(w.tasks, x);
    assert forall y :: y in DoCreate(u, reply).cycle.todo ==> y in u.cycle.todo;
  }

  lemma {:induction false} RenewingOther(w: World, u: World, items: seq<Item>, i: Input)
    requires Renewing(w, u, items) && Enabled(u, i) && (OwnStep(i, items) || i.Finalize?)
    requires !i.Scan? && !i.Create?
    ensures Renewing(w, Step(u, i), items) && (OfSpawner(i) ==> Step(u, i).tasks == u.tasks)
  {
    if i.Order? {
      SortKeepsMembers(u.cycle.newItems);
    } else {
      assert i.Begin? || forall y :: y in Step(u, i).cycle.todo ==> y in u.cycle.todo;
    }
  }

  /**
   From a quiescent state, whatever finalizers complete and however the spawner's cycles
   go, it deletes nothing and marks nothing; it only makes the Tasks anew that were being
   deleted.
   */
  lemma {:induction false} OnlyRenewsOverRun(w: World, u: World, items: seq<Item>, inputs: seq<Input>)
    requires Quiescent(w.spec, w.tasks, items) && Renewing(w, u, items)
    requires Possible(u, inputs) && OwnOrFinal(inputs, items)
    ensures OnlyRenews(w, u, items, inputs) && Renewing(w, RunAll(u, inputs), items)
    decreases |inputs|
  {
    if inputs != [] {
      var i := inputs[0];
      if i.Scan? {
        RenewingScan(w, u, items, i.ok, i.effect);
      } else if i.Create? {
        RenewingCreate(w, u, items, i.reply);
      } else {
        RenewingOther(w, u, items, i);
      }
      OnlyRenewsOverRun(w, Step(u, i), items, inputs[1..]);
    }
  }
}
