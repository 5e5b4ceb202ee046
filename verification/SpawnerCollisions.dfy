/**
 Name collisions are never passed over in silence: a clean cycle reports an error
 exactly when some discovered name is held by a Task of somebody else.
 */
module SpawnerCollisions {
  import opened Spawner
  import opened SpawnerStability
  import opened SpawnerConvergence

  predicate HeldByOther(w: World, x: Item) {
    x.name.Some? && x.name.value in w.tasks && !Belongs(w.spec, w.tasks[x.name.value])
  }

  /** The item has, or is about to have, a Task of the spawner; or an error says that some item has not. */
  predicate Provided(w: World, x: Item) {
    || (w.cycle.stage == Scanning && x in w.cycle.todo)
    || (&& x.name.Some?
        && (ToBeCreated(w.cycle, x.name.value) || w.cycle.errors > 0
            || (x.name.value in w.tasks && Belongs(w.spec, w.tasks[x.name.value]))))
  }

  predicate Reported(w: World, items: seq<Item>) {
    && (forall x :: x in items ==> Provided(w, x))
    && (forall x :: x in w.cycle.todo ==> x in items)
    && (forall x :: x in w.cycle.newItems ==> x in items)
    && (forall n :: n in w.cycle.known ==> Owned(w.spec, w.cycle.known[n]))
    && (w.cycle.stage == Scanning ==> w.cycle.errors == 0)
    && (w.cycle.errors > 0 ==> exists x :: x in items && HeldByOther(w, x))
  }

  lemma {:induction false} ScanReports(w: World, effect: Effect, items: seq<Item>, left: set<string>)
    requires Enabled(w, Scan(true, effect)) && Tidy(w, items, left) && Reported(w, items)
    ensures Reported(Step(w, Scan(true, effect)), items)
  {
    var v := Step(w, Scan(true, effect));
    ScanQueues(w, effect);
    assert w.cycle.todo == [w.cycle.todo[0]] + v.cycle.todo;
    forall y | y in items
      ensures Provided(v, y)
    {
      assert Provided(w, y);
    }
  }

  lemma {:induction false} OrderReports(w: World, items: seq<Item>)
    requires Enabled(w, Order) && Reported(w, items)
    ensures Reported(Step(w, Order), items)
  {
    var v := Step(w, Order);
    SortKeepsMembers(w.cycle.newItems);
    OrderQueues(w);
    forall y | y in items
      ensures Provided(v, y)
    {
      assert Provided(w, y);
    }
  }

  /** The head of the queue gets its Task, or has one, or is reported because another holds its name. */
  lemma {:induction false} SettleReports(w: World, v: World, fate: Fate, items: seq<Item>)
    requires w.cycle.stage in {Creating, Confirming} && w.cycle.todo != [] && w.cycle.todo[0].name.Some?
    requires Reported(w, items) && v.spec == w.spec && v.cycle == Settle(w.cycle, fate)
    requires w.cycle.todo[0].name.value in v.tasks
    requires if fate == Errored then HeldByOther(v, w.cycle.todo[0]) else !HeldByOther(v, w.cycle.todo[0])
    requires forall n :: n in w.tasks ==> n in v.tasks && v.tasks[n] == w.tasks[n]
    ensures Reported(v, items)
  {
    var todo := w.cycle.todo;
    if v.cycle.errors > 0 {
      if w.cycle.errors > 0 {
        var x :| x in items && HeldByOther(w, x);
        assert HeldByOther(v, x);
      } else {
        assert todo[0] in items;
      }
    }
    forall y | y in items
      ensures Provided(v, y)
    {
      assert Provided(w, y);
      if v.cycle.errors == 0 && ToBeCreated(w.cycle, y.name.value) && y.name != todo[0].name {
        SettleQueues(w.cycle, fate, y.name.value);
      }
    }
  }

  lemma {:induction false} QuietReports(w: World, v: World, items: seq<Item>)
    requires Reported(w, items) && v.spec == w.spec && v.tasks == w.tasks
    requires v.cycle == w.cycle.(stage := Confirming) || (w.cycle.todo == [] && v.cycle == w.cycle.(stage := Reporting))
    requires w.cycle.stage == Creating
    ensures Reported(v, items)
  {
    if v.cycle.errors > 0 {
      var x :| x in items && HeldByOther(w, x);
      assert HeldByOther(v, x);
    }
    forall y | y in items
      ensures Provided(v, y)
    {
      assert Provided(w, y);
    }
  }

  lemma {:induction false} CleanStepReports(w: World, i: Input, items: seq<Item>, left: set<string>)
    requires Enabled(w, i) && Clean(w, i) && Tidy(w, items, left) && Reported(w, items)
    ensures Reported(Step(w, i), items)
  {
    var v := Step(w, i);
    match i
    case Scan(_, effect) => ScanReports(w, effect, items, left);
    case Order => OrderReports(w, items);
    case Create(reply) =>
      if reply == Accepted {
        SettleReports(w, v, Created, items);
      } else {
        QuietReports(w, v, items);
      }
    case Confirm(_) =>
      SettleReports(w, v, if HeldByOther(w, w.cycle.todo[0]) then Errored else Duplicate, items);
    case Leave =>
      assert w.cycle.tried + AllBlocked([]) == w.cycle.tried;
      QuietReports(w, v, items);
  }

  lemma {:induction false} CleanRunReports(w: World, inputs: seq<Input>, items: seq<Item>, left: set<string>)
    requires Possible(w, inputs) && CleanRun(w, inputs) && Tidy(w, items, left) && Reported(w, items)
    ensures Reported(RunAll(w, inputs), items)
    decreases |inputs|
  {
    if inputs != [] {
      CleanStep(w, inputs[0], items, left);
      CleanStepReports(w, inputs[0], items, left);
      CleanRunReports(Step(w, inputs[0]), inputs[1..], items, LingeringAfter(w, inputs[0], left));
    }
  }

  /**
   No collision is passed over in silence: after a clean cycle the status shows an
   error if and only if some discovered name is held by a Task that does not belong
   to the spawner; with no error every discovered item has a Task of the spawner.
   */
  lemma {:induction false} CollisionsSurface(w: World, items: seq<Item>, inputs: seq<Input>, now: int)
    requires CleanCycle(w, items, inputs)
    ensures var v := AfterCycle(w, items, inputs, now);
      && (v.status.discoveryError <==> exists x :: x in items && HeldByOther(v, x))
      && (!v.status.discoveryError ==>
            forall x :: x in items ==> HeldItem(v.tasks, x) && Belongs(v.spec, v.tasks[x.name.value]))
  {
    var w1 := Step(w, Begin(items));
    BeginTidies(w, items);
    CleanRunReports(w1, inputs, items, {});
    CleanRunTidies(w1, inputs, items, {});
    var r, v := RunAll(w1, inputs), AfterCycle(w, items, inputs, now);
    assert forall x :: HeldByOther(v, x) <==> HeldByOther(r, x);
    forall x | x in items
      ensures HeldItem(v.tasks, x) && (HeldByOther(r, x) ==> r.cycle.errors > 0)
    {
      assert Provided(r, x) && Tended(r, x, Lingering(w1, inputs, {}));
    }
  }
}
