/**
 A cycle always ends, after a number of steps known when it starts; and clean
 cycles exist whenever the limits leave room for the items.
 */
module SpawnerProgress {
  import opened Spawner
  import opened SpawnerStability
  import opened SpawnerConvergence
  import SpawnerItems

  // ---------------------------------------------------------------- every cycle ends

  /** How many steps of its own the spawner may still take before it is idle. */
  function StepsLeft(w: World): nat {
    var c := w.cycle;
    match c.stage
    case Idle => 0
    case Scanning => 3 * |c.todo| + 2 * |c.newItems| + 3
    case Creating => 2 * |c.todo| + 2
    case Confirming => 2 * |c.todo| + 1
    case Reporting => 1
  }

  predicate Working(i: Input) {
    OfSpawner(i) && !i.Begin? && !i.Crash?
  }

  function WorkDone(inputs: seq<Input>): nat {
    if inputs == [] then 0 else (if Working(inputs[0]) then 1 else 0) + WorkDone(inputs[1..])
  }

  lemma {:induction false} WorkShortensCycle(w: World, i: Input)
    requires Enabled(w, i) && !i.Begin?
    ensures StepsLeft(Step(w, i)) + (if Working(i) then 1 else 0) <= StepsLeft(w)
  {
    if i.Order? {
      SpawnerItems.SortIsStable(w.cycle.newItems);
      assert |multiset(SortByRank(w.cycle.newItems))| == |multiset(w.cycle.newItems)|;
    } else if i.Scan? {
      ScanShortens(w, i.ok, i.effect);
    } else if i.Create? {
      CreateShortens(w, i.reply);
    }
  }

  lemma {:induction false} ScanShortens(w: World, ok: bool, effect: Effect)
    requires Enabled(w, Scan(ok, effect))
    ensures StepsLeft(DoScan(w, ok, effect)) + 1 <= StepsLeft(w)
  {
  }

  lemma {:induction false} CreateShortens(w: World, reply: Reply)
    requires Enabled(w, Input.Create(reply))
    ensures StepsLeft(DoCreate(w, reply)) + 1 <= StepsLeft(w)
  {
  }

  lemma {:induction false} WorkIsBounded(w: World, inputs: seq<Input>)
    requires Possible(w, inputs) && forall k :: 0 <= k < |inputs| ==> !inputs[k].Begin?
    ensures WorkDone(inputs) + StepsLeft(RunAll(w, inputs)) <= StepsLeft(w)
    decreases |inputs|
  {
    if inputs != [] {
      WorkShortensCycle(w, inputs[0]);
      WorkIsBounded(Step(w, inputs[0]), inputs[1..]);
    }
  }

  /**
   Whatever the API server answers and whoever else is at work, a cycle over n items
   takes at most 3n + 3 steps of the spawner; and when it has none left it is over.
   */
  lemma {:induction false} EveryCycleEnds(w: World, items: seq<Item>, inputs: seq<Input>)
    requires w.cycle.stage == Idle && Possible(Step(w, Begin(items)), inputs)
    requires forall k :: 0 <= k < |inputs| ==> !inputs[k].Begin?
    ensures WorkDone(inputs) <= 3 * |items| + 3
    ensures WorkDone(inputs) == 3 * |items| + 3 ==> RunAll(Step(w, Begin(items)), inputs).cycle.stage == Idle
  {
    WorkIsBounded(Step(w, Begin(items)), inputs);
  }

  // ---------------------------------------------------------------- clean cycles exist

  /** Items that may still get a Task in this cycle. */
  function Candidates(c: Cycle): nat {
    match c.stage
    case Scanning => |c.todo| + |c.newItems|
    case Creating => |c.todo|
    case Confirming => |c.todo|
    case _ => 0
  }

  /** A cycle in progress over named items, with room for all of them under both limits. */
  predicate Unhindered(w: World) {
    && w.cycle.stage != Idle && SpawnerItems.Named(w.cycle.todo)
    && (w.spec.maxConcurrency > 0 ==> w.cycle.active + Candidates(w.cycle) <= w.spec.maxConcurrency)
    && (w.spec.maxTotal > 0 ==> w.cycle.base + w.cycle.created + Candidates(w.cycle) <= w.spec.maxTotal)
    && (w.cycle.stage == Confirming ==> w.cycle.todo != [] && w.cycle.todo[0].name.value in w.tasks)
  }

  function CleanInput(w: World, effect: Effect): Input {
    var c := w.cycle;
    if c.stage == Scanning then
      if c.todo == [] then Order
      else if c.todo[0].name.Some? && DeleteMay(w.tasks, c.todo[0].name.value, effect) then Scan(true, effect)
      else Scan(true, Lingers)
    else if c.stage == Confirming then Confirm(true)
    else if c.todo == [] || c.todo[0].name.None? then Leave
    else Input.Create(if c.todo[0].name.value in w.tasks then Conflict else Accepted)
  }

  lemma {:induction false} OrderedNamed(spec: Spec, s: seq<Item>)
    requires SpawnerItems.Named(s)
    ensures SpawnerItems.Named(Ordered(spec, s)) && |Ordered(spec, s)| == |s|
  {
    SpawnerItems.SortIsStable(s);
    assert |multiset(SortByRank(s))| == |multiset(s)|;
    SortKeepsMembers(s);
    forall k | 0 <= k < |Ordered(spec, s)|
      ensures Ordered(spec, s)[k] in s
    {
      assert Ordered(spec, s)[k] in Ordered(spec, s);
    }
  }

  lemma {:induction false} CleanMatching(w: World, effect: Effect)
    requires Unhindered(w) && w.cycle.stage == Scanning && effect != Untouched && SpawnerItems.Named(w.cycle.newItems)
    ensures var i := CleanInput(w, effect); Enabled(w, i) && Clean(w, i) && Unhindered(Step(w, i))
  {
    OrderedNamed(w.spec, w.cycle.newItems);
    if w.cycle.todo == [] {
      assert Step(w, Order).cycle.todo == Ordered(w.spec, w.cycle.newItems);
    } else {
      assert Step(w, CleanInput(w, effect)).cycle.todo == w.cycle.todo[1..];
    }
  }

  lemma {:induction false} RoomMeansNotFull(w: World)
    requires Unhindered(w) && w.cycle.stage == Creating && w.cycle.todo != []
    ensures !Full(w)
  {
    if w.spec.maxConcurrency > 0 {
      assert Int32(w.cycle.active) == w.cycle.active;
    }
  }

  lemma {:induction false} CleanCreating(w: World, effect: Effect)
    requires Unhindered(w) && w.cycle.stage in {Creating, Confirming}
    ensures var i := CleanInput(w, effect); Enabled(w, i) && Clean(w, i) && Unhindered(Step(w, i))
  {
    var i := CleanInput(w, effect);
    if w.cycle.stage == Creating && w.cycle.todo != [] {
      RoomMeansNotFull(w);
    }
    if i.Create? && i.reply == Conflict {
      assert Step(w, i).cycle.todo == w.cycle.todo;
    } else if !i.Leave? {
      assert Step(w, i).cycle.todo == w.cycle.todo[1..];
    }
  }

  lemma {:induction false} StaysNamed(w: World, i: Input)
    requires Enabled(w, i) && SpawnerItems.Named(w.cycle.newItems)
    ensures SpawnerItems.Named(Step(w, i).cycle.newItems)
  {
    if i.Order? {
      OrderedNamed(w.spec, w.cycle.newItems);
    }
  }

  /**
   Clean cycles exist: from any point of a cycle over named items for which the limits
   leave room, one leads to its report, whether deletions complete or linger.
   */
  lemma {:induction false} CleanCycleExists(w: World, effect: Effect) returns (inputs: seq<Input>)
    requires Unhindered(w) && SpawnerItems.Named(w.cycle.newItems) && effect != Untouched
    ensures Possible(w, inputs) && CleanRun(w, inputs) && RunAll(w, inputs).cycle.stage == Reporting
    decreases StepsLeft(w)
  {
    if w.cycle.stage == Reporting {
      return [];
    }
    var i := CleanInput(w, effect);
    if w.cycle.stage == Scanning {
      CleanMatching(w, effect);
    } else {
      CleanCreating(w, effect);
    }
    StaysNamed(w, i);
    WorkShortensCycle(w, i);
    var rest := CleanCycleExists(Step(w, i), effect);
    inputs := [i] + rest;
    assert inputs[1..] == rest;
  }
}
