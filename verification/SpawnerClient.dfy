/**
 runCycleWithSourceCore over its own variables.  The methods up to `Report` are
 the stretches of code between two calls of the API server and do what `Step`
 says; `RunCycle` is the program's function with its two loops, and `Serve` any
 interleaving of cycles with other actors and crashes.
 */
module SpawnerClient {
  import opened Spawner
  import SpawnerItems

  /** How the API server and the preparation of Tasks behave when one item is handled. */
  datatype Weather = Weather(
    deleteOk: bool, effect: Effect, prepared: bool, reached: bool, acknowledged: bool, getOk: bool)

  class DiscoveryCycle {
    const spec: Spec
    var tasks: map<string, Task>
    var status: Status
    var stage: Stage
    var discovered: seq<Item>
    var todo: seq<Item>
    var known: map<string, Task>
    var active: nat
    var newItems: seq<Item>
    var base: int
    var created: nat
    var errors: nat
    ghost var kept: seq<Outcome>
    ghost var tried: seq<Outcome>
    ghost var past: Past

    ghost function State(): World
      reads this
    {
      World(spec, tasks, status,
            Cycle(stage, discovered, todo, known, active, newItems, base, created, errors, kept, tried), past)
    }

    constructor (taskSpawner: Spec, stored: map<string, Task>, recorded: Status)
      ensures State() == Initial(taskSpawner, stored, recorded)
    {
      spec, tasks, status := taskSpawner, stored, recorded;
      stage, discovered, todo, known, active, newItems := Idle, [], [], map[], 0, [];
      base, created, errors, kept, tried := 0, 0, 0, [], [];
      past := Past(0, 0, 0, []);
    }

    /** A new call of the function starts from nothing. */
    method Forget()
      modifies `stage, `discovered, `todo, `known, `active, `newItems, `base, `created, `errors, `kept, `tried
      ensures stage == Idle && discovered == [] && todo == [] && known == map[] && active == 0 && newItems == []
      ensures base == 0 && created == 0 && errors == 0 && kept == [] && tried == []
    {
      stage, discovered, todo, known, active, newItems := Idle, [], [], map[], 0, [];
      base, created, errors, kept, tried := 0, 0, 0, [], [];
    }

    /** The loop over the listed Tasks: remember the owned ones, count the unfinished. */
    method ListTasks()
      modifies this`known, this`active
      ensures known == Known(spec, tasks) && active == |LiveNames(spec, tasks)|
    {
      known, active := map[], 0;
      var rest := tasks.Keys;
      assert tasks - rest == map[];
      while rest != {}
        invariant rest <= tasks.Keys
        invariant known == Known(spec, tasks - rest) && active == |LiveNames(spec, tasks - rest)|
        decreases |rest|
      {
        var n :| n in rest;
        ListOneMore(spec, tasks, rest, n);
        rest := rest - {n};
        var t := tasks[n];
        if Owned(spec, t) {
          known := known[n := t];
          if t.phase != Succeeded && t.phase != Failed {
            active := active + 1;
          }
        }
      }
      assert tasks - {} == tasks;
    }

    method Begin(items: seq<Item>)
      modifies this
      ensures State() == DoBegin(old(State()), items)
    {
      Forget();
      stage, discovered, todo, base := Scanning, items, items, status.total;
      ListTasks();
      past := past.(lostNow := 0);
    }

    method RecordFailure(recorded: bool)
      modifies this
      ensures State() == DoAbort(old(State()), recorded)
    {
      if recorded {
        status := status.(health := Broken, discoveryError := true);
      }
      Forget();
    }

    /** Delete by name, whoever holds it now. */
    method Delete(x: Item, existing: Task, effect: Effect)
      requires x.name.Some? && x.name.value in known && known[x.name.value] == existing
      modifies this`tasks, this`past
      ensures tasks == DoDelete(old(State()), x, effect).tasks && past == DoDelete(old(State()), x, effect).past
    {
      var n := x.name.value;
      if n in tasks && effect != Untouched {
        past := past.(deletions := past.deletions + [Deletion(x, existing, tasks[n])]);
        if effect == Gone {
          tasks := tasks - {n};
        } else {
          tasks := tasks[n := tasks[n].(terminating := true)];
        }
      }
    }

    /** The finished Task of the item at hand is deleted; the item is new, unless the call failed. */
    method Retrigger(x: Item, existing: Task, ok: bool, effect: Effect)
      requires x.name.Some? && x.name.value in known && known[x.name.value] == existing
      modifies `tasks, `past, `kept, `newItems
      ensures tasks == DoDelete(old(State()), x, effect).tasks && past == DoDelete(old(State()), x, effect).past
      ensures newItems == (if ok then old(newItems) + [x] else old(newItems))
      ensures kept == (if ok then old(kept) else old(kept) + [Outcome(x, DeleteFailed)])
    {
      Delete(x, existing, effect);
      if !ok {
        kept := kept + [Outcome(x, DeleteFailed)];
        return;
      }
      newItems := newItems + [x];
    }

    method MatchItem(ok: bool, effect: Effect)
      requires todo != [] && todo[0].name.Some?
      modifies `tasks, `past, `kept, `newItems, `todo
      ensures var x := old(todo[0]); var d, w := Decide(known, x), old(State());
        && todo == old(todo[1..])
        && newItems == (if d == AsNew || (d == AsRetrigger && ok) then old(newItems) + [x] else old(newItems))
        && kept == (if d == AsKept then old(kept) + [Outcome(x, Kept)]
                    else if d == AsRetrigger && !ok then old(kept) + [Outcome(x, DeleteFailed)] else old(kept))
        && tasks == (if d == AsRetrigger then DoDelete(w, x, effect).tasks else old(tasks))
        && past == (if d == AsRetrigger then DoDelete(w, x, effect).past else old(past))
    {
      var x := todo[0];
      var n := x.name.value;
      if n !in known {
        newItems := newItems + [x];
      } else {
        var existing := known[n];
        if x.trigger.Some? && (existing.phase == Succeeded || existing.phase == Failed) &&
           existing.completion.Some? && x.trigger.value > existing.completion.value {
          Retrigger(x, existing, ok, effect);
        } else {
          kept := kept + [Outcome(x, Kept)];
        }
      }
      todo := todo[1..];
    }

    method SortNewItems()
      modifies this
      ensures State() == DoOrder(old(State()))
    {
      if spec.prioritized {
        var sorted: seq<Item> := [];
        for i := |newItems| downto 0
          invariant sorted == SortByRank(newItems[i..])
          invariant State() == old(State())
        {
          assert newItems[i..][1..] == newItems[i + 1..];
          sorted := Insert(newItems[i], sorted);
        }
        newItems := sorted;
      }
      stage, todo := Creating, newItems;
    }

    method LimitReached() returns (full: bool)
      ensures full == Full(State())
    {
      if spec.maxConcurrency > 0 && Int32(active) >= spec.maxConcurrency {
        return true;
      }
      if spec.maxTotal > 0 && base + created >= spec.maxTotal {
        return true;
      }
      return false;
    }

    /** createErrs grows and the loop continues. */
    method Fail()
      requires todo != []
      modifies `stage, `todo, `errors, `tried
      ensures State().cycle == Settle(old(State()).cycle, Errored)
    {
      errors := errors + 1;
      tried := tried + [Outcome(todo[0], Errored)];
      stage, todo := Creating, todo[1..];
    }

    method CountCreated()
      requires stage == Creating && todo != []
      modifies `todo, `tried, `created, `active
      ensures State().cycle == Settle(old(State()).cycle, Created)
    {
      tried := tried + [Outcome(todo[0], Created)];
      todo := todo[1..];
      created := created + 1;
      active := active + 1;
    }

    method CreateTask(reply: Reply)
      requires stage == Creating && todo != [] && todo[0].name.Some?
      modifies this
      ensures State() == DoCreate(old(State()), reply)
    {
      var n := todo[0].name.value;
      match reply
      case NotPrepared => Fail();
      case Accepted =>
        tasks := tasks[n := NewTask(spec)];
        CountCreated();
      case Conflict => stage := Confirming;
      case Failure(committed) =>
        if committed {
          tasks := tasks[n := NewTask(spec)];
          past := past.(lost := past.lost + 1, lostNow := past.lostNow + 1);
        }
        Fail();
    }

    method ConfirmOwner(getOk: bool)
      requires todo != [] && todo[0].name.Some?
      modifies this
      ensures State() == DoConfirm(old(State()), getOk)
    {
      var n := todo[0].name.value;
      if !getOk || n !in tasks {
        Fail();
      } else if Belongs(spec, tasks[n]) {
        tried := tried + [Outcome(todo[0], Duplicate)];
        stage, todo := Creating, todo[1..];
      } else {
        Fail();
      }
    }

    method LeaveLoop()
      modifies this
      ensures State() == DoLeave(old(State()))
    {
      tried := tried + AllBlocked(todo);
      stage, todo := Reporting, [];
    }

    method Report(committed: bool, now: int)
      modifies this
      ensures State() == DoReport(old(State()), committed, now)
    {
      if committed {
        var total := status.total + created;
        var reached := spec.maxTotal > 0 && total >= spec.maxTotal;
        status := Status(total, |discovered|, active, Healthy, errors > 0, reached, now);
      } else {
        past := past.(uncommitted := past.uncommitted + created);
      }
      Forget();
    }

    method Turn(input: Input)
      requires Enabled(State(), input)
      modifies this
      ensures State() == Step(old(State()), input)
    {
      match input
      case Others(after) => tasks := after;
      case Finalize(name) => tasks := tasks - {name};
      case Begin(items) => Begin(items);
      case Abort(recorded) => RecordFailure(recorded);
      case Scan(ok, effect) => MatchItem(ok, effect);
      case Order => SortNewItems();
      case Create(reply) => CreateTask(reply);
      case Confirm(getOk) => ConfirmOwner(getOk);
      case Leave => LeaveLoop();
      case Report(committed, now) => Report(committed, now);
      case Crash =>
        past := past.(uncommitted := past.uncommitted + created);
        Forget();
    }

    method Serve(inputs: seq<Input>)
      requires Possible(State(), inputs)
      modifies this
      ensures State() == RunAll(old(State()), inputs)
    {
      for i := 0 to |inputs|
        invariant Possible(State(), inputs[i..])
        invariant RunAll(State(), inputs[i..]) == RunAll(old(State()), inputs)
      {
        assert inputs[i..][1..] == inputs[i + 1..];
        Turn(inputs[i]);
      }
    }

    // ---------------------------------------------------------------- one undisturbed call

    /** The run so far, started in `start` and driven by `plan`, has led here. */
    ghost predicate Trails(start: World, run: seq<Input>, plan: Plan)
      reads this
    {
      && Driven(start, run, plan) && Possible(start, run) && State() == RunAll(start, run)
      && UnderWay(run, plan.items) && SpawnerItems.Placed(State())
    }

    method Advance(ghost start: World, ghost run: seq<Input>, input: Input, ghost plan: Plan)
      returns (ghost longer: seq<Input>)
      requires Trails(start, run, plan) && run != [] && Enabled(State(), input)
      requires input == Next(State(), plan) && Inner(input)
      modifies this
      ensures Trails(start, longer, plan) && longer != [] && State() == Step(old(State()), input)
    {
      longer := Extend(start, run, input);
      DrivenSnoc(start, run, input, plan);
      SpawnerItems.PlacedStep(State(), input);
      Turn(input);
    }

    method MatchNext(ghost start: World, ghost before: seq<Input>, plan: Plan, call: nat)
      returns (ghost run: seq<Input>)
      requires Trails(start, before, plan) && before != [] && stage == Scanning && discovered == plan.items
      requires call < |plan.items| && todo == plan.items[call..] && todo[0].name.Some?
      modifies this
      ensures Trails(start, run, plan) && run != [] && stage == Scanning && discovered == plan.items
      ensures todo == plan.items[call + 1..]
    {
      assert Call(State()) == call;
      var ok, effect := DeleteSucceeds(plan.weather(call)), EffectOn(tasks, todo[0], plan.weather(call));
      ScanMoves(State(), ok, effect);
      run := Advance(start, before, Scan(ok, effect), plan);
      assert plan.items[call..][1..] == plan.items[call + 1..];
    }

    /** The loop that matches items against the listed Tasks, up to a name that does not resolve. */
    method MatchItems(ghost start: World, ghost before: seq<Input>, plan: Plan)
      returns (call: nat, ghost run: seq<Input>)
      requires Trails(start, before, plan) && before != []
      requires stage == Scanning && todo == discovered == plan.items
      modifies this
      ensures Trails(start, run, plan) && run != [] && stage == Scanning && discovered == plan.items
      ensures call <= |plan.items| && todo == plan.items[call..]
      ensures NamedUpTo(plan.items, call)
      ensures call < |plan.items| ==> plan.items[call].name.None?
    {
      run := before;
      call := 0;
      while call < |plan.items| && plan.items[call].name.Some?
        invariant Trails(start, run, plan) && run != [] && stage == Scanning && discovered == plan.items
        invariant call <= |plan.items| && todo == plan.items[call..]
        invariant NamedUpTo(plan.items, call)
        decreases |plan.items| - call
      {
        run := MatchNext(start, run, plan, call);
        call := call + 1;
      }
    }

    /** One turn of the create loop: the create, and on a conflict the look at who holds the name. */
    method CreateNext(ghost start: World, ghost before: seq<Input>, plan: Plan, call: nat)
      returns (ghost run: seq<Input>)
      requires Trails(start, before, plan) && before != [] && stage == Creating && todo != [] && !Full(State())
      requires call == Call(State())
      modifies this
      ensures Trails(start, run, plan) && run != [] && stage == Creating && todo == old(todo[1..])
      ensures Call(State()) == call + 1
    {
      SpawnerItems.TodoIsNamed(State());
      var reply := Answer(tasks, todo[0], plan.weather(call));
      CreateMoves(State(), reply);
      run := Advance(start, before, Input.Create(reply), plan);
      if reply == Conflict {
        run := ConfirmNext(start, run, plan, call);
      }
    }

    method ConfirmNext(ghost start: World, ghost before: seq<Input>, plan: Plan, call: nat)
      returns (ghost run: seq<Input>)
      requires Trails(start, before, plan) && before != [] && stage == Confirming && todo != []
      requires call == Call(State())
      modifies this
      ensures Trails(start, run, plan) && run != [] && stage == Creating && todo == old(todo[1..])
      ensures Call(State()) == call + 1
    {
      SpawnerItems.TodoIsNamed(State());
      ConfirmMoves(State(), plan.weather(call).getOk);
      run := Advance(start, before, Confirm(plan.weather(call).getOk), plan);
    }

    /** The create loop, up to the first item a limit holds back. */
    method CreateTasks(ghost start: World, ghost before: seq<Input>, plan: Plan, first: nat)
      returns (ghost run: seq<Input>)
      requires Trails(start, before, plan) && before != [] && stage == Creating && first == Call(State())
      modifies this
      ensures Trails(start, run, plan) && run != [] && stage == Creating && (todo == [] || Full(State()))
    {
      run := before;
      var call := first;
      var full := LimitReached();
      while todo != [] && !full
        invariant Trails(start, run, plan) && run != [] && stage == Creating && full == Full(State())
        invariant call == Call(State())
        decreases |todo|
      {
        run := CreateNext(start, run, plan, call);
        call := call + 1;
        full := LimitReached();
      }
    }

    method Start(plan: Plan) returns (ghost run: seq<Input>)
      requires stage == Idle && SpawnerItems.Placed(State())
      modifies this
      ensures Trails(old(State()), run, plan) && run != []
      ensures stage == Scanning && todo == discovered == plan.items
    {
      ghost var start := State();
      run := Extend(start, [], Input.Begin(plan.items));
      DrivenSnoc(start, [], Input.Begin(plan.items), plan);
      SpawnerItems.PlacedStep(start, Input.Begin(plan.items));
      Begin(plan.items);
    }

    /** After the matching: sort, create, and leave the loop. */
    method CreateAll(ghost start: World, ghost before: seq<Input>, plan: Plan) returns (ghost run: seq<Input>)
      requires Trails(start, before, plan) && before != [] && stage == Scanning && todo == []
      requires discovered == plan.items
      modifies this
      ensures Trails(start, run, plan) && run != [] && stage == Reporting
    {
      OrderMoves(State());
      run := Advance(start, before, Order, plan);
      assert Call(State()) == |plan.items|;
      run := CreateTasks(start, run, plan, |plan.items|);
      run := Advance(start, run, Leave, plan);
    }

    /**
     The function from its list of Tasks to its status write, with nobody else at work.
     It is one run of the machine, every input the one that the plan gives for the state
     it is in: it begins with these items, ends with the status write, or with the
     recorded failure exactly when some item's name does not resolve, and does nothing
     but match and create in between.
     */
    method RunCycle(plan: Plan) returns (ghost run: seq<Input>)
      requires stage == Idle && SpawnerItems.Placed(State())
      modifies this
      ensures Driven(old(State()), run, plan) && Possible(old(State()), run) && State() == RunAll(old(State()), run)
      ensures WholeCycle(run, plan) && stage == Idle
    {
      ghost var start := State();
      var call;
      run := Start(plan);
      call, run := MatchItems(start, run, plan);
      run := EndCycle(start, run, plan, call);
    }

    /** The rest of a cycle once the matching has stopped. */
    method EndCycle(ghost start: World, ghost before: seq<Input>, plan: Plan, call: nat)
      returns (ghost run: seq<Input>)
      requires Trails(start, before, plan) && before != [] && stage == Scanning && discovered == plan.items
      requires call <= |plan.items| && todo == plan.items[call..] && NamedUpTo(plan.items, call)
      requires call < |plan.items| ==> plan.items[call].name.None?
      modifies this
      ensures Driven(start, run, plan) && Possible(start, run) && State() == RunAll(start, run)
      ensures WholeCycle(run, plan) && stage == Idle
    {
      LastIs(plan, call);
      if call < |plan.items| {
        assert todo[0] == plan.items[call];
        run := Finish(start, before, Abort(plan.committed), plan);
        return;
      }
      run := CreateAll(start, before, plan);
      run := Finish(start, run, Input.Report(plan.committed, plan.now), plan);
    }

    method Finish(ghost start: World, ghost run: seq<Input>, input: Input, ghost plan: Plan)
      returns (ghost longer: seq<Input>)
      requires Trails(start, run, plan) && run != [] && Enabled(State(), input)
      requires input == Next(State(), plan) && input == LastInput(plan)
      modifies this
      ensures Driven(start, longer, plan) && Possible(start, longer) && State() == RunAll(start, longer)
      ensures WholeCycle(longer, plan) && stage == Idle
    {
      longer := Extend(start, run, input);
      DrivenSnoc(start, run, input, plan);
      Turn(input);
    }
  }

  // ---------------------------------------------------------------- what drives a cycle

  /** One call of the function: the items it discovers, how each of its calls goes, and its status write. */
  datatype Plan = Plan(items: seq<Item>, weather: nat -> Weather, committed: bool, now: int)

  predicate DeleteSucceeds(weather: Weather) {
    weather.deleteOk && weather.effect != Untouched
  }

  /** A Task that is already being deleted stays. */
  function EffectOn(tasks: map<string, Task>, x: Item, weather: Weather): Effect
    requires x.name.Some?
  {
    if DeleteMay(tasks, x.name.value, weather.effect) then weather.effect else Lingers
  }

  /** What the create call for this item answers. */
  function Answer(tasks: map<string, Task>, x: Item, weather: Weather): Reply
    requires x.name.Some?
  {
    if !weather.prepared then NotPrepared
    else if !weather.reached then Failure(false)
    else if x.name.value in tasks then Conflict
    else if weather.acknowledged then Accepted
    else Failure(true)
  }

  /** Number of items that have been matched, and then tried. */
  function Call(w: World): nat {
    if w.cycle.stage == Scanning then
      if |w.cycle.todo| <= |w.cycle.discovered| then |w.cycle.discovered| - |w.cycle.todo| else 0
    else |w.cycle.discovered| + |w.cycle.tried|
  }

  /** The input that the program's text and the weather give in this state. */
  function Next(w: World, plan: Plan): Input {
    var c, weather := w.cycle, plan.weather(Call(w));
    match c.stage
    case Idle => Input.Begin(plan.items)
    case Scanning =>
      if c.todo == [] then Order
      else if c.todo[0].name.None? then Abort(plan.committed)
      else Scan(DeleteSucceeds(weather), EffectOn(w.tasks, c.todo[0], weather))
    case Creating =>
      if c.todo == [] || Full(w) || c.todo[0].name.None? then Leave
      else Input.Create(Answer(w.tasks, c.todo[0], weather))
    case Confirming => Confirm(weather.getOk)
    case Reporting => Input.Report(plan.committed, plan.now)
  }

  predicate Driven(w: World, run: seq<Input>, plan: Plan)
    decreases |run|
  {
    run == [] || (run[0] == Next(w, plan) && Enabled(w, run[0]) && Driven(Step(w, run[0]), run[1..], plan))
  }

  predicate Inner(i: Input) {
    i.Scan? || i.Order? || i.Create? || i.Confirm? || i.Leave?
  }

  predicate UnderWay(run: seq<Input>, items: seq<Item>) {
    run != [] ==> run[0] == Input.Begin(items) && forall k :: 0 < k < |run| ==> Inner(run[k])
  }

  function LastInput(plan: Plan): Input {
    if SpawnerItems.Named(plan.items) then Input.Report(plan.committed, plan.now) else Abort(plan.committed)
  }

  predicate WholeCycle(run: seq<Input>, plan: Plan) {
    && |run| >= 2 && run[0] == Input.Begin(plan.items) && run[|run| - 1] == LastInput(plan)
    && forall k :: 0 < k < |run| - 1 ==> Inner(run[k])
  }

  predicate NamedUpTo(items: seq<Item>, n: nat)
    requires n <= |items|
  {
    n == 0 || (items[n - 1].name.Some? && NamedUpTo(items, n - 1))
  }

  lemma {:induction false} NamedMeans(items: seq<Item>, n: nat)
    requires n <= |items| && NamedUpTo(items, n)
    ensures forall k :: 0 <= k < n ==> items[k].name.Some?
  {
    if n > 0 {
      NamedMeans(items, n - 1);
    }
  }

  /** How the cycle ends is known when the matching stops. */
  lemma {:induction false} LastIs(plan: Plan, call: nat)
    requires call <= |plan.items| && NamedUpTo(plan.items, call)
    requires call < |plan.items| ==> plan.items[call].name.None?
    ensures LastInput(plan) ==
      if call < |plan.items| then Abort(plan.committed) else Input.Report(plan.committed, plan.now)
  {
    NamedMeans(plan.items, call);
  }

  lemma {:induction false} DrivenSnoc(w: World, run: seq<Input>, i: Input, plan: Plan)
    requires Driven(w, run, plan) && Possible(w, run)
    requires Enabled(RunAll(w, run), i) && i == Next(RunAll(w, run), plan)
    ensures Driven(w, run + [i], plan)
    decreases |run|
  {
    if run == [] {
      assert [i][1..] == [] && run + [i] == [i];
    } else {
      DrivenSnoc(Step(w, run[0]), run[1..], i, plan);
      assert (run + [i])[1..] == run[1..] + [i];
    }
  }

  lemma {:induction false} ScanMoves(w: World, ok: bool, effect: Effect)
    requires w.cycle.todo != [] && w.cycle.todo[0].name.Some?
    ensures var c := DoScan(w, ok, effect).cycle;
      c.stage == w.cycle.stage && c.todo == w.cycle.todo[1..] && c.discovered == w.cycle.discovered
  {
  }

  /** A create settles its item, but for a conflict, which the next step settles. */
  lemma {:induction false} CreateMoves(w: World, reply: Reply)
    requires w.cycle.stage == Creating && w.cycle.todo != [] && w.cycle.todo[0].name.Some?
    ensures var c := DoCreate(w, reply).cycle;
      && c.discovered == w.cycle.discovered
      && if reply == Conflict then c.stage == Confirming && c.todo == w.cycle.todo && c.tried == w.cycle.tried
         else c.stage == Creating && c.todo == w.cycle.todo[1..] && |c.tried| == |w.cycle.tried| + 1
  {
  }

  lemma {:induction false} ConfirmMoves(w: World, getOk: bool)
    requires w.cycle.stage == Confirming && w.cycle.todo != [] && w.cycle.todo[0].name.Some?
    ensures var c := DoConfirm(w, getOk).cycle;
      && c.discovered == w.cycle.discovered
      && c.stage == Creating && c.todo == w.cycle.todo[1..] && |c.tried| == |w.cycle.tried| + 1
  {
  }

  lemma {:induction false} OrderMoves(w: World)
    requires w.cycle.stage == Scanning && SpawnerItems.Placed(w)
    ensures var c := DoOrder(w).cycle; c.stage == Creating && c.discovered == w.cycle.discovered && c.tried == []
  {
  }

  /** One more Task is taken off the rest of the list. */
  lemma {:induction false} ListOneMore(spec: Spec, tasks: map<string, Task>, rest: set<string>, n: string)
    requires n in rest && n in tasks
    ensures var before, after, t := tasks - rest, tasks - (rest - {n}), tasks[n];
      && Known(spec, after) == (if Owned(spec, t) then Known(spec, before)[n := t] else Known(spec, before))
      && |LiveNames(spec, after)| == |LiveNames(spec, before)| + (if Owned(spec, t) && !Terminal(t) then 1 else 0)
  {
    assert tasks - (rest - {n}) == (tasks - rest)[n := tasks[n]];
    KnownOneMore(spec, tasks - rest, n, tasks[n]);
    LiveOneMore(spec, tasks - rest, n, tasks[n]);
  }

  lemma {:induction false} KnownOneMore(spec: Spec, before: map<string, Task>, n: string, t: Task)
    requires n !in before
    ensures Known(spec, before[n := t]) == if Owned(spec, t) then Known(spec, before)[n := t] else Known(spec, before)
  {
  }

  lemma {:induction false} LiveOneMore(spec: Spec, before: map<string, Task>, n: string, t: Task)
    requires n !in before
    ensures |LiveNames(spec, before[n := t])|
         == |LiveNames(spec, before)| + (if Owned(spec, t) && !Terminal(t) then 1 else 0)
  {
    if Owned(spec, t) && !Terminal(t) {
      LiveGains(spec, before, n, t);
    } else {
      assert LiveNames(spec, before[n := t]) == LiveNames(spec, before);
    }
  }

  lemma {:induction false} LiveGains(spec: Spec, before: map<string, Task>, n: string, t: Task)
    requires n !in before && Owned(spec, t) && !Terminal(t)
    ensures |LiveNames(spec, before[n := t])| == |LiveNames(spec, before)| + 1
  {
    assert LiveNames(spec, before[n := t]) == LiveNames(spec, before) + {n};
  }

  /** A run and one step more. */
  ghost function Extend(w: World, run: seq<Input>, i: Input): (longer: seq<Input>)
    requires Possible(w, run) && Enabled(RunAll(w, run), i)
    ensures longer == run + [i]
    ensures Possible(w, longer) && RunAll(w, longer) == Step(RunAll(w, run), i)
    decreases |run|
  {
    if run == [] then
      assert [i][1..] == [];
      [i]
    else
      var rest := Extend(Step(w, run[0]), run[1..], i);
      assert (run + [i])[1..] == rest;
      run + [i]
  }
}
