/**
 The two limits of the spawner over every run: the number of unfinished Tasks
 stays under the concurrency limit, and the recorded total is the true one up to
 the creates that no status write recorded.
 */
module SpawnerLimits {
  import opened Wrappers
  import opened Spawner

  // ---------------------------------------------------------------- the conversion in the concurrency guard

  /** The guard stops at every positive limit it should exactly when the conversion keeps the count large. */
  lemma {:induction false} GuardExactIff(active: nat)
    ensures (forall m :: 0 < m < 0x8000_0000 ==> (AtConcurrency(m, active) <==> active >= m))
       <==> active < 0x8000_0000 || Int32(active) == 0x7FFF_FFFF
  {
    if active < 0x8000_0000 {
      assert Int32(active) == active;
    } else {
      assert Int32(active) <= 0x7FFF_FFFF;
      if Int32(active) != 0x7FFF_FFFF {
        assert !AtConcurrency(0x7FFF_FFFF, active);
      }
    }
  }

  /** With 2^31 unfinished Tasks counted the guard lets a spawner with limit 1 create another. */
  lemma {:induction false} GuardOverflows()
    ensures !AtConcurrency(1, 0x8000_0000)
  {
    assert Int32(0x8000_0000) == -0x8000_0000;
  }

  // ---------------------------------------------------------------- counting unfinished Tasks

  lemma {:induction false} SubsetSize<T>(a: set<T>, b: set<T>)
    requires a <= b
    ensures |a| <= |b|
  {
    assert b == a + (b - a);
  }

  /** Taking away, finishing or marking a Task never makes the count grow. */
  lemma {:induction false} LiveShrinks(spec: Spec, before: map<string, Task>, after: map<string, Task>)
    requires OthersMay(spec, before, after)
    ensures |LiveNames(spec, after)| <= |LiveNames(spec, before)|
  {
    SubsetSize(LiveNames(spec, after), LiveNames(spec, before));
  }

  lemma {:induction false} LiveGrowsByOne(spec: Spec, tasks: map<string, Task>, n: string)
    requires n !in tasks
    ensures |LiveNames(spec, tasks[n := NewTask(spec)])| == |LiveNames(spec, tasks)| + 1
  {
    assert LiveNames(spec, tasks[n := NewTask(spec)]) == LiveNames(spec, tasks) + {n};
  }

  /** A scan takes Tasks away or marks them, and keeps what was counted. */
  lemma {:induction false} ScanOnlyTakes(w: World, ok: bool, effect: Effect)
    requires Enabled(w, Scan(ok, effect))
    ensures var v := DoScan(w, ok, effect);
      && OthersMay(w.spec, w.tasks, v.tasks) && v.tasks.Keys <= w.tasks.Keys && v.spec == w.spec
      && v.past.lost == w.past.lost && v.past.lostNow == w.past.lostNow && v.past.uncommitted == w.past.uncommitted
      && v.status == w.status && v.cycle.active == w.cycle.active && v.cycle.stage == w.cycle.stage
      && v.cycle.base == w.cycle.base && v.cycle.created == w.cycle.created
  {
  }

  /** A step that creates nothing leaves no more unfinished Tasks than it found. */
  lemma {:induction false} OnlyCreatesAdd(w: World, i: Input)
    requires Enabled(w, i) && !Commits(i)
    ensures Live(Step(w, i)) <= Live(w)
    ensures Step(w, i).spec == w.spec && (!i.Others? ==> Step(w, i).tasks.Keys <= w.tasks.Keys)
  {
    if i.Scan? {
      ScanOnlyTakes(w, i.ok, i.effect);
      LiveShrinks(w.spec, w.tasks, Step(w, i).tasks);
    } else if !OfSpawner(i) {
      LiveShrinks(w.spec, w.tasks, Step(w, i).tasks);
    } else {
      assert Step(w, i).tasks == w.tasks;
    }
  }

  /** The inputs in which the API server stores a new Task. */
  predicate Commits(i: Input) {
    i == Input.Create(Accepted) || i == Input.Create(Failure(true))
  }

  // ---------------------------------------------------------------- the concurrency cap

  /** The most creates of any one cycle that took effect and were reported as failed. */
  function WorstCycle(w: World, inputs: seq<Input>): nat
    requires Possible(w, inputs)
    decreases |inputs|
  {
    if inputs == [] then w.past.lostNow
    else
      var later := WorstCycle(Step(w, inputs[0]), inputs[1..]);
      if w.past.lostNow > later then w.past.lostNow else later
  }

  /**
   `cap` is at least the number of unfinished Tasks at the start, and at least the limit
   and the losses of one cycle.  A cycle creates only while it counts less than the
   limit, so the losses of several cycles do not add up.
   */
  predicate CapSound(w: World, cap: nat, slack: nat) {
    && w.past.lostNow <= slack
    && Live(w) <= cap && w.cycle.active <= cap
    && (w.cycle.stage != Idle ==> Live(w) <= w.cycle.active + w.past.lostNow)
  }

  lemma {:induction false} CapCommit(w: World, reply: Reply, cap: nat, slack: nat)
    requires Enabled(w, Input.Create(reply)) && Commits(Input.Create(reply)) && CapSound(w, cap, slack)
    requires DoCreate(w, reply).past.lostNow <= slack
    requires 0 < w.spec.maxConcurrency && w.spec.maxConcurrency + slack <= cap < 0x8000_0000
    ensures CapSound(DoCreate(w, reply), cap, slack)
  {
    assert Int32(w.cycle.active) == w.cycle.active;
    LiveGrowsByOne(w.spec, w.tasks, w.cycle.todo[0].name.value);
  }

  /** Any other step, once it is known that it adds no unfinished Task. */
  lemma {:induction false} CapQuiet(w: World, i: Input, cap: nat, slack: nat)
    requires Enabled(w, i) && !Commits(i) && !i.Scan? && CapSound(w, cap, slack)
    requires Live(Step(w, i)) <= Live(w)
    ensures CapSound(Step(w, i), cap, slack)
  {
  }

  lemma {:induction false} CapStep(w: World, i: Input, cap: nat, slack: nat)
    requires Enabled(w, i) && CapSound(w, cap, slack) && Step(w, i).past.lostNow <= slack
    requires 0 < w.spec.maxConcurrency && w.spec.maxConcurrency + slack <= cap < 0x8000_0000
    ensures CapSound(Step(w, i), cap, slack)
  {
    if Commits(i) {
      CapCommit(w, i.reply, cap, slack);
    } else {
      OnlyCreatesAdd(w, i);
      if i.Scan? {
        ScanOnlyTakes(w, i.ok, i.effect);
      } else {
        CapQuiet(w, i, cap, slack);
      }
    }
  }

  lemma {:induction false} WorstIsLater(w: World, inputs: seq<Input>)
    requires Possible(w, inputs)
    ensures w.past.lostNow <= WorstCycle(w, inputs)
  {
  }

  lemma {:induction false} CapOverRun(w: World, inputs: seq<Input>, cap: nat, slack: nat)
    requires Possible(w, inputs) && CapSound(w, cap, slack) && WorstCycle(w, inputs) <= slack
    requires 0 < w.spec.maxConcurrency && w.spec.maxConcurrency + slack <= cap < 0x8000_0000
    ensures CapSound(RunAll(w, inputs), cap, slack)
    decreases |inputs|
  {
    if inputs != [] {
      var v := Step(w, inputs[0]);
      WorstIsLater(v, inputs[1..]);
      CapStep(w, inputs[0], cap, slack);
      assert v.spec == w.spec;
      CapOverRun(v, inputs[1..], cap, slack);
    }
  }

  function AtLeast(a: nat, b: nat): nat {
    if a > b then a else b
  }

  /**
   Whatever finishes, whoever else creates Tasks, and wherever the process stops: there
   are never more unfinished Tasks than at the start, or than the limit and the creates
   of a single cycle that the API server carried out and reported as failed.  The
   cycle's own count is at least the true one, but for those of the cycle itself.
   */
  lemma {:induction false} ConcurrencyCap(spec: Spec, tasks: map<string, Task>, status: Status, inputs: seq<Input>)
    requires var w := Initial(spec, tasks, status);
      && Possible(w, inputs) && 0 < spec.maxConcurrency
      && AtLeast(Live(w), spec.maxConcurrency + WorstCycle(w, inputs)) < 0x8000_0000
    ensures var w := Initial(spec, tasks, status); var v := RunAll(w, inputs);
      && Live(v) <= AtLeast(Live(w), spec.maxConcurrency + WorstCycle(w, inputs))
      && (v.cycle.stage != Idle ==> Live(v) <= v.cycle.active + v.past.lostNow)
  {
    var w := Initial(spec, tasks, status);
    CapOverRun(w, inputs, AtLeast(Live(w), spec.maxConcurrency + WorstCycle(w, inputs)), WorstCycle(w, inputs));
  }

  lemma {:induction false} LostNowIsLost(w: World, inputs: seq<Input>)
    requires Possible(w, inputs) && w.past.lostNow <= w.past.lost
    ensures WorstCycle(w, inputs) <= RunAll(w, inputs).past.lost && w.past.lost <= RunAll(w, inputs).past.lost
    decreases |inputs|
  {
    if inputs != [] {
      LostNowIsLost(Step(w, inputs[0]), inputs[1..]);
    }
  }

  /** With no create reported as failed that took effect: never more than the limit, or than there were at the start. */
  lemma {:induction false} NeverAboveTheLimit(spec: Spec, tasks: map<string, Task>, status: Status, inputs: seq<Input>)
    requires var w := Initial(spec, tasks, status);
      && Possible(w, inputs) && RunAll(w, inputs).past.lost == 0
      && 0 < spec.maxConcurrency && Live(w) < 0x8000_0000
    ensures var w := Initial(spec, tasks, status);
      Live(RunAll(w, inputs)) <= AtLeast(Live(w), spec.maxConcurrency)
  {
    LostNowIsLost(Initial(spec, tasks, status), inputs);
    ConcurrencyCap(spec, tasks, status, inputs);
  }

  // ---------------------------------------------------------------- accounting

  /** The Tasks this spawner made in a run, counted at the API server. */
  function Creations(w: World, inputs: seq<Input>): nat
    requires Possible(w, inputs)
    decreases |inputs|
  {
    if inputs == [] then 0
    else
      var v := Step(w, inputs[0]);
      (if !inputs[0].Others? && !(v.tasks.Keys <= w.tasks.Keys) then 1 else 0) + Creations(v, inputs[1..])
  }

  /** Made so far, by the spawner's books. */
  function Booked(w: World): int {
    w.status.total + w.past.uncommitted + w.past.lost + w.cycle.created
  }

  predicate BooksSound(w: World, start: int) {
    && (w.cycle.stage == Idle ==> w.cycle.created == 0)
    && (w.cycle.stage != Idle ==> w.cycle.base == w.status.total)
    && (w.cycle.stage == Scanning ==> w.cycle.created == 0)
    && (w.spec.maxTotal > 0 ==>
          w.status.total + w.cycle.created <= if start > w.spec.maxTotal then start else w.spec.maxTotal)
  }

  lemma {:induction false} BooksKept(w: World, i: Input, start: int)
    requires Enabled(w, i) && !i.Scan? && BooksSound(w, start)
    ensures var v := Step(w, i);
      v.spec == w.spec && BooksSound(v, start) && Booked(v) == Booked(w) + (if Commits(i) then 1 else 0)
  {
  }

  lemma {:induction false} BooksStep(w: World, i: Input, start: int)
    requires Enabled(w, i) && BooksSound(w, start)
    ensures var v := Step(w, i);
      && v.spec == w.spec && BooksSound(v, start)
      && Booked(v) == Booked(w) + Creations(w, [i])
  {
    assert [i][1..] == [];
    if i.Scan? {
      ScanOnlyTakes(w, i.ok, i.effect);
    } else {
      BooksKept(w, i, start);
    }
    if Commits(i) {
      assert w.cycle.todo[0].name.value in Step(w, i).tasks.Keys;
    } else if !i.Others? {
      OnlyCreatesAdd(w, i);
    }
  }

  lemma {:induction false} BooksOverRun(w: World, inputs: seq<Input>, start: int)
    requires Possible(w, inputs) && BooksSound(w, start)
    ensures var v := RunAll(w, inputs);
      && v.spec == w.spec && BooksSound(v, start) && Booked(v) == Booked(w) + Creations(w, inputs)
    decreases |inputs|
  {
    if inputs != [] {
      var v := Step(w, inputs[0]);
      BooksStep(w, inputs[0], start);
      assert [inputs[0]][1..] == [];
      BooksOverRun(v, inputs[1..], start);
    }
  }

  /**
   Between cycles, over any number of them: the recorded total has grown by exactly
   the Tasks created, less those of cycles whose status write failed and those the
   API server stored but reported as failed; and it never passes the lifetime limit.
   */
  lemma {:induction false} ExactAccounting(spec: Spec, tasks: map<string, Task>, status: Status, inputs: seq<Input>)
    requires var w := Initial(spec, tasks, status); Possible(w, inputs) && RunAll(w, inputs).cycle.stage == Idle
    ensures var w := Initial(spec, tasks, status); var v := RunAll(w, inputs);
      && v.status.total == status.total + Creations(w, inputs) - v.past.uncommitted - v.past.lost
      && (spec.maxTotal > 0 ==>
            && v.status.total <= (if status.total > spec.maxTotal then status.total else spec.maxTotal)
            && Creations(w, inputs) <=
                 v.past.uncommitted + v.past.lost
                 + if spec.maxTotal > status.total then spec.maxTotal - status.total else 0)
  {
    var w := Initial(spec, tasks, status);
    BooksOverRun(w, inputs, status.total);
  }

  // ---------------------------------------------------------------- the slack is real

  /** A name of k letters. */
  function NameOf(k: nat): string {
    seq(k, _ => 'a')
  }

  lemma {:induction false} Prepend(w: World, i: Input, rest: seq<Input>)
    requires Enabled(w, i) && Possible(Step(w, i), rest)
    ensures var all := [i] + rest; var v := Step(w, i);
      && Possible(w, all) && RunAll(w, all) == RunAll(v, rest)
      && Creations(w, all) == Creations(v, rest) + (if !i.Others? && !(v.tasks.Keys <= w.tasks.Keys) then 1 else 0)
  {
    assert ([i] + rest)[1..] == rest;
  }

  function Alone(n: string): Item {
    Item(n, Some(n), None, 0)
  }

  /** The variables of a cycle over one new item, when it comes to create its Task. */
  function AboutToCreate(w: World, x: Item): World {
    w.(cycle := Cycle(Creating, [x], [x], Known(w.spec, w.tasks), Live(w), [x], w.status.total, 0, 0, [], []),
       past := w.past.(lostNow := 0))
  }

  lemma {:induction false} SortOne(x: Item)
    ensures SortByRank([x]) == [x]
  {
    assert [x][1..] == [] && SortByRank([]) == [];
  }

  lemma {:induction false} MatchOne(w: World, n: string, rest: seq<Input>) returns (inputs: seq<Input>)
    requires w.cycle == IDLE && n !in w.tasks
    ensures Possible(AboutToCreate(w, Alone(n)), rest) ==>
      && Possible(w, inputs) && RunAll(w, inputs) == RunAll(AboutToCreate(w, Alone(n)), rest)
      && Creations(w, inputs) == Creations(AboutToCreate(w, Alone(n)), rest)
  {
    var w1 := Step(w, Begin([Alone(n)]));
    var w2 := Step(w1, Scan(true, Gone));
    assert w2.cycle.newItems == [Alone(n)];
    SortOne(Alone(n));
    assert Step(w2, Order) == AboutToCreate(w, Alone(n));
    var i2 := [Order] + rest;
    var i1 := [Scan(true, Gone)] + i2;
    inputs := [Begin([Alone(n)])] + i1;
    if Possible(AboutToCreate(w, Alone(n)), rest) {
      Prepend(w2, Order, rest);
      Prepend(w1, Scan(true, Gone), i2);
      Prepend(w, Begin([Alone(n)]), i1);
    }
  }

  function Unrecorded(w: World, n: string): World {
    w.(tasks := w.tasks[n := NewTask(w.spec)], past := w.past.(lostNow := 0, uncommitted := w.past.uncommitted + 1))
  }

  lemma {:induction false} CreateOne(w: World, n: string, rest: seq<Input>) returns (inputs: seq<Input>)
    requires w.cycle == IDLE && n !in w.tasks && w.spec.maxConcurrency <= 0 && !AtTotal(w.spec.maxTotal, w.status.total)
    ensures Possible(Unrecorded(w, n), rest) ==>
      && Possible(AboutToCreate(w, Alone(n)), inputs)
      && RunAll(AboutToCreate(w, Alone(n)), inputs) == RunAll(Unrecorded(w, n), rest)
      && Creations(AboutToCreate(w, Alone(n)), inputs) == 1 + Creations(Unrecorded(w, n), rest)
  {
    var w1 := AboutToCreate(w, Alone(n));
    var w2 := Step(w1, Input.Create(Accepted));
    var w3 := Step(w2, Leave);
    assert Step(w3, Report(false, 0)) == Unrecorded(w, n);
    var i2 := [Report(false, 0)] + rest;
    var i1 := [Leave] + i2;
    inputs := [Input.Create(Accepted)] + i1;
    if Possible(Unrecorded(w, n), rest) {
      Prepend(w3, Report(false, 0), rest);
      Prepend(w2, Leave, i2);
      Prepend(w1, Input.Create(Accepted), i1);
      assert n in w2.tasks.Keys && n !in w1.tasks.Keys;
    }
  }

  /** The lifetime limit 1 is passed by as much as one likes when the status writes keep failing. */
  lemma {:induction false} UnrecordedCyclesPassTheLimit(w: World, k: nat) returns (inputs: seq<Input>)
    requires w.cycle == IDLE && w.spec.maxConcurrency <= 0 && w.spec.maxTotal == 1 && w.status.total == 0
    requires forall n :: n in w.tasks ==> |n| > k
    ensures Possible(w, inputs) && Creations(w, inputs) == k
    ensures RunAll(w, inputs).cycle.stage == Idle && RunAll(w, inputs).status == w.status
    decreases k
  {
    if k == 0 {
      return [];
    }
    var n := NameOf(k);
    var rest := UnrecordedCyclesPassTheLimit(Unrecorded(w, n), k - 1);
    var creating := CreateOne(w, n, rest);
    inputs := MatchOne(w, n, creating);
  }

  // ---------------------------------------------------------------- lost creates do pass the limit

  /** Items with names of 1 to k letters, the longest first. */
  function Batch(k: nat): seq<Item> {
    if k == 0 then [] else [Alone(NameOf(k))] + Batch(k - 1)
  }

  predicate ShortFree(w: World, k: nat) {
    forall n :: n in w.tasks ==> |n| > k
  }

  /** One of the last m creates of a batch of k succeeds; the others are lost. */
  function TryCreate(k: nat, m: nat): Input {
    Input.Create(if k <= m then Accepted else Failure(true))
  }

  /** About to create a batch of k under the limit m, with all that succeeded so far counted. */
  predicate Filling(w: World, k: nat, m: nat) {
    && w.cycle.stage == Creating && w.cycle.todo == Batch(k) && ShortFree(w, k)
    && w.spec.maxConcurrency == m && 0 < m < 0x8000_0000 && w.spec.maxTotal == 0
    && w.cycle.active == (if k <= m then m - k else 0)
  }

  lemma {:induction false} CreateNext(w: World, k: nat, m: nat)
    requires Filling(w, k, m) && k > 0
    ensures Enabled(w, TryCreate(k, m)) && Filling(Step(w, TryCreate(k, m)), k - 1, m)
    ensures var v := Step(w, TryCreate(k, m));
      Live(v) == Live(w) + 1 && v.past.lostNow == w.past.lostNow + (if k <= m then 0 else 1)
  {
    assert Batch(k)[1..] == Batch(k - 1);
    assert Int32(w.cycle.active) == w.cycle.active;
    LiveGrowsByOne(w.spec, w.tasks, NameOf(k));
  }

  function LostOf(k: nat, m: nat): nat {
    if k <= m then 0 else k - m
  }

  /** The inputs fill up from w as far as a batch of k goes. */
  predicate Fills(w: World, inputs: seq<Input>, k: nat, m: nat) {
    && Possible(w, inputs) && Live(RunAll(w, inputs)) == Live(w) + k
    && WorstCycle(w, inputs) == w.past.lostNow + LostOf(k, m)
  }

  lemma {:induction false} FillsNothing(w: World, m: nat)
    ensures Fills(w, [], 0, m)
  {
  }

  lemma {:induction false} FillsOneMore(w: World, rest: seq<Input>, k: nat, m: nat)
    requires Filling(w, k, m) && k > 0
    requires Enabled(w, TryCreate(k, m)) && Fills(Step(w, TryCreate(k, m)), rest, k - 1, m)
    ensures Fills(w, [TryCreate(k, m)] + rest, k, m)
  {
    CreateNext(w, k, m);
    WorstPrepend(w, TryCreate(k, m), rest);
  }

  lemma {:induction false} CreateMany(w: World, k: nat, m: nat) returns (inputs: seq<Input>)
    requires Filling(w, k, m)
    ensures Fills(w, inputs, k, m)
    decreases k
  {
    if k == 0 {
      FillsNothing(w, m);
      return [];
    }
    CreateNext(w, k, m);
    var rest := CreateMany(Step(w, TryCreate(k, m)), k - 1, m);
    FillsOneMore(w, rest, k, m);
    inputs := [TryCreate(k, m)] + rest;
  }

  /** Scanning a batch of new items, then taking them in the order found. */
  function ScanAll(k: nat): seq<Input> {
    if k == 0 then [Order] else [Scan(true, Gone)] + ScanAll(k - 1)
  }

  /** A cycle that has listed nothing and has a batch of k still to match. */
  predicate Matching(w: World, k: nat) {
    && w.cycle.stage == Scanning && w.cycle.known == map[] && w.cycle.todo == Batch(k)
    && !w.spec.prioritized && ShortFree(w, k)
  }

  function AllQueued(w: World, all: seq<Item>): World {
    w.(cycle := w.cycle.(stage := Creating, todo := all, newItems := all))
  }

  lemma {:induction false} ScanOne(w: World, k: nat, all: seq<Item>)
    requires Matching(w, k) && k > 0 && w.cycle.newItems + Batch(k) == all
    ensures Enabled(w, Scan(true, Gone))
    ensures var u := Step(w, Scan(true, Gone));
      && Matching(u, k - 1) && u.cycle.newItems + Batch(k - 1) == all
      && AllQueued(u, all) == AllQueued(w, all) && u.past == w.past
  {
    assert Batch(k)[1..] == Batch(k - 1) && Batch(k) == [Alone(NameOf(k))] + Batch(k - 1);
    assert |NameOf(k)| == k;
  }

  lemma {:induction false} OrderAll(w: World, all: seq<Item>)
    requires Matching(w, 0) && w.cycle.newItems + Batch(0) == all
    ensures Enabled(w, Order) && Step(w, Order) == AllQueued(w, all)
  {
    assert w.cycle.newItems + [] == w.cycle.newItems;
  }

  lemma {:induction false} ScanFirst(w: World, k: nat, rest: seq<Input>)
    requires k > 0 && Enabled(w, Scan(true, Gone)) && Possible(Step(w, Scan(true, Gone)), ScanAll(k - 1) + rest)
    ensures var v, later := Step(w, Scan(true, Gone)), ScanAll(k - 1) + rest;
      && Possible(w, ScanAll(k) + rest) && RunAll(w, ScanAll(k) + rest) == RunAll(v, later)
      && WorstCycle(w, ScanAll(k) + rest) == AtLeast(w.past.lostNow, WorstCycle(v, later))
  {
    WorstPrepend(w, Scan(true, Gone), ScanAll(k - 1) + rest);
    assert ScanAll(k) + rest == [Scan(true, Gone)] + (ScanAll(k - 1) + rest);
  }

  lemma {:induction false} ScanMany(w: World, k: nat, all: seq<Item>, rest: seq<Input>)
    requires Matching(w, k) && w.cycle.newItems + Batch(k) == all && Possible(AllQueued(w, all), rest)
    ensures Possible(w, ScanAll(k) + rest)
    ensures RunAll(w, ScanAll(k) + rest) == RunAll(AllQueued(w, all), rest)
    ensures WorstCycle(w, ScanAll(k) + rest) == WorstCycle(AllQueued(w, all), rest)
    decreases k
  {
    WorstIsLater(AllQueued(w, all), rest);
    if k == 0 {
      OrderAll(w, all);
      WorstPrepend(w, Order, rest);
    } else {
      ScanOne(w, k, all);
      ScanMany(Step(w, Scan(true, Gone)), k - 1, all, rest);
      ScanFirst(w, k, rest);
    }
  }

  lemma {:induction false} WorstPrepend(w: World, i: Input, rest: seq<Input>)
    requires Enabled(w, i) && Possible(Step(w, i), rest)
    ensures Possible(w, [i] + rest) && RunAll(w, [i] + rest) == RunAll(Step(w, i), rest)
    ensures WorstCycle(w, [i] + rest) == AtLeast(w.past.lostNow, WorstCycle(Step(w, i), rest))
  {
    assert ([i] + rest)[1..] == rest;
  }

  /** A cycle over a batch, begun with no Task at all, when it comes to create. */
  function BatchCounted(w: World, k: nat): World {
    w.(cycle := Cycle(Creating, Batch(k), Batch(k), map[], 0, Batch(k), w.status.total, 0, 0, [], []),
       past := w.past.(lostNow := 0))
  }

  lemma {:induction false} BatchBegins(w: World, k: nat, rest: seq<Input>)
    requires w.cycle == IDLE && w.tasks == map[] && !w.spec.prioritized && w.past.lostNow == 0
    requires Possible(BatchCounted(w, k), rest)
    ensures var all := [Begin(Batch(k))] + (ScanAll(k) + rest);
      && Possible(w, all) && RunAll(w, all) == RunAll(BatchCounted(w, k), rest)
      && WorstCycle(w, all) == WorstCycle(BatchCounted(w, k), rest)
  {
    var w1 := Step(w, Begin(Batch(k)));
    assert LiveNames(w.spec, w.tasks) == {} && w1.cycle.known == map[];
    assert [] + Batch(k) == Batch(k);
    assert AllQueued(w1, Batch(k)) == BatchCounted(w, k);
    ScanMany(w1, k, Batch(k), rest);
    WorstPrepend(w, Begin(Batch(k)), ScanAll(k) + rest);
    WorstIsLater(BatchCounted(w, k), rest);
  }

  lemma {:induction false} LosingRun(w: World, k: nat, m: nat) returns (inputs: seq<Input>)
    requires w.cycle == IDLE && w.tasks == map[] && !w.spec.prioritized && w.past.lostNow == 0
    requires w.spec.maxConcurrency == m && 0 < m < 0x8000_0000 && w.spec.maxTotal == 0
    ensures Possible(w, inputs) && WorstCycle(w, inputs) == k
    ensures Live(w) == 0 && Live(RunAll(w, inputs)) == k + m
  {
    assert LiveNames(w.spec, w.tasks) == {};
    var rest := CreateMany(BatchCounted(w, k + m), k + m, m);
    BatchBegins(w, k + m, rest);
    inputs := [Begin(Batch(k + m))] + (ScanAll(k + m) + rest);
  }

  /**
   The bound is attained, for every limit m and every k: a spawner with no Task loses k
   creates of one cycle, then fills up to its limit, and has m + k unfinished Tasks.
   */
  lemma {:induction false} LostCreatesPassTheLimit(name: string, uid: string, status: Status, m: int32, k: nat)
    returns (inputs: seq<Input>)
    requires m > 0
    ensures var w := Initial(Spec(name, uid, m, 0, false), map[], status);
      && Possible(w, inputs) && WorstCycle(w, inputs) == k
      && Live(w) == 0 && Live(RunAll(w, inputs)) == m + k
  {
    inputs := LosingRun(Initial(Spec(name, uid, m, 0, false), map[], status), k, m);
  }
}
