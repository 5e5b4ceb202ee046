/**
 The discovery cycle of cmd/kelos-spawner/main.go (runCycleWithSourceCore) as a
 state machine: every call to the API server is one step, and between any two of
 them other actors may change Tasks or the process may stop.  `Past` keeps what
 an observer of the API server would write down.
 */
module Spawner {
  import opened Wrappers

  datatype Phase = Unset | Pending | Running | Waiting | Succeeded | Failed

  /** `controllers` are the UIDs of the controller owner references; an absent label is "". */
  datatype Task = Task(
    controllers: seq<string>, spawnerLabel: string, phase: Phase, completion: Option<int>, terminating: bool)

  type int32 = n: int | -0x8000_0000 <= n < 0x8000_0000

  /** Unset limits are 0, as in the program. */
  datatype Spec = Spec(name: string, uid: string, maxConcurrency: int32, maxTotal: int32, prioritized: bool)

  /** `name` is what ResolveTaskName gives for the item, `rank` its first matching priority label. */
  datatype Item = Item(id: string, name: Option<string>, trigger: Option<int>, rank: nat)

  datatype Fate = Kept | DeleteFailed | Created | Duplicate | Errored | Blocked

  datatype Outcome = Outcome(item: Item, fate: Fate)

  datatype Stage = Idle | Scanning | Creating | Confirming | Reporting

  /** The variables of one cycle.  `kept` and `tried` record what became of each item. */
  datatype Cycle = Cycle(
    stage: Stage,
    discovered: seq<Item>,
    todo: seq<Item>,              // what the current loop has still to visit
    known: map<string, Task>,     // existingTaskMap
    active: nat,                  // activeTasks
    newItems: seq<Item>,
    base: int,                    // the total read when the cycle began
    created: nat,                 // newTasksCreated
    errors: nat,                  // len(createErrs)
    kept: seq<Outcome>,
    tried: seq<Outcome>)

  datatype Health = NeverRan | Healthy | Broken

  datatype Status = Status(
    total: int, discovered: nat, active: nat, health: Health,
    discoveryError: bool, limitReached: bool, lastDiscovery: int)

  /** A Delete that the API server accepted: the Task it was decided on, and the one that held the name by then. */
  datatype Deletion = Deletion(item: Item, listed: Task, victim: Task)

  /** `lost`: creates that took effect but were reported as failed.  `uncommitted`: creates no status write recorded. */
  datatype Past = Past(lost: nat, lostNow: nat, uncommitted: nat, deletions: seq<Deletion>)

  datatype World = World(spec: Spec, tasks: map<string, Task>, status: Status, cycle: Cycle, past: Past)

  /** What a Delete did to the Task: a finalizer keeps it, terminating, until it completes. */
  datatype Effect = Untouched | Gone | Lingers

  datatype Reply = NotPrepared | Accepted | Conflict | Failure(committed: bool)

  datatype Input =
    | Others(tasks: map<string, Task>)
    | Finalize(name: string)
    | Begin(items: seq<Item>)
    | Abort(recorded: bool)
    | Scan(ok: bool, effect: Effect)
    | Order
    | Create(reply: Reply)
    | Confirm(getOk: bool)
    | Leave
    | Report(committed: bool, now: int)
    | Crash

  const IDLE := Cycle(Idle, [], [], map[], 0, [], 0, 0, 0, [], [])

  function Initial(spec: Spec, tasks: map<string, Task>, status: Status): World {
    World(spec, tasks, status, IDLE, Past(0, 0, 0, []))
  }

  // ---------------------------------------------------------------- ownership and decisions

  /** TaskBelongsToSpawner: a controller reference decides, and only without one the label. */
  predicate Belongs(spec: Spec, t: Task) {
    if t.controllers != [] then spec.uid in t.controllers else t.spawnerLabel == spec.name
  }

  /** What the labelled list returns and the ownership test keeps. */
  predicate Owned(spec: Spec, t: Task) {
    t.spawnerLabel == spec.name && Belongs(spec, t)
  }

  predicate Terminal(t: Task) {
    t.phase == Succeeded || t.phase == Failed
  }

  function LiveNames(spec: Spec, tasks: map<string, Task>): set<string> {
    set n | n in tasks && Owned(spec, tasks[n]) && !Terminal(tasks[n])
  }

  function Live(w: World): nat {
    |LiveNames(w.spec, w.tasks)|
  }

  function Known(spec: Spec, tasks: map<string, Task>): map<string, Task> {
    map n | n in tasks && Owned(spec, tasks[n]) :: tasks[n]
  }

  predicate Retriggers(x: Item, t: Task) {
    x.trigger.Some? && Terminal(t) && t.completion.Some? && x.trigger.value > t.completion.value
  }

  datatype Decision = AsNew | AsKept | AsRetrigger

  function Decide(known: map<string, Task>, x: Item): Decision
    requires x.name.Some?
  {
    if x.name.value !in known then AsNew
    else if Retriggers(x, known[x.name.value]) then AsRetrigger
    else AsKept
  }

  /** Go's conversion to int32. */
  function Int32(n: int): int {
    (n + 0x8000_0000) % 0x1_0000_0000 - 0x8000_0000
  }

  predicate AtConcurrency(maxConcurrency: int, active: nat) {
    maxConcurrency > 0 && Int32(active) >= maxConcurrency
  }

  predicate AtTotal(maxTotal: int, total: int) {
    maxTotal > 0 && total >= maxTotal
  }

  predicate Full(w: World) {
    AtConcurrency(w.spec.maxConcurrency, w.cycle.active) || AtTotal(w.spec.maxTotal, w.cycle.base + w.cycle.created)
  }

  /** The Task that BuildTask makes. */
  function NewTask(spec: Spec): Task {
    Task([spec.uid], spec.name, Unset, None, false)
  }

  // ---------------------------------------------------------------- the order of creation

  function Insert(x: Item, s: seq<Item>): seq<Item> {
    if s == [] then [x]
    else if x.rank <= s[0].rank then [x] + s
    else [s[0]] + Insert(x, s[1..])
  }

  /** SortByLabelPriority: a stable sort by rank. */
  function SortByRank(s: seq<Item>): seq<Item> {
    if s == [] then [] else Insert(s[0], SortByRank(s[1..]))
  }

  function Ordered(spec: Spec, s: seq<Item>): seq<Item> {
    if spec.prioritized then SortByRank(s) else s
  }

  function AllBlocked(s: seq<Item>): seq<Outcome> {
    seq(|s|, k requires 0 <= k < |s| => Outcome(s[k], Blocked))
  }

  // ---------------------------------------------------------------- the transitions

  /** Only this spawner makes Tasks that belong to it, and a finished Task stays finished. */
  predicate OthersMay(spec: Spec, before: map<string, Task>, after: map<string, Task>) {
    forall n :: n in after && Owned(spec, after[n]) ==>
      && n in before && Owned(spec, before[n])
      && (Terminal(before[n]) ==> after[n].phase == before[n].phase && after[n].completion == before[n].completion)
  }

  /** A Task that is being deleted waits for its finalizer, however often it is deleted. */
  predicate DeleteMay(tasks: map<string, Task>, n: string, effect: Effect) {
    n in tasks && tasks[n].terminating ==> effect != Gone
  }

  function DoBegin(w: World, items: seq<Item>): World {
    w.(cycle := Cycle(Scanning, items, items, Known(w.spec, w.tasks), Live(w), [], w.status.total, 0, 0, [], []),
       past := w.past.(lostNow := 0))
  }

  /** recordCycleFailure: neither the total nor the discovery watermark moves. */
  function DoAbort(w: World, recorded: bool): World {
    var status := if recorded then w.status.(health := Broken, discoveryError := true) else w.status;
    w.(cycle := IDLE, status := status)
  }

  /** Delete is by name: it takes whatever holds the name now. */
  function DoDelete(w: World, x: Item, effect: Effect): World
    requires x.name.Some? && x.name.value in w.cycle.known
  {
    var n := x.name.value;
    if n !in w.tasks || effect == Untouched then w
    else
      w.(tasks := if effect == Gone then w.tasks - {n} else w.tasks[n := w.tasks[n].(terminating := true)],
         past := w.past.(deletions := w.past.deletions + [Deletion(x, w.cycle.known[n], w.tasks[n])]))
  }

  function DoScan(w: World, ok: bool, effect: Effect): World
    requires w.cycle.todo != [] && w.cycle.todo[0].name.Some?
  {
    var c := w.cycle.(todo := w.cycle.todo[1..]);
    var x := w.cycle.todo[0];
    match Decide(c.known, x)
    case AsNew => w.(cycle := c.(newItems := c.newItems + [x]))
    case AsKept => w.(cycle := c.(kept := c.kept + [Outcome(x, Kept)]))
    case AsRetrigger =>
      var w1 := DoDelete(w, x, effect);
      if ok then w1.(cycle := c.(newItems := c.newItems + [x]))
      else w1.(cycle := c.(kept := c.kept + [Outcome(x, DeleteFailed)]))
  }

  function DoOrder(w: World): World {
    var s := Ordered(w.spec, w.cycle.newItems);
    w.(cycle := w.cycle.(stage := Creating, newItems := s, todo := s))
  }

  /** The item in hand is settled; the loop goes on with the next. */
  function Settle(c: Cycle, fate: Fate): Cycle
    requires c.todo != []
  {
    c.(stage := Creating, todo := c.todo[1..], tried := c.tried + [Outcome(c.todo[0], fate)],
       created := c.created + (if fate == Created then 1 else 0),
       active := c.active + (if fate == Created then 1 else 0),
       errors := c.errors + (if fate == Errored then 1 else 0))
  }

  function DoCreate(w: World, reply: Reply): World
    requires w.cycle.todo != [] && w.cycle.todo[0].name.Some?
  {
    var c := w.cycle;
    var n := c.todo[0].name.value;
    match reply
    case NotPrepared => w.(cycle := Settle(c, Errored))
    case Accepted => w.(tasks := w.tasks[n := NewTask(w.spec)], cycle := Settle(c, Created))
    case Conflict => w.(cycle := c.(stage := Confirming))
    case Failure(committed) =>
      if committed then
        w.(tasks := w.tasks[n := NewTask(w.spec)], cycle := Settle(c, Errored),
           past := w.past.(lost := w.past.lost + 1, lostNow := w.past.lostNow + 1))
      else w.(cycle := Settle(c, Errored))
  }

  /** After AlreadyExists, the Task that holds the name is read and its ownership decides. */
  function DoConfirm(w: World, getOk: bool): World
    requires w.cycle.todo != [] && w.cycle.todo[0].name.Some?
  {
    var n := w.cycle.todo[0].name.value;
    w.(cycle := Settle(w.cycle, if getOk && n in w.tasks && Belongs(w.spec, w.tasks[n]) then Duplicate else Errored))
  }

  function DoLeave(w: World): World {
    var c := w.cycle;
    w.(cycle := c.(stage := Reporting, todo := [], tried := c.tried + AllBlocked(c.todo)))
  }

  function DoReport(w: World, committed: bool, now: int): World {
    var c := w.cycle;
    if !committed then w.(cycle := IDLE, past := w.past.(uncommitted := w.past.uncommitted + c.created))
    else
      var total := w.status.total + c.created;
      w.(cycle := IDLE,
         status := Status(total, |c.discovered|, c.active, Healthy, c.errors > 0, AtTotal(w.spec.maxTotal, total), now))
  }

  function DoCrash(w: World): World {
    w.(cycle := IDLE, past := w.past.(uncommitted := w.past.uncommitted + w.cycle.created))
  }

  predicate Enabled(w: World, i: Input) {
    var c := w.cycle;
    match i
    case Others(tasks) => OthersMay(w.spec, w.tasks, tasks)
    case Finalize(name) => name in w.tasks && w.tasks[name].terminating
    case Begin(_) => c.stage == Idle
    case Abort(_) => c.stage == Scanning && c.todo != [] && c.todo[0].name.None?
    case Scan(ok, effect) =>
      && c.stage == Scanning && c.todo != [] && c.todo[0].name.Some?
      && (ok ==> effect != Untouched) && DeleteMay(w.tasks, c.todo[0].name.value, effect)
    case Order => c.stage == Scanning && c.todo == []
    case Create(reply) =>
      && c.stage == Creating && c.todo != [] && c.todo[0].name.Some? && !Full(w)
      && (reply == Conflict ==> c.todo[0].name.value in w.tasks)
      && (reply in {Accepted, Failure(true)} ==> c.todo[0].name.value !in w.tasks)
    case Confirm(_) => c.stage == Confirming && c.todo != [] && c.todo[0].name.Some?
    case Leave => c.stage == Creating && (c.todo == [] || Full(w))
    case Report(_, _) => c.stage == Reporting
    case Crash => true
  }

  function Step(w: World, i: Input): World
    requires Enabled(w, i)
  {
    match i
    case Others(tasks) => w.(tasks := tasks)
    case Finalize(name) => w.(tasks := w.tasks - {name})
    case Begin(items) => DoBegin(w, items)
    case Abort(recorded) => DoAbort(w, recorded)
    case Scan(ok, effect) => DoScan(w, ok, effect)
    case Order => DoOrder(w)
    case Create(reply) => DoCreate(w, reply)
    case Confirm(getOk) => DoConfirm(w, getOk)
    case Leave => DoLeave(w)
    case Report(committed, now) => DoReport(w, committed, now)
    case Crash => DoCrash(w)
  }

  /** The steps of the spawner, as against those of other actors and of finalizers. */
  predicate OfSpawner(i: Input) {
    !i.Others? && !i.Finalize?
  }

  predicate Possible(w: World, inputs: seq<Input>)
    decreases |inputs|
  {
    inputs == [] || (Enabled(w, inputs[0]) && Possible(Step(w, inputs[0]), inputs[1..]))
  }

  function RunAll(w: World, inputs: seq<Input>): World
    requires Possible(w, inputs)
    decreases |inputs|
  {
    if inputs == [] then w else RunAll(Step(w, inputs[0]), inputs[1..])
  }

  lemma {:induction false} TwoSteps(w: World, i: Input, j: Input)
    requires Enabled(w, i) && Enabled(Step(w, i), j)
    ensures Possible(w, [i, j]) && RunAll(w, [i, j]) == Step(Step(w, i), j)
  {
    var v := Step(Step(w, i), j);
    assert [i, j][1..] == [j] && [j][1..] == [];
    assert Possible(v, []) && RunAll(v, []) == v;
    assert Possible(Step(w, i), [j]) && RunAll(Step(w, i), [j]) == v;
  }
}
