/**
 What becomes of the items of one cycle: each has exactly one fate, no blocked
 item comes before an attempted one, and the status reports what happened.
 */
module SpawnerItems {
  import opened Spawner

  // ---------------------------------------------------------------- the sort

  predicate SortedByRank(s: seq<Item>) {
    forall i, j :: 0 <= i < j < |s| ==> s[i].rank <= s[j].rank
  }

  function OfRank(s: seq<Item>, r: nat): seq<Item> {
    if s == [] then []
    else (if s[0].rank == r then [s[0]] else []) + OfRank(s[1..], r)
  }

  lemma {:induction false} InsertKeeps(x: Item, s: seq<Item>)
    ensures multiset(Insert(x, s)) == multiset{x} + multiset(s)
  {
    if s != [] && x.rank > s[0].rank {
      InsertKeeps(x, s[1..]);
      assert s == [s[0]] + s[1..];
    }
  }

  lemma {:induction false} InsertSorted(x: Item, s: seq<Item>)
    requires SortedByRank(s)
    ensures SortedByRank(Insert(x, s))
  {
    if s != [] && x.rank > s[0].rank {
      InsertSorted(x, s[1..]);
      InsertKeeps(x, s[1..]);
      LeastFirst(s[0], Insert(x, s[1..]), multiset{x} + multiset(s[1..]));
    }
  }

  lemma {:induction false} LeastFirst(x: Item, s: seq<Item>, members: multiset<Item>)
    requires SortedByRank(s) && multiset(s) == members && forall y :: y in members ==> x.rank <= y.rank
    ensures SortedByRank([x] + s)
  {
    forall k | 0 <= k < |s|
      ensures x.rank <= s[k].rank
    {
      assert s[k] in multiset(s);
    }
  }

  lemma {:induction false} InsertStable(x: Item, s: seq<Item>, r: nat)
    ensures OfRank(Insert(x, s), r) == OfRank([x] + s, r)
  {
    assert ([x] + s)[1..] == s;
    if s != [] && x.rank > s[0].rank {
      InsertStable(x, s[1..], r);
      assert ([s[0]] + Insert(x, s[1..]))[1..] == Insert(x, s[1..]);
      assert ([x] + s[1..])[1..] == s[1..];
    }
  }

  /** The sort orders by rank, loses nothing, and keeps the discovery order inside a rank. */
  lemma {:induction false} SortIsStable(s: seq<Item>)
    ensures SortedByRank(SortByRank(s)) && multiset(SortByRank(s)) == multiset(s)
    ensures forall r: nat :: OfRank(SortByRank(s), r) == OfRank(s, r)
  {
    if s != [] {
      SortIsStable(s[1..]);
      InsertSorted(s[0], SortByRank(s[1..]));
      InsertKeeps(s[0], SortByRank(s[1..]));
      assert s == [s[0]] + s[1..];
      forall r: nat
        ensures OfRank(SortByRank(s), r) == OfRank(s, r)
      {
        InsertStable(s[0], SortByRank(s[1..]), r);
        assert ([s[0]] + SortByRank(s[1..]))[1..] == SortByRank(s[1..]);
      }
    }
  }

  // ---------------------------------------------------------------- the fates

  function Items(log: seq<Outcome>): seq<Item> {
    if log == [] then [] else [log[0].item] + Items(log[1..])
  }

  function Count(log: seq<Outcome>, f: Fate): nat {
    if log == [] then 0 else (if log[0].fate == f then 1 else 0) + Count(log[1..], f)
  }

  lemma {:induction false} ItemsAppend(a: seq<Outcome>, b: seq<Outcome>)
    ensures Items(a + b) == Items(a) + Items(b)
    ensures forall f :: Count(a + b, f) == Count(a, f) + Count(b, f)
  {
    if a == [] {
      assert a + b == b;
    } else {
      ItemsAppend(a[1..], b);
      assert (a + b)[1..] == a[1..] + b;
      assert (a + b)[0] == a[0];
    }
  }

  lemma {:induction false} ItemsAt(log: seq<Outcome>)
    ensures |Items(log)| == |log| && forall k :: 0 <= k < |log| ==> Items(log)[k] == log[k].item
  {
    if log != [] {
      ItemsAt(log[1..]);
    }
  }

  lemma {:induction false} CountNone(log: seq<Outcome>, f: Fate)
    requires forall k :: 0 <= k < |log| ==> log[k].fate != f
    ensures Count(log, f) == 0
  {
    if log != [] {
      CountNone(log[1..], f);
    }
  }

  lemma {:induction false} AllBlockedIs(s: seq<Item>)
    ensures Items(AllBlocked(s)) == s
    ensures Count(AllBlocked(s), Created) == 0 == Count(AllBlocked(s), Errored)
  {
    ItemsAt(AllBlocked(s));
    CountNone(AllBlocked(s), Created);
    CountNone(AllBlocked(s), Errored);
  }

  predicate NoneBlocked(log: seq<Outcome>) {
    forall k :: 0 <= k < |log| ==> log[k].fate != Blocked
  }

  // ---------------------------------------------------------------- the invariant

  predicate Named(s: seq<Item>) {
    forall k :: 0 <= k < |s| ==> s[k].name.Some?
  }

  predicate MatchFates(log: seq<Outcome>) {
    forall k :: 0 <= k < |log| ==> log[k].fate in {Kept, DeleteFailed}
  }

  predicate TryFates(log: seq<Outcome>) {
    forall k :: 0 <= k < |log| ==> log[k].fate in {Created, Duplicate, Errored, Blocked}
  }

  /** Every discovered item is in one place, and the counters count the fates. */
  predicate Placed(w: World) {
    PlacedIn(w.cycle, w.spec.prioritized)
  }

  predicate PlacedIn(c: Cycle, prioritized: bool) {
    && Named(c.newItems) && MatchFates(c.kept) && TryFates(c.tried)
    && c.created == Count(c.tried, Created) && c.errors == Count(c.tried, Errored)
    && multiset(Items(c.kept)) + multiset(c.newItems) + multiset(if c.stage == Scanning then c.todo else [])
         == multiset(c.discovered)
    && (c.stage in {Idle, Scanning} ==> c.tried == [])
    && (c.stage in {Creating, Confirming} ==> NoneBlocked(c.tried) && Items(c.tried) + c.todo == c.newItems)
    && (c.stage == Confirming ==> c.todo != [])
    && (c.stage == Reporting ==> Items(c.tried) == c.newItems && BlockedLast(c.tried))
    && (c.stage in {Creating, Confirming, Reporting} && prioritized ==> SortedByRank(c.newItems))
  }

  /** Once one is blocked, all that follow are. */
  predicate BlockedLast(log: seq<Outcome>) {
    forall i, j :: 0 <= i < j < |log| && log[i].fate == Blocked ==> log[j].fate == Blocked
  }

  // ---------------------------------------------------------------- one step keeps it

  lemma {:induction false} LogSnoc(log: seq<Outcome>, x: Item, f: Fate)
    ensures Items(log + [Outcome(x, f)]) == Items(log) + [x]
    ensures forall g :: Count(log + [Outcome(x, f)], g) == Count(log, g) + (if g == f then 1 else 0)
  {
    var one := [Outcome(x, f)];
    ItemsAppend(log, one);
    assert one[1..] == [] && Items(one) == [x];
    assert forall g :: Count(one, g) == if g == f then 1 else 0;
  }

  /** An item leaves the head of the list for the new items, or for the kept ones. */
  lemma {:induction false} HeadMoves(kept: seq<Item>, newItems: seq<Item>, todo: seq<Item>)
    requires todo != []
    ensures multiset(kept) + multiset(newItems + [todo[0]]) + multiset(todo[1..])
         == multiset(kept) + multiset(newItems) + multiset(todo)
    ensures multiset(kept + [todo[0]]) + multiset(newItems) + multiset(todo[1..])
         == multiset(kept) + multiset(newItems) + multiset(todo)
  {
    assert todo == [todo[0]] + todo[1..];
  }

  lemma {:induction false} KeepPlaces(c: Cycle, f: Fate, prioritized: bool)
    requires PlacedIn(c, prioritized) && c.stage == Scanning && c.todo != [] && f in {Kept, DeleteFailed}
    ensures PlacedIn(c.(todo := c.todo[1..], kept := c.kept + [Outcome(c.todo[0], f)]), prioritized)
  {
    LogSnoc(c.kept, c.todo[0], f);
    HeadMoves(Items(c.kept), c.newItems, c.todo);
  }

  lemma {:induction false} NewPlaces(c: Cycle, prioritized: bool)
    requires PlacedIn(c, prioritized) && c.stage == Scanning && c.todo != [] && c.todo[0].name.Some?
    ensures PlacedIn(c.(todo := c.todo[1..], newItems := c.newItems + [c.todo[0]]), prioritized)
  {
    HeadMoves(Items(c.kept), c.newItems, c.todo);
  }

  lemma {:induction false} ScanPlaces(w: World, ok: bool, effect: Effect)
    requires Enabled(w, Scan(ok, effect)) && Placed(w)
    ensures Placed(Step(w, Scan(ok, effect)))
  {
    var c := w.cycle;
    match Decide(c.known, c.todo[0])
    case AsNew => NewPlaces(c, w.spec.prioritized);
    case AsKept => KeepPlaces(c, Kept, w.spec.prioritized);
    case AsRetrigger =>
      if ok {
        NewPlaces(c, w.spec.prioritized);
      } else {
        KeepPlaces(c, DeleteFailed, w.spec.prioritized);
      }
  }

  lemma {:induction false} OrderPlaces(w: World)
    requires Enabled(w, Order) && Placed(w)
    ensures Placed(Step(w, Order))
  {
    var c := w.cycle;
    var v := Step(w, Order).cycle;
    SortIsStable(c.newItems);
    assert multiset(v.newItems) == multiset(c.newItems);
    forall k | 0 <= k < |v.newItems|
      ensures v.newItems[k].name.Some?
    {
      assert v.newItems[k] in multiset(c.newItems);
    }
    assert Items([]) + v.todo == v.newItems;
  }

  lemma {:induction false} SettlePlaces(c: Cycle, fate: Fate, prioritized: bool)
    requires c.stage in {Creating, Confirming} && c.todo != [] && PlacedIn(c, prioritized)
    requires fate in {Created, Duplicate, Errored}
    ensures PlacedIn(Settle(c, fate), prioritized)
  {
    LogSnoc(c.tried, c.todo[0], fate);
    assert Items(c.tried) + [c.todo[0]] + c.todo[1..] == Items(c.tried) + c.todo;
  }

  lemma {:induction false} BlockRest(log: seq<Outcome>, rest: seq<Item>)
    requires NoneBlocked(log) && TryFates(log)
    ensures var all := log + AllBlocked(rest);
      && BlockedLast(all) && TryFates(all) && Items(all) == Items(log) + rest
      && Count(all, Created) == Count(log, Created) && Count(all, Errored) == Count(log, Errored)
  {
    ItemsAppend(log, AllBlocked(rest));
    AllBlockedIs(rest);
  }

  lemma {:induction false} LeavePlaces(c: Cycle, prioritized: bool)
    requires c.stage == Creating && PlacedIn(c, prioritized)
    ensures PlacedIn(c.(stage := Reporting, todo := [], tried := c.tried + AllBlocked(c.todo)), prioritized)
  {
    BlockRest(c.tried, c.todo);
  }

  lemma {:induction false} StartPlaces(c: Cycle, prioritized: bool)
    requires c.stage in {Idle, Scanning} && c.kept == [] && c.tried == [] && c.newItems == []
    requires c.created == 0 && c.errors == 0 && c.discovered == c.todo && (c.stage == Idle ==> c.todo == [])
    ensures PlacedIn(c, prioritized)
  {
    assert Items([]) == [] && Count([], Created) == 0 && Count([], Errored) == 0;
  }

  lemma {:induction false} CreatePlaces(w: World, reply: Reply)
    requires Enabled(w, Input.Create(reply)) && Placed(w)
    ensures Placed(Step(w, Input.Create(reply)))
  {
    if reply != Conflict {
      SettlePlaces(w.cycle, if reply == Accepted then Created else Errored, w.spec.prioritized);
    }
  }

  lemma {:induction false} PlacedStep(w: World, i: Input)
    requires Enabled(w, i) && Placed(w)
    ensures Placed(Step(w, i))
  {
    match i
    case Others(_) =>
    case Finalize(_) =>
    case Begin(items) => StartPlaces(Step(w, i).cycle, w.spec.prioritized);
    case Abort(_) => StartPlaces(IDLE, w.spec.prioritized);
    case Scan(ok, effect) => ScanPlaces(w, ok, effect);
    case Order => OrderPlaces(w);
    case Create(reply) => CreatePlaces(w, reply);
    case Confirm(getOk) =>
      SettlePlaces(w.cycle, Duplicate, w.spec.prioritized);
      SettlePlaces(w.cycle, Errored, w.spec.prioritized);
    case Leave => LeavePlaces(w.cycle, w.spec.prioritized);
    case Report(_, _) => StartPlaces(IDLE, w.spec.prioritized);
    case Crash => StartPlaces(IDLE, w.spec.prioritized);
  }

  lemma {:induction false} PlacedOverRun(w: World, inputs: seq<Input>)
    requires Possible(w, inputs) && Placed(w)
    ensures Placed(RunAll(w, inputs))
    decreases |inputs|
  {
    if inputs != [] {
      PlacedStep(w, inputs[0]);
      PlacedOverRun(Step(w, inputs[0]), inputs[1..]);
    }
  }

  // ---------------------------------------------------------------- the results

  /** When a cycle comes to report, every discovered item, as often as it was discovered, has one fate. */
  lemma {:induction false} EveryItemHasOneFate(spec: Spec, tasks: map<string, Task>, status: Status, inputs: seq<Input>)
    requires var w := Initial(spec, tasks, status); Possible(w, inputs) && RunAll(w, inputs).cycle.stage == Reporting
    ensures var c := RunAll(Initial(spec, tasks, status), inputs).cycle;
      && multiset(Items(c.kept + c.tried)) == multiset(c.discovered)
      && MatchFates(c.kept) && TryFates(c.tried)
      && c.created == Count(c.tried, Created) && c.errors == Count(c.tried, Errored)
  {
    PlacedOverRun(Initial(spec, tasks, status), inputs);
    var c := RunAll(Initial(spec, tasks, status), inputs).cycle;
    ItemsAppend(c.kept, c.tried);
  }

  /** Kept and failed deletions are the listed Tasks' doing; whatever is to be created had none, or one it outlived. */
  predicate Matched(c: Cycle) {
    && Named(c.newItems)
    && (forall k :: 0 <= k < |c.kept| ==>
          && c.kept[k].item.name.Some?
          && Decide(c.known, c.kept[k].item) == (if c.kept[k].fate == Kept then AsKept else AsRetrigger))
    && (forall k :: 0 <= k < |c.newItems| ==> Decide(c.known, c.newItems[k]) != AsKept)
  }

  lemma {:induction false} MatchedScan(w: World, ok: bool, effect: Effect)
    requires Enabled(w, Scan(ok, effect)) && Matched(w.cycle)
    ensures Matched(Step(w, Scan(ok, effect)).cycle)
  {
    var c, d := w.cycle, Step(w, Scan(ok, effect)).cycle;
    assert d.known == c.known;
    assert d.newItems == c.newItems || d.newItems == c.newItems + [c.todo[0]];
  }

  lemma {:induction false} MatchedOrder(w: World)
    requires Enabled(w, Order) && Matched(w.cycle)
    ensures Matched(Step(w, Order).cycle)
  {
    var c, d := w.cycle, Step(w, Order).cycle;
    SortIsStable(c.newItems);
    assert multiset(d.newItems) == multiset(c.newItems);
    forall k | 0 <= k < |d.newItems|
      ensures d.newItems[k] in c.newItems
    {
      assert d.newItems[k] in multiset(d.newItems);
    }
  }

  lemma {:induction false} MatchedStep(w: World, i: Input)
    requires Enabled(w, i) && Matched(w.cycle)
    ensures Matched(Step(w, i).cycle)
  {
    if i.Scan? {
      MatchedScan(w, i.ok, i.effect);
    } else if i.Order? {
      MatchedOrder(w);
    } else {
      var c, d := w.cycle, Step(w, i).cycle;
      assert (d.known == c.known && d.kept == c.kept && d.newItems == c.newItems) || (d.kept == [] && d.newItems == []);
    }
  }

  /** True of every reachable cycle: it is true at the start, and every step keeps it. */
  lemma {:induction false} MatchedOverRun(w: World, inputs: seq<Input>)
    requires Possible(w, inputs) && Matched(w.cycle)
    ensures Matched(RunAll(w, inputs).cycle)
    decreases |inputs|
  {
    if inputs != [] {
      MatchedStep(w, inputs[0]);
      MatchedOverRun(Step(w, inputs[0]), inputs[1..]);
    }
  }

  /** No blocked item stands before an attempted one, and with priority labels none outranks it. */
  lemma {:induction false} NoPriorityInversion(w: World, inputs: seq<Input>, i: nat, j: nat)
    requires Possible(w, inputs) && Placed(w) && RunAll(w, inputs).cycle.stage == Reporting
    requires var log := RunAll(w, inputs).cycle.tried;
      i < |log| && j < |log| && log[i].fate == Blocked && log[j].fate != Blocked
    ensures j < i
    ensures var v := RunAll(w, inputs);
      v.spec.prioritized ==> v.cycle.tried[j].item.rank <= v.cycle.tried[i].item.rank
  {
    PlacedOverRun(w, inputs);
    ItemsAt(RunAll(w, inputs).cycle.tried);
  }

  /** One of the spawner's own steps can be taken. */
  predicate CanStep(w: World) {
    || Enabled(w, Begin([])) || Enabled(w, Abort(true)) || Enabled(w, Scan(true, Lingers)) || Enabled(w, Order)
    || Enabled(w, Input.Create(NotPrepared)) || Enabled(w, Confirm(true)) || Enabled(w, Leave)
    || Enabled(w, Report(true, 0))
  }

  /** In every reachable state the cycle can go on: no item is ever stuck. */
  lemma {:induction false} NeverStuck(w: World, inputs: seq<Input>)
    requires Possible(w, inputs) && Placed(w)
    ensures CanStep(RunAll(w, inputs))
  {
    PlacedOverRun(w, inputs);
    CanStepFrom(RunAll(w, inputs));
  }

  lemma {:induction false} CanStepFrom(w: World)
    requires Placed(w)
    ensures CanStep(w)
  {
    if w.cycle.stage in {Creating, Confirming} && w.cycle.todo != [] {
      TodoIsNamed(w);
    }
  }

  lemma {:induction false} TodoIsNamed(w: World)
    requires Placed(w) && w.cycle.stage in {Creating, Confirming} && w.cycle.todo != []
    ensures w.cycle.todo[0].name.Some?
  {
    var c := w.cycle;
    assert c.newItems[|Items(c.tried)|] == c.todo[0];
  }

  /**
   What a committed status write says: an error exactly when some item could not get
   its Task, the limit reached exactly when the new total says so.  The discovery
   watermark, which bounds the next discovery from below, moves in no other step.
   */
  lemma {:induction false} StatusTellsTheTruth(w: World, i: Input)
    requires Enabled(w, i) && Placed(w)
    ensures var v := Step(w, i);
      if i.Report? && i.committed then
        && v.status.lastDiscovery == i.now && v.status.health == Healthy
        && v.status.total == w.status.total + Count(w.cycle.tried, Created)
        && (v.status.discoveryError <==> exists k :: 0 <= k < |w.cycle.tried| && w.cycle.tried[k].fate == Errored)
        && (v.status.limitReached <==> w.spec.maxTotal > 0 && v.status.total >= w.spec.maxTotal)
        && v.status.discovered == |w.cycle.kept| + |w.cycle.tried|
      else
        v.status.lastDiscovery == w.status.lastDiscovery && v.status.total == w.status.total
  {
    if i.Report? {
      var c := w.cycle;
      CountPositive(c.tried, Errored);
      ItemsAt(c.kept);
      ItemsAt(c.tried);
      assert |multiset(Items(c.kept)) + multiset(c.newItems)| == |Items(c.kept)| + |c.newItems|;
      assert |multiset(c.discovered)| == |c.discovered|;
    }
  }

  lemma {:induction false} CountPositive(log: seq<Outcome>, f: Fate)
    ensures Count(log, f) > 0 <==> exists k :: 0 <= k < |log| && log[k].fate == f
  {
    if log != [] {
      CountPositive(log[1..], f);
      assert forall k :: 0 < k < |log| ==> log[k] == log[1..][k - 1];
      if k :| 0 <= k < |log[1..]| && log[1..][k].fate == f {
        assert log[k + 1].fate == f;
      }
    }
  }
}
