/**
 Deleting a finished Task so that its item can run again: what is deleted, when
 somebody else's Task is hit instead, and why the item is not forgotten.
 */
module SpawnerRetrigger {
  import opened Wrappers
  import opened Spawner

  // ---------------------------------------------------------------- what the cycle believes

  /** While items are matched, an owned finished Task that was listed is still as listed, or its name changed hands. */
  predicate ListedStands(w: World, n: string)
    requires n in w.cycle.known
  {
    && Owned(w.spec, w.cycle.known[n])
    && (w.cycle.stage == Scanning && n in w.tasks && Owned(w.spec, w.tasks[n]) && Terminal(w.cycle.known[n]) ==>
          w.tasks[n].phase == w.cycle.known[n].phase && w.tasks[n].completion == w.cycle.known[n].completion)
  }

  /** A deletion was for an owned, finished Task triggered again since; its victim, if the spawner's, is that Task. */
  predicate DeletionOk(spec: Spec, d: Deletion) {
    && Owned(spec, d.listed) && Retriggers(d.item, d.listed)
    && (Owned(spec, d.victim) ==> d.victim.phase == d.listed.phase && d.victim.completion == d.listed.completion)
  }

  predicate Sound(w: World) {
    && (forall n :: n in w.cycle.known ==> ListedStands(w, n))
    && (forall k :: 0 <= k < |w.past.deletions| ==> DeletionOk(w.spec, w.past.deletions[k]))
  }

  lemma {:induction false} SoundScan(w: World, ok: bool, effect: Effect)
    requires Enabled(w, Scan(ok, effect)) && Sound(w)
    ensures Sound(DoScan(w, ok, effect)) && DoScan(w, ok, effect).spec == w.spec
  {
    var v := DoScan(w, ok, effect);
    if w.cycle.todo[0].name.value in w.cycle.known {
      assert ListedStands(w, w.cycle.todo[0].name.value);
    }
    forall n | n in v.cycle.known
      ensures ListedStands(v, n)
    {
      assert ListedStands(w, n);
    }
  }

  lemma {:induction false} SoundStep(w: World, i: Input)
    requires Enabled(w, i) && Sound(w)
    ensures Sound(Step(w, i)) && Step(w, i).spec == w.spec
  {
    if i.Scan? {
      SoundScan(w, i.ok, i.effect);
    } else {
      var v := Step(w, i);
      assert v.past.deletions == w.past.deletions;
      forall n | n in v.cycle.known
        ensures ListedStands(v, n)
      {
        if n in w.cycle.known {
          assert ListedStands(w, n);
        }
      }
    }
  }

  lemma {:induction false} SoundRun(w: World, inputs: seq<Input>)
    requires Possible(w, inputs) && Sound(w)
    ensures Sound(RunAll(w, inputs)) && RunAll(w, inputs).spec == w.spec
    decreases |inputs|
  {
    if inputs != [] {
      SoundStep(w, inputs[0]);
      SoundRun(Step(w, inputs[0]), inputs[1..]);
    }
  }

  /**
   In every run, whatever happens in between: every Task the spawner deletes was
   listed as its own and finished before the item's trigger, and a Task of its own
   that the Delete hits is one of those.
   */
  lemma {:induction false} SafeRetrigger(
      spec: Spec, tasks: map<string, Task>, status: Status, inputs: seq<Input>, d: Deletion)
    requires var w := Initial(spec, tasks, status); Possible(w, inputs) && d in RunAll(w, inputs).past.deletions
    ensures Owned(spec, d.listed) && Terminal(d.listed)
    ensures d.listed.completion.Some? && d.item.trigger.Some? && d.item.trigger.value > d.listed.completion.value
    ensures Owned(spec, d.victim) ==> Terminal(d.victim) && d.victim.completion == d.listed.completion
  {
    SoundRun(Initial(spec, tasks, status), inputs);
  }

  // ---------------------------------------------------------------- Tasks of others

  /** The scan is about to delete by a name that somebody else's Task now holds. */
  predicate NameTaken(w: World, i: Input) {
    && i.Scan? && i.effect != Untouched
    && w.cycle.todo != [] && w.cycle.todo[0].name.Some?
    && var n := w.cycle.todo[0].name.value;
      Decide(w.cycle.known, w.cycle.todo[0]) == AsRetrigger && n in w.tasks && !Owned(w.spec, w.tasks[n])
        && (i.effect == Lingers ==> !w.tasks[n].terminating)
  }

  predicate ForeignKept(spec: Spec, before: map<string, Task>, after: map<string, Task>) {
    forall n :: n in before && !Owned(spec, before[n]) ==> n in after && after[n] == before[n]
  }

  /** A step of the spawner leaves the Tasks of others alone exactly when no name it deletes by was taken over. */
  lemma {:induction false} ForeignKeptIff(w: World, i: Input)
    requires Enabled(w, i) && OfSpawner(i)
    ensures ForeignKept(w.spec, w.tasks, Step(w, i).tasks) <==> !NameTaken(w, i)
  {
    if NameTaken(w, i) {
      var n := w.cycle.todo[0].name.value;
      assert n in w.tasks && !Owned(w.spec, w.tasks[n]);
      assert n !in Step(w, i).tasks || Step(w, i).tasks[n] != w.tasks[n];
    }
  }

  /** A running Task of somebody else holds the name, and the next step may delete it. */
  predicate LosesForeign(w: World, n: string) {
    && n in w.tasks && !Belongs(w.spec, w.tasks[n]) && !Terminal(w.tasks[n])
    && Enabled(w, Scan(true, Gone)) && n !in Step(w, Scan(true, Gone)).tasks
  }

  /** There is a run to such a state: a Task of another spawner takes the name between the list and the delete. */
  lemma {:induction false} TakenNameIsDeleted(spec: Spec, status: Status, other: string)
    returns (tasks: map<string, Task>, inputs: seq<Input>)
    requires other != spec.uid
    ensures var w := Initial(spec, tasks, status); Possible(w, inputs) && LosesForeign(RunAll(w, inputs), "t")
  {
    var done := Task([spec.uid], spec.name, Succeeded, Some(1), false);
    var foreign := Task([other], spec.name, Running, None, false);
    var x := Item("i", Some("t"), Some(2), 0);
    tasks, inputs := map["t" := done], [Begin([x]), Others(map["t" := foreign])];
    var w := Initial(spec, tasks, status);
    TwoSteps(w, Begin([x]), Others(map["t" := foreign]));
    var v := RunAll(w, inputs);
    assert v.cycle.known["t"] == done;
    assert Retriggers(x, v.cycle.known["t"]);
  }

  // ---------------------------------------------------------------- a retriggered item is not forgotten

  /** The item will be acted on when next discovered: no Task of the spawner holds its name, or one it outlived does. */
  predicate Reopened(w: World, x: Item)
    requires x.name.Some?
  {
    x.name.value in w.tasks && Owned(w.spec, w.tasks[x.name.value]) ==> Retriggers(x, w.tasks[x.name.value])
  }

  /** A Task is stored under the item's name. */
  predicate Fills(w: World, i: Input, x: Item)
    requires x.name.Some?
  {
    i.Create? && i.reply in {Accepted, Failure(true)} && w.cycle.todo != [] && w.cycle.todo[0].name == x.name
  }

  predicate NeverFilled(w: World, inputs: seq<Input>, x: Item)
    requires x.name.Some? && Possible(w, inputs)
    decreases |inputs|
  {
    inputs == [] || (!Fills(w, inputs[0], x) && NeverFilled(Step(w, inputs[0]), inputs[1..], x))
  }

  /** The decision to retrigger reopens the item, whatever the Delete answers and does. */
  lemma {:induction false} RetriggerReopens(w: World, ok: bool, effect: Effect)
    requires Sound(w) && Enabled(w, Scan(ok, effect)) && Decide(w.cycle.known, w.cycle.todo[0]) == AsRetrigger
    ensures Reopened(Step(w, Scan(ok, effect)), w.cycle.todo[0])
  {
    assert ListedStands(w, w.cycle.todo[0].name.value);
  }

  lemma {:induction false} StaysReopened(w: World, inputs: seq<Input>, x: Item)
    requires x.name.Some? && Possible(w, inputs) && Reopened(w, x) && NeverFilled(w, inputs, x)
    ensures Reopened(RunAll(w, inputs), x)
    decreases |inputs|
  {
    if inputs != [] {
      var v := Step(w, inputs[0]);
      if x.name.value in v.tasks && Owned(v.spec, v.tasks[x.name.value]) {
        assert x.name.value in w.tasks;
      }
      StaysReopened(v, inputs[1..], x);
    }
  }

  /**
   An item whose Task was to be deleted and which then got no new one (a limit, an
   error or a crash came first) is new or retriggered again, never matched to a kept
   Task, in whatever later cycle discovers it next.
   */
  lemma {:induction false} RetriggeredIsPickedUpAgain(
      w: World, ok: bool, effect: Effect, between: seq<Input>, items: seq<Item>)
    requires Sound(w) && Enabled(w, Scan(ok, effect)) && Decide(w.cycle.known, w.cycle.todo[0]) == AsRetrigger
    requires var v := Step(w, Scan(ok, effect)); var x := w.cycle.todo[0];
      && Possible(v, between) && NeverFilled(v, between, x) && RunAll(v, between).cycle.stage == Idle
    ensures var u := RunAll(Step(w, Scan(ok, effect)), between);
      Decide(Step(u, Begin(items)).cycle.known, w.cycle.todo[0]) != AsKept
  {
    var v := Step(w, Scan(ok, effect));
    RetriggerReopens(w, ok, effect);
    StaysReopened(v, between, w.cycle.todo[0]);
  }
}
