/**
 What one upstream answer decides, over every concurrent run: which result and which
 representation each client is told, what is stored under the key, and that no waiting
 request is forgotten.
 */
module ProxyAnswers {
  import opened Wrappers
  import opened ProxyCache

  /** The answer confirms the entry whose tag was sent. */
  predicate Confirms(n: Note) {
    n.answer.status == 304 && n.entry.Some?
  }

  /** The answer is stored: any success that carries a tag. */
  predicate Stored(n: Note) {
    200 <= n.answer.status <= 299 && n.answer.etag != ""
  }

  /** A confirmed entry is a revalidated hit, any other answer a miss that passes it on; no answer is a failure. */
  predicate Tells(log: seq<Note>, result: Result, rep: Rep, source: nat) {
    || (result == Failure && rep.status == 502)
    || (source < |log| &&
          var n := log[source];
          if Confirms(n) then result == RevalidatedHit && rep == n.entry.value.rep
          else result == Miss && rep == n.answer)
  }

  /** What can be cached is what an answer confirmed, or what one to be stored brought. */
  predicate Cached(log: seq<Note>, source: nat, rep: Rep) {
    source < |log| &&
      var n := log[source];
      if Confirms(n) then rep == n.entry.value.rep else Stored(n) && rep == n.answer
  }

  predicate EntryFrom(log: seq<Note>, e: Entry) {
    Cached(log, e.source, e.rep)
  }

  function Under(cache: map<string, Entry>, key: string): Option<Entry> {
    if key in cache then Some(cache[key]) else None
  }

  /** After the write the key holds the entry of this answer, if it confirms one or is stored, and else what it held. */
  predicate Holds(w: World, key: string, source: nat) {
    source < |w.env.log| &&
      var n := w.env.log[source];
      if Confirms(n) || Stored(n) then key in w.proxy.cache && w.proxy.cache[key].source == source
      else Under(w.proxy.cache, key) == n.entry
  }

  predicate StageTold(w: World, key: string, stage: Stage) {
    match stage
    case Opened => true
    case Asked(entry) => Under(w.proxy.cache, key) == entry
    case Answered(entry, reply, source) =>
      && Under(w.proxy.cache, key) == entry && reply.Response? && source < |w.env.log|
      && w.env.log[source].entry == entry && w.env.log[source].answer == reply.rep
    case Stamped(entry, write, payload) =>
      && Under(w.proxy.cache, key) == entry && payload.result != Failure
      && Tells(w.env.log, payload.result, payload.rep, payload.source)
      && var n := w.env.log[payload.source];
         && n.entry == entry && (write.Some? <==> Confirms(n) || Stored(n))
         && (write.Some? ==> EntryFrom(w.env.log, write.value) && write.value.source == payload.source)
    case Written(payload) =>
      && Tells(w.env.log, payload.result, payload.rep, payload.source)
      && (payload.result != Failure ==> Holds(w, key, payload.source))
  }

  /** A waiting request has its result, or its flight is in progress. */
  predicate GetTold(w: World, g: Get) {
    match g
    case Looked(_, entry) => entry.Some? ==> EntryFrom(w.env.log, entry.value)
    case Waiting(target, no) =>
      || no in w.proxy.results
      || (CacheKey(target) in w.proxy.flights && w.proxy.flights[CacheKey(target)].no == no)
  }

  predicate ServedTold(log: seq<Note>, s: Served) {
    match s.result
    case Skip => true
    case FreshHit => Cached(log, s.source, s.rep)
    case _ => Tells(log, s.result, s.rep, s.source)
  }

  ghost predicate Told(w: World) {
    && (forall k :: k in w.proxy.cache ==> EntryFrom(w.env.log, w.proxy.cache[k]))
    && (forall k :: k in w.proxy.flights ==> StageTold(w, k, w.proxy.flights[k].stage))
    && (forall n :: n in w.proxy.results ==>
          var r := w.proxy.results[n]; Tells(w.env.log, r.result, r.rep, r.source))
    && (forall g :: g in w.proxy.gets ==> GetTold(w, w.proxy.gets[g]))
    && (forall i :: 0 <= i < |w.env.served| ==> ServedTold(w.env.log, w.env.served[i]))
  }

  // ---------------------------------------------------------------- one action keeps it

  lemma {:induction false} MoreNotes(a: seq<Note>, b: seq<Note>)
    requires a <= b
    ensures forall e :: EntryFrom(a, e) ==> EntryFrom(b, e)
    ensures forall result, rep, source :: Tells(a, result, rep, source) ==> Tells(b, result, rep, source)
    ensures forall s :: ServedTold(a, s) ==> ServedTold(b, s)
  {
    assert forall i :: 0 <= i < |a| ==> b[i] == a[i];
  }

  /** A flight whose key keeps its entry is not touched by more notes. */
  lemma {:induction false} StageStands(w: World, v: World, key: string, stage: Stage)
    requires StageTold(w, key, stage) && w.env.log <= v.env.log
    requires Under(v.proxy.cache, key) == Under(w.proxy.cache, key)
    ensures StageTold(v, key, stage)
  {
    MoreNotes(w.env.log, v.env.log);
    assert forall i :: 0 <= i < |w.env.log| ==> v.env.log[i] == w.env.log[i];
  }

  /** One flight moves on, and the cache may change under its key. */
  lemma {:induction false} FlightMoves(w: World, v: World, key: string)
    requires Told(w) && key in w.proxy.flights && w.env.log <= v.env.log
    requires v.proxy.flights.Keys == w.proxy.flights.Keys && v.proxy.flights[key].no == w.proxy.flights[key].no
    requires forall k :: k in w.proxy.flights && k != key ==> v.proxy.flights[k] == w.proxy.flights[k]
    requires forall k :: k != key ==> Under(v.proxy.cache, k) == Under(w.proxy.cache, k)
    requires key in v.proxy.cache ==> EntryFrom(v.env.log, v.proxy.cache[key])
    requires StageTold(v, key, v.proxy.flights[key].stage)
    requires v.proxy.results == w.proxy.results && v.proxy.gets == w.proxy.gets && v.env.served == w.env.served
    ensures Told(v)
  {
    MoreNotes(w.env.log, v.env.log);
    forall k | k in v.proxy.flights && k != key
      ensures StageTold(v, k, v.proxy.flights[k].stage)
    {
      StageStands(w, v, k, w.proxy.flights[k].stage);
    }
    forall k | k in v.proxy.cache && k != key
      ensures EntryFrom(v.env.log, v.proxy.cache[k])
    {
      assert Under(v.proxy.cache, k) == Under(w.proxy.cache, k);
    }
  }

  lemma {:induction false} AskTold(w: World, i: Input)
    requires Told(w) && Enabled(w, i) && (i.Read? || i.Answer?)
    ensures Told(Step(w, i))
  {
    var v := Step(w, i);
    assert StageTold(w, i.key, w.proxy.flights[i.key].stage);
    MoreNotes(w.env.log, v.env.log);
    FlightMoves(w, v, i.key);
  }

  lemma {:induction false} StoreTold(w: World, i: Input)
    requires Told(w) && Enabled(w, i) && (i.Stamp? || i.Write?)
    ensures Told(Step(w, i))
  {
    assert StageTold(w, i.key, w.proxy.flights[i.key].stage);
    FlightMoves(w, Step(w, i), i.key);
  }

  /** Flights and cache stay; requests and responses may change. */
  lemma {:induction false} FlightsStand(w: World, v: World)
    requires Told(w) && v.env.log == w.env.log && v.proxy.cache == w.proxy.cache
    requires forall k :: k in v.proxy.flights ==>
      v.proxy.flights[k].stage == Opened || (k in w.proxy.flights && v.proxy.flights[k] == w.proxy.flights[k])
    ensures forall k :: k in v.proxy.flights ==> StageTold(v, k, v.proxy.flights[k].stage)
  {
    forall k | k in v.proxy.flights && v.proxy.flights[k].stage != Opened
      ensures StageTold(v, k, v.proxy.flights[k].stage)
    {
      StageStands(w, v, k, w.proxy.flights[k].stage);
    }
  }

  lemma {:induction false} CheckTold(w: World, g: nat)
    requires Told(w) && Enabled(w, Check(g))
    ensures Told(Step(w, Check(g)))
  {
    var v := Step(w, Check(g));
    FlightsStand(w, v);
    assert GetTold(w, w.proxy.gets[g]);
    forall h | h in v.proxy.gets
      ensures GetTold(v, v.proxy.gets[h])
    {
      assert h != g ==> GetTold(w, w.proxy.gets[h]);
    }
  }

  lemma {:induction false} FinishTold(w: World, key: string)
    requires Told(w) && Enabled(w, Finish(key))
    ensures Told(Step(w, Finish(key)))
  {
    var v := Step(w, Finish(key));
    FlightsStand(w, v);
    assert StageTold(w, key, w.proxy.flights[key].stage);
    forall h | h in v.proxy.gets
      ensures GetTold(v, v.proxy.gets[h])
    {
      assert GetTold(w, w.proxy.gets[h]);
    }
  }

  lemma {:induction false} OtherTold(w: World, i: Input)
    requires Told(w) && Enabled(w, i) && (i.Tick? || i.Change? || i.Start? || i.Collect? || i.NonGet?)
    ensures Told(Step(w, i))
  {
    var v := Step(w, i);
    FlightsStand(w, v);
    forall h | h in v.proxy.gets
      ensures GetTold(v, v.proxy.gets[h])
    {
      assert h in w.proxy.gets ==> GetTold(w, w.proxy.gets[h]);
    }
  }

  lemma {:induction false} ToldStep(w: World, i: Input)
    requires Told(w) && Enabled(w, i)
    ensures Told(Step(w, i))
  {
    match i
    case Check(g) => CheckTold(w, g);
    case Finish(key) => FinishTold(w, key);
    case Read(_) => AskTold(w, i);
    case Answer(_, _) => AskTold(w, i);
    case Stamp(_) => StoreTold(w, i);
    case Write(_) => StoreTold(w, i);
    case _ => OtherTold(w, i);
  }

  lemma {:induction false} ToldOverRun(w: World, inputs: seq<Input>)
    requires Told(w) && Possible(w, inputs)
    ensures Told(RunAll(w, inputs))
    decreases |inputs|
  {
    if inputs != [] {
      ToldStep(w, inputs[0]);
      ToldOverRun(Step(w, inputs[0]), inputs[1..]);
    }
  }

  // ---------------------------------------------------------------- the results

  /** Every response of every run is what the answer it names decides, and every cached entry too. */
  lemma {:induction false} AnswersDecide(ttl: int, start: int, inputs: seq<Input>)
    requires Possible(Initial(ttl, start), inputs)
    ensures var w := RunAll(Initial(ttl, start), inputs);
      && (forall i :: 0 <= i < |w.env.served| ==> ServedTold(w.env.log, w.env.served[i]))
      && (forall k :: k in w.proxy.cache ==> EntryFrom(w.env.log, w.proxy.cache[k]))
  {
    ToldOverRun(Initial(ttl, start), inputs);
  }

  /** When a flight returns an answer its key holds it if and only if it was to be stored or confirmed the entry. */
  lemma {:induction false} KeyHoldsAnswerIff(ttl: int, start: int, inputs: seq<Input>, key: string)
    requires Possible(Initial(ttl, start), inputs) && Enabled(RunAll(Initial(ttl, start), inputs), Finish(key))
    requires RunAll(Initial(ttl, start), inputs).proxy.flights[key].stage.payload.result != Failure
    ensures var w := RunAll(Initial(ttl, start), inputs);
      var source := w.proxy.flights[key].stage.payload.source;
      && source < |w.env.log|
      && var n := w.env.log[source];
         if n.answer.status == 304 && n.entry.Some? then
           key in w.proxy.cache && w.proxy.cache[key].source == source && w.proxy.cache[key].rep == n.entry.value.rep
         else if 200 <= n.answer.status <= 299 && n.answer.etag != "" then
           key in w.proxy.cache && w.proxy.cache[key].source == source && w.proxy.cache[key].rep == n.answer
         else
           Under(w.proxy.cache, key) == n.entry
  {
    ToldOverRun(Initial(ttl, start), inputs);
    var w := RunAll(Initial(ttl, start), inputs);
    assert StageTold(w, key, w.proxy.flights[key].stage);
    assert key in w.proxy.cache ==> EntryFrom(w.env.log, w.proxy.cache[key]);
  }

  /** In every run a waiting request either has its result or is carried by a flight in progress for its key. */
  lemma {:induction false} NoRequestIsForgotten(ttl: int, start: int, inputs: seq<Input>, g: nat)
    requires Possible(Initial(ttl, start), inputs)
    requires var p := RunAll(Initial(ttl, start), inputs).proxy; g in p.gets && p.gets[g].Waiting?
    ensures var w := RunAll(Initial(ttl, start), inputs);
      var key := w.proxy.gets[g].target.uri + "|" + w.proxy.gets[g].target.accept;
      || Enabled(w, Collect(g))
      || (key in w.proxy.flights && w.proxy.flights[key].no == w.proxy.gets[g].no)
  {
    ToldOverRun(Initial(ttl, start), inputs);
    var w := RunAll(Initial(ttl, start), inputs);
    assert GetTold(w, w.proxy.gets[g]);
  }
}
