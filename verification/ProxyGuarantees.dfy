/**
 What the proxy guarantees over every concurrent run: the staleness of a fresh
 hit is bounded, a revalidation never resurrects an old entry, and, when entity
 tags identify representations (section 8.8.3 of RFC 9110), a revalidated hit is
 what upstream held at the moment of its 304 answer.
 */
module ProxyGuarantees {
  import opened Wrappers
  import opened ProxyCache

  // ---------------------------------------------------------------- the invariant

  /** Note number `source` is an upstream answer for this key, and it sent or confirmed this representation. */
  predicate NoteFor(log: seq<Note>, source: nat, key: string, rep: Rep) {
    source < |log| && CacheKey(log[source].target) == key && log[source].rep == rep
  }

  predicate EntryOk(w: World, key: string, e: Entry) {
    && NoteFor(w.env.log, e.source, key, e.rep)
    && w.env.log[e.source].time <= e.storedAt <= w.proxy.now
    && Cacheable(e.rep)
    && e.freshUntil == NextFreshUntil(w.proxy.ttl, e.storedAt)
  }

  predicate PayloadOk(w: World, key: string, r: Payload) {
    && r.result in {Failure, Miss, RevalidatedHit}
    && (r.result != Failure ==> NoteFor(w.env.log, r.source, key, r.rep))
    && (r.result == RevalidatedHit ==> Cacheable(r.rep))
  }

  /** Between its look at the cache and its write, a flight's key keeps the entry it saw. */
  predicate StageOk(w: World, key: string, stage: Stage) {
    match stage
    case Opened => true
    case Asked(entry) => Lookup(w.proxy.cache, key) == entry
    case Answered(entry, reply, source) =>
      && Lookup(w.proxy.cache, key) == entry && reply.Response?
      && NoteFor(w.env.log, source, key, if Revalidates(entry, reply) then entry.value.rep else reply.rep)
      && w.env.log[source].time <= w.proxy.now
    case Stamped(entry, write, payload) =>
      && Lookup(w.proxy.cache, key) == entry && PayloadOk(w, key, payload)
      && (write.Some? ==> EntryOk(w, key, write.value))
      && (payload.result == RevalidatedHit ==>
            entry.Some? && write.Some? && write.value.rep == entry.value.rep == payload.rep)
    case Written(payload) => PayloadOk(w, key, payload)
  }

  predicate FlightOk(w: World, key: string, f: Flight) {
    && f.no < |w.proxy.owners| && w.proxy.owners[f.no] == key
    && CacheKey(f.target) == key
    && StageOk(w, key, f.stage)
  }

  predicate GetOk(w: World, g: Get) {
    match g
    case Looked(target, entry) => entry.Some? ==> EntryOk(w, CacheKey(target), entry.value)
    case Waiting(target, no) => no < |w.proxy.owners| && w.proxy.owners[no] == CacheKey(target)
  }

  /** What a response may be, and how old a fresh one. */
  predicate ServedOk(w: World, s: Served) {
    && (s.result in {FreshHit, RevalidatedHit, Miss} ==> NoteFor(w.env.log, s.source, CacheKey(s.target), s.rep))
    && (s.result in {FreshHit, RevalidatedHit} ==> Cacheable(s.rep))
    && (s.result == FreshHit ==> w.env.log[s.source].time <= s.storedAt <= s.at < s.storedAt + w.proxy.ttl)
  }

  predicate Sound(w: World) {
    && (forall k :: k in w.proxy.cache ==> EntryOk(w, k, w.proxy.cache[k]))
    && (forall k :: k in w.proxy.flights ==> FlightOk(w, k, w.proxy.flights[k]))
    && (forall n :: n in w.proxy.results ==>
          n < |w.proxy.owners| && PayloadOk(w, w.proxy.owners[n], w.proxy.results[n]))
    && (forall g :: g in w.proxy.gets ==> GetOk(w, w.proxy.gets[g]))
    && (forall i :: 0 <= i < |w.env.served| ==> ServedOk(w, w.env.served[i]))
  }

  // ---------------------------------------------------------------- one action keeps it

  /** Time passes, flights are opened and answers are logged: nothing said about entries and responses becomes false. */
  predicate Later(w: World, v: World) {
    && v.proxy.ttl == w.proxy.ttl && w.proxy.now <= v.proxy.now
    && w.env.log <= v.env.log && w.proxy.owners <= v.proxy.owners
  }

  lemma {:induction false} LaterKeeps(w: World, v: World)
    requires Later(w, v)
    ensures forall k, e :: EntryOk(w, k, e) ==> EntryOk(v, k, e)
    ensures forall k, r :: PayloadOk(w, k, r) ==> PayloadOk(v, k, r)
    ensures forall g :: GetOk(w, g) ==> GetOk(v, g)
    ensures forall s :: ServedOk(w, s) ==> ServedOk(v, s)
  {
    var log := w.env.log;
    assert forall i :: 0 <= i < |log| ==> v.env.log[i] == log[i];
    assert forall i :: 0 <= i < |w.proxy.owners| ==> v.proxy.owners[i] == w.proxy.owners[i];
  }

  lemma {:induction false} LaterKeepsFlight(w: World, v: World, key: string, f: Flight)
    requires Later(w, v) && Lookup(v.proxy.cache, key) == Lookup(w.proxy.cache, key) && FlightOk(w, key, f)
    ensures FlightOk(v, key, f)
  {
    LaterKeeps(w, v);
  }

  /** An action that touches neither the cache nor the flights. */
  lemma {:induction false} QuietStep(w: World, i: Input)
    requires Sound(w) && Enabled(w, i)
    requires i.Tick? || i.Change? || i.Start? || i.NonGet?
    ensures Sound(Step(w, i))
  {
    var v := Step(w, i);
    LaterKeeps(w, v);
    forall k | k in v.proxy.flights
      ensures FlightOk(v, k, v.proxy.flights[k])
    {
      LaterKeepsFlight(w, v, k, w.proxy.flights[k]);
    }
  }

  lemma {:induction false} CheckStep(w: World, g: nat)
    requires Sound(w) && Enabled(w, Check(g))
    ensures Sound(Step(w, Check(g)))
  {
    var v := Step(w, Check(g));
    var Looked(target, entry) := w.proxy.gets[g];
    assert GetOk(w, w.proxy.gets[g]);
    LaterKeeps(w, v);
    forall k | k in w.proxy.flights
      ensures FlightOk(v, k, w.proxy.flights[k])
    {
      LaterKeepsFlight(w, v, k, w.proxy.flights[k]);
    }
    if !IsFresh(entry, w.proxy.now) && CacheKey(target) in w.proxy.flights {
      assert FlightOk(w, CacheKey(target), w.proxy.flights[CacheKey(target)]);
    }
  }

  lemma {:induction false} OtherFlightsStand(w: World, v: World, key: string, f: Flight)
    requires Sound(w) && key in w.proxy.flights && Later(w, v)
    requires v.proxy.flights == w.proxy.flights[key := f] && FlightOk(v, key, f)
    requires v.proxy.cache.Keys <= w.proxy.cache.Keys + {key}
    requires forall k :: k in w.proxy.cache ==> k in v.proxy.cache
    requires forall k :: k in w.proxy.cache && k != key ==> v.proxy.cache[k] == w.proxy.cache[k]
    ensures forall k :: k in v.proxy.flights ==> FlightOk(v, k, v.proxy.flights[k])
  {
    forall k | k in v.proxy.flights
      ensures FlightOk(v, k, v.proxy.flights[k])
    {
      if k != key {
        assert Lookup(v.proxy.cache, k) == Lookup(w.proxy.cache, k);
        LaterKeepsFlight(w, v, k, w.proxy.flights[k]);
      }
    }
  }

  lemma {:induction false} OtherEntriesStand(w: World, v: World, key: string)
    requires Sound(w) && Later(w, v)
    requires v.proxy.cache.Keys <= w.proxy.cache.Keys + {key}
    requires forall k :: k in w.proxy.cache && k != key ==> k in v.proxy.cache && v.proxy.cache[k] == w.proxy.cache[k]
    requires key in v.proxy.cache ==> EntryOk(v, key, v.proxy.cache[key])
    ensures forall k :: k in v.proxy.cache ==> EntryOk(v, k, v.proxy.cache[k])
  {
    LaterKeeps(w, v);
    forall k | k in v.proxy.cache && k != key
      ensures EntryOk(v, k, v.proxy.cache[k])
    {
      assert EntryOk(w, k, w.proxy.cache[k]);
    }
  }

  /** Finished flights, requests and responses. */
  lemma {:induction false} OthersStand(w: World, v: World)
    requires Sound(w) && Later(w, v)
    requires v.proxy.results == w.proxy.results && v.proxy.gets == w.proxy.gets && v.env.served == w.env.served
    ensures forall n :: n in v.proxy.results ==>
      n < |v.proxy.owners| && PayloadOk(v, v.proxy.owners[n], v.proxy.results[n])
    ensures forall g :: g in v.proxy.gets ==> GetOk(v, v.proxy.gets[g])
    ensures forall i :: 0 <= i < |v.env.served| ==> ServedOk(v, v.env.served[i])
  {
    LaterKeeps(w, v);
    assert forall n :: 0 <= n < |w.proxy.owners| ==> v.proxy.owners[n] == w.proxy.owners[n];
  }

  /** A flight moves to its next stage; the cache may change at its own key only. */
  lemma {:induction false} FlightStep(w: World, v: World, key: string, f: Flight)
    requires Sound(w) && key in w.proxy.flights && Later(w, v)
    requires v.proxy.flights == w.proxy.flights[key := f] && FlightOk(v, key, f)
    requires v.proxy.cache.Keys <= w.proxy.cache.Keys + {key}
    requires forall k :: k in w.proxy.cache ==> k in v.proxy.cache
    requires forall k :: k in w.proxy.cache && k != key ==> v.proxy.cache[k] == w.proxy.cache[k]
    requires key in v.proxy.cache ==> EntryOk(v, key, v.proxy.cache[key])
    requires v.proxy.results == w.proxy.results && v.proxy.gets == w.proxy.gets && v.env.served == w.env.served
    ensures Sound(v)
  {
    OtherFlightsStand(w, v, key, f);
    OtherEntriesStand(w, v, key);
    OthersStand(w, v);
  }

  lemma {:induction false} ReadStep(w: World, key: string)
    requires Sound(w) && Enabled(w, Read(key))
    ensures Sound(Step(w, Read(key)))
  {
    var v := Step(w, Read(key));
    assert FlightOk(w, key, w.proxy.flights[key]);
    LaterKeeps(w, v);
    FlightStep(w, v, key, v.proxy.flights[key]);
  }

  lemma {:induction false} AnswerStep(w: World, key: string, reply: Reply)
    requires Sound(w) && Enabled(w, Answer(key, reply))
    ensures Sound(Step(w, Answer(key, reply)))
  {
    var v := Step(w, Answer(key, reply));
    assert FlightOk(w, key, w.proxy.flights[key]);
    LaterKeeps(w, v);
    FlightStep(w, v, key, v.proxy.flights[key]);
  }

  lemma {:induction false} StampOk(w: World, key: string, entry: Option<Entry>, reply: Reply, source: nat)
    requires StageOk(w, key, Answered(entry, reply, source)) && reply.Response?
    requires entry.Some? ==> EntryOk(w, key, entry.value)
    ensures var (write, payload) := StampOf(w.proxy, entry, reply, source);
      StageOk(w, key, Stamped(entry, write, payload))
  {
  }

  lemma {:induction false} StampStep(w: World, key: string)
    requires Sound(w) && Enabled(w, Stamp(key))
    ensures Sound(Step(w, Stamp(key)))
  {
    var v := Step(w, Stamp(key));
    var f := w.proxy.flights[key];
    assert FlightOk(w, key, f);
    StampOk(w, key, f.stage.entry, f.stage.reply, f.stage.source);
    LaterKeeps(w, v);
    FlightStep(w, v, key, v.proxy.flights[key]);
  }

  lemma {:induction false} WriteStep(w: World, key: string)
    requires Sound(w) && Enabled(w, Write(key))
    ensures Sound(Step(w, Write(key)))
  {
    var v := Step(w, Write(key));
    assert FlightOk(w, key, w.proxy.flights[key]);
    LaterKeeps(w, v);
    FlightStep(w, v, key, v.proxy.flights[key]);
  }

  lemma {:induction false} FinishStep(w: World, key: string)
    requires Sound(w) && Enabled(w, Finish(key))
    ensures Sound(Step(w, Finish(key)))
  {
    var v := Step(w, Finish(key));
    assert FlightOk(w, key, w.proxy.flights[key]);
    LaterKeeps(w, v);
    forall k | k in v.proxy.flights
      ensures FlightOk(v, k, v.proxy.flights[k])
    {
      LaterKeepsFlight(w, v, k, w.proxy.flights[k]);
    }
  }

  lemma {:induction false} CollectStep(w: World, g: nat)
    requires Sound(w) && Enabled(w, Collect(g))
    ensures Sound(Step(w, Collect(g)))
  {
    var v := Step(w, Collect(g));
    var Waiting(target, no) := w.proxy.gets[g];
    assert GetOk(w, w.proxy.gets[g]);
    LaterKeeps(w, v);
    forall k | k in v.proxy.flights
      ensures FlightOk(v, k, v.proxy.flights[k])
    {
      LaterKeepsFlight(w, v, k, w.proxy.flights[k]);
    }
  }

  lemma {:induction false} StepSound(w: World, i: Input)
    requires Sound(w) && Enabled(w, i)
    ensures Sound(Step(w, i))
  {
    match i {
      case Check(g) => CheckStep(w, g);
      case Read(key) => ReadStep(w, key);
      case Answer(key, reply) => AnswerStep(w, key, reply);
      case Stamp(key) => StampStep(w, key);
      case Write(key) => WriteStep(w, key);
      case Finish(key) => FinishStep(w, key);
      case Collect(g) => CollectStep(w, g);
      case _ => QuietStep(w, i);
    }
  }

  lemma {:induction false} RunSound(w: World, inputs: seq<Input>)
    requires Sound(w) && Possible(w, inputs)
    ensures Sound(RunAll(w, inputs)) && RunAll(w, inputs).proxy.ttl == w.proxy.ttl
    decreases |inputs|
  {
    if inputs == [] {
      assert RunAll(w, inputs) == w;
    } else {
      StepSound(w, inputs[0]);
      TtlKept(w, inputs[0]);
      RunSound(Step(w, inputs[0]), inputs[1..]);
    }
  }

  lemma {:induction false} TtlKept(w: World, i: Input)
    requires Enabled(w, i)
    ensures Step(w, i).proxy.ttl == w.proxy.ttl
  {
  }

  /** Two targets are told apart unless a URI holds the key separator. */
  predicate SameUnlessPiped(a: Target, b: Target) {
    a == b || '|' in a.uri || '|' in b.uri
  }

  /**
   Bounded staleness.  In every concurrent run each fresh hit returns what an
   earlier upstream answer to the same URI and Accept header sent or confirmed,
   stored less than the time to live before; with a time to live of zero or less
   there is no fresh hit.  "The same" is up to the cache key, which separates
   all requests whose URIs do not contain its separator.
   */
  lemma {:induction false} BoundedStaleness(ttl: int, start: int, inputs: seq<Input>, i: nat)
    requires Possible(Initial(ttl, start), inputs)
    requires i < |RunAll(Initial(ttl, start), inputs).env.served|
    requires RunAll(Initial(ttl, start), inputs).env.served[i].result == FreshHit
    ensures var env := RunAll(Initial(ttl, start), inputs).env; var s := env.served[i];
      && ttl > 0
      && s.source < |env.log| && env.log[s.source].rep == s.rep
      && SameUnlessPiped(env.log[s.source].target, s.target)
      && env.log[s.source].time <= s.storedAt <= s.at < s.storedAt + ttl
  {
    RunSound(Initial(ttl, start), inputs);
    var w := RunAll(Initial(ttl, start), inputs);
    var s := w.env.served[i];
    assert ServedOk(w, s);
    if '|' !in s.target.uri && '|' !in w.env.log[s.source].target.uri {
      KeySeparates(s.target, w.env.log[s.source].target);
    }
  }

  /**
   Both directions at the moment of the decision: a request that found an entry is
   served it without asking upstream if and only if the entry was stored less than
   the time to live before (and the time it stays fresh until is not the zero time).
   */
  lemma {:induction false} FreshHitIff(ttl: int, start: int, inputs: seq<Input>, g: nat)
    requires Possible(Initial(ttl, start), inputs) && Enabled(RunAll(Initial(ttl, start), inputs), Check(g))
    ensures var w := RunAll(Initial(ttl, start), inputs);
      var v, entry := Step(w, Check(g)), w.proxy.gets[g].entry;
      var stays :=
        ttl > 0 && entry.Some? && entry.value.storedAt + ttl != 0 && w.proxy.now < entry.value.storedAt + ttl;
      && (g !in v.proxy.gets <==> stays)
      && (stays ==> |v.env.served| == |w.env.served| + 1 && v.env.served[|w.env.served|].rep == entry.value.rep)
      && (!stays ==> v.env.served == w.env.served && CacheKey(w.proxy.gets[g].target) in v.proxy.flights)
  {
    RunSound(Initial(ttl, start), inputs);
    assert GetOk(RunAll(Initial(ttl, start), inputs), RunAll(Initial(ttl, start), inputs).proxy.gets[g]);
  }

  /** The separator matters: a request whose key collides is served the other request's representation. */
  lemma {:induction false} CollisionServesTheOther(w: World, a: Target, b: Target, g: nat)
    requires Collides(a, b) && g !in w.proxy.gets && IsFresh(Lookup(w.proxy.cache, CacheKey(b)), w.proxy.now)
    ensures Possible(w, [Start(g, a), Check(g)])
    ensures var t := RunAll(w, [Start(g, a), Check(g)]);
      && |t.env.served| == |w.env.served| + 1
      && t.env.served[|w.env.served|].target == a
      && t.env.served[|w.env.served|].rep == w.proxy.cache[CacheKey(b)].rep
  {
    var inputs := [Start(g, a), Check(g)];
    var w1 := Step(w, inputs[0]);
    assert inputs[1..] == [Check(g)] && inputs[1..][1..] == [];
    var w2 := Step(w1, inputs[1]);
    assert RunAll(w2, []) == w2;
    assert Possible(w2, []) && Possible(w1, inputs[1..]);
    assert RunAll(w1, inputs[1..]) == w2;
  }

  predicate Pending(stage: Stage) {
    stage.Asked? || stage.Answered? || stage.Stamped?
  }

  /**
   Revalidation never resurrects an entry.  In every run, from the moment a
   flight reads the cache until it writes its result, its key holds the very
   entry whose tag was sent; every cached entry has a 2xx status and a tag.
   */
  lemma {:induction false} NoResurrection(ttl: int, start: int, inputs: seq<Input>, key: string)
    requires Possible(Initial(ttl, start), inputs)
    ensures var p := RunAll(Initial(ttl, start), inputs).proxy;
      && (key in p.flights && Pending(p.flights[key].stage) ==> Lookup(p.cache, key) == p.flights[key].stage.entry)
      && (key in p.cache ==> 200 <= p.cache[key].rep.status < 300 && p.cache[key].rep.etag != "")
  {
    RunSound(Initial(ttl, start), inputs);
    var w := RunAll(Initial(ttl, start), inputs);
    if key in w.proxy.flights {
      assert FlightOk(w, key, w.proxy.flights[key]);
    }
  }

  // ---------------------------------------------------------------- agreement with upstream

  predicate SameTagSameRep(a: (Target, Rep), b: (Target, Rep)) {
    a.0 == b.0 && a.1.etag == b.1.etag && a.1.etag != "" ==> a.1 == b.1
  }

  /** An entity tag identifies a representation of its resource. */
  predicate TagsIdentify(versions: seq<(Target, Rep)>) {
    forall i, j :: 0 <= i < |versions| && 0 <= j < |versions| ==> SameTagSameRep(versions[i], versions[j])
  }

  /**
   Upstream's side: tags identify representations, a 2xx answer carries what
   upstream holds, and 304 is only answered when the tag sent is the current one.
   Requests use URIs without the key separator.
   */
  predicate HonestUpstream(w: World, i: Input)
    requires Enabled(w, i)
  {
    match i
    case Start(_, t) => '|' !in t.uri
    case Change(t, rep) => TagsIdentify(w.env.versions + [(t, rep)])
    case Answer(key, Response(rep)) =>
      var f := w.proxy.flights[key];
      && (200 <= rep.status < 300 ==> Upstream(w.env, f.target) == Some(rep))
      && (rep.status == 304 && f.stage.entry.Some? ==>
            Upstream(w.env, f.target).Some? && Upstream(w.env, f.target).value.etag == f.stage.entry.value.rep.etag)
    case _ => true
  }

  predicate AlongHonest(w: World, inputs: seq<Input>)
    requires Possible(w, inputs)
    decreases |inputs|
  {
    inputs == [] || (HonestUpstream(w, inputs[0]) && AlongHonest(Step(w, inputs[0]), inputs[1..]))
  }

  predicate KnownVersion(env: Env, t: Target, rep: Rep) {
    exists i :: 0 <= i < |env.versions| && env.versions[i] == (t, rep)
  }

  /** What a note says upstream sent or confirmed with success is what upstream held. */
  predicate NoteTrue(env: Env, n: Note) {
    && '|' !in n.target.uri
    && (200 <= n.rep.status < 300 ==> n.current == Some(n.rep) && KnownVersion(env, n.target, n.rep))
  }

  predicate Truthful(w: World) {
    && TagsIdentify(w.env.versions)
    && (forall t :: t in w.env.current ==> KnownVersion(w.env, t, w.env.current[t]))
    && (forall i :: 0 <= i < |w.env.log| ==> NoteTrue(w.env, w.env.log[i]))
    && (forall k :: k in w.proxy.flights ==> '|' !in w.proxy.flights[k].target.uri)
    && (forall g :: g in w.proxy.gets ==> '|' !in w.proxy.gets[g].target.uri)
    && (forall i :: 0 <= i < |w.env.served| && w.env.served[i].result != Skip ==> '|' !in w.env.served[i].target.uri)
  }

  lemma {:induction false} KnownGrows(env: Env, v: Env)
    requires env.versions <= v.versions
    ensures forall t, rep :: KnownVersion(env, t, rep) ==> KnownVersion(v, t, rep)
    ensures forall n :: NoteTrue(env, n) ==> NoteTrue(v, n)
  {
    forall t, rep | KnownVersion(env, t, rep)
      ensures KnownVersion(v, t, rep)
    {
      var i :| 0 <= i < |env.versions| && env.versions[i] == (t, rep);
      assert v.versions[i] == (t, rep);
    }
  }

  /** The heart of revalidation: the entry whose tag upstream confirms is what upstream holds now. */
  lemma {:induction false} ConfirmedIsCurrent(w: World, key: string, reply: Reply)
    requires Sound(w) && Truthful(w) && Enabled(w, Answer(key, reply)) && HonestUpstream(w, Answer(key, reply))
    requires reply.Response? && reply.rep.status == 304 && w.proxy.flights[key].stage.entry.Some?
    ensures Upstream(w.env, w.proxy.flights[key].target) == Some(w.proxy.flights[key].stage.entry.value.rep)
  {
    var f := w.proxy.flights[key];
    var e := f.stage.entry.value;
    assert FlightOk(w, key, f);
    assert EntryOk(w, key, e);
    var n := w.env.log[e.source];
    assert NoteTrue(w.env, n);
    KeySeparates(n.target, f.target);
    var now := w.env.current[f.target];
    var i :| 0 <= i < |w.env.versions| && w.env.versions[i] == (f.target, e.rep);
    var j :| 0 <= j < |w.env.versions| && w.env.versions[j] == (f.target, now);
    assert SameTagSameRep(w.env.versions[i], w.env.versions[j]);
  }

  lemma {:induction false} AnswerTruthful(w: World, key: string, reply: Reply)
    requires Sound(w) && Truthful(w) && Enabled(w, Answer(key, reply)) && HonestUpstream(w, Answer(key, reply))
    ensures Truthful(Step(w, Answer(key, reply)))
  {
    var v := Step(w, Answer(key, reply));
    if reply.Response? {
      KnownGrows(w.env, v.env);
      if Revalidates(w.proxy.flights[key].stage.entry, reply) {
        ConfirmedIsCurrent(w, key, reply);
      }
      assert NoteTrue(v.env, v.env.log[|w.env.log|]);
    }
  }

  lemma {:induction false} ChangeTruthful(w: World, t: Target, rep: Rep)
    requires Truthful(w) && HonestUpstream(w, Change(t, rep))
    ensures Truthful(Step(w, Change(t, rep)))
  {
    var v := Step(w, Change(t, rep));
    KnownGrows(w.env, v.env);
    assert v.env.versions[|w.env.versions|] == (t, rep);
  }

  /** The actions that neither change upstream nor ask it. */
  lemma {:induction false} LocalTruthful(w: World, v: World)
    requires Truthful(w)
    requires v.env.versions == w.env.versions && v.env.current == w.env.current && v.env.log == w.env.log
    requires forall k :: k in v.proxy.flights ==> '|' !in v.proxy.flights[k].target.uri
    requires forall g :: g in v.proxy.gets ==> '|' !in v.proxy.gets[g].target.uri
    requires forall i :: 0 <= i < |v.env.served| && v.env.served[i].result != Skip ==>
      '|' !in v.env.served[i].target.uri
    ensures Truthful(v)
  {
    KnownGrows(w.env, v.env);
  }

  lemma {:induction false} FlightTruthful(w: World, i: Input)
    requires Truthful(w) && Enabled(w, i) && (i.Read? || i.Stamp? || i.Write? || i.Finish?)
    ensures Truthful(Step(w, i))
  {
    LocalTruthful(w, Step(w, i));
  }

  lemma {:induction false} GetTruthful(w: World, i: Input)
    requires Truthful(w) && Enabled(w, i) && HonestUpstream(w, i)
    requires i.Tick? || i.Start? || i.Check? || i.Collect? || i.NonGet?
    ensures Truthful(Step(w, i))
  {
    LocalTruthful(w, Step(w, i));
  }

  lemma {:induction false} StepTruthful(w: World, i: Input)
    requires Sound(w) && Truthful(w) && Enabled(w, i) && HonestUpstream(w, i)
    ensures Truthful(Step(w, i))
  {
    if i.Answer? {
      AnswerTruthful(w, i.key, i.reply);
    } else if i.Change? {
      ChangeTruthful(w, i.target, i.rep);
    } else if i.Read? || i.Stamp? || i.Write? || i.Finish? {
      FlightTruthful(w, i);
    } else {
      GetTruthful(w, i);
    }
  }

  lemma {:induction false} RunTruthful(w: World, inputs: seq<Input>)
    requires Sound(w) && Truthful(w) && Possible(w, inputs) && AlongHonest(w, inputs)
    ensures Sound(RunAll(w, inputs)) && Truthful(RunAll(w, inputs))
    decreases |inputs|
  {
    if inputs != [] {
      StepSound(w, inputs[0]);
      StepTruthful(w, inputs[0]);
      RunTruthful(Step(w, inputs[0]), inputs[1..]);
    }
  }

  /**
   Agreement with upstream.  With an honest upstream, every hit and every
   successful miss of every run is a representation upstream really held for that request when
   it gave the answer named by the response: for a revalidated hit its 304, for
   a miss its 2xx, for a fresh hit the answer that filled or refreshed the entry.
   */
  lemma {:induction false} ServesWhatUpstreamHeld(ttl: int, start: int, inputs: seq<Input>, i: nat)
    requires Possible(Initial(ttl, start), inputs) && AlongHonest(Initial(ttl, start), inputs)
    requires i < |RunAll(Initial(ttl, start), inputs).env.served|
    ensures var env := RunAll(Initial(ttl, start), inputs).env; var s := env.served[i];
      s.result in {FreshHit, RevalidatedHit} || (s.result == Miss && 200 <= s.rep.status < 300) ==>
        && s.source < |env.log| && env.log[s.source].target == s.target
        && env.log[s.source].current == Some(s.rep)
  {
    RunTruthful(Initial(ttl, start), inputs);
    var w := RunAll(Initial(ttl, start), inputs);
    var s := w.env.served[i];
    assert ServedOk(w, s);
    if s.result in {FreshHit, RevalidatedHit, Miss} {
      assert NoteTrue(w.env, w.env.log[s.source]);
      KeySeparates(s.target, w.env.log[s.source].target);
    }
  }
}
