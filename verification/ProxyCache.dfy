/**
 The caching proxy of cmd/ghproxy/main.go as a state machine.  Any number of
 GET requests are in progress at once; requests for one cache key that find no
 fresh entry share one upstream call (a flight).  Each `Input` is one atomic
 action: a locked access to the cache, a look at the clock, an upstream answer.

 `Env` keeps what an observer would write down: upstream's representations and
 all their versions, every upstream answer, and every response served.
 */
module ProxyCache {
  import opened Wrappers

  datatype Target = Target(uri: string, accept: string)

  datatype Rep = Rep(status: int, etag: string, contentType: string, link: string, body: string)

  // `freshUntil` 0 is Go's zero time.  `source` (an index into the answer log) and
  // `storedAt` are history: the program does not have them.
  datatype Entry = Entry(rep: Rep, freshUntil: int, source: nat, storedAt: int)

  datatype Reply = UpstreamError | Response(rep: Rep)

  datatype Result = FreshHit | RevalidatedHit | Miss | Failure | Skip

  datatype Payload = Payload(result: Result, rep: Rep, source: nat)

  datatype Stage =
    | Opened
    | Asked(entry: Option<Entry>)
    | Answered(entry: Option<Entry>, reply: Reply, source: nat)
    | Stamped(entry: Option<Entry>, write: Option<Entry>, payload: Payload)
    | Written(payload: Payload)

  datatype Flight = Flight(no: nat, target: Target, stage: Stage)

  datatype Get = Looked(target: Target, entry: Option<Entry>) | Waiting(target: Target, no: nat)

  datatype Proxy = Proxy(
    ttl: int,
    now: int,
    cache: map<string, Entry>,
    flights: map<string, Flight>,
    owners: seq<string>,          // the key of each flight ever opened
    results: map<nat, Payload>,   // what finished flights returned
    gets: map<nat, Get>)          // the GET requests in progress

  /** One upstream answer: the entry whose tag was sent, what came back, the representation that was sent or
      confirmed by it, and what upstream really held at that moment. */
  datatype Note = Note(
    target: Target, entry: Option<Entry>, answer: Rep, rep: Rep, time: int, current: Option<Rep>)

  datatype Served = Served(target: Target, result: Result, rep: Rep, source: nat, storedAt: int, at: int)

  datatype Env = Env(current: map<Target, Rep>, versions: seq<(Target, Rep)>, log: seq<Note>, served: seq<Served>)

  datatype World = World(proxy: Proxy, env: Env)

  datatype Input =
    | Tick(d: nat)
    | Change(target: Target, rep: Rep)
    | Start(g: nat, target: Target)
    | Check(g: nat)
    | Read(key: string)
    | Answer(key: string, reply: Reply)
    | Stamp(key: string)
    | Write(key: string)
    | Finish(key: string)
    | Collect(g: nat)
    | NonGet(target: Target, rep: Rep)

  function Initial(ttl: int, now: int): World {
    World(Proxy(ttl, now, map[], map[], [], map[], map[]), Env(map[], [], [], []))
  }

  // ---------------------------------------------------------------- the small functions of the program

  function CacheKey(t: Target): string {
    t.uri + "|" + t.accept
  }

  function NextFreshUntil(ttl: int, now: int): int {
    if ttl <= 0 then 0 else now + ttl
  }

  predicate IsFresh(entry: Option<Entry>, now: int) {
    entry.Some? && entry.value.freshUntil != 0 && now < entry.value.freshUntil
  }

  function Lookup(cache: map<string, Entry>, key: string): Option<Entry> {
    if key in cache then Some(cache[key]) else None
  }

  predicate Cacheable(rep: Rep) {
    200 <= rep.status < 300 && rep.etag != ""
  }

  /** An answer of 304 counts as a revalidation only when an entry's tag had been sent. */
  predicate Revalidates(entry: Option<Entry>, reply: Reply) {
    reply.Response? && reply.rep.status == 304 && entry.Some?
  }

  // ---------------------------------------------------------------- the transitions

  function SetStage(w: World, key: string, stage: Stage): World
    requires key in w.proxy.flights
  {
    World(w.proxy.(flights := w.proxy.flights[key := w.proxy.flights[key].(stage := stage)]), w.env)
  }

  function DoCheck(w: World, g: nat): World
    requires g in w.proxy.gets && w.proxy.gets[g].Looked?
  {
    var p := w.proxy;
    var Looked(target, entry) := p.gets[g];
    if IsFresh(entry, p.now) then
      var e := entry.value;
      World(p.(gets := p.gets - {g}),
            w.env.(served := w.env.served + [Served(target, FreshHit, e.rep, e.source, e.storedAt, p.now)]))
    else
      var key := CacheKey(target);
      if key in p.flights then World(p.(gets := p.gets[g := Waiting(target, p.flights[key].no)]), w.env)
      else
        World(p.(flights := p.flights[key := Flight(|p.owners|, target, Opened)], owners := p.owners + [key],
                 gets := p.gets[g := Waiting(target, |p.owners|)]), w.env)
  }

  function Upstream(env: Env, t: Target): Option<Rep> {
    if t in env.current then Some(env.current[t]) else None
  }

  function DoAnswer(w: World, key: string, reply: Reply): World
    requires key in w.proxy.flights && w.proxy.flights[key].stage.Asked?
  {
    var f := w.proxy.flights[key];
    var entry := f.stage.entry;
    match reply
    case UpstreamError => SetStage(w, key, Written(Payload(Failure, Rep(502, "", "", "", ""), 0)))
    case Response(rep) =>
      var confirmed := if Revalidates(entry, reply) then entry.value.rep else rep;
      var w1 := SetStage(w, key, Answered(entry, reply, |w.env.log|));
      var note := Note(f.target, entry, rep, confirmed, w.proxy.now, Upstream(w.env, f.target));
      World(w1.proxy, w.env.(log := w.env.log + [note]))
  }

  /** The new entry, if any, with its freshness computed from the clock; and the response. */
  function StampOf(p: Proxy, entry: Option<Entry>, reply: Reply, source: nat): (Option<Entry>, Payload)
    requires reply.Response?
  {
    var until := NextFreshUntil(p.ttl, p.now);
    if Revalidates(entry, reply) then
      (Some(Entry(entry.value.rep, until, source, p.now)), Payload(RevalidatedHit, entry.value.rep, source))
    else
      (if Cacheable(reply.rep) then Some(Entry(reply.rep, until, source, p.now)) else None,
       Payload(Miss, reply.rep, source))
  }

  function DoStamp(w: World, key: string): World
    requires key in w.proxy.flights && w.proxy.flights[key].stage.Answered?
    requires w.proxy.flights[key].stage.reply.Response?
  {
    var Answered(entry, reply, source) := w.proxy.flights[key].stage;
    var (write, payload) := StampOf(w.proxy, entry, reply, source);
    SetStage(w, key, Stamped(entry, write, payload))
  }

  function DoWrite(w: World, key: string): World
    requires key in w.proxy.flights && w.proxy.flights[key].stage.Stamped?
  {
    var Stamped(_, write, payload) := w.proxy.flights[key].stage;
    var w1 := SetStage(w, key, Written(payload));
    if write.Some? then World(w1.proxy.(cache := w.proxy.cache[key := write.value]), w.env) else w1
  }

  function DoFinish(w: World, key: string): World
    requires key in w.proxy.flights && w.proxy.flights[key].stage.Written?
  {
    var f := w.proxy.flights[key];
    World(w.proxy.(flights := w.proxy.flights - {key}, results := w.proxy.results[f.no := f.stage.payload]), w.env)
  }

  function DoCollect(w: World, g: nat): World
    requires g in w.proxy.gets && w.proxy.gets[g].Waiting? && w.proxy.gets[g].no in w.proxy.results
  {
    var Waiting(target, no) := w.proxy.gets[g];
    var r := w.proxy.results[no];
    World(w.proxy.(gets := w.proxy.gets - {g}),
          w.env.(served := w.env.served + [Served(target, r.result, r.rep, r.source, 0, w.proxy.now)]))
  }

  predicate Enabled(w: World, i: Input) {
    var p := w.proxy;
    match i
    case Tick(_) => true
    case Change(_, _) => true
    case Start(g, _) => g !in p.gets
    case Check(g) => g in p.gets && p.gets[g].Looked?
    case Read(key) => key in p.flights && p.flights[key].stage.Opened?
    case Answer(key, _) => key in p.flights && p.flights[key].stage.Asked?
    case Stamp(key) => key in p.flights && p.flights[key].stage.Answered? && p.flights[key].stage.reply.Response?
    case Write(key) => key in p.flights && p.flights[key].stage.Stamped?
    case Finish(key) => key in p.flights && p.flights[key].stage.Written?
    case Collect(g) => g in p.gets && p.gets[g].Waiting? && p.gets[g].no in p.results
    case NonGet(_, _) => true
  }

  function Step(w: World, i: Input): World
    requires Enabled(w, i)
  {
    var p := w.proxy;
    match i
    case Tick(d) => World(p.(now := p.now + d), w.env)
    case Change(t, rep) =>
      World(p, w.env.(current := w.env.current[t := rep], versions := w.env.versions + [(t, rep)]))
    case Start(g, t) => World(p.(gets := p.gets[g := Looked(t, Lookup(p.cache, CacheKey(t)))]), w.env)
    case Check(g) => DoCheck(w, g)
    case Read(key) => SetStage(w, key, Asked(Lookup(p.cache, key)))
    case Answer(key, reply) => DoAnswer(w, key, reply)
    case Stamp(key) => DoStamp(w, key)
    case Write(key) => DoWrite(w, key)
    case Finish(key) => DoFinish(w, key)
    case Collect(g) => DoCollect(w, g)
    case NonGet(t, rep) =>
      World(p, w.env.(served := w.env.served + [Served(t, Skip, rep, 0, 0, p.now)]))
  }

  predicate Possible(w: World, inputs: seq<Input>)
    decreases |inputs|
  {
    inputs == [] || (Enabled(w, inputs[0]) && Possible(Step(w, inputs[0]), inputs[1..]))
  }

  function RunAll(w: World, inputs: seq<Input>): World
    requires Possible(w, inputs)
    decreases |inputs|
  {
    if inputs == [] then w else RunAll(Step(w, inputs[0]), inputs[1..])
  }

  // ---------------------------------------------------------------- keys

  /** A key that two targets share: the URI of the one with the longer URI contains the separator. */
  lemma {:induction false} SharedKey(a: Target, b: Target)
    requires CacheKey(a) == CacheKey(b) && |a.uri| <= |b.uri|
    ensures a == b || '|' in b.uri
  {
    var k := CacheKey(a);
    assert k[..|a.uri|] == a.uri && k[|a.uri|] == '|' && k[|a.uri| + 1..] == a.accept;
    assert k[..|b.uri|] == b.uri && k[|b.uri| + 1..] == b.accept;
    if |a.uri| < |b.uri| {
      assert b.uri[|a.uri|] == '|';
    }
  }

  lemma {:induction false} KeySeparates(a: Target, b: Target)
    requires CacheKey(a) == CacheKey(b) && '|' !in a.uri && '|' !in b.uri
    ensures a == b
  {
    if |a.uri| <= |b.uri| {
      SharedKey(a, b);
    } else {
      SharedKey(b, a);
    }
  }

  predicate Collides(a: Target, b: Target) {
    a != b && CacheKey(a) == CacheKey(b)
  }

  /** A separator in the URI can be read as the end of a shorter one. */
  lemma {:induction false} SplitUri(a: Target, k: nat)
    requires k < |a.uri| && a.uri[k] == '|'
    ensures Collides(a, Target(a.uri[..k], a.uri[k + 1..] + "|" + a.accept))
  {
    assert a.uri == a.uri[..k] + "|" + a.uri[k + 1..];
  }

  /** A separator in the Accept header can be read as the end of a longer URI. */
  lemma {:induction false} SplitAccept(a: Target, k: nat)
    requires k < |a.accept| && a.accept[k] == '|'
    ensures Collides(a, Target(a.uri + "|" + a.accept[..k], a.accept[k + 1..]))
  {
    assert a.accept == a.accept[..k] + "|" + a.accept[k + 1..];
  }

  /** What the longer URI of two with one key has beyond the shorter belongs to the other's Accept header. */
  lemma {:induction false} CollisionHasSeparator(a: Target, b: Target)
    requires Collides(a, b) && |a.uri| <= |b.uri|
    ensures '|' in a.accept && '|' in b.uri
  {
    SharedKey(a, b);
    var k := CacheKey(a);
    assert k[..|a.uri|] == a.uri && k[|a.uri| + 1..] == a.accept;
    assert k[..|b.uri|] == b.uri && k[|b.uri|] == '|' && k[|b.uri| + 1..] == b.accept;
    if |a.uri| < |b.uri| {
      assert a.accept[|b.uri| - |a.uri| - 1] == '|';
    }
  }

  /** Some other request has the key of this one exactly when its URI or its Accept header contains the separator. */
  lemma {:induction false} KeyCollidesIff(a: Target)
    ensures (exists b :: Collides(a, b)) <==> '|' in a.uri || '|' in a.accept
  {
    if '|' in a.uri {
      var k :| 0 <= k < |a.uri| && a.uri[k] == '|';
      SplitUri(a, k);
    }
    if '|' in a.accept {
      var k :| 0 <= k < |a.accept| && a.accept[k] == '|';
      SplitAccept(a, k);
    }
    if b :| Collides(a, b) {
      if |a.uri| <= |b.uri| {
        CollisionHasSeparator(a, b);
      } else {
        CollisionHasSeparator(b, a);
      }
    }
  }
}
