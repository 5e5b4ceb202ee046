/**
 fetchResponse, doGETUpstream and doNonGET over the proxy's own fields.  Each
 method up to `Collect` is the stretch of code between two points where another
 request may run, and does what `Step` says; `FetchResponse` is the program's
 function put together from them, and `Serve` any interleaving of them.
 */
module ProxyServer {
  import opened Wrappers
  import opened ProxyCache

  class CachingProxy {
    const ttl: int
    var now: int
    var cache: map<string, Entry>
    var flights: map<string, Flight>
    var owners: seq<string>
    var results: map<nat, Payload>
    var gets: map<nat, Get>
    var env: Env                    // the observer's notes: no decision reads them

    function State(): World
      reads this
    {
      World(Proxy(ttl, now, cache, flights, owners, results, gets), env)
    }

    constructor (cacheTTL: int, clock: int)
      ensures State() == Initial(cacheTTL, clock)
    {
      ttl, now := cacheTTL, clock;
      cache, flights, owners, results, gets := map[], map[], [], map[], map[];
      env := Env(map[], [], [], []);
    }

    // ---------------------------------------------------------------- fetchResponse, in the requesting goroutine

    method LookUp(g: nat, target: Target)
      requires Enabled(State(), Start(g, target))
      modifies this
      ensures State() == Step(old(State()), Start(g, target))
    {
      var key := CacheKey(target);
      var entry: Option<Entry> := None;
      if key in cache {
        entry := Some(cache[key]);
      }
      gets := gets[g := Looked(target, entry)];
    }

    /** A fresh entry is served at once; otherwise the request opens a flight for its key, or joins one. */
    method ServeFreshOrJoin(g: nat)
      requires Enabled(State(), Check(g))
      modifies this
      ensures State() == Step(old(State()), Check(g))
    {
      var Looked(target, entry) := gets[g];
      if entry.Some? && entry.value.freshUntil != 0 && now < entry.value.freshUntil {
        var e := entry.value;
        gets := gets - {g};
        env := env.(served := env.served + [Served(target, FreshHit, e.rep, e.source, e.storedAt, now)]);
        return;
      }
      var key := CacheKey(target);
      if key !in flights {
        flights := flights[key := Flight(|owners|, target, Opened)];
        gets := gets[g := Waiting(target, |owners|)];
        owners := owners + [key];
      } else {
        gets := gets[g := Waiting(target, flights[key].no)];
      }
    }

    method Collect(g: nat)
      requires Enabled(State(), Input.Collect(g))
      modifies this
      ensures State() == Step(old(State()), Input.Collect(g))
    {
      var Waiting(target, no) := gets[g];
      var r := results[no];
      gets := gets - {g};
      env := env.(served := env.served + [Served(target, r.result, r.rep, r.source, 0, now)]);
    }

    method DoNonGet(target: Target, rep: Rep)
      modifies this
      ensures State() == Step(old(State()), NonGet(target, rep))
    {
      env := env.(served := env.served + [Served(target, Skip, rep, 0, 0, now)]);
    }

    // ---------------------------------------------------------------- doGETUpstream, once for a flight

    method ReadEntry(key: string)
      requires Enabled(State(), Read(key))
      modifies this
      ensures State() == Step(old(State()), Read(key))
    {
      var entry: Option<Entry> := None;
      if key in cache {
        entry := Some(cache[key]);
      }
      flights := flights[key := flights[key].(stage := Asked(entry))];
    }

    method TakeAnswer(key: string, reply: Reply)
      requires Enabled(State(), Answer(key, reply))
      modifies this
      ensures State() == Step(old(State()), Answer(key, reply))
    {
      var f := flights[key];
      var entry := f.stage.entry;
      if reply.UpstreamError? {
        flights := flights[key := f.(stage := Written(Payload(Failure, Rep(502, "", "", "", ""), 0)))];
        return;
      }
      var confirmed := reply.rep;
      if reply.rep.status == 304 && entry.Some? {
        confirmed := entry.value.rep;
      }
      flights := flights[key := f.(stage := Answered(entry, reply, |env.log|))];
      env := env.(log := env.log + [Note(f.target, entry, reply.rep, confirmed, now, Upstream(env, f.target))]);
    }

    /** A 304 renews a copy of the entry whose tag was sent, a 2xx with a tag makes a new one, all else passes. */
    method StampEntry(key: string)
      requires Enabled(State(), Stamp(key))
      modifies this
      ensures State() == Step(old(State()), Stamp(key))
    {
      var f := flights[key];
      var Answered(entry, reply, source) := f.stage;
      var until := 0;
      if ttl > 0 {
        until := now + ttl;
      }
      var write: Option<Entry> := None;
      var payload := Payload(Miss, reply.rep, source);
      if reply.rep.status == 304 && entry.Some? {
        write := Some(entry.value.(freshUntil := until, source := source, storedAt := now));
        payload := Payload(RevalidatedHit, entry.value.rep, source);
      } else if 200 <= reply.rep.status < 300 {
        if reply.rep.etag != "" {
          write := Some(Entry(reply.rep, until, source, now));
        }
      }
      flights := flights[key := f.(stage := Stamped(entry, write, payload))];
    }

    method StoreEntry(key: string)
      requires Enabled(State(), Write(key))
      modifies this
      ensures State() == Step(old(State()), Write(key))
    {
      var f := flights[key];
      if f.stage.write.Some? {
        cache := cache[key := f.stage.write.value];
      }
      flights := flights[key := f.(stage := Written(f.stage.payload))];
    }

    method FinishFlight(key: string)
      requires Enabled(State(), Finish(key))
      modifies this
      ensures State() == Step(old(State()), Finish(key))
    {
      var f := flights[key];
      flights := flights - {key};
      results := results[f.no := f.stage.payload];
    }

    // ---------------------------------------------------------------- one request, and any interleaving

    method Turn(input: Input)
      requires Enabled(State(), input)
      modifies this
      ensures State() == Step(old(State()), input)
    {
      match input
      case Tick(d) => now := now + d;
      case Change(target, rep) =>
        env := env.(current := env.current[target := rep], versions := env.versions + [(target, rep)]);
      case Start(g, target) => LookUp(g, target);
      case Check(g) => ServeFreshOrJoin(g);
      case Read(key) => ReadEntry(key);
      case Answer(key, reply) => TakeAnswer(key, reply);
      case Stamp(key) => StampEntry(key);
      case Write(key) => StoreEntry(key);
      case Finish(key) => FinishFlight(key);
      case Collect(g) => Collect(g);
      case NonGet(target, rep) => DoNonGet(target, rep);
    }

    method Serve(inputs: seq<Input>)
      requires Possible(State(), inputs)
      modifies this
      ensures State() == RunAll(old(State()), inputs)
    {
      for i := 0 to |inputs|
        invariant Possible(State(), inputs[i..])
        invariant RunAll(State(), inputs[i..]) == RunAll(old(State()), inputs)
      {
        assert inputs[i..][1..] == inputs[i + 1..];
        Turn(inputs[i]);
      }
    }

    /**
     doGETUpstream from its read of the cache to its return, with no one else at work on
     the key: a 304 for a cached entry confirms and renews it, any other answer is passed
     on, and a 2xx one with a tag is stored.
     */
    method DoGetUpstream(key: string, reply: Reply, wait: nat) returns (payload: Payload)
      requires key in flights && flights[key].stage == Opened
      modifies this
      ensures now == old(now) + wait && owners == old(owners) && gets == old(gets)
      ensures flights == old(flights) - {key} && results == old(results)[old(flights)[key].no := payload]
      ensures env.current == old(env).current && env.served == old(env).served
      ensures
        var source, until := |old(env).log|, if ttl <= 0 then 0 else now + ttl;
        if reply.UpstreamError? then
          payload.result == Failure && payload.rep.status == 502 && cache == old(cache)
        else if reply.rep.status == 304 && key in old(cache) then
          var rep := old(cache)[key].rep;
          && payload == Payload(RevalidatedHit, rep, source)
          && cache == old(cache)[key := Entry(rep, until, source, now)]
        else
          && payload == Payload(Miss, reply.rep, source)
          && cache == if 200 <= reply.rep.status <= 299 && reply.rep.etag != "" then
                        old(cache)[key := Entry(reply.rep, until, source, now)]
                      else old(cache)
    {
      ghost var others := flights - {key};
      ReadEntry(key);
      assert flights - {key} == others;
      now := now + wait;
      TakeAnswer(key, reply);
      assert flights - {key} == others;
      if reply.Response? {
        StampAndStore(key);
      }
      payload := flights[key].stage.payload;
      FinishFlight(key);
    }

    method StampAndStore(key: string)
      requires key in flights && flights[key].stage.Answered? && flights[key].stage.reply.Response?
      modifies this
      ensures var w := old(State()).proxy; var f := w.flights[key];
        var (write, payload) := StampOf(w, f.stage.entry, f.stage.reply, f.stage.source);
        && Proxy(ttl, now, cache, flights, owners, results, gets) ==
             w.(flights := w.flights[key := f.(stage := Written(payload))],
                cache := if write.Some? then w.cache[key := write.value] else w.cache)
        && flights - {key} == w.flights - {key} && env == old(env)
    {
      StampEntry(key);
      StoreEntry(key);
    }

    /** A GET with no other request in progress for its key, answered `wait` after it was sent. */
    method FetchResponse(g: nat, target: Target, reply: Reply, wait: nat)
      requires g !in gets && CacheKey(target) !in flights
      modifies this
      ensures gets == old(gets) && flights == old(flights) && env.current == old(env).current
      ensures |env.served| == |old(env).served| + 1 && old(env).served <= env.served
      ensures
        var key, served := target.uri + "|" + target.accept, env.served[|old(env).served|];
        var entry := if key in old(cache) then Some(old(cache)[key]) else None;
        Outcome(old(now), |old(env).log|, entry, reply, target, served)
      ensures
        var key, until := target.uri + "|" + target.accept, if ttl <= 0 then 0 else now + ttl;
        var entry := if key in old(cache) then Some(old(cache)[key]) else None;
        cache ==
          if Fresh(entry, old(now)) || reply.UpstreamError? then old(cache)
          else if entry.Some? && reply.rep.status == 304 then
            old(cache)[key := Entry(entry.value.rep, until, |old(env).log|, now)]
          else if 200 <= reply.rep.status <= 299 && reply.rep.etag != "" then
            old(cache)[key := Entry(reply.rep, until, |old(env).log|, now)]
          else old(cache)
    {
      var key := CacheKey(target);
      LookUp(g, target);
      ServeFreshOrJoin(g);
      if g !in gets {
        return;
      }
      var payload := DoGetUpstream(key, reply, wait);
      Collect(g);
    }
  }

  /** An entry within its time to live; the zero time stands for none. */
  ghost predicate Fresh(entry: Option<Entry>, now: int) {
    entry.Some? && entry.value.freshUntil != 0 && entry.value.freshUntil > now
  }

  /** What the client of one undisturbed GET is told. */
  ghost predicate Outcome(
      start: int, source: nat, entry: Option<Entry>, reply: Reply, target: Target, s: Served)
  {
    && s.target == target
    && if Fresh(entry, start) then
         s.result == FreshHit && s.rep == entry.value.rep && s.at == start
       else if reply.UpstreamError? then
         s.result == Failure && s.rep.status == 502
       else if reply.rep.status == 304 && entry.Some? then
         s.result == RevalidatedHit && s.rep == entry.value.rep && s.source == source
       else
         s.result == Miss && s.rep == reply.rep && s.source == source
  }
}
