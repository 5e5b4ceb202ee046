/**
 Merging AgentConfigs: internal/controller/agentconfig_merge.go.  The program
 overwrites servers in place through an index map; the specification lists each
 server name once, where it first occurs, with the value of its last occurrence.
 */
module AgentConfigMerge {
  import opened Wrappers

  datatype Server = Server(name: string, settings: string)

  datatype Config = Config(agentsMD: string, plugins: seq<string>, skills: seq<string>, servers: seq<Server>)

  const SEPARATOR := "\n\n"

  // ---------------------------------------------------------------- servers

  function Names(servers: seq<Server>): seq<string> {
    seq(|servers|, i requires 0 <= i < |servers| => servers[i].name)
  }

  /** The distinct elements of s, in the order of their first occurrences. */
  function Distinct(s: seq<string>): (d: seq<string>)
    ensures forall x :: x in d <==> x in s
    ensures forall i, j :: 0 <= i < j < |d| ==> d[i] != d[j]
  {
    if s == [] then []
    else
      var d := Distinct(s[..|s| - 1]);
      assert s == s[..|s| - 1] + [s[|s| - 1]];
      if s[|s| - 1] in d then d else d + [s[|s| - 1]]
  }

  /** The last server of that name. */
  function LastNamed(servers: seq<Server>, name: string): (r: Server)
    requires name in Names(servers)
    ensures r in servers && r.name == name
  {
    var last := servers[|servers| - 1];
    if last.name == name then last
    else
      NamesSnoc(servers[..|servers| - 1], last);
      assert servers == servers[..|servers| - 1] + [last];
      LastNamed(servers[..|servers| - 1], name)
  }

  function MergedServers(servers: seq<Server>): (merged: seq<Server>)
    ensures Names(merged) == Distinct(Names(servers))
    ensures forall n :: n in Names(servers) ==> LastNamed(servers, n) in merged
  {
    var d := Distinct(Names(servers));
    var merged := seq(|d|, i requires 0 <= i < |d| => LastNamed(servers, d[i]));
    assert forall n :: n in Names(servers) ==> LastNamed(servers, n) in merged by {
      forall n | n in Names(servers) ensures LastNamed(servers, n) in merged {
        var i :| 0 <= i < |d| && d[i] == n;
        assert merged[i] == LastNamed(servers, n);
      }
    }
    merged
  }

  lemma NamesSnoc(servers: seq<Server>, s: Server)
    ensures Names(servers + [s]) == Names(servers) + [s.name]
  {
  }

  lemma NamesAppend(a: seq<Server>, b: seq<Server>)
    ensures Names(a + b) == Names(a) + Names(b)
  {
  }

  // ---------------------------------------------------------------- the merge

  function JoinNonEmpty(parts: seq<string>): string {
    if parts == [] then ""
    else Joined(JoinNonEmpty(parts[..|parts| - 1]), parts[|parts| - 1])
  }

  /** Two texts with the separator between them, unless one is empty. */
  function Joined(a: string, b: string): string {
    if a == "" then b else if b == "" then a else a + SEPARATOR + b
  }

  function Texts(configs: seq<Config>): seq<string> {
    seq(|configs|, i requires 0 <= i < |configs| => configs[i].agentsMD)
  }

  /** The lists that f picks from the configs, concatenated. */
  function Flat<T>(configs: seq<Config>, f: Config -> seq<T>): seq<T> {
    if configs == [] then [] else Flat(configs[..|configs| - 1], f) + f(configs[|configs| - 1])
  }

  function PluginsOf(c: Config): seq<string> { c.plugins }
  function SkillsOf(c: Config): seq<string> { c.skills }
  function ServersOf(c: Config): seq<Server> { c.servers }

  /** What merging configs gives: nothing for none, a single one untouched, otherwise the merged one. */
  function Merged(configs: seq<Config>): Option<Config> {
    if |configs| == 0 then None
    else if |configs| == 1 then Some(configs[0])
    else Some(Config(JoinNonEmpty(Texts(configs)), Flat(configs, PluginsOf), Flat(configs, SkillsOf),
                MergedServers(Flat(configs, ServersOf))))
  }

  lemma {:induction false} JoinSnoc(parts: seq<string>, part: string)
    ensures JoinNonEmpty(parts + [part]) == Joined(JoinNonEmpty(parts), part)
  {
    assert (parts + [part])[..|parts|] == parts;
  }

  /** strings.Join over the non-empty texts. */
  method JoinTexts(configs: seq<Config>) returns (text: string)
    ensures text == JoinNonEmpty(Texts(configs))
  {
    var parts: seq<string> := [];
    for i := 0 to |configs|
      invariant forall k :: 0 <= k < |parts| ==> parts[k] != ""
      invariant JoinNonEmpty(parts) == JoinNonEmpty(Texts(configs[..i]))
    {
      assert Texts(configs[..i + 1]) == Texts(configs[..i]) + [configs[i].agentsMD];
      JoinSnoc(Texts(configs[..i]), configs[i].agentsMD);
      JoinSnoc(parts, configs[i].agentsMD);
      if configs[i].agentsMD != "" {
        parts := parts + [configs[i].agentsMD];
      }
    }
    assert configs[..|configs|] == configs;
    text := "";
    for i := 0 to |parts|
      invariant text == JoinNonEmpty(parts[..i])
      invariant i > 0 ==> text != ""
    {
      assert parts[..i + 1] == parts[..i] + [parts[i]];
      JoinSnoc(parts[..i], parts[i]);
      text := if i == 0 then parts[i] else text + SEPARATOR + parts[i];
    }
    assert parts[..|parts|] == parts;
  }

  method MergeAgentConfigs(configs: seq<Config>) returns (result: Option<Config>)
    ensures result == Merged(configs)
  {
    if |configs| == 0 {
      return None;
    }
    if |configs| == 1 {
      return Some(configs[0]);
    }
    var agentsMD := JoinTexts(configs);
    var plugins, skills: seq<string> := [], [];
    for i := 0 to |configs|
      invariant plugins == Flat(configs[..i], PluginsOf)
    {
      assert configs[..i + 1][..i] == configs[..i];
      plugins := plugins + configs[i].plugins;
    }
    for i := 0 to |configs|
      invariant skills == Flat(configs[..i], SkillsOf)
    {
      assert configs[..i + 1][..i] == configs[..i];
      skills := skills + configs[i].skills;
    }
    var servers := CollectServers(configs);
    assert configs[..|configs|] == configs;
    result := Some(Config(agentsMD, plugins, skills, servers));
  }

  /** The nested loops: append a server, or overwrite the one already listed under its name. */
  method CollectServers(configs: seq<Config>) returns (servers: seq<Server>)
    ensures servers == MergedServers(Flat(configs, ServersOf))
  {
    servers := [];
    var seen: map<string, nat> := map[];
    ghost var taken: seq<Server> := [];
    for i := 0 to |configs|
      invariant taken == Flat(configs[..i], ServersOf)
      invariant servers == MergedServers(taken) && IndexOf(seen, servers)
    {
      for j := 0 to |configs[i].servers|
        invariant taken == Flat(configs[..i], ServersOf) + configs[i].servers[..j]
        invariant servers == MergedServers(taken) && IndexOf(seen, servers)
      {
        servers, seen := Put(servers, seen, configs[i].servers[j], taken);
        assert configs[i].servers[..j + 1] == configs[i].servers[..j] + [configs[i].servers[j]];
        taken := taken + [configs[i].servers[j]];
      }
      assert configs[..i + 1][..i] == configs[..i];
      assert configs[i].servers[..|configs[i].servers|] == configs[i].servers;
    }
    assert configs[..|configs|] == configs;
  }

  /** The body of the inner loop. */
  method Put(servers: seq<Server>, seen: map<string, nat>, server: Server, ghost taken: seq<Server>)
    returns (servers': seq<Server>, seen': map<string, nat>)
    requires servers == MergedServers(taken) && IndexOf(seen, servers)
    ensures servers' == MergedServers(taken + [server]) && IndexOf(seen', servers')
  {
    MergedSnoc(taken, server, seen);
    servers', seen' := servers, seen;
    if server.name in seen {
      servers' := servers[seen[server.name] := server];
    } else {
      seen' := seen[server.name := |servers|];
      servers' := servers + [server];
    }
  }

  /** The map gives the position of every listed name, and of no other. */
  ghost predicate IndexOf(seen: map<string, nat>, servers: seq<Server>) {
    && (forall n :: n in seen ==> seen[n] < |servers| && servers[seen[n]].name == n)
    && (forall i :: 0 <= i < |servers| ==> servers[i].name in seen && seen[servers[i].name] == i)
  }

  /** One more server replaces the listed one of its name, or goes to the end. */
  lemma {:induction false} MergedSnoc(taken: seq<Server>, s: Server, seen: map<string, nat>)
    requires IndexOf(seen, MergedServers(taken))
    ensures s.name in seen ==> MergedServers(taken + [s]) == MergedServers(taken)[seen[s.name] := s]
    ensures s.name !in seen ==> MergedServers(taken + [s]) == MergedServers(taken) + [s]
  {
    MergedOneMore(taken, s);
    SeenIsListed(taken, s.name, seen);
    if s.name in seen {
      ReplacedAt(taken, s, seen[s.name]);
    }
  }

  /** The map knows exactly the names listed. */
  lemma {:induction false} SeenIsListed(taken: seq<Server>, n: string, seen: map<string, nat>)
    requires IndexOf(seen, MergedServers(taken))
    ensures n in seen <==> n in Distinct(Names(taken))
    ensures n in seen ==> Distinct(Names(taken))[seen[n]] == n
  {
    var before, d := MergedServers(taken), Distinct(Names(taken));
    assert forall i :: 0 <= i < |d| ==> Names(before)[i] == before[i].name == d[i];
    if n in d {
      var i :| 0 <= i < |d| && d[i] == n;
      assert before[i].name in seen;
    }
  }

  /** What one more server does to the list, entry by entry. */
  lemma {:induction false} MergedOneMore(taken: seq<Server>, s: Server)
    ensures var before, after, d := MergedServers(taken), MergedServers(taken + [s]), Distinct(Names(taken));
      && |before| == |d|
      && (forall i :: 0 <= i < |d| ==> i < |after| && after[i] == if d[i] == s.name then s else before[i])
      && (s.name in d ==> |after| == |d|)
      && (s.name !in d ==> |after| == |d| + 1 && after[|d|] == s)
  {
    var d := Distinct(Names(taken));
    NamesSnoc(taken, s);
    DistinctSnoc(Names(taken), s.name);
    assert (taken + [s])[..|taken|] == taken;
    assert |Names(MergedServers(taken))| == |d|;
    forall i | 0 <= i < |d|
      ensures Distinct(Names(taken + [s]))[i] == d[i] && d[i] in Names(taken)
    {
      assert d[i] in d;
    }
  }

  lemma {:induction false} ReplacedAt(taken: seq<Server>, s: Server, k: nat)
    requires k < |Distinct(Names(taken))| && Distinct(Names(taken))[k] == s.name
    ensures |MergedServers(taken)| == |Distinct(Names(taken))|
    ensures MergedServers(taken + [s]) == MergedServers(taken)[k := s]
  {
    MergedOneMore(taken, s);
    var before, after, d := MergedServers(taken), MergedServers(taken + [s]), Distinct(Names(taken));
    forall i | 0 <= i < |d|
      ensures after[i] == before[k := s][i]
    {
      assert i != k ==> d[i] != d[k];
    }
  }

  // ---------------------------------------------------------------- associativity

  /** The specification in words: unique names, first-occurrence order, last-occurrence values. */
  lemma {:induction false} MergedServersMeaning(servers: seq<Server>)
    ensures var m := MergedServers(servers);
      && (forall i, j :: 0 <= i < j < |m| ==> m[i].name != m[j].name)
      && (forall i, j :: 0 <= i < j < |m| ==>
            FirstIndex(Names(servers), m[i].name) < FirstIndex(Names(servers), m[j].name))
      && (forall k :: 0 <= k < |servers| && servers[k].name !in Names(servers[k + 1..]) ==> servers[k] in m)
  {
    var m, names := MergedServers(servers), Names(servers);
    var d := Distinct(names);
    assert forall i :: 0 <= i < |m| ==> m[i].name == Names(m)[i] == d[i];
    DistinctInOrder(names);
    forall k | 0 <= k < |servers| && servers[k].name !in Names(servers[k + 1..])
      ensures servers[k] in m
    {
      assert names[k] == servers[k].name;
      LastNamedIs(servers, k);
    }
  }

  function FirstIndex(s: seq<string>, x: string): (i: nat)
    ensures i <= |s|
    ensures x in s ==> i < |s| && s[i] == x
    ensures x !in s[..i]
  {
    if s == [] then 0
    else if x in s[..|s| - 1] then
      var i := FirstIndex(s[..|s| - 1], x);
      assert s[..|s| - 1][..i] == s[..i];
      i
    else |s| - 1 + (if s[|s| - 1] == x then 0 else 1)
  }

  lemma {:induction false} DistinctInOrder(s: seq<string>)
    ensures forall i, j :: 0 <= i < j < |Distinct(s)| ==>
      FirstIndex(s, Distinct(s)[i]) < FirstIndex(s, Distinct(s)[j])
  {
    if s != [] {
      var front := s[..|s| - 1];
      DistinctInOrder(front);
      var d := Distinct(front);
      forall i, j | 0 <= i < j < |Distinct(s)|
        ensures FirstIndex(s, Distinct(s)[i]) < FirstIndex(s, Distinct(s)[j])
      {
        assert d[i] in front;
        if j < |d| {
          assert d[j] in front;
        }
      }
    }
  }

  lemma {:induction false} LastNamedIs(servers: seq<Server>, k: nat)
    requires k < |servers| && servers[k].name !in Names(servers[k + 1..])
    requires servers[k].name in Names(servers)
    ensures LastNamed(servers, servers[k].name) == servers[k]
  {
    var n := |servers| - 1;
    if k < n {
      assert Names(servers[k + 1..])[n - k - 1] == servers[n].name;
      var front := servers[..n];
      assert servers[k + 1..] == front[k + 1..] + [servers[n]];
      NamesSnoc(front[k + 1..], servers[n]);
      assert Names(front)[k] == front[k].name;
      LastNamedIs(front, k);
    }
  }

  /**
   Merging may be done in stages: replacing any block of configs by its own
   merge changes nothing, so merging an already merged prefix or suffix with
   the rest gives what merging the flat list gives.
   */
  lemma {:induction false} MergeInStages(before: seq<Config>, block: seq<Config>, after: seq<Config>)
    requires block != []
    ensures Merged(before + [Merged(block).value] + after) == Merged(before + block + after)
  {
    var m := Merged(block).value;
    if |block| == 1 {
      assert [m] == block;
    } else if before == [] && after == [] {
      assert before + [m] + after == [m] && before + block + after == block;
    } else {
      FlatInStages(before, block, after, PluginsOf);
      FlatInStages(before, block, after, SkillsOf);
      FlatInStages(before, block, after, ServersOf);
      TextsInStages(before, block, after);
      ServersInStages(Flat(before, ServersOf), Flat(block, ServersOf), Flat(after, ServersOf));
    }
  }

  lemma {:induction false} FlatInStages<T>(a: seq<Config>, b: seq<Config>, c: seq<Config>, f: Config -> seq<T>)
    requires b != []
    ensures Flat(a + b + c, f) == Flat(a, f) + Flat(b, f) + Flat(c, f)
    ensures Flat(a + [Merged(b).value] + c, f) == Flat(a, f) + f(Merged(b).value) + Flat(c, f)
  {
    var m := Merged(b).value;
    FlatAppend(a, b, f);
    FlatAppend(a + b, c, f);
    FlatAppend(a, [m], f);
    FlatAppend(a + [m], c, f);
    assert [m][..0] == [];
  }

  lemma {:induction false} FlatAppend<T>(a: seq<Config>, b: seq<Config>, f: Config -> seq<T>)
    ensures Flat(a + b, f) == Flat(a, f) + Flat(b, f)
  {
    if b == [] {
      assert a + b == a;
    } else {
      var n := |b| - 1;
      FlatAppend(a, b[..n], f);
      SnocApart(a, b);
      FlatSnoc(a + b[..n], b[n], f);
      Joins(Flat(a, f), Flat(b[..n], f), f(b[n]));
    }
  }

  lemma {:induction false} FlatSnoc<T>(a: seq<Config>, c: Config, f: Config -> seq<T>)
    ensures Flat(a + [c], f) == Flat(a, f) + f(c)
  {
    assert (a + [c])[..|a|] == a;
  }

  lemma {:induction false} TextsInStages(a: seq<Config>, b: seq<Config>, c: seq<Config>)
    requires |b| > 1
    ensures JoinNonEmpty(Texts(a + [Merged(b).value] + c)) == JoinNonEmpty(Texts(a + b + c))
  {
    var m := Merged(b).value;
    TextsAppend(a, b);
    TextsAppend(a + b, c);
    TextsAppend(a, [m]);
    TextsAppend(a + [m], c);
    assert Texts([m])[..0] == [];
  }

  lemma {:induction false} TextsAppend(a: seq<Config>, b: seq<Config>)
    ensures JoinNonEmpty(Texts(a + b)) == Joined(JoinNonEmpty(Texts(a)), JoinNonEmpty(Texts(b)))
  {
    if b == [] {
      assert a + b == a;
    } else {
      var n := |b| - 1;
      TextsAppend(a, b[..n]);
      SnocApart(a, b);
      TextsSnoc(a + b[..n], b[n]);
      TextsSnoc(b[..n], b[n]);
      assert b == b[..n] + [b[n]];
      JoinedAssociative(JoinNonEmpty(Texts(a)), JoinNonEmpty(Texts(b[..n])), b[n].agentsMD);
    }
  }

  lemma {:induction false} TextsSnoc(a: seq<Config>, c: Config)
    ensures JoinNonEmpty(Texts(a + [c])) == Joined(JoinNonEmpty(Texts(a)), c.agentsMD)
  {
    assert Texts(a + [c]) == Texts(a) + [c.agentsMD];
    JoinSnoc(Texts(a), c.agentsMD);
  }

  lemma {:induction false} JoinedAssociative(a: string, b: string, c: string)
    ensures Joined(Joined(a, b), c) == Joined(a, Joined(b, c))
  {
    assert a + SEPARATOR + (b + SEPARATOR + c) == a + SEPARATOR + b + SEPARATOR + c;
  }

  /** Merging a block of servers first changes neither the order nor the last values of the whole. */
  lemma {:induction false} ServersInStages(a: seq<Server>, b: seq<Server>, c: seq<Server>)
    ensures MergedServers(a + MergedServers(b) + c) == MergedServers(a + b + c)
  {
    var staged, flat := a + MergedServers(b) + c, a + b + c;
    NamesAppend(a, b);
    NamesAppend(a + b, c);
    NamesAppend(a, MergedServers(b));
    NamesAppend(a + MergedServers(b), c);
    DistinctBlock(Names(a), Names(b));
    DistinctPrefix(Names(a) + Distinct(Names(b)), Names(a) + Names(b), Names(c));
    forall n | n in Names(flat)
      ensures n in Names(staged) && LastNamed(staged, n) == LastNamed(flat, n)
    {
      LastNamedAppend(a + b, c, n);
      LastNamedAppend(a + MergedServers(b), c, n);
      if n !in Names(c) {
        LastNamedAppend(a, b, n);
        LastNamedAppend(a, MergedServers(b), n);
        if n in Names(b) {
          LastOfMerged(b, n);
        }
      }
    }
    assert Distinct(Names(staged)) == Distinct(Names(flat));
    forall i | 0 <= i < |MergedServers(flat)|
      ensures MergedServers(staged)[i] == MergedServers(flat)[i]
    {
      assert Distinct(Names(flat))[i] in Names(flat);
    }
  }

  lemma {:induction false} DistinctBlock(a: seq<string>, b: seq<string>)
    ensures Distinct(a + Distinct(b)) == Distinct(a + b)
  {
    if b == [] {
      assert a + Distinct(b) == a == a + b;
    } else {
      var n := |b| - 1;
      DistinctBlock(a, b[..n]);
      DistinctBlockSnoc(a, b[..n], b[n]);
      assert b == b[..n] + [b[n]];
    }
  }

  lemma {:induction false} DistinctBlockSnoc(a: seq<string>, front: seq<string>, x: string)
    requires Distinct(a + Distinct(front)) == Distinct(a + front)
    ensures Distinct(a + Distinct(front + [x])) == Distinct(a + (front + [x]))
  {
    DistinctSnoc(front, x);
    DistinctSnoc(a + front, x);
    Joins(a, front, [x]);
    if x in Distinct(front) {
      assert x in a + front;
    } else {
      DistinctSnoc(a + Distinct(front), x);
      Joins(a, Distinct(front), [x]);
    }
  }

  lemma Joins<T>(a: seq<T>, b: seq<T>, c: seq<T>)
    ensures a + (b + c) == (a + b) + c
  {
  }

  lemma SnocApart<T>(a: seq<T>, b: seq<T>)
    requires b != []
    ensures a + b == (a + b[..|b| - 1]) + [b[|b| - 1]]
  {
  }

  lemma {:induction false} DistinctSnoc(s: seq<string>, x: string)
    ensures Distinct(s + [x]) == if x in Distinct(s) then Distinct(s) else Distinct(s) + [x]
  {
    assert (s + [x])[..|s|] == s;
  }

  lemma {:induction false} DistinctPrefix(a: seq<string>, b: seq<string>, c: seq<string>)
    requires Distinct(a) == Distinct(b)
    ensures Distinct(a + c) == Distinct(b + c)
  {
    if c == [] {
      assert a + c == a && b + c == b;
    } else {
      var n := |c| - 1;
      DistinctPrefix(a, b, c[..n]);
      DistinctSnoc(a + c[..n], c[n]);
      DistinctSnoc(b + c[..n], c[n]);
      SnocApart(a, c);
      SnocApart(b, c);
    }
  }

  lemma {:induction false} LastNamedAppend(a: seq<Server>, b: seq<Server>, n: string)
    ensures n in Names(a + b) <==> n in Names(a) || n in Names(b)
    ensures n in Names(b) ==> LastNamed(a + b, n) == LastNamed(b, n)
    ensures n in Names(a) && n !in Names(b) ==> LastNamed(a + b, n) == LastNamed(a, n)
  {
    NamesAppend(a, b);
    if b == [] {
      assert a + b == a;
    } else {
      var k := |b| - 1;
      LastNamedAppend(a, b[..k], n);
      assert (a + b)[..|a| + k] == a + b[..k];
      assert b == b[..k] + [b[k]];
      NamesSnoc(b[..k], b[k]);
      NamesSnoc(a + b[..k], b[k]);
      assert a + b == (a + b[..k]) + [b[k]];
    }
  }

  lemma {:induction false} LastOfMerged(servers: seq<Server>, n: string)
    requires n in Names(servers)
    ensures n in Names(MergedServers(servers))
    ensures LastNamed(MergedServers(servers), n) == LastNamed(servers, n)
  {
    var m := MergedServers(servers);
    var i :| 0 <= i < |m| && m[i] == LastNamed(servers, n);
    assert Names(m)[i] == n;
    assert forall j :: 0 <= j < |m| && j != i ==> Names(m)[j] != n;
    assert n !in Names(m[i + 1..]) by {
      assert Names(m[i + 1..]) == Names(m)[i + 1..];
    }
    LastNamedIs(m, i);
  }
}
