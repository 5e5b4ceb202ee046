/** What a merged AgentConfig holds, part by part, and where each part of it comes from. */
module AgentConfigMeaning {
  import opened Wrappers
  import opened AgentConfigMerge

  function NonEmpty(texts: seq<string>): seq<string> {
    if texts == [] then [] else (if texts[0] == "" then [] else [texts[0]]) + NonEmpty(texts[1..])
  }

  /** Texts with a blank line between each two. */
  function Paragraphs(texts: seq<string>): string {
    if texts == [] then ""
    else if |texts| == 1 then texts[0]
    else texts[0] + "\n\n" + Paragraphs(texts[1..])
  }

  lemma {:induction false} NonEmptySnoc(texts: seq<string>, t: string)
    ensures NonEmpty(texts + [t]) == NonEmpty(texts) + if t == "" then [] else [t]
    ensures forall x :: x in NonEmpty(texts) ==> x != ""
  {
    if texts == [] {
      assert [t][1..] == [] && texts + [t] == [t];
    } else {
      assert (texts + [t])[1..] == texts[1..] + [t];
      NonEmptySnoc(texts[1..], t);
    }
  }

  lemma {:induction false} ParagraphsSnoc(texts: seq<string>, t: string)
    ensures Paragraphs(texts + [t]) == if texts == [] then t else Paragraphs(texts) + "\n\n" + t
    ensures texts != [] && texts[0] != "" ==> Paragraphs(texts) != ""
  {
    if texts == [] {
      assert texts + [t] == [t];
    } else {
      assert (texts + [t])[1..] == texts[1..] + [t];
      if |texts| > 1 {
        ParagraphsSnoc(texts[1..], t);
        Regroup(texts[0], Paragraphs(texts[1..]), t);
      } else {
        assert texts[1..] + [t] == [t];
      }
    }
  }

  lemma Regroup(a: string, b: string, c: string)
    ensures a + "\n\n" + (b + "\n\n" + c) == (a + "\n\n" + b) + "\n\n" + c
  {
  }

  /** The texts of the configs that have one, with a blank line between each two. */
  lemma {:induction false} TextIsParagraphs(texts: seq<string>)
    ensures JoinNonEmpty(texts) == Paragraphs(NonEmpty(texts))
  {
    if texts != [] {
      var front, t := texts[..|texts| - 1], texts[|texts| - 1];
      assert texts == front + [t];
      TextIsParagraphs(front);
      NonEmptySnoc(front, t);
      ParagraphsSnoc(NonEmpty(front), t);
      if NonEmpty(front) == [] {
        assert NonEmpty(texts) == if t == "" then [] else [t];
      } else {
        assert NonEmpty(front)[0] in NonEmpty(front);
        assert NonEmpty(front) + [] == NonEmpty(front) && SEPARATOR == "\n\n";
      }
    }
  }

  /** Number of elements that f picks from the first n configs. */
  function CountUpTo<T>(configs: seq<Config>, f: Config -> seq<T>, n: nat): nat
    requires n <= |configs|
  {
    if n == 0 then 0 else CountUpTo(configs, f, n - 1) + |f(configs[n - 1])|
  }

  /** Element j of config i stands behind all elements of the configs before. */
  predicate StandsAt<T(==)>(configs: seq<Config>, f: Config -> seq<T>, all: seq<T>, i: nat, j: nat)
    requires i < |configs| && j < |f(configs[i])|
  {
    CountUpTo(configs, f, i) + j < |all| && all[CountUpTo(configs, f, i) + j] == f(configs[i])[j]
  }

  /** The lists one after the other. */
  predicate Lined<T(==)>(configs: seq<Config>, f: Config -> seq<T>, all: seq<T>) {
    && |all| == CountUpTo(configs, f, |configs|)
    && forall i, j :: 0 <= i < |configs| && 0 <= j < |f(configs[i])| ==> StandsAt(configs, f, all, i, j)
  }

  lemma {:induction false} CountFront<T>(configs: seq<Config>, f: Config -> seq<T>, n: nat)
    requires n < |configs|
    ensures CountUpTo(configs[..|configs| - 1], f, n) == CountUpTo(configs, f, n)
  {
    if n > 0 {
      CountFront(configs, f, n - 1);
    }
  }

  lemma {:induction false} FlatIsLined<T>(configs: seq<Config>, f: Config -> seq<T>)
    ensures Lined(configs, f, Flat(configs, f))
  {
    if configs != [] {
      FlatIsLined(configs[..|configs| - 1], f);
      LinedSnoc(configs, f, Flat(configs[..|configs| - 1], f));
    }
  }

  lemma {:induction false} LinedSnoc<T>(configs: seq<Config>, f: Config -> seq<T>, all: seq<T>)
    requires configs != [] && Lined(configs[..|configs| - 1], f, all)
    ensures Lined(configs, f, all + f(configs[|configs| - 1]))
  {
    var n := |configs| - 1;
    var front, more := configs[..n], all + f(configs[n]);
    CountsFront(configs, f);
    forall i, j | 0 <= i < |configs| && 0 <= j < |f(configs[i])|
      ensures StandsAt(configs, f, more, i, j)
    {
      if i < n {
        assert front[i] == configs[i] && StandsAt(front, f, all, i, j);
      }
    }
  }

  lemma {:induction false} CountsFront<T>(configs: seq<Config>, f: Config -> seq<T>)
    requires configs != []
    ensures forall i :: 0 <= i < |configs| ==> CountUpTo(configs[..|configs| - 1], f, i) == CountUpTo(configs, f, i)
  {
    forall i | 0 <= i < |configs|
      ensures CountUpTo(configs[..|configs| - 1], f, i) == CountUpTo(configs, f, i)
    {
      CountFront(configs, f, i);
    }
  }

  /** No server is listed twice, every one listed is the last of its name, and they stand by first occurrence. */
  predicate LastOfEach(all: seq<Server>, merged: seq<Server>) {
    && (forall i, j :: 0 <= i < j < |merged| ==> merged[i].name != merged[j].name)
    && (forall s :: s in merged ==> s in all)
    && (forall k :: 0 <= k < |all| && (forall j :: k < j < |all| ==> all[j].name != all[k].name) ==> all[k] in merged)
    && (forall i, j :: 0 <= i < j < |merged| ==>
          FirstIndex(Names(all), merged[i].name) < FirstIndex(Names(all), merged[j].name))
  }

  lemma {:induction false} ServersAreLast(all: seq<Server>)
    ensures LastOfEach(all, MergedServers(all))
  {
    var m := MergedServers(all);
    MergedServersMeaning(all);
    forall k | 0 <= k < |all| && forall j :: k < j < |all| ==> all[j].name != all[k].name
      ensures all[k] in m
    {
      assert all[k].name !in Names(all[k + 1..]);
    }
    forall s | s in m
      ensures s in all
    {
      var i :| 0 <= i < |m| && m[i] == s;
      assert s == LastNamed(all, Distinct(Names(all))[i]);
    }
  }

  /**
   Nothing merges to nothing and a single config to itself, repeated servers included.  Two
   or more give the non-empty texts with a blank line between each two, the plugins and
   the skills one list after the other, and of all servers the last of each name.
   */
  lemma {:induction false} MergedHolds(configs: seq<Config>)
    ensures Merged([]).None?
    ensures |configs| == 1 ==> Merged(configs) == Some(configs[0])
    ensures |configs| >= 2 ==>
      && Merged(configs).Some?
      && var m := Merged(configs).value;
         && m.agentsMD == Paragraphs(NonEmpty(Texts(configs)))
         && Lined(configs, (c: Config) => c.plugins, m.plugins)
         && Lined(configs, (c: Config) => c.skills, m.skills)
         && exists all :: Lined(configs, (c: Config) => c.servers, all) && LastOfEach(all, m.servers)
  {
    if |configs| >= 2 {
      TextIsParagraphs(Texts(configs));
      LinedBy(configs, PluginsOf, (c: Config) => c.plugins);
      LinedBy(configs, SkillsOf, (c: Config) => c.skills);
      LinedBy(configs, ServersOf, (c: Config) => c.servers);
      ServersAreLast(Flat(configs, ServersOf));
    }
  }

  lemma {:induction false} LinedBy<T>(configs: seq<Config>, f: Config -> seq<T>, g: Config -> seq<T>)
    requires forall c :: f(c) == g(c)
    ensures Lined(configs, g, Flat(configs, f))
  {
    FlatIsLined(configs, f);
    forall n: nat | n <= |configs|
      ensures CountUpTo(configs, g, n) == CountUpTo(configs, f, n)
    {
      SameCount(configs, f, g, n);
    }
    forall i, j | 0 <= i < |configs| && 0 <= j < |g(configs[i])|
      ensures StandsAt(configs, g, Flat(configs, f), i, j)
    {
      assert StandsAt(configs, f, Flat(configs, f), i, j);
    }
  }

  lemma {:induction false} SameCount<T>(configs: seq<Config>, f: Config -> seq<T>, g: Config -> seq<T>, n: nat)
    requires n <= |configs| && forall c :: f(c) == g(c)
    ensures CountUpTo(configs, g, n) == CountUpTo(configs, f, n)
  {
    if n > 0 {
      SameCount(configs, f, g, n - 1);
    }
  }
}
