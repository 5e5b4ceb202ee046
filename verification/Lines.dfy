/**
 How a byte stream falls into lines.  Three components read streams line by line:
 the diagnostic writer, the usage capture and the log filter.  They share the
 definitions below: the newline-terminated lines of a stream, and what follows
 its last newline.
 */
module Lines {

  /** Index of the first newline, or the length when there is none. */
  function NewlineAt(s: string): (i: nat)
    ensures i <= |s|
    ensures '\n' !in s[..i]
    ensures i < |s| ==> s[i] == '\n'
    ensures i == |s| <==> '\n' !in s
  {
    if s == [] then 0
    else if s[0] == '\n' then 0
    else
      var j := NewlineAt(s[1..]);
      assert s[..1 + j] == [s[0]] + s[1..][..j];
      1 + j
  }

  /** The contents of the newline-terminated lines of s, in order. */
  function Terminated(s: string): seq<string>
    decreases |s|
  {
    var i := NewlineAt(s);
    if i == |s| then [] else [s[..i]] + Terminated(s[i + 1..])
  }

  /** What follows the last newline of s. */
  function Rest(s: string): string
    decreases |s|
  {
    var i := NewlineAt(s);
    if i == |s| then s else Rest(s[i + 1..])
  }

  /** Every line of s, the unterminated last one included. */
  function AllLines(s: string): seq<string> {
    if Rest(s) == "" then Terminated(s) else Terminated(s) + [Rest(s)]
  }

  /** One trailing carriage return removed. */
  function TrimCR(line: string): string {
    if |line| > 0 && line[|line| - 1] == '\r' then line[..|line| - 1] else line
  }

  /** Lines written back, each with its newline. */
  function Render(lines: seq<string>): string {
    if lines == [] then "" else lines[0] + "\n" + Render(lines[1..])
  }

  /** Cutting a stream anywhere loses nothing: the rest of the first part is completed by the second. */
  lemma {:induction false} SplitAppend(a: string, b: string)
    ensures Terminated(a + b) == Terminated(a) + Terminated(Rest(a) + b)
    ensures Rest(a + b) == Rest(Rest(a) + b)
    decreases |a|
  {
    var i := NewlineAt(a);
    if i == |a| {
      SplitNothing(a, b);
    } else {
      var tail := a[i + 1..];
      assert |tail| < |a|;
      SplitAppend(tail, b);
      SplitOneMore(a, b, tail);
    }
  }

  lemma {:induction false} SplitNothing(a: string, b: string)
    requires NewlineAt(a) == |a|
    ensures Terminated(a + b) == Terminated(a) + Terminated(Rest(a) + b) && Rest(a + b) == Rest(Rest(a) + b)
  {
    assert Terminated(a) == [] && Rest(a) == a;
    assert [] + Terminated(a + b) == Terminated(a + b);
  }

  lemma {:induction false} SplitOneMore(a: string, b: string, tail: string)
    requires NewlineAt(a) < |a| && tail == a[NewlineAt(a) + 1..]
    requires Terminated(tail + b) == Terminated(tail) + Terminated(Rest(tail) + b)
    requires Rest(tail + b) == Rest(Rest(tail) + b)
    ensures Terminated(a + b) == Terminated(a) + Terminated(Rest(a) + b) && Rest(a + b) == Rest(Rest(a) + b)
  {
    SplitStep(a, b);
    TakeLine(a);
    Glue(Terminated(a + b), Terminated(a), [a[..NewlineAt(a)]], Terminated(tail + b), Terminated(tail),
         Terminated(Rest(tail) + b));
  }

  lemma Glue<T>(whole: seq<T>, part: seq<T>, head: seq<T>, wholeTail: seq<T>, partTail: seq<T>, rest: seq<T>)
    requires whole == head + wholeTail && part == head + partTail && wholeTail == partTail + rest
    ensures whole == part + rest
  {
  }

  lemma Joins<T>(a: seq<T>, b: seq<T>, c: seq<T>)
    ensures a + (b + c) == (a + b) + c
  {
  }

  /** The first line of a stream that has a complete one. */
  lemma {:induction false} TakeLine(s: string)
    requires NewlineAt(s) < |s|
    ensures Terminated(s) == [s[..NewlineAt(s)]] + Terminated(s[NewlineAt(s) + 1..])
    ensures Rest(s) == Rest(s[NewlineAt(s) + 1..])
  {
  }

  lemma {:induction false} SplitStep(a: string, b: string)
    requires NewlineAt(a) < |a|
    ensures var i := NewlineAt(a);
      && Terminated(a + b) == [a[..i]] + Terminated(a[i + 1..] + b)
      && Rest(a + b) == Rest(a[i + 1..] + b)
  {
    var i := NewlineAt(a);
    FirstNewline(a + b, i);
    TakeLine(a + b);
    assert (a + b)[..i] == a[..i] && (a + b)[i + 1..] == a[i + 1..] + b;
  }

  lemma {:induction false} FirstNewline(s: string, i: nat)
    requires i < |s| && s[i] == '\n' && '\n' !in s[..i]
    ensures NewlineAt(s) == i
  {
    if i > 0 {
      assert s[0] == s[..i][0];
      assert s[1..][..i - 1] == s[..i][1..];
      FirstNewline(s[1..], i - 1);
    }
  }

  lemma {:induction false} RestHasNoNewline(s: string)
    ensures '\n' !in Rest(s)
    decreases |s|
  {
    var i := NewlineAt(s);
    if i < |s| {
      RestHasNoNewline(s[i + 1..]);
    }
  }

  lemma {:induction false} RenderAppend(a: seq<string>, b: seq<string>)
    ensures Render(a + b) == Render(a) + Render(b)
  {
    if a == [] {
      assert a + b == b;
    } else {
      assert (a + b)[1..] == a[1..] + b;
      RenderAppend(a[1..], b);
    }
  }

  lemma {:induction false} RenderCons(head: string, lines: seq<string>, rest: string)
    ensures Render([head] + lines) + rest == head + "\n" + (Render(lines) + rest)
  {
    assert ([head] + lines)[1..] == lines;
  }

  lemma {:induction false} CutAtNewline(s: string, i: nat)
    requires i < |s| && s[i] == '\n'
    ensures s == s[..i] + "\n" + s[i + 1..]
  {
    assert s[i..] == "\n" + s[i + 1..];
  }

  /** Splitting a stream and writing it back restores it. */
  lemma {:induction false} RenderSplit(s: string)
    ensures Render(Terminated(s)) + Rest(s) == s
    decreases |s|
  {
    var i := NewlineAt(s);
    if i < |s| {
      RenderSplit(s[i + 1..]);
      RenderCons(s[..i], Terminated(s[i + 1..]), Rest(s[i + 1..]));
      CutAtNewline(s, i);
    }
  }

  /** The stream after its first line. */
  function AfterFirst(s: string): (rest: string)
    ensures s != "" ==> |rest| < |s|
  {
    var i := NewlineAt(s);
    if i < |s| then s[i + 1..] else ""
  }

  lemma {:induction false} FirstLine(s: string)
    requires s != ""
    ensures AllLines(s) == [s[..NewlineAt(s)]] + AllLines(AfterFirst(s))
  {
    if NewlineAt(s) == |s| {
      assert s[..|s|] == s;
      assert AllLines(s) == [] + [s];
    }
  }

  lemma {:induction false} HeadLine(head: string, more: string)
    requires '\n' !in head
    ensures AllLines(head + "\n" + more) == [head] + AllLines(more)
  {
    var s := head + "\n" + more;
    assert s[..|head|] == head && s[|head| + 1..] == more;
    FirstNewline(s, |head|);
    FirstLine(s);
  }

  lemma {:induction false} RenderedHead(head: string, lines: seq<string>, tail: string)
    requires '\n' !in head
    ensures AllLines(Render([head] + lines) + tail) == [head] + AllLines(Render(lines) + tail)
  {
    RenderCons(head, lines, tail);
    HeadLine(head, Render(lines) + tail);
  }

  lemma HeadTail<T>(s: seq<T>, more: seq<T>)
    requires s != []
    ensures s == [s[0]] + s[1..] && s + more == [s[0]] + (s[1..] + more)
  {
  }

  predicate NoNewlines(lines: seq<string>) {
    lines == [] || ('\n' !in lines[0] && NoNewlines(lines[1..]))
  }

  /** Lines written in front of any stream are read back as they were written. */
  lemma {:induction false} LinesOfRendered(lines: seq<string>, tail: string)
    requires NoNewlines(lines)
    ensures AllLines(Render(lines) + tail) == lines + AllLines(tail)
  {
    if lines == [] {
      assert Render(lines) + tail == tail;
    } else {
      LinesOfRendered(lines[1..], tail);
      RenderedHead(lines[0], lines[1..], tail);
      HeadTail(lines, AllLines(tail));
    }
  }

  lemma {:induction false} RenderSnoc(done: seq<string>, line: string)
    ensures Render(done + [line]) == Render(done) + line + "\n"
  {
    RenderAppend(done, [line]);
    assert [line][1..] == [];
    RenderCons(line, [], "");
    assert Render(done) + (line + "\n") == Render(done) + line + "\n";
  }
}
