/**
 Exactly which bytes are read as which colours: the components, the payload of a reply, and
 where a reply is found, each in both directions.
 */
module OscMeaning {
  import opened Wrappers
  import opened OscColors
  import OscReplies
  import OscProbe

  // ---------------------------------------------------------------- components

  predicate IsHex(c: char) {
    '0' <= c <= '9' || 'a' <= c <= 'f' || 'A' <= c <= 'F'
  }

  function HexValue(c: char): int
    requires IsHex(c)
  {
    if '0' <= c <= '9' then c as int - 48 else if 'a' <= c <= 'f' then c as int - 87 else c as int - 55
  }

  predicate AllHex(s: string) {
    forall k :: 0 <= k < |s| ==> IsHex(s[k])
  }

  /** Two digits are a byte; four are scaled from 65535 to 255 and rounded down. */
  predicate Spells(s: string, v: int) {
    AllHex(s) &&
    if |s| == 2 then v == 16 * HexValue(s[0]) + HexValue(s[1])
    else if |s| == 4 then
      v == (4096 * HexValue(s[0]) + 256 * HexValue(s[1]) + 16 * HexValue(s[2]) + HexValue(s[3])) * 255 / 65535
    else false
  }

  lemma DigitIff(c: char)
    ensures HexDigit(c).Some? <==> IsHex(c)
    ensures IsHex(c) ==> HexDigit(c) == Some(HexValue(c))
  {
  }

  lemma {:induction false} TwoIff(a: char, b: char)
    ensures Hex([a, b]).Some? <==> IsHex(a) && IsHex(b)
    ensures IsHex(a) && IsHex(b) ==> Hex([a, b]) == Some(16 * HexValue(a) + HexValue(b))
  {
    DigitIff(a);
    DigitIff(b);
    HexTwo(a, b);
  }

  lemma {:induction false} FourIff(a: char, b: char, c: char, d: char)
    ensures Hex([a, b, c, d]).Some? <==> IsHex(a) && IsHex(b) && IsHex(c) && IsHex(d)
    ensures IsHex(a) && IsHex(b) && IsHex(c) && IsHex(d) ==>
      Hex([a, b, c, d]) == Some(4096 * HexValue(a) + 256 * HexValue(b) + 16 * HexValue(c) + HexValue(d))
  {
    TwoIff(a, b);
    TwoIff(c, d);
    HexFour(a, b, c, d);
  }

  lemma Scales(n: nat)
    requires n <= 65535
    ensures n / 257 == n * 255 / 65535
  {
    var q, r := n / 257, n % 257;
    assert n * 255 == 65535 * q + 255 * r;
  }

  /** A component is read exactly from two or four hexadecimal digits. */
  lemma {:induction false} ComponentIff(s: string)
    ensures Component(s).Some? <==> exists v :: Spells(s, v)
    ensures forall v :: Spells(s, v) ==> Component(s).Some? && Component(s).value as int == v
  {
    if |s| == 2 {
      assert s == [s[0], s[1]];
      TwoIff(s[0], s[1]);
      if Component(s).Some? {
        assert Spells(s, Component(s).value as int);
      }
    } else if |s| == 4 {
      assert s == [s[0], s[1], s[2], s[3]];
      FourIff(s[0], s[1], s[2], s[3]);
      if Hex(s).Some? {
        Scales(Hex(s).value);
        assert Spells(s, Component(s).value as int);
      }
    }
  }

  // ---------------------------------------------------------------- the payload

  function Slashed(parts: seq<string>): string {
    if parts == [] then "" else if |parts| == 1 then parts[0] else parts[0] + "/" + Slashed(parts[1..])
  }

  predicate NoSlash(parts: seq<string>) {
    forall k :: 0 <= k < |parts| ==> '/' !in parts[k]
  }

  lemma {:induction false} CharAtIs(s: string, c: char, i: nat)
    requires i <= |s| && c !in s[..i] && (i < |s| ==> s[i] == c)
    ensures CharAt(s, c) == i
  {
  }

  lemma {:induction false} SplitsInto(s: string)
    ensures NoSlash(SplitSlash(s)) && Slashed(SplitSlash(s)) == s
    decreases |s|
  {
    var i := CharAt(s, '/');
    if i < |s| {
      SplitsInto(s[i + 1..]);
      var later := SplitSlash(s[i + 1..]);
      assert ([s[..i]] + later)[1..] == later;
      assert s == s[..i] + "/" + s[i + 1..];
    }
  }

  lemma {:induction false} SplitHead(head: string, rest: string)
    requires '/' !in head
    ensures SplitSlash(head + ("/" + rest)) == [head] + SplitSlash(rest)
  {
    var s := head + ("/" + rest);
    assert s[..|head|] == head && s[|head|] == '/' && s[|head| + 1..] == rest;
    CharAtIs(s, '/', |head|);
  }

  lemma {:induction false} SplitLast(head: string)
    requires '/' !in head
    ensures SplitSlash(head) == [head]
  {
    assert head[..|head|] == head;
    CharAtIs(head, '/', |head|);
  }

  lemma {:induction false} SplitOf(parts: seq<string>)
    requires parts != [] && NoSlash(parts)
    ensures SplitSlash(Slashed(parts)) == parts
  {
    if |parts| == 1 {
      SplitLast(parts[0]);
    } else {
      SplitOf(parts[1..]);
      SplitHead(parts[0], Slashed(parts[1..]));
      Apart(Slashed(parts), parts[0], "/", Slashed(parts[1..]));
    }
  }

  predicate IsRgb(s: string) {
    |s| == 3 && s[0] in "rR" && s[1] in "gG" && s[2] in "bB"
  }

  predicate IsRgba(s: string) {
    |s| == 4 && s[0] in "rR" && s[1] in "gG" && s[2] in "bB" && s[3] in "aA"
  }

  lemma LowerIs(c: char, l: char)
    requires 'a' <= l <= 'z'
    ensures (if 'A' <= c <= 'Z' then (c as int + 32) as char else c) == l <==> c == l || c as int + 32 == l as int
  {
  }

  lemma {:induction false} LowerAt(s: string, k: nat, l: char)
    requires k < |s| && 'a' <= l <= 'z'
    ensures |Lower(s)| == |s| && (Lower(s)[k] == l <==> s[k] == l || s[k] as int + 32 == l as int)
  {
    LowerIs(s[k], l);
  }

  lemma {:induction false} ModelIff(s: string)
    ensures WantParts(s) == Some(3) <==> IsRgb(s)
    ensures WantParts(s) == Some(4) <==> IsRgba(s)
    ensures WantParts(s).Some? ==> IsRgb(s) || IsRgba(s)
  {
    var low := Lower(s);
    if |s| >= 3 {
      LowerAt(s, 0, 'r');
      LowerAt(s, 1, 'g');
      LowerAt(s, 2, 'b');
    }
    if |s| == 3 {
      assert low == [low[0], low[1], low[2]] && low != "rgba";
    } else if |s| == 4 {
      LowerAt(s, 3, 'a');
      assert low == [low[0], low[1], low[2], low[3]] && low != "rgb";
    } else {
      assert low != "rgb" && low != "rgba";
    }
  }

  /** What a payload must be: a model, a colon and three or four components, of which three are the colour. */
  ghost predicate Describes(text: string, model: string, parts: seq<string>, c: RGB) {
    && text == model + (":" + Slashed(parts)) && NoSlash(parts)
    && ((IsRgb(model) && |parts| == 3) || (IsRgba(model) && |parts| == 4))
    && Spells(parts[0], c.red as int) && Spells(parts[1], c.green as int) && Spells(parts[2], c.blue as int)
    && (|parts| == 4 ==> exists v :: Spells(parts[3], v))
  }

  lemma {:induction false} ComponentsAre(parts: seq<string>)
    ensures Components(parts).Some? <==> forall k :: 0 <= k < |parts| ==> Component(parts[k]).Some?
    ensures Components(parts).Some? ==>
      forall k :: 0 <= k < |parts| ==> Component(parts[k]) == Some(Components(parts).value[k])
  {
    if parts != [] {
      ComponentsAre(parts[..|parts| - 1]);
    }
  }

  lemma {:induction false} ModelCut(text: string, model: string, values: string)
    requires text == model + (":" + values) && (IsRgb(model) || IsRgba(model))
    ensures CharAt(text, ':') == |model| && text[..|model|] == model && text[|model| + 1..] == values
    ensures |model| < |text|
  {
    CharAtIs(text, ':', |model|);
  }

  lemma {:induction false} DescribedIsRead(payload: string, model: string, parts: seq<string>, c: RGB)
    requires Describes(TrimSpace(payload), model, parts, c)
    ensures ParseRGB(payload) == Some(c)
  {
    var text := TrimSpace(payload);
    ModelCut(text, model, Slashed(parts));
    ModelIff(model);
    SplitOf(parts);
    DescribedComponents(text, model, parts, c);
  }

  lemma {:induction false} DescribedComponents(text: string, model: string, parts: seq<string>, c: RGB)
    requires Describes(text, model, parts, c)
    ensures Components(parts).Some?
    ensures var v := Components(parts).value; v[0] == c.red && v[1] == c.green && v[2] == c.blue
  {
    ComponentIff(parts[0]);
    ComponentIff(parts[1]);
    ComponentIff(parts[2]);
    if |parts| == 4 {
      ComponentIff(parts[3]);
    }
    ComponentsAre(parts);
  }

  lemma {:induction false} ReadIsDescribed(payload: string, c: RGB) returns (model: string, parts: seq<string>)
    requires ParseRGB(payload) == Some(c)
    ensures Describes(TrimSpace(payload), model, parts, c)
  {
    var text := TrimSpace(payload);
    var colon := CharAt(text, ':');
    model, parts := text[..colon], SplitSlash(text[colon + 1..]);
    PartsDescribe(text, model, parts, Components(parts).value);
  }

  lemma {:induction false} PartsDescribe(text: string, model: string, parts: seq<string>, v: seq<byte>)
    requires CharAt(text, ':') == |model| < |text| && text[..|model|] == model
    requires parts == SplitSlash(text[|model| + 1..]) && WantParts(model) == Some(|parts|)
    requires Components(parts) == Some(v)
    ensures Describes(text, model, parts, RGB(v[0], v[1], v[2]))
  {
    ModelIff(model);
    SplitsInto(text[|model| + 1..]);
    assert text == model + (":" + Slashed(parts));
    ReadComponents(parts);
  }

  lemma {:induction false} ReadComponents(parts: seq<string>)
    requires Components(parts).Some?
    ensures forall k :: 0 <= k < |parts| ==> Spells(parts[k], Components(parts).value[k] as int)
  {
    ComponentsAre(parts);
    forall k | 0 <= k < |parts|
      ensures Spells(parts[k], Components(parts).value[k] as int)
    {
      ComponentIff(parts[k]);
    }
  }

  /** A payload gives a colour if and only if, white space apart, it describes that colour. */
  lemma {:induction false} PayloadIff(payload: string, c: RGB)
    ensures ParseRGB(payload) == Some(c) <==> exists model, parts :: Describes(TrimSpace(payload), model, parts, c)
  {
    if ParseRGB(payload) == Some(c) {
      var model, parts := ReadIsDescribed(payload, c);
    }
    if model, parts :| Describes(TrimSpace(payload), model, parts, c) {
      DescribedIsRead(payload, model, parts, c);
    }
  }

  // ---------------------------------------------------------------- white space

  /** White space characters, each with all its bytes. */
  predicate Spaces(chars: seq<string>) {
    forall k :: 0 <= k < |chars| ==> chars[k] != "" && SpaceLength(chars[k]) == |chars[k]|
  }

  lemma {:induction false} SpaceLengthIs(s: string)
    ensures var n := SpaceLength(s);
      if n > 0 then TrimLeft(s) == TrimLeft(s[n..]) && SpaceLength(s[..n]) == n && s == s[..n] + s[n..]
      else TrimLeft(s) == s
  {
    var n := SpaceLength(s);
    if n > 0 {
      assert s[..n][0] == s[0];
      assert n >= 2 ==> s[..n][1] == s[1];
      assert n >= 3 ==> s[..n][2] == s[2];
    }
  }

  lemma {:induction false} ConcatCons(x: string, more: seq<string>)
    ensures Concat([x] + more) == x + Concat(more)
  {
    OscProbe.ConcatAppend([x], more);
    assert [x][..0] == [] && Concat([x]) == x;
  }

  lemma {:induction false} LeftOf(s: string) returns (left: seq<string>)
    ensures s == Concat(left) + TrimLeft(s) && Spaces(left)
  {
    left := [];
    var n := SpaceLength(s);
    SpaceLengthIs(s);
    if n > 0 {
      var head := s[..n];
      var more := LeftOf(s[n..]);
      left := [head] + more;
      ConcatCons(head, more);
      Apart(s, head, Concat(more), TrimLeft(s[n..]));
    }
  }

  lemma SpaceAtEndIs(s: string)
    ensures SpaceAtEnd(s) > 0 ==>
      |s[|s| - SpaceAtEnd(s)..]| == SpaceAtEnd(s) == SpaceLength(s[|s| - SpaceAtEnd(s)..])
      && TrimRight(s) == TrimRight(s[..|s| - SpaceAtEnd(s)])
    ensures SpaceAtEnd(s) == 0 ==> TrimRight(s) == s
  {
  }

  lemma {:induction false} OneMoreBehind(s: string, t: string, front: string, chars: seq<string>, tail: string)
    requires s == front + tail && front == t + Concat(chars)
    ensures s == t + Concat(chars + [tail])
  {
    OscProbe.ConcatSnoc(chars, tail);
    Apart(s, t, Concat(chars), tail);
  }

  lemma {:induction false} RightOf(s: string) returns (right: seq<string>)
    ensures s == TrimRight(s) + Concat(right) && Spaces(right)
  {
    right := [];
    var n := SpaceAtEnd(s);
    SpaceAtEndIs(s);
    if n > 0 {
      var front := s[..|s| - n];
      var more := RightOf(front);
      right := more + [s[|s| - n..]];
      OneMoreBehind(s, TrimRight(front), front, more, s[|s| - n..]);
    }
  }

  lemma Apart(s: string, a: string, b: string, c: string)
    requires s == a + (b + c) || s == (a + b) + c
    ensures s == a + (b + c) == (a + b) + c
  {
  }

  lemma {:induction false} NoneLeft(s: string)
    ensures SpaceLength(TrimLeft(s)) == 0 && SpaceAtEnd(TrimRight(s)) == 0
  {
    if SpaceLength(s) > 0 {
      NoneLeft(s[SpaceLength(s)..]);
    }
    if SpaceAtEnd(s) > 0 {
      NoneLeft(s[..|s| - SpaceAtEnd(s)]);
    }
  }

  /** Trimming takes off white space characters and nothing else: from the left until none is left, then from the
      right. */
  lemma {:induction false} TrimmedIs(s: string) returns (left: seq<string>, right: seq<string>)
    ensures s == Concat(left) + (TrimSpace(s) + Concat(right)) && Spaces(left) && Spaces(right)
    ensures SpaceLength(TrimSpace(s) + Concat(right)) == 0 && SpaceAtEnd(TrimSpace(s)) == 0
  {
    left := LeftOf(s);
    var rest := TrimLeft(s);
    right := RightOf(rest);
    NoneLeft(s);
    NoneLeft(rest);
    assert TrimSpace(s) == TrimRight(rest);
  }

  // ---------------------------------------------------------------- where a reply is

  predicate OccursAt(s: string, p: string, i: nat) {
    i + |p| <= |s| && s[i..i + |p|] == p
  }

  lemma {:induction false} IndexIff(s: string, p: string)
    requires p != ""
    ensures Index(s, p).Some? ==> OccursAt(s, p, Index(s, p).value)
    ensures forall i: nat :: OccursAt(s, p, i) ==> Index(s, p).Some? && Index(s, p).value <= i
  {
    if !(p <= s) && s != "" {
      IndexIff(s[1..], p);
      forall i: nat | OccursAt(s, p, i)
        ensures i > 0 && OccursAt(s[1..], p, i - 1)
      {
        assert i > 0 ==> s[1..][i - 1..i - 1 + |p|] == s[i..i + |p|];
      }
      if Index(s[1..], p).Some? {
        var i := Index(s[1..], p).value;
        assert s[1..][i..i + |p|] == s[i + 1..i + 1 + |p|];
      }
    }
  }

  predicate Ends(s: string, j: nat)
    requires j < |s|
  {
    s[j] == '\U{7}' || (s[j] == '\U{1B}' && j + 1 < |s| && s[j + 1] == '\\')
  }

  /** The first reply for the slot starts at i, and its payload reaches from behind the prefix to the first end at j. */
  predicate ReplyAt(s: string, slot: string, i: int, j: int) {
    var p := "\U{1B}]" + slot + ";";
    && 0 <= i && OccursAt(s, p, i) && (forall k: nat :: k < i ==> !OccursAt(s, p, k))
    && i + |p| <= j < |s| && Ends(s, j) && forall k :: i + |p| <= k < j ==> !Ends(s, k)
  }

  lemma {:induction false} PrefixIs(slot: string)
    ensures Prefix(slot) == "\U{1B}]" + slot + ";" && |Prefix(slot)| == |slot| + 3
  {
    assert [ESC] + "]" == "\U{1B}]";
  }

  lemma {:induction false} EndFromIs(s: string, at: nat, j: nat)
    requires at <= |s|
    ensures EndFrom(s[at..], 0) == Some(j) <==>
      at + j < |s| && Ends(s, at + j) && forall k :: at <= k < at + j ==> !Ends(s, k)
  {
    var t := s[at..];
    forall k | 0 <= k < |t|
      ensures EndsAt(t, k) <==> Ends(s, at + k)
    {
    }
    if EndFrom(t, 0) == Some(j) {
      forall k | at <= k < at + j
        ensures !Ends(s, k)
      {
        assert !EndsAt(t, k - at);
      }
    } else if at + j < |s| && Ends(s, at + j) {
      assert EndsAt(t, j);
    }
  }

  lemma {:induction false} ReplyFound(s: string, slot: string, i: int, j: int)
    requires ReplyAt(s, slot, i, j)
    ensures var at := i + |slot| + 3;
      |Prefix(slot)| == |slot| + 3 && Index(s, Prefix(slot)) == Some(i) && EndFrom(s[at..], 0) == Some(j - at)
  {
    PrefixIs(slot);
    IndexIff(s, Prefix(slot));
    EndFromIs(s, i + |slot| + 3, j - i - |slot| - 3);
  }

  lemma {:induction false} ReplyIsRead(s: string, slot: string, i: int, j: int)
    requires ReplyAt(s, slot, i, j)
    ensures Color(s, slot) == ParseRGB(s[i + |slot| + 3..j])
  {
    var at := i + |slot| + 3;
    ReplyFound(s, slot, i, j);
    CutTwice(s, at, j);
    ColorIs(s, slot, i, s[at..], s[at..j]);
  }

  lemma CutTwice(s: string, i: nat, j: nat)
    requires i <= j <= |s|
    ensures s[i..][..j - i] == s[i..j] && |s[i..j]| == j - i <= |s[i..]|
  {
  }

  lemma {:induction false} ColorIs(s: string, slot: string, i: nat, rest: string, payload: string)
    requires Index(s, Prefix(slot)) == Some(i) && s[i + |Prefix(slot)|..] == rest
    requires EndFrom(rest, 0) == Some(|payload|) && rest[..|payload|] == payload
    ensures Color(s, slot) == ParseRGB(payload)
  {
    OscReplies.ColorAt(s, slot, i, rest, |payload|);
  }

  lemma {:induction false} ColorHasReply(s: string, slot: string)
    requires Color(s, slot).Some?
    ensures Index(s, Prefix(slot)).Some?
    ensures EndFrom(s[Index(s, Prefix(slot)).value + |Prefix(slot)|..], 0).Some?
  {
  }

  lemma {:induction false} ReplyIsThere(s: string, slot: string) returns (i: int, j: int)
    requires Index(s, Prefix(slot)).Some?
    requires EndFrom(s[Index(s, Prefix(slot)).value + |Prefix(slot)|..], 0).Some?
    ensures ReplyAt(s, slot, i, j)
  {
    var p := Prefix(slot);
    PrefixIs(slot);
    IndexIff(s, p);
    i := Index(s, p).value;
    var end := EndFrom(s[i + |p|..], 0).value;
    EndFromIs(s, i + |p|, end);
    j := i + |p| + end;
  }

  /** A buffer gives a colour for a slot if and only if its first reply for it is complete and gives that colour. */
  lemma {:induction false} ColorIff(s: string, slot: string, c: RGB)
    ensures Color(s, slot) == Some(c) <==>
      exists i, j :: ReplyAt(s, slot, i, j) && ParseRGB(s[i + |slot| + 3..j]) == Some(c)
  {
    if Color(s, slot) == Some(c) {
      ColorHasReply(s, slot);
      var i, j := ReplyIsThere(s, slot);
      ReplyIsRead(s, slot, i, j);
    }
    if i, j :| ReplyAt(s, slot, i, j) && ParseRGB(s[i + |slot| + 3..j]) == Some(c) {
      ReplyIsRead(s, slot, i, j);
    }
  }
}
