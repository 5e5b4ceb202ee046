/**
 What a terminal answers to the colour queries, and that parsing the answer
 gives back the colours: the round trip through the whole parser.
 */
module OscReplies {
  import opened Wrappers
  import opened OscColors

  /** How a terminal spells a reply: digit case, two or four digits, with alpha or without, and the terminator. */
  datatype Style = Style(upper: bool, wide: bool, alpha: Option<byte>, bel: bool)

  function Digits(v: byte, style: Style): string {
    if style.wide then HexByte(v, style.upper) + HexByte(v, style.upper) else HexByte(v, style.upper)
  }

  function Payload(c: RGB, style: Style): string {
    var values := Digits(c.red, style) + "/" + (Digits(c.green, style) + "/" + Digits(c.blue, style));
    if style.alpha.None? then "rgb:" + values else "rgba:" + (values + "/" + Digits(style.alpha.value, style))
  }

  function Terminator(style: Style): string {
    if style.bel then [BEL] else [ESC, '\\']
  }

  function Reply(slot: string, c: RGB, style: Style): string {
    Prefix(slot) + (Payload(c, style) + Terminator(style))
  }

  // ---------------------------------------------------------------- the payload

  predicate Plain(s: string) {
    s != "" && forall k :: 0 <= k < |s| ==> HexDigit(s[k]).Some?
  }

  lemma {:induction false} DigitsParse(v: byte, style: Style)
    ensures Plain(Digits(v, style)) && Component(Digits(v, style)) == Some(v)
  {
    ComponentRoundTrip(v, style.upper);
    DigitRoundTrip(v / 16, style.upper);
    DigitRoundTrip(v % 16, style.upper);
  }

  lemma {:induction false} SplitNone(a: string)
    requires Plain(a)
    ensures SplitSlash(a) == [a]
  {
  }

  lemma {:induction false} SplitFirst(a: string, rest: string)
    requires Plain(a)
    ensures SplitSlash(a + "/" + rest) == [a] + SplitSlash(rest)
  {
    var s := a + "/" + rest;
    assert s[|a|] == '/';
    assert forall k :: 0 <= k < |a| ==> s[k] == a[k];
    assert CharAt(s, '/') == |a|;
    assert s[..|a|] == a && s[|a| + 1..] == rest;
  }

  lemma {:induction false} ComponentsOf(parts: seq<string>, values: seq<byte>)
    requires |parts| == |values| && forall k :: 0 <= k < |parts| ==> Component(parts[k]) == Some(values[k])
    ensures Components(parts) == Some(values)
  {
    if parts != [] {
      var n := |parts| - 1;
      ComponentsOf(parts[..n], values[..n]);
      assert values == values[..n] + [values[n]];
    }
  }

  lemma {:induction false} NotTrimmed(s: string)
    requires s != "" && s[0] == 'r' && HexDigit(s[|s| - 1]).Some?
    ensures TrimSpace(s) == s
  {
    assert SpaceLength(s) == 0 && TrimLeft(s) == s;
    DigitAtEnd(s);
    assert TrimRight(s) == s;
  }

  lemma DigitIsNoSpace(a: char, b: char, c: char)
    requires HexDigit(c).Some?
    ensures SpaceLength([c]) != 1 && SpaceLength([b, c]) != 2 && SpaceLength([a, b, c]) != 3
  {
  }

  lemma {:induction false} DigitAtEnd(s: string)
    requires s != "" && HexDigit(s[|s| - 1]).Some?
    ensures SpaceAtEnd(s) == 0
  {
    var n := |s|;
    var b, a := if n >= 2 then s[n - 2] else 'x', if n >= 3 then s[n - 3] else 'x';
    DigitIsNoSpace(a, b, s[n - 1]);
    assert s[n - 1..] == [s[n - 1]];
    assert n >= 2 ==> s[n - 2..] == [b, s[n - 1]];
    assert n >= 3 ==> s[n - 3..] == [a, b, s[n - 1]];
  }

  /** The colour model in front of the colon, and the values behind it. */
  lemma {:induction false} ModelAndValues(model: string, values: string)
    requires model == "rgb" || model == "rgba"
    requires values != "" && HexDigit(values[|values| - 1]).Some?
    ensures var s := model + ":" + values;
      TrimSpace(s) == s && CharAt(s, ':') == |model| && s[..|model|] == model && s[|model| + 1..] == values
  {
    var s := model + ":" + values;
    NotTrimmed(s);
    assert forall k :: 0 <= k < |model| ==> s[k] == model[k] != ':';
    assert s[|model|] == ':';
  }

  lemma {:induction false} LowerModels()
    ensures WantParts("rgb") == Some(3) && WantParts("rgba") == Some(4)
  {
    assert Lower("rgb") == "rgb" && Lower("rgba") == "rgba";
  }

  lemma {:induction false} SplitThree(a: string, b: string, c: string)
    requires Plain(a) && Plain(b) && Plain(c)
    ensures SplitSlash(a + "/" + (b + "/" + c)) == [a, b, c]
  {
    SplitFirst(a, b + "/" + c);
    SplitFirst(b, c);
    SplitNone(c);
  }

  lemma {:induction false} SplitFour(a: string, b: string, c: string, d: string)
    requires Plain(a) && Plain(b) && Plain(c) && Plain(d)
    ensures SplitSlash(a + "/" + (b + "/" + (c + "/" + d))) == [a, b, c, d]
  {
    SplitFirst(a, b + "/" + (c + "/" + d));
    SplitThree(b, c, d);
  }

  /** Values under their model parse to the first three components. */
  lemma {:induction false} ModelParses(model: string, values: string, parts: seq<string>, bytes: seq<byte>)
    requires (model == "rgb" && |parts| == 3) || (model == "rgba" && |parts| == 4)
    requires values != "" && HexDigit(values[|values| - 1]).Some? && SplitSlash(values) == parts
    requires Components(parts) == Some(bytes)
    ensures |bytes| == |parts| && ParseRGB(model + ":" + values) == Some(RGB(bytes[0], bytes[1], bytes[2]))
  {
    ModelAndValues(model, values);
    LowerModels();
  }

  lemma {:induction false} PayloadRoundTrip(c: RGB, style: Style)
    ensures ParseRGB(Payload(c, style)) == Some(c)
  {
    if style.alpha.None? {
      PayloadWithoutAlpha(c, style);
    } else {
      PayloadWithAlpha(c, style);
    }
  }

  lemma {:induction false} ThreeParse(r: string, g: string, b: string, c: RGB)
    requires Plain(r) && Plain(g) && Plain(b)
    requires Component(r) == Some(c.red) && Component(g) == Some(c.green) && Component(b) == Some(c.blue)
    ensures ParseRGB("rgb" + ":" + (r + "/" + (g + "/" + b))) == Some(c)
  {
    var values := r + "/" + (g + "/" + b);
    SplitThree(r, g, b);
    ComponentsOf([r, g, b], [c.red, c.green, c.blue]);
    assert values[|values| - 1] == b[|b| - 1];
    ModelParses("rgb", values, [r, g, b], [c.red, c.green, c.blue]);
  }

  lemma {:induction false} FourParse(r: string, g: string, b: string, a: string, c: RGB)
    requires Plain(r) && Plain(g) && Plain(b) && Plain(a) && Component(a).Some?
    requires Component(r) == Some(c.red) && Component(g) == Some(c.green) && Component(b) == Some(c.blue)
    ensures ParseRGB("rgba" + ":" + (r + "/" + (g + "/" + (b + "/" + a)))) == Some(c)
  {
    var values := r + "/" + (g + "/" + (b + "/" + a));
    SplitFour(r, g, b, a);
    ComponentsOf([r, g, b, a], [c.red, c.green, c.blue, Component(a).value]);
    assert values[|values| - 1] == a[|a| - 1];
    ModelParses("rgba", values, [r, g, b, a], [c.red, c.green, c.blue, Component(a).value]);
  }

  lemma {:induction false} PayloadWithoutAlpha(c: RGB, style: Style)
    requires style.alpha.None?
    ensures ParseRGB(Payload(c, style)) == Some(c)
  {
    DigitsParse(c.red, style);
    DigitsParse(c.green, style);
    DigitsParse(c.blue, style);
    ThreeParse(Digits(c.red, style), Digits(c.green, style), Digits(c.blue, style), c);
    ModelColon();
  }

  lemma {:induction false} PayloadWithAlpha(c: RGB, style: Style)
    requires style.alpha.Some?
    ensures ParseRGB(Payload(c, style)) == Some(c)
  {
    DigitsParse(c.red, style);
    DigitsParse(c.green, style);
    DigitsParse(c.blue, style);
    DigitsParse(style.alpha.value, style);
    FourParse(Digits(c.red, style), Digits(c.green, style), Digits(c.blue, style), Digits(style.alpha.value, style), c);
    Regroup(Digits(c.red, style), Digits(c.green, style), Digits(c.blue, style), Digits(style.alpha.value, style));
    ModelColon();
  }

  lemma ModelColon()
    ensures "rgb" + ":" == "rgb:" && "rgba" + ":" == "rgba:"
  {
  }

  lemma Regroup(r: string, g: string, b: string, a: string)
    ensures r + "/" + (g + "/" + b) + "/" + a == r + "/" + (g + "/" + (b + "/" + a))
  {
  }

  // ---------------------------------------------------------------- the frame of a reply

  lemma {:induction false} IndexAfter(before: string, s: string, p: string)
    requires p != "" && p <= s
    requires forall i :: 0 <= i < |before| ==> !(p <= (before + s)[i..])
    ensures Index(before + s, p) == Some(|before|)
  {
    if before == "" {
      assert before + s == s;
    } else {
      assert (before + s)[0..] == before + s;
      assert (before + s)[1..] == before[1..] + s;
      forall i | 0 <= i < |before[1..]|
        ensures !(p <= (before[1..] + s)[i..])
      {
        assert (before[1..] + s)[i..] == (before + s)[i + 1..];
      }
      IndexAfter(before[1..], s, p);
    }
  }

  lemma {:induction false} EndAt(s: string, from: nat, end: nat)
    requires from <= end < |s| && EndsAt(s, end) && forall k :: from <= k < end ==> s[k] != BEL && s[k] != ESC
    ensures EndFrom(s, from) == Some(end)
    decreases end - from
  {
    if from < end {
      EndAt(s, from + 1, end);
    }
  }

  predicate Quiet(s: string) {
    BEL !in s && ESC !in s
  }

  lemma {:induction false} PayloadQuiet(c: RGB, style: Style)
    ensures Quiet(Payload(c, style))
  {
    DigitsParse(c.red, style);
    DigitsParse(c.green, style);
    DigitsParse(c.blue, style);
    if style.alpha.Some? {
      DigitsParse(style.alpha.value, style);
    }
  }

  /** Behind the prefix, the payload is what stands before the terminator. */
  lemma {:induction false} PayloadCut(payload: string, style: Style, tail: string)
    requires Quiet(payload)
    ensures var rest := payload + (Terminator(style) + tail);
      EndFrom(rest, 0) == Some(|payload|) && rest[..|payload|] == payload
  {
    var end := Terminator(style);
    var rest := payload + (end + tail);
    assert forall k :: 0 <= k < |payload| ==> rest[k] == payload[k];
    assert rest[|payload|] == end[0] && (!style.bel ==> rest[|payload| + 1] == '\\');
    EndAt(rest, 0, |payload|);
  }

  lemma Behind(before: string, p: string, rest: string)
    ensures (before + (p + rest))[|before| + |p|..] == rest && p <= p + rest
  {
  }

  /** A reply whose prefix does not occur earlier is found, and parses to its colour. */
  lemma {:induction false} ReplyParses(before: string, slot: string, c: RGB, style: Style, tail: string)
    requires forall i :: 0 <= i < |before| ==> !(Prefix(slot) <= (before + (Reply(slot, c, style) + tail))[i..])
    ensures Color(before + (Reply(slot, c, style) + tail), slot) == Some(c)
  {
    var rest := Payload(c, style) + (Terminator(style) + tail);
    assert Reply(slot, c, style) + tail == Prefix(slot) + rest;
    IndexAfter(before, Prefix(slot) + rest, Prefix(slot));
    PayloadQuiet(c, style);
    PayloadCut(Payload(c, style), style, tail);
    ColorFound(before, slot, Payload(c, style), rest);
    PayloadRoundTrip(c, style);
  }

  lemma {:induction false} ColorFound(before: string, slot: string, payload: string, rest: string)
    requires Index(before + (Prefix(slot) + rest), Prefix(slot)) == Some(|before|)
    requires EndFrom(rest, 0) == Some(|payload|) && rest[..|payload|] == payload
    ensures Color(before + (Prefix(slot) + rest), slot) == ParseRGB(payload)
  {
    Behind(before, Prefix(slot), rest);
    ColorAt(before + (Prefix(slot) + rest), slot, |before|, rest, |payload|);
  }

  lemma {:induction false} ColorAt(buffer: string, slot: string, start: nat, rest: string, end: nat)
    requires Index(buffer, Prefix(slot)) == Some(start) && buffer[start + |Prefix(slot)|..] == rest
    requires EndFrom(rest, 0) == Some(end)
    ensures Color(buffer, slot) == ParseRGB(rest[..end])
  {
    assert Color(buffer, slot) == ColorIn(rest);
  }

  lemma Differs(p: string, s: string, j: nat)
    requires j < |p| && j < |s| && p[j] != s[j]
    ensures !(p <= s)
  {
  }

  /** The escapes of a reply: its first character, and the terminator when it is not a bell. */
  lemma {:induction false} EscapesIn(slot: string, c: RGB, style: Style, j: nat)
    requires |slot| == 2 && Quiet(slot) && j < |Reply(slot, c, style)| && Reply(slot, c, style)[j] == ESC
    ensures j == 0 || (j + 1 < |Reply(slot, c, style)| && Reply(slot, c, style)[j + 1] == '\\')
  {
    var p, payload, end := Prefix(slot), Payload(c, style), Terminator(style);
    PayloadQuiet(c, style);
    assert Reply(slot, c, style) == p + (payload + end);
    assert p == [ESC, ']', slot[0], slot[1], ';'];
  }

  /** Nothing in a reply for one slot, nor in text without escapes, looks like the prefix of another slot. */
  lemma {:induction false} NoPrefixInside(
      noise: string, first: string, c: RGB, style: Style, slot: string, later: string, i: nat)
    requires ESC !in noise && |first| == |slot| == 2 && first != slot && Quiet(first)
    requires i < |noise + Reply(first, c, style)|
    ensures !(Prefix(slot) <= (noise + Reply(first, c, style) + later)[i..])
  {
    var reply, p := Reply(first, c, style), Prefix(slot);
    var from := (noise + reply + later)[i..];
    assert p == [ESC, ']', slot[0], slot[1], ';'];
    if from[0] != ESC {
      Differs(p, from, 0);
    } else {
      assert i >= |noise|;
      assert forall j :: 0 <= j < |reply| - (i - |noise|) ==> from[j] == reply[i - |noise| + j];
      EscapesIn(first, c, style, i - |noise|);
      if i > |noise| {
        Differs(p, from, 1);
      } else {
        assert from[2] == reply[2] == first[0] && from[3] == reply[3] == first[1];
        assert first == [first[0], first[1]] && slot == [slot[0], slot[1]];
        Differs(p, from, if first[0] != slot[0] then 2 else 3);
      }
    }
  }

  lemma {:induction false} NoPrefixInNoise(noise: string, s: string, slot: string, i: nat)
    requires ESC !in noise && i < |noise|
    ensures !(Prefix(slot) <= (noise + s)[i..])
  {
    assert (noise + s)[i..][0] == noise[i];
    Differs(Prefix(slot), (noise + s)[i..], 0);
  }

  lemma {:induction false} FirstReplyParses(noise: string, slot: string, c: RGB, style: Style, later: string)
    requires ESC !in noise
    ensures Color(noise + (Reply(slot, c, style) + later), slot) == Some(c)
  {
    forall i | 0 <= i < |noise|
      ensures !(Prefix(slot) <= (noise + (Reply(slot, c, style) + later))[i..])
    {
      NoPrefixInNoise(noise, Reply(slot, c, style) + later, slot, i);
    }
    ReplyParses(noise, slot, c, style, later);
  }

  lemma {:induction false} SecondReplyParses(
      noise: string, first: string, other: RGB, its: Style, slot: string, c: RGB, style: Style, later: string)
    requires ESC !in noise && |first| == |slot| == 2 && first != slot && Quiet(first)
    ensures Color(noise + Reply(first, other, its) + (Reply(slot, c, style) + later), slot) == Some(c)
  {
    forall i | 0 <= i < |noise + Reply(first, other, its)|
      ensures !(Prefix(slot) <= (noise + Reply(first, other, its) + (Reply(slot, c, style) + later))[i..])
    {
      NoPrefixInside(noise, first, other, its, slot, Reply(slot, c, style) + later, i);
    }
    ReplyParses(noise + Reply(first, other, its), slot, c, style, later);
  }

  lemma Grouped(a: string, b: string, c: string, d: string)
    ensures a + b + c + d == a + (b + (c + d)) == a + b + (c + d)
  {
  }

  /**
   The round trip of the whole parser: whatever a terminal typed before without
   escapes and whatever it sends afterwards, replies for the foreground and the
   background in any spelling parse to the two colours, in their places.
   */
  lemma {:induction false} RepliesRoundTrip(noise: string, colors: Colors, fg: Style, bg: Style, tail: string)
    requires ESC !in noise
    ensures var replies := noise + Reply("10", colors.foreground, fg) + Reply("11", colors.background, bg);
      DefaultColors(replies + tail) == Some(colors)
  {
    Grouped(noise, Reply("10", colors.foreground, fg), Reply("11", colors.background, bg), tail);
    FirstReplyParses(noise, "10", colors.foreground, fg, Reply("11", colors.background, bg) + tail);
    SecondReplyParses(noise, "10", colors.foreground, fg, "11", colors.background, bg, tail);
  }

  /** Text without an escape parses to nothing. */
  lemma {:induction false} NoReplyNoColors(s: string)
    requires ESC !in s
    ensures DefaultColors(s).None?
  {
    NoIndex(s, Prefix("10"));
  }

  lemma {:induction false} NoIndex(s: string, p: string)
    requires p != "" && p[0] !in s
    ensures Index(s, p).None?
  {
    if s != "" {
      Differs(p, s, 0);
      NoIndex(s[1..], p);
    }
  }

  lemma {:induction false} ReplyLength(slot: string, c: RGB, style: Style)
    requires |slot| == 2
    ensures 0 < |Reply(slot, c, style)| <= 32
  {
    var d := if style.wide then 4 else 2;
    assert |Digits(c.red, style)| == |Digits(c.green, style)| == |Digits(c.blue, style)| == d;
    if style.alpha.Some? {
      assert |Digits(style.alpha.value, style)| == d;
    }
  }
}
