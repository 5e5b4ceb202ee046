/**
 Reading a terminal's default colours from its replies to OSC 10 and OSC 11:
 internal/cli/session_terminal_background.go, and the read loop of
 internal/cli/session_terminal_background_unix.go that calls the parser again
 after every chunk.
 */
module OscColors {
  import opened Wrappers

  const ESC := '\U{1B}'
  const BEL := '\U{7}'
  const PROBE_MAX_BYTES := 4096

  type byte = n: int | 0 <= n < 256

  datatype RGB = RGB(red: byte, green: byte, blue: byte)
  datatype Colors = Colors(foreground: RGB, background: RGB)

  // ---------------------------------------------------------------- scanning

  /** Position of the first occurrence of p. */
  function Index(s: string, p: string): (r: Option<nat>)
    requires p != ""
    ensures r.Some? ==> r.value + |p| <= |s|
  {
    if p <= s then Some(0)
    else if s == "" then None
    else
      match Index(s[1..], p)
      case Some(i) => Some(i + 1)
      case None => None
  }

  /** A reply ends at BEL or at ESC backslash; an ESC at the very end of the buffer ends nothing yet. */
  predicate EndsAt(payload: string, i: nat)
    requires i < |payload|
  {
    payload[i] == BEL || (payload[i] == ESC && i + 1 < |payload| && payload[i + 1] == '\\')
  }

  function EndFrom(payload: string, i: nat): (r: Option<nat>)
    requires i <= |payload|
    ensures r.Some? ==> i <= r.value < |payload| && EndsAt(payload, r.value)
    ensures r.Some? ==> forall j :: i <= j < r.value ==> !EndsAt(payload, j)
    ensures r.None? ==> forall j :: i <= j < |payload| ==> !EndsAt(payload, j)
    decreases |payload| - i
  {
    if i == |payload| then None
    else if EndsAt(payload, i) then Some(i)
    else EndFrom(payload, i + 1)
  }

  function Prefix(slot: string): string {
    [ESC] + "]" + slot + ";"
  }

  function Color(buffer: string, slot: string): Option<RGB> {
    match Index(buffer, Prefix(slot))
    case None => None
    case Some(start) => ColorIn(buffer[start + |Prefix(slot)|..])
  }

  /** The colour of a reply, from behind its prefix. */
  function ColorIn(payload: string): Option<RGB> {
    match EndFrom(payload, 0)
    case None => None
    case Some(end) => ParseRGB(payload[..end])
  }

  function DefaultColors(buffer: string): Option<Colors> {
    match Color(buffer, "10")
    case None => None
    case Some(foreground) =>
      match Color(buffer, "11")
      case None => None
      case Some(background) => Some(Colors(foreground, background))
  }

  // ---------------------------------------------------------------- white space, in bytes

  predicate IsAsciiSpace(c: char) {
    '\t' <= c <= '\r' || c == ' '
  }

  /** Length of the white space character a byte string starts with, as UTF-8 encodes it, or 0. */
  function SpaceLength(s: string): (n: nat)
    ensures n <= |s|
  {
    if s == "" then 0
    else if IsAsciiSpace(s[0]) then 1
    else if |s| >= 2 && s[0] == '\U{C2}' && (s[1] == '\U{85}' || s[1] == '\U{A0}') then 2
    else if |s| >= 3 && IsWideSpace(s[0], s[1], s[2]) then 3
    else 0
  }

  /** The white space characters of three bytes: U+1680, U+2000-200A, U+2028, U+2029, U+202F, U+205F, U+3000. */
  predicate IsWideSpace(a: char, b: char, c: char) {
    || (a == '\U{E1}' && b == '\U{9A}' && c == '\U{80}')
    || (a == '\U{E2}' && b == '\U{80}' && ('\U{80}' <= c <= '\U{8A}' || c in {'\U{A8}', '\U{A9}', '\U{AF}'}))
    || (a == '\U{E2}' && b == '\U{81}' && c == '\U{9F}')
    || (a == '\U{E3}' && b == '\U{80}' && c == '\U{80}')
  }

  /** Length of the white space character a byte string ends in, or 0. */
  function SpaceAtEnd(s: string): (n: nat)
    ensures n <= |s|
  {
    if |s| >= 1 && SpaceLength(s[|s| - 1..]) == 1 then 1
    else if |s| >= 2 && SpaceLength(s[|s| - 2..]) == 2 then 2
    else if |s| >= 3 && SpaceLength(s[|s| - 3..]) == 3 then 3
    else 0
  }

  function TrimLeft(s: string): string {
    if SpaceLength(s) > 0 then TrimLeft(s[SpaceLength(s)..]) else s
  }

  function TrimRight(s: string): string {
    if SpaceAtEnd(s) > 0 then TrimRight(s[..|s| - SpaceAtEnd(s)]) else s
  }

  /** White space removed at both ends; a byte that is no part of a character is none. */
  function TrimSpace(s: string): string {
    TrimRight(TrimLeft(s))
  }

  lemma {:induction false} LoneByteIsKept(c: char)
    requires c == '\U{85}' || c == '\U{A0}'
    ensures TrimSpace([c]) == [c] && TrimSpace(['\U{C2}', c]) == ""
  {
    var s := ['\U{C2}', c];
    assert SpaceLength(s) == 2 && s[2..] == "";
    assert TrimLeft(s) == TrimLeft("") == "";
  }

  // ---------------------------------------------------------------- the payload

  function CharAt(s: string, c: char): (i: nat)
    ensures i <= |s| && c !in s[..i]
    ensures i < |s| ==> s[i] == c
  {
    if s == "" || s[0] == c then 0
    else
      var i := CharAt(s[1..], c);
      assert s[..1 + i] == [s[0]] + s[1..][..i];
      1 + i
  }

  function SplitSlash(s: string): (parts: seq<string>)
    ensures |parts| > 0
    decreases |s|
  {
    var i := CharAt(s, '/');
    if i == |s| then [s] else [s[..i]] + SplitSlash(s[i + 1..])
  }

  function Lower(s: string): string {
    seq(|s|, i requires 0 <= i < |s| => if 'A' <= s[i] <= 'Z' then (s[i] as int + 32) as char else s[i])
  }

  function HexDigit(c: char): (v: Option<nat>)
    ensures v.Some? ==> v.value < 16
  {
    if '0' <= c <= '9' then Some(c as int - '0' as int)
    else if 'a' <= c <= 'f' then Some(c as int - 'a' as int + 10)
    else if 'A' <= c <= 'F' then Some(c as int - 'A' as int + 10)
    else None
  }

  function Pow16(n: nat): nat {
    if n == 0 then 1 else 16 * Pow16(n - 1)
  }

  /** The value of a non-empty string of hexadecimal digits. */
  function Hex(s: string): (v: Option<nat>)
    ensures v.Some? ==> v.value < Pow16(|s|)
  {
    if |s| == 0 then None
    else if |s| == 1 then HexDigit(s[0])
    else
      var front, last := Hex(s[..|s| - 1]), HexDigit(s[|s| - 1]);
      if front.Some? && last.Some? then Some(front.value * 16 + last.value) else None
  }

  /** Two digits are the byte itself; four digits are scaled down to one. */
  function Component(s: string): Option<byte> {
    if |s| == 2 then
      match Hex(s)
      case Some(v) => assert v < 16 * 16 * Pow16(0); Some(v)
      case None => None
    else if |s| == 4 then
      match Hex(s)
      case Some(v) => assert v < 16 * 16 * Pow16(2) && Pow16(2) == 16 * Pow16(1); Some(v / 257)
      case None => None
    else None
  }

  function Components(parts: seq<string>): (r: Option<seq<byte>>)
    ensures r.Some? ==> |r.value| == |parts|
  {
    if parts == [] then Some([])
    else
      match Components(parts[..|parts| - 1])
      case None => None
      case Some(front) =>
        match Component(parts[|parts| - 1])
        case None => None
        case Some(v) => Some(front + [v])
  }

  /** The number of components a colour model has: rgb three, rgba four. */
  function WantParts(model: string): Option<nat> {
    if Lower(model) == "rgb" then Some(3) else if Lower(model) == "rgba" then Some(4) else None
  }

  function ParseRGB(payload: string): Option<RGB> {
    var text := TrimSpace(payload);
    var colon := CharAt(text, ':');
    if colon == |text| || WantParts(text[..colon]) == None then None
    else
      var parts := SplitSlash(text[colon + 1..]);
      if Some(|parts|) != WantParts(text[..colon]) then None
      else
        match Components(parts)
        case None => None
        case Some(c) => Some(RGB(c[0], c[1], c[2]))
  }

  // ---------------------------------------------------------------- the program

  method ParseOSCColor(buffer: string, slot: string) returns (color: Option<RGB>)
    ensures color == Color(buffer, slot)
  {
    var start := Index(buffer, Prefix(slot));
    if start.None? {
      return None;
    }
    var payload := buffer[start.value + |Prefix(slot)|..];
    var end := FindEnd(payload);
    if end < 0 {
      return None;
    }
    color := ParseOSCRGB(payload[..end]);
  }

  /** The scan for the terminator; negative when there is none yet. */
  method FindEnd(payload: string) returns (end: int)
    ensures if end < 0 then EndFrom(payload, 0).None? else EndFrom(payload, 0) == Some(end)
  {
    end := -1;
    for index := 0 to |payload|
      invariant end == -1
      invariant EndFrom(payload, 0) == EndFrom(payload, index)
    {
      if payload[index] == BEL || (payload[index] == ESC && index + 1 < |payload| && payload[index + 1] == '\\') {
        end := index;
        break;
      }
    }
  }

  method ParseOSCRGB(payload: string) returns (color: Option<RGB>)
    ensures color == ParseRGB(payload)
  {
    var text := TrimSpace(payload);
    var colon := CharAt(text, ':');
    if colon == |text| || (Lower(text[..colon]) != "rgb" && Lower(text[..colon]) != "rgba") {
      return None;
    }
    var parts := SplitSlash(text[colon + 1..]);
    var wantParts := 3;
    if Lower(text[..colon]) == "rgba" {
      wantParts := 4;
    }
    if |parts| != wantParts {
      return None;
    }
    var components := ParseComponents(parts);
    if components.None? {
      return None;
    }
    color := Some(RGB(components.value[0], components.value[1], components.value[2]));
  }

  method ParseComponents(parts: seq<string>) returns (r: Option<seq<byte>>)
    ensures r == Components(parts)
  {
    var components: seq<byte> := [];
    for i := 0 to |parts|
      invariant Components(parts[..i]) == Some(components)
    {
      assert parts[..i + 1][..i] == parts[..i];
      var component := Component(parts[i]);
      if component.None? {
        BadPart(parts, i);
        return None;
      }
      components := components + [component.value];
    }
    assert parts[..|parts|] == parts;
    r := Some(components);
  }

  lemma {:induction false} BadPart(parts: seq<string>, i: nat)
    requires i < |parts| && Component(parts[i]) == None
    ensures Components(parts) == None
  {
    if i < |parts| - 1 {
      BadPart(parts[..|parts| - 1], i);
    }
  }

  method ParseDefaultColors(buffer: string) returns (colors: Option<Colors>)
    ensures colors == DefaultColors(buffer)
  {
    var foreground := ParseOSCColor(buffer, "10");
    if foreground.None? {
      return None;
    }
    var background := ParseOSCColor(buffer, "11");
    if background.None? {
      return None;
    }
    colors := Some(Colors(foreground.value, background.value));
  }

  function Concat(chunks: seq<string>): string {
    if chunks == [] then "" else Concat(chunks[..|chunks| - 1]) + chunks[|chunks| - 1]
  }

  /** The read loop answers after this many chunks. */
  ghost predicate AnswersAt(chunks: seq<string>, k: nat) {
    k <= |chunks| && |Concat(chunks[..k])| <= PROBE_MAX_BYTES && DefaultColors(Concat(chunks[..k])).Some?
  }

  /**
   The read loop.  `chunks` are the non-empty reads before the timeout.  It
   answers exactly when some prefix of the reads parses within the size limit,
   and its answer is always what the whole stream parses to.
   */
  method QueryDefaultColors(chunks: seq<string>) returns (colors: Option<Colors>)
    ensures colors.Some? <==> exists k: nat :: 0 < k && AnswersAt(chunks, k)
    ensures colors.Some? ==> colors == DefaultColors(Concat(chunks))
  {
    var buffer := "";
    for i := 0 to |chunks|
      invariant buffer == Concat(chunks[..i])
      invariant NoneUpTo(chunks, i)
    {
      ConcatNext(chunks, i);
      buffer := buffer + chunks[i];
      if |buffer| > PROBE_MAX_BYTES {
        NoneBeyond(chunks, i);
        return None;
      }
      colors := ParseDefaultColors(buffer);
      if colors.Some? {
        ghost var k: nat := i + 1;
        assert AnswersAt(chunks, k);
        AnswerIsFinal(chunks, k);
        return;
      }
    }
    colors := None;
  }

  ghost predicate NoneUpTo(chunks: seq<string>, n: nat) {
    forall k :: 0 < k <= n ==> !AnswersAt(chunks, k)
  }

  lemma {:induction false} NoneBeyond(chunks: seq<string>, i: nat)
    requires i < |chunks| && NoneUpTo(chunks, i) && |Concat(chunks[..i + 1])| > PROBE_MAX_BYTES
    ensures forall k: nat :: 0 < k ==> !AnswersAt(chunks, k)
  {
    ConcatGrows(chunks, i + 1);
  }

  lemma ConcatNext(chunks: seq<string>, i: nat)
    requires i < |chunks|
    ensures Concat(chunks[..i + 1]) == Concat(chunks[..i]) + chunks[i]
  {
    assert chunks[..i + 1][..i] == chunks[..i];
  }

  lemma {:induction false} ConcatGrows(chunks: seq<string>, i: nat)
    requires i <= |chunks|
    ensures Concat(chunks[..i]) <= Concat(chunks)
    ensures forall k :: i <= k <= |chunks| ==> |Concat(chunks[..i])| <= |Concat(chunks[..k])|
  {
    if i == |chunks| {
      assert chunks[..i] == chunks;
    } else {
      var front := chunks[..|chunks| - 1];
      ConcatGrows(front, i);
      assert front[..i] == chunks[..i];
      assert forall k :: i <= k <= |front| ==> front[..k] == chunks[..k];
      assert chunks[..|chunks|] == chunks;
    }
  }

  // ---------------------------------------------------------------- stability

  lemma {:induction false} IndexIsStable(s: string, more: string, p: string)
    requires p != "" && Index(s, p).Some?
    ensures Index(s + more, p) == Index(s, p)
  {
    if p <= s {
      assert p <= s + more;
    } else {
      assert |p| <= |s|;
      assert (s + more)[..|p|] == s[..|p|];
      assert (s + more)[1..] == s[1..] + more;
      IndexIsStable(s[1..], more, p);
    }
  }

  lemma {:induction false} EndIsStable(s: string, more: string, i: nat)
    requires i <= |s| && EndFrom(s, i).Some?
    ensures EndFrom(s + more, i) == EndFrom(s, i)
    decreases |s| - i
  {
    if !EndsAt(s, i) {
      assert EndFrom(s, i).value > i;
      assert (s + more)[i] == s[i] && (s + more)[i + 1] == s[i + 1];
      EndIsStable(s, more, i + 1);
    }
  }

  lemma {:induction false} ColorIsStable(s: string, more: string, slot: string)
    requires Color(s, slot).Some?
    ensures Color(s + more, slot) == Color(s, slot)
  {
    IndexIsStable(s, more, Prefix(slot));
    var from := Index(s, Prefix(slot)).value + |Prefix(slot)|;
    assert (s + more)[from..] == s[from..] + more;
    ColorInIsStable(s[from..], more);
  }

  lemma {:induction false} ColorInIsStable(s: string, more: string)
    requires ColorIn(s).Some?
    ensures ColorIn(s + more) == ColorIn(s)
  {
    EndIsStable(s, more, 0);
    var end := EndFrom(s, 0).value;
    assert (s + more)[..end] == s[..end];
  }

  /** Once a buffer parses to colours, no later byte changes them. */
  lemma {:induction false} ParseIsStable(s: string, more: string)
    requires DefaultColors(s).Some?
    ensures DefaultColors(s + more) == DefaultColors(s)
  {
    ColorIsStable(s, more, "10");
    ColorIsStable(s, more, "11");
  }

  lemma {:induction false} AnswerIsFinal(chunks: seq<string>, k: nat)
    requires AnswersAt(chunks, k)
    ensures DefaultColors(Concat(chunks)) == DefaultColors(Concat(chunks[..k]))
  {
    ConcatGrows(chunks, k);
    var s, all := Concat(chunks[..k]), Concat(chunks);
    assert all == s + all[|s|..];
    ParseIsStable(s, all[|s|..]);
  }

  /** How the stream is cut into reads decides only whether there is an answer, never which one. */
  lemma {:induction false} ChunkingCannotChangeTheAnswer(a: seq<string>, b: seq<string>, j: nat, k: nat)
    requires Concat(a) == Concat(b) && AnswersAt(a, j) && AnswersAt(b, k)
    ensures DefaultColors(Concat(a[..j])) == DefaultColors(Concat(b[..k]))
  {
    AnswerIsFinal(a, j);
    AnswerIsFinal(b, k);
  }

  /** Within the size limit even the existence of an answer depends on the stream alone. */
  lemma {:induction false} WithinLimitAlwaysAnswered(chunks: seq<string>)
    requires |Concat(chunks)| <= PROBE_MAX_BYTES
    ensures (exists k :: AnswersAt(chunks, k)) <==> DefaultColors(Concat(chunks)).Some?
  {
    assert chunks[..|chunks|] == chunks;
    if DefaultColors(Concat(chunks)).Some? {
      assert AnswersAt(chunks, |chunks|);
    }
    if k :| AnswersAt(chunks, k) {
      AnswerIsFinal(chunks, k);
    }
  }

  // ---------------------------------------------------------------- components

  function Digit(v: nat, upper: bool): char
    requires v < 16
  {
    if v < 10 then ('0' as int + v) as char else ((if upper then 'A' as int else 'a' as int) + v - 10) as char
  }

  lemma DigitRoundTrip(v: nat, upper: bool)
    requires v < 16
    ensures HexDigit(Digit(v, upper)) == Some(v)
  {
  }

  function HexByte(v: byte, upper: bool): string {
    [Digit(v / 16, upper), Digit(v % 16, upper)]
  }

  lemma {:induction false} HexTwo(a: char, b: char)
    ensures Hex([a, b]) == if HexDigit(a).Some? && HexDigit(b).Some?
                           then Some(16 * HexDigit(a).value + HexDigit(b).value) else None
  {
    assert [a, b][..1] == [a];
  }

  lemma {:induction false} HexFour(a: char, b: char, c: char, d: char)
    ensures Hex([a, b, c, d]) == if Hex([a, b]).Some? && Hex([c, d]).Some?
                                 then Some(256 * Hex([a, b]).value + Hex([c, d]).value) else None
  {
    HexTwo(a, b);
    HexTwo(c, d);
    assert [a, b, c, d][..3] == [a, b, c];
    assert [a, b, c][..2] == [a, b];
  }

  /**
   The two-digit form of a byte and the same digits doubled both parse back to
   the byte, in either case; and a four-digit component is the scaled value
   rounded down.
   */
  lemma {:induction false} ComponentRoundTrip(v: byte, upper: bool)
    ensures Component(HexByte(v, upper)) == Some(v)
    ensures Component(HexByte(v, upper) + HexByte(v, upper)) == Some(v)
  {
    var h := HexByte(v, upper);
    DigitRoundTrip(v / 16, upper);
    DigitRoundTrip(v % 16, upper);
    HexTwo(h[0], h[1]);
    HexFour(h[0], h[1], h[0], h[1]);
    assert h + h == [h[0], h[1], h[0], h[1]];
    assert h == [h[0], h[1]];
  }

  lemma {:induction false} FourDigitsScale(a: char, b: char, c: char, d: char)
    requires Component([a, b, c, d]).Some?
    ensures Hex([a, b]).Some? && Hex([c, d]).Some?
    ensures var hi, lo, v := Hex([a, b]).value, Hex([c, d]).value, Component([a, b, c, d]).value;
      v == if lo >= hi then hi else hi - 1
  {
    HexFour(a, b, c, d);
    HexTwo(a, b);
    HexTwo(c, d);
  }
}
