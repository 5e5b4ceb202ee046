/** White space at the ends of a text, as the program's standard library defines it on characters. */
module Text {
  predicate IsSpace(c: char) {
    || '\t' <= c <= '\r' || c == ' ' || c == '\U{85}' || c == '\U{A0}' || c == '\U{1680}'
    || '\U{2000}' <= c <= '\U{200A}' || c == '\U{2028}' || c == '\U{2029}' || c == '\U{202F}'
    || c == '\U{205F}' || c == '\U{3000}'
  }

  function TrimLeft(s: string): string {
    if s != "" && IsSpace(s[0]) then TrimLeft(s[1..]) else s
  }

  function TrimRight(s: string): string {
    if s != "" && IsSpace(s[|s| - 1]) then TrimRight(s[..|s| - 1]) else s
  }

  function TrimSpace(s: string): string {
    TrimRight(TrimLeft(s))
  }

  /** Trimming takes off nothing but white space, and all of it at both ends. */
  lemma {:induction false} TrimmedIs(s: string) returns (left: string, right: string)
    ensures s == left + TrimSpace(s) + right && forall c :: c in left + right ==> IsSpace(c)
    ensures TrimSpace(s) != "" ==> !IsSpace(TrimSpace(s)[0]) && !IsSpace(TrimSpace(s)[|TrimSpace(s)| - 1])
  {
    left := LeftOf(s);
    right := RightOf(TrimLeft(s));
  }

  lemma {:induction false} LeftOf(s: string) returns (left: string)
    ensures s == left + TrimLeft(s) && forall c :: c in left ==> IsSpace(c)
    ensures TrimLeft(s) != "" ==> !IsSpace(TrimLeft(s)[0])
  {
    left := "";
    if s != "" && IsSpace(s[0]) {
      var more := LeftOf(s[1..]);
      left := [s[0]] + more;
    }
  }

  lemma {:induction false} RightOf(s: string) returns (right: string)
    ensures s == TrimRight(s) + right && forall c :: c in right ==> IsSpace(c)
    ensures TrimRight(s) != "" ==> TrimRight(s)[0] == s[0] && !IsSpace(TrimRight(s)[|TrimRight(s)| - 1])
  {
    right := "";
    if s != "" && IsSpace(s[|s| - 1]) {
      var more := RightOf(s[..|s| - 1]);
      right := more + [s[|s| - 1]];
    }
  }

  lemma {:induction false} TrimSpacePad(left: string, s: string, right: string)
    requires forall c :: c in left + right ==> IsSpace(c)
    ensures TrimSpace(left + s + right) == TrimSpace(s)
  {
    TrimLeftPad(left, s + right);
    assert left + s + right == left + (s + right);
    TrimBothPad(s, right);
  }

  lemma {:induction false} TrimLeftPad(left: string, s: string)
    requires forall c :: c in left ==> IsSpace(c)
    ensures TrimLeft(left + s) == TrimLeft(s)
  {
    if left == "" {
      assert left + s == s;
    } else {
      assert (left + s)[1..] == left[1..] + s;
      TrimLeftPad(left[1..], s);
    }
  }

  lemma {:induction false} TrimRightPad(s: string, right: string)
    requires forall c :: c in right ==> IsSpace(c)
    ensures TrimRight(s + right) == TrimRight(s)
  {
    if right == "" {
      assert s + right == s;
    } else {
      var n := |right| - 1;
      assert (s + right)[..|s| + n] == s + right[..n];
      TrimRightPad(s, right[..n]);
    }
  }

  lemma {:induction false} TrimBothPad(s: string, right: string)
    requires forall c :: c in right ==> IsSpace(c)
    ensures TrimRight(TrimLeft(s + right)) == TrimRight(TrimLeft(s))
  {
    if s != "" && IsSpace(s[0]) {
      assert (s + right)[1..] == s[1..] + right;
      TrimBothPad(s[1..], right);
    } else if s == "" {
      assert s + right == right + "";
      TrimLeftPad(right, "");
    } else {
      TrimRightPad(s, right);
    }
  }
}
