/**
 When the sizes of the reads decide whether the colour probe answers: its loop
 gives up on more than 4096 bytes, and looks only after each read.
 */
module OscProbe {
  import opened OscColors
  import OscReplies

  const READ_SIZE := 256

  /** A way of reading s: non-empty reads of at most `size` bytes. */
  ghost predicate ReadsOf(s: string, chunks: seq<string>, size: nat) {
    Concat(chunks) == s && forall k :: 0 <= k < |chunks| ==> 0 < |chunks[k]| <= size
  }

  ghost predicate Answered(chunks: seq<string>) {
    exists k: nat :: AnswersAt(chunks, k)
  }

  predicate Parses(s: string) {
    DefaultColors(s).Some?
  }

  /** Up to here a read may still step over everything that is left below the limit. */
  function Threshold(size: nat): nat {
    if size <= PROBE_MAX_BYTES then PROBE_MAX_BYTES + 1 - size else 0
  }

  // ---------------------------------------------------------------- prefixes of a stream

  lemma {:induction false} PrefixParses(s: string, i: nat, j: nat)
    requires i <= j <= |s| && Parses(s[..i])
    ensures Parses(s[..j])
  {
    assert s[..j] == s[..i] + s[i..j];
    ParseIsStable(s[..i], s[i..j]);
  }

  lemma {:induction false} ReadSoFar(chunks: seq<string>, k: nat)
    requires k <= |chunks|
    ensures |Concat(chunks[..k])| <= |Concat(chunks)| && Concat(chunks[..k]) == Concat(chunks)[..|Concat(chunks[..k])|]
  {
    ConcatGrows(chunks, k);
  }

  /** The reads before the first one that ends past the limit. */
  lemma {:induction false} LastBelow(chunks: seq<string>, limit: nat, k: nat) returns (j: nat)
    requires k <= |chunks| && |Concat(chunks[..k])| > limit
    ensures j < k && |Concat(chunks[..j])| <= limit && |Concat(chunks[..j])| + |chunks[j]| > limit
    decreases k
  {
    ConcatNext(chunks, k - 1);
    if |Concat(chunks[..k - 1])| <= limit {
      j := k - 1;
    } else {
      j := LastBelow(chunks, limit, k - 1);
    }
  }

  /** A stream that parses early enough is answered, however it is read. */
  lemma {:induction false} EarlyIsAnswered(s: string, chunks: seq<string>, size: nat)
    requires ReadsOf(s, chunks, size) && |s| > PROBE_MAX_BYTES && Parses(s[..Threshold(size)])
    ensures Answered(chunks)
  {
    assert chunks[..|chunks|] == chunks;
    var j := LastBelow(chunks, PROBE_MAX_BYTES, |chunks|);
    var read := |Concat(chunks[..j])|;
    ReadSoFar(chunks, j);
    assert Threshold(size) <= read;
    PrefixParses(s, Threshold(size), read);
    assert AnswersAt(chunks, j);
  }

  lemma {:induction false} AnsweredParses(s: string, chunks: seq<string>)
    requires Concat(chunks) == s && Answered(chunks)
    ensures |s| > PROBE_MAX_BYTES ==> Parses(s[..PROBE_MAX_BYTES])
    ensures Parses(s)
  {
    var k: nat :| AnswersAt(chunks, k);
    ReadSoFar(chunks, k);
    ParsesFrom(s, |Concat(chunks[..k])|);
  }

  lemma {:induction false} ParsesFrom(s: string, at: nat)
    requires at <= |s| && at <= PROBE_MAX_BYTES && Parses(s[..at])
    ensures |s| > PROBE_MAX_BYTES ==> Parses(s[..PROBE_MAX_BYTES])
    ensures Parses(s)
  {
    if |s| > PROBE_MAX_BYTES {
      PrefixParses(s, at, PROBE_MAX_BYTES);
    }
    PrefixParses(s, at, |s|);
    assert s == s[..|s|];
  }

  // ---------------------------------------------------------------- two ways of reading

  function Singles(s: string): seq<string> {
    seq(|s|, i requires 0 <= i < |s| => [s[i]])
  }

  lemma {:induction false} ConcatAppend(a: seq<string>, b: seq<string>)
    ensures Concat(a + b) == Concat(a) + Concat(b)
  {
    if b == [] {
      assert a + b == a;
    } else {
      var n := |b| - 1;
      ConcatAppend(a, b[..n]);
      ConcatOneMore(a, b[..n], b[n]);
      assert b == b[..n] + [b[n]];
    }
  }

  lemma {:induction false} ConcatOneMore(a: seq<string>, b: seq<string>, x: string)
    requires Concat(a + b) == Concat(a) + Concat(b)
    ensures Concat(a + (b + [x])) == Concat(a) + Concat(b + [x])
  {
    Joins(a, b, [x]);
    ConcatSnoc(a + b, x);
    ConcatSnoc(b, x);
    Joins(Concat(a), Concat(b), x);
  }

  lemma Joins<T>(a: seq<T>, b: seq<T>, c: seq<T>)
    ensures a + (b + c) == (a + b) + c
  {
  }

  lemma {:induction false} ConcatSnoc(a: seq<string>, x: string)
    ensures Concat(a + [x]) == Concat(a) + x
  {
    assert (a + [x])[..|a|] == a;
  }

  lemma {:induction false} SinglesConcat(s: string)
    ensures Concat(Singles(s)) == s
  {
    if s != "" {
      var n := |s| - 1;
      SinglesConcat(s[..n]);
      assert Singles(s)[..n] == Singles(s[..n]);
      assert s == s[..n] + [s[n]];
    }
  }

  /** Byte by byte: answered whenever the bytes within the limit parse. */
  lemma {:induction false} SinglesAnswer(s: string, size: nat)
    requires size > 0 && |s| > PROBE_MAX_BYTES && Parses(s[..PROBE_MAX_BYTES])
    ensures ReadsOf(s, Singles(s), size) && Answered(Singles(s))
  {
    SinglesConcat(s);
    SinglesConcat(s[..PROBE_MAX_BYTES]);
    assert Singles(s)[..PROBE_MAX_BYTES] == Singles(s[..PROBE_MAX_BYTES]);
    assert AnswersAt(Singles(s), PROBE_MAX_BYTES);
  }

  /** Byte by byte up to the threshold, then one read past the limit. */
  function Leap(s: string, size: nat): seq<string>
    requires |s| > PROBE_MAX_BYTES
  {
    var at := Threshold(size);
    Singles(s[..at]) + [s[at..PROBE_MAX_BYTES + 1]] + Singles(s[PROBE_MAX_BYTES + 1..])
  }

  lemma {:induction false} LeapReads(s: string, size: nat)
    requires size > 0 && |s| > PROBE_MAX_BYTES
    ensures ReadsOf(s, Leap(s, size), size)
  {
    CutTwice(s, Threshold(size), PROBE_MAX_BYTES + 1);
  }

  lemma {:induction false} CutTwice(s: string, i: nat, j: nat)
    requires i <= j <= |s|
    ensures Concat(Singles(s[..i]) + [s[i..j]] + Singles(s[j..])) == s
  {
    var a, b, c := Singles(s[..i]), [s[i..j]], Singles(s[j..]);
    SinglesConcat(s[..i]);
    SinglesConcat(s[j..]);
    ConcatAppend(a + b, c);
    ConcatAppend(a, b);
    assert b[..0] == [] && Concat(b) == s[i..j];
    Pieces(s, i, j);
  }

  lemma Pieces(s: string, i: nat, j: nat)
    requires i <= j <= |s|
    ensures s == s[..i] + s[i..j] + s[j..]
  {
  }

  lemma {:induction false} LeapUnanswered(s: string, size: nat)
    requires size > 0 && |s| > PROBE_MAX_BYTES && !Parses(s[..Threshold(size)])
    ensures !Answered(Leap(s, size))
  {
    var at, chunks := Threshold(size), Leap(s, size);
    LeapReads(s, size);
    forall k: nat
      ensures !AnswersAt(chunks, k)
    {
      if k <= |chunks| {
        LeapPrefix(s, size, k);
        ReadSoFar(chunks, k);
        if k <= at && Parses(s[..k]) {
          PrefixParses(s, k, at);
        }
      }
    }
  }

  /** How much has been read after k reads: k bytes, or more than the limit. */
  lemma {:induction false} LeapPrefix(s: string, size: nat, k: nat)
    requires size > 0 && |s| > PROBE_MAX_BYTES && k <= |Leap(s, size)|
    ensures var read := |Concat(Leap(s, size)[..k])|; if k <= Threshold(size) then read == k else read > PROBE_MAX_BYTES
  {
    var at, chunks := Threshold(size), Leap(s, size);
    if k <= at {
      assert chunks[..k] == Singles(s[..k]);
      SinglesConcat(s[..k]);
    } else {
      var read := chunks[..at + 1];
      assert read == Singles(s[..at]) + [s[at..PROBE_MAX_BYTES + 1]];
      assert read[..at] == Singles(s[..at]);
      SinglesConcat(s[..at]);
      ConcatGrows(chunks, at + 1);
    }
  }

  // ---------------------------------------------------------------- the exact condition

  /** One way of reading the stream is answered and another is not. */
  ghost predicate DependsOnReads(s: string, size: nat) {
    exists a, b :: ReadsOf(s, a, size) && ReadsOf(s, b, size) && Answered(a) && !Answered(b)
  }

  /**
   With reads of at most `size` bytes, whether a stream is answered depends on how it is
   read if and only if it is longer than the limit, parses within the limit, and does
   not parse within the part that no single read can step over.
   */
  lemma {:induction false} DependsOnReadsIff(s: string, size: nat)
    requires size > 0
    ensures DependsOnReads(s, size) <==>
      |s| > PROBE_MAX_BYTES && Parses(s[..PROBE_MAX_BYTES]) && !Parses(s[..Threshold(size)])
  {
    if |s| > PROBE_MAX_BYTES && Parses(s[..PROBE_MAX_BYTES]) && !Parses(s[..Threshold(size)]) {
      SinglesAnswer(s, size);
      LeapReads(s, size);
      LeapUnanswered(s, size);
    }
    if a, b :| ReadsOf(s, a, size) && ReadsOf(s, b, size) && Answered(a) && !Answered(b) {
      AnsweredParses(s, a);
      if |s| <= PROBE_MAX_BYTES {
        WithinLimitAlwaysAnswered(b);
      } else if Parses(s[..Threshold(size)]) {
        EarlyIsAnswered(s, b, size);
      }
    }
  }

  /** With reads of any size: every stream that is too long and parses within the limit. */
  lemma {:induction false} DependsOnFreeReadsIff(s: string)
    ensures DependsOnReads(s, |s| + PROBE_MAX_BYTES + 1) <==> |s| > PROBE_MAX_BYTES && Parses(s[..PROBE_MAX_BYTES])
  {
    DependsOnReadsIff(s, |s| + PROBE_MAX_BYTES + 1);
    OscReplies.NoReplyNoColors("");
    assert s[..0] == "";
  }

  /** With the program's reads of at most 256 bytes: only when the replies end in the last 255 bytes below the limit. */
  lemma {:induction false} DependsOnProgramReadsIff(s: string)
    ensures DependsOnReads(s, 256) <==> |s| > 4096 && Parses(s[..4096]) && !Parses(s[..3841])
  {
    DependsOnReadsIff(s, READ_SIZE);
  }

  /** Enough typing, replies that end at the limit, and one more byte behind. */
  lemma {:induction false} PaddedDepends(noise: string, replies: string)
    requires OscColors.ESC !in noise && |noise| + |replies| == PROBE_MAX_BYTES && |replies| <= 255
    requires Parses(noise + replies)
    ensures DependsOnReads(noise + replies + "x", READ_SIZE)
  {
    var s := noise + replies + "x";
    assert s[..PROBE_MAX_BYTES] == noise + replies;
    var early := s[..PROBE_MAX_BYTES - 255];
    assert forall k :: 0 <= k < |early| ==> early[k] == noise[k];
    OscReplies.NoReplyNoColors(early);
    DependsOnProgramReadsIff(s);
  }

  function Replies(colors: Colors, fg: OscReplies.Style, bg: OscReplies.Style): string {
    OscReplies.Reply("10", colors.foreground, fg) + OscReplies.Reply("11", colors.background, bg)
  }

  lemma Grouped(a: string, b: string, c: string)
    ensures a + b + c + "" == a + (b + c)
  {
  }

  /** There are such streams, for any colours in any spelling. */
  lemma {:induction false} SomeStreamDepends(colors: Colors, fg: OscReplies.Style, bg: OscReplies.Style)
    ensures exists noise :: DependsOnReads(noise + Replies(colors, fg, bg) + "x", READ_SIZE)
  {
    OscReplies.ReplyLength("10", colors.foreground, fg);
    OscReplies.ReplyLength("11", colors.background, bg);
    var noise := seq(PROBE_MAX_BYTES - |Replies(colors, fg, bg)|, _ => 'x');
    OscReplies.RepliesRoundTrip(noise, colors, fg, bg, "");
    Grouped(noise, OscReplies.Reply("10", colors.foreground, fg), OscReplies.Reply("11", colors.background, bg));
    PaddedDepends(noise, Replies(colors, fg, bg));
  }
}
