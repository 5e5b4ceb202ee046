/** Which lines of a worker's log are a task's segment, and which error there is, by their positions in the log. */
module LogMeaning {
  import opened Lines
  import opened LogSegments

  /** A line of the log is read without one carriage return at its end. */
  predicate ReadsAs(line: string, text: string) {
    line == text + "\r" || (line == text && (text == "" || text[|text| - 1] != '\r'))
  }

  /** The first n lines are below ten mebibytes each. */
  predicate FitUpTo(lines: seq<string>, n: nat) {
    n <= |lines| && forall k :: 0 <= k < n ==> |lines[k]| < 10_485_760
  }

  /** The scan ends behind line n: there is no more, or one that is too long. */
  predicate ScanEnds(lines: seq<string>, n: nat) {
    FitUpTo(lines, n) && (n == |lines| || |lines[n]| >= 10_485_760)
  }

  predicate StartsAt(lines: seq<string>, name: string, i: nat) {
    && FitUpTo(lines, i + 1) && ReadsAs(lines[i], "---KELOS_TASK_START--- " + name)
    && forall k :: 0 <= k < i ==> !ReadsAs(lines[k], "---KELOS_TASK_START--- " + name)
  }

  /** The first end marker behind line i. */
  predicate EndsAt(lines: seq<string>, name: string, i: nat, j: nat) {
    && i < j && FitUpTo(lines, j + 1) && ReadsAs(lines[j], "---KELOS_TASK_END--- " + name)
    && forall k :: i < k < j ==> !ReadsAs(lines[k], "---KELOS_TASK_END--- " + name)
  }

  predicate ReadBetween(lines: seq<string>, i: nat, j: nat, segment: seq<string>) {
    && i <= j <= |lines| && |segment| == j - i
    && forall k :: 0 <= k < |segment| ==> ReadsAs(lines[i + k], segment[k])
  }

  lemma {:induction false} ReadsIsTrim(line: string)
    ensures forall text :: ReadsAs(line, text) <==> TrimCR(line) == text
  {
    if |line| > 0 && line[|line| - 1] == '\r' {
      assert line == line[..|line| - 1] + "\r";
    }
  }

  lemma {:induction false} AllReadAsTrimmed(lines: seq<string>)
    ensures forall k, text :: 0 <= k < |lines| ==> (ReadsAs(lines[k], text) <==> TrimCR(lines[k]) == text)
  {
    forall k, text | 0 <= k < |lines|
      ensures ReadsAs(lines[k], text) <==> TrimCR(lines[k]) == text
    {
      ReadsIsTrim(lines[k]);
    }
  }

  /** What the scanner delivers. */
  lemma {:induction false} ScannedIs(lines: seq<string>)
    ensures ScanEnds(lines, |Scanned(lines)|)
    ensures forall k :: 0 <= k < |Scanned(lines)| ==> Scanned(lines)[k] == TrimCR(lines[k])
    ensures AllFit(lines) <==> |Scanned(lines)| == |lines|
  {
    if lines != [] && |lines[0]| < MAX_TOKEN_SIZE {
      ScannedIs(lines[1..]);
      forall k | 0 < k <= |Scanned(lines[1..])|
        ensures Scanned(lines)[k] == TrimCR(lines[k])
      {
        assert lines[1..][k - 1] == lines[k];
      }
    }
  }

  lemma {:induction false} ScanEndsOnce(lines: seq<string>, m: nat, n: nat)
    requires ScanEnds(lines, m) && ScanEnds(lines, n)
    ensures m == n
  {
  }

  lemma Markers(name: string)
    ensures StartMarker(name) == "---KELOS_TASK_START--- " + name && EndMarker(name) == "---KELOS_TASK_END--- " + name
  {
    assert "---KELOS_TASK_START---" + " " == "---KELOS_TASK_START--- ";
    assert "---KELOS_TASK_END---" + " " == "---KELOS_TASK_END--- ";
  }

  /** The start of the segment is where the scan finds the marker. */
  lemma {:induction false} StartIs(lines: seq<string>, name: string, i: nat)
    ensures StartsAt(lines, name, i) <==>
      FirstAt(Scanned(lines), StartMarker(name)) == i && StartMarker(name) in Scanned(lines)
  {
    var scanned, x := Scanned(lines), StartMarker(name);
    ScannedIs(lines);
    AllReadAsTrimmed(lines);
    Markers(name);
    if StartsAt(lines, name, i) {
      assert i < |scanned|;
      FirstIs(scanned, x, i);
    }
  }

  lemma {:induction false} FirstIs(s: seq<string>, x: string, i: nat)
    requires i < |s| && s[i] == x && forall k :: 0 <= k < i ==> s[k] != x
    ensures FirstAt(s, x) == i
  {
  }

  lemma {:induction false} EndIs(lines: seq<string>, name: string, i: nat, j: nat)
    requires i < |Scanned(lines)| && i < j
    ensures var after := Scanned(lines)[i + 1..];
      EndsAt(lines, name, i, j) <==> FirstAt(after, EndMarker(name)) == j - i - 1 && EndMarker(name) in after
  {
    var after, x := Scanned(lines)[i + 1..], EndMarker(name);
    if EndsAt(lines, name, i, j) {
      EndSeen(lines, name, i, j);
    } else if x in after && FirstAt(after, x) == j - i - 1 {
      EndFound(lines, name, i, j);
    }
  }

  lemma {:induction false} EndSeen(lines: seq<string>, name: string, i: nat, j: nat)
    requires i < |Scanned(lines)| && EndsAt(lines, name, i, j)
    ensures var after := Scanned(lines)[i + 1..];
      FirstAt(after, EndMarker(name)) == j - i - 1 && EndMarker(name) in after
  {
    var scanned, x := Scanned(lines), EndMarker(name);
    var after := scanned[i + 1..];
    ScannedIs(lines);
    AllReadAsTrimmed(lines);
    Markers(name);
    assert j < |scanned| && after[j - i - 1] == x;
    assert forall k :: 0 <= k < j - i - 1 ==> after[k] == scanned[i + 1 + k] != x;
    FirstIs(after, x, j - i - 1);
  }

  lemma {:induction false} EndFound(lines: seq<string>, name: string, i: nat, j: nat)
    requires i < |Scanned(lines)| && i < j
    requires var after := Scanned(lines)[i + 1..];
      FirstAt(after, EndMarker(name)) == j - i - 1 && EndMarker(name) in after
    ensures EndsAt(lines, name, i, j)
  {
    var scanned, x := Scanned(lines), EndMarker(name);
    assert scanned[i + 1..][j - i - 1] == x;
    ScannedIs(lines);
    NoEarlier(lines, i, j, x);
    Markers(name);
    forall k | i < k <= j
      ensures ReadsAs(lines[k], x) <==> TrimCR(lines[k]) == x
    {
      ReadsIsTrim(lines[k]);
    }
  }

  lemma {:induction false} NoEarlier(lines: seq<string>, i: nat, j: nat, x: string)
    requires i < j <= |Scanned(lines)| <= |lines| && x !in Scanned(lines)[i + 1..][..j - i - 1]
    ensures forall k :: i < k < j ==> TrimCR(lines[k]) != x
  {
    ScannedIs(lines);
    forall k | i < k < j
      ensures TrimCR(lines[k]) != x
    {
      assert Scanned(lines)[i + 1..][..j - i - 1][k - i - 1] == TrimCR(lines[k]);
    }
  }

  lemma {:induction false} SegmentRead(lines: seq<string>, i: nat, j: nat)
    requires i <= j <= |Scanned(lines)|
    ensures ReadBetween(lines, i, j, Scanned(lines)[i..j])
  {
    ScannedIs(lines);
    AllReadAsTrimmed(lines);
  }

  /** The segment of what was scanned, cut out between two positions. */
  lemma {:induction false} CutOut(s: seq<string>, name: string, i: nat, j: nat)
    requires i < |s| && FirstAt(s, StartMarker(name)) == i
    requires i < j <= |s| && FirstAt(s[i + 1..], EndMarker(name)) == j - i - 1
    ensures Segment(s, name) == s[i + 1..j]
    ensures Closed(s, name) <==> j < |s|
  {
    MarkersDiffer(name, name);
    assert s[i + 1..][..j - i - 1] == s[i + 1..j];
    assert s[i..] == [s[i]] + s[i + 1..];
    if j < |s| {
      assert s[i + 1..][j - i - 1] == EndMarker(name);
    } else {
      assert s[i + 1..][..j - i - 1] == s[i + 1..];
    }
  }

  /** From the first start marker to the next end marker: the lines strictly between them, and no error. */
  lemma {:induction false} SegmentBetweenMarkers(lines: seq<string>, name: string, i: nat, j: nat)
    requires StartsAt(lines, name, i) && EndsAt(lines, name, i, j)
    ensures ReadBetween(lines, i + 1, j, Segment(Scanned(lines), name)) && ErrorOf(lines, name) == NoError
  {
    StartIs(lines, name, i);
    EndIs(lines, name, i, j);
    CutOut(Scanned(lines), name, i, j);
    SegmentRead(lines, i + 1, j);
  }

  /** No end marker behind line i: the scan finds none either. */
  lemma {:induction false} NoEnd(lines: seq<string>, name: string, i: nat)
    requires i < |Scanned(lines)| && forall j :: !EndsAt(lines, name, i, j)
    ensures FirstAt(Scanned(lines)[i + 1..], EndMarker(name)) == |Scanned(lines)| - i - 1
  {
    var after := Scanned(lines)[i + 1..];
    EndIs(lines, name, i, FirstAt(after, EndMarker(name)) + i + 1);
    FirstAtEnd(after, EndMarker(name));
  }

  /** With no end marker: all that the scan reads behind the start, and an error if it stopped at a line too long. */
  lemma {:induction false} SegmentToTheEnd(lines: seq<string>, name: string, i: nat, n: nat)
    requires StartsAt(lines, name, i) && ScanEnds(lines, n) && forall j :: !EndsAt(lines, name, i, j)
    ensures ReadBetween(lines, i + 1, n, Segment(Scanned(lines), name))
    ensures ErrorOf(lines, name) == if n < |lines| then TokenTooLong else NoError
  {
    ScannedIs(lines);
    ScanEndsOnce(lines, n, |Scanned(lines)|);
    StartIs(lines, name, i);
    NoEnd(lines, name, i);
    CutOut(Scanned(lines), name, i, n);
    SegmentRead(lines, i + 1, n);
  }

  /** With no start marker: nothing, and the error says whether the whole log was read. */
  lemma {:induction false} NoSegment(lines: seq<string>, name: string, n: nat)
    requires ScanEnds(lines, n) && forall i :: !StartsAt(lines, name, i)
    ensures Segment(Scanned(lines), name) == []
    ensures ErrorOf(lines, name) == if n < |lines| then TokenTooLong else SegmentNotFound
  {
    var s, x := Scanned(lines), StartMarker(name);
    ScannedIs(lines);
    ScanEndsOnce(lines, n, |s|);
    StartIs(lines, name, FirstAt(s, x));
    FirstAtEnd(s, x);
    assert s[|s|..] == [];
  }
}
