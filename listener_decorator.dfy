/**
 * `NUnitListenerDecorator`: the line sink placed on the NUnit process's standard output.
 * Every line is passed on to the build log unchanged; on the way, a two-field state
 * machine notices the `Attachments:` header and remembers the coverage file named after it.
 *
 * The two regular expressions of the source are replaced by the predicates
 * `IsAttachmentsHeader` (for `^Attachments:\s*$` with `matches()`) and
 * `CoverageMatch` (for group 1 of `^\s*(.*\.coverage)$` with `find()`).
 */
module NUnitListenerDecorator {
  import opened Wrappers
  import TaskLog

  const AttachmentsLabel: string := "Attachments:"
  const CoverageSuffix: string := ".coverage"

  /** Line terminators of `java.util.regex`: `.` never matches them and `$` may stop before a final one. */
  predicate IsLineTerminator(c: char) {
    c == '\n' || c == '\r' || c == '\U{0085}' || c == '\U{2028}' || c == '\U{2029}'
  }

  /** `\s` of `java.util.regex` (ASCII whitespace). */
  predicate IsRegexSpace(c: char) {
    c == ' ' || c == '\t' || c == '\n' || c == '\U{000B}' || c == '\U{000C}' || c == '\r'
  }

  /** Where the line's body ends: before a final terminator (`\r\n` counts as one), which is
      the last place a regex `$` may match. */
  function BodyEnd(line: string): (n: nat)
    ensures n <= |line|
  {
    if |line| >= 2 && line[|line| - 2] == '\r' && line[|line| - 1] == '\n' then |line| - 2
    else if |line| >= 1 && IsLineTerminator(line[|line| - 1]) then |line| - 1
    else |line|
  }

  /** Where a greedy `\s*` that starts at `from` stops, without passing `end`. */
  function SpaceEnd(line: string, from: nat, end: nat): (n: nat)
    requires from <= end <= |line|
    ensures from <= n <= end
    ensures forall k :: from <= k < n ==> IsRegexSpace(line[k])
    ensures n < end ==> !IsRegexSpace(line[n])
    decreases end - from
  {
    if from < end && IsRegexSpace(line[from]) then SpaceEnd(line, from + 1, end) else from
  }

  /**
   * `^Attachments:\s*$` with `matches()`: the whole line must be consumed, so the label is followed
   * by whitespace only, up to the very end. A final `\n` or `\r\n` is whitespace; any other line
   * terminator is not, and fails the match. A header line never names a coverage file.
   */
  predicate IsAttachmentsHeader(line: string): (b: bool)
    ensures b ==> CoverageMatch(line).None?
  {
    var n := |AttachmentsLabel|;
    var b := |line| >= n && line[..n] == AttachmentsLabel && forall k :: n <= k < |line| ==> IsRegexSpace(line[k]);
    assert b ==> CoverageMatch(line).None? by {
      if b {
        var end := BodyEnd(line);
        assert line[n - 1] == ':';
        assert end >= n;
        assert line[end - 1] != 'e';
      }
    }
    b
  }

  predicate EndsWith(s: string, suffix: string) {
    |s| >= |suffix| && s[|s| - |suffix|..] == suffix
  }

  /**
   * Group 1 of `^\s*(.*\.coverage)$` found in the line: the line with its leading whitespace and
   * final terminator dropped, when that ends in `.coverage` and holds no other terminator. The
   * captured path ends in `.coverage`, does not start with whitespace and holds no line
   * terminator.
   */
  function CoverageMatch(line: string): (r: Option<string>)
    ensures r.Some? ==> EndsWith(r.value, CoverageSuffix)
    ensures r.Some? ==> !IsRegexSpace(r.value[0]) && forall k :: 0 <= k < |r.value| ==> !IsLineTerminator(r.value[k])
  {
    var end := BodyEnd(line);
    var start := SpaceEnd(line, 0, end);
    if end - start >= |CoverageSuffix| && line[end - |CoverageSuffix|..end] == CoverageSuffix
       && (forall k :: start <= k < end ==> !IsLineTerminator(line[k]))
    then
      var v := line[start..end];
      assert v[|v| - |CoverageSuffix|..] == CoverageSuffix;
      assert forall k :: 0 <= k < |v| ==> v[k] == line[start + k];
      Some(v)
    else None
  }

  /** What the two patterns say about one line. */
  datatype LineKind = LineKind(isHeader: bool, coverage: Option<string>)

  function Classify(line: string): (k: LineKind)
    ensures k.isHeader == IsAttachmentsHeader(line) && k.coverage == CoverageMatch(line)
    ensures k.coverage.Some? ==> EndsWith(k.coverage.value, CoverageSuffix)
    ensures !(k.isHeader && k.coverage.Some?)
  {
    LineKind(IsAttachmentsHeader(line), CoverageMatch(line))
  }

  /** The classification of every line, in order. */
  function Kinds(lines: seq<string>): (ks: seq<LineKind>)
    ensures |ks| == |lines|
    ensures forall i :: 0 <= i < |lines| ==> ks[i] == Classify(lines[i])
  {
    seq(|lines|, i requires 0 <= i < |lines| => Classify(lines[i]))
  }

  /** The decorator's two fields. */
  datatype ScanState = ScanState(attachmentsSection: bool, coverageFile: Option<string>)

  /** A fresh decorator: outside the section, no coverage file. */
  const Initial := ScanState(false, None)

  /** The state change `eol` makes for a line of kind `k`: outside the section only the header
      pattern is tried, inside it only the coverage pattern, whose match overwrites the field. */
  function Step(st: ScanState, k: LineKind): (r: ScanState)
    ensures r.attachmentsSection == (st.attachmentsSection || k.isHeader)
    ensures !st.attachmentsSection || k.coverage.None? ==> r.coverageFile == st.coverageFile
    ensures st.attachmentsSection && k.coverage.Some? ==> r.coverageFile == k.coverage
  {
    if !st.attachmentsSection then
      (if k.isHeader then st.(attachmentsSection := true) else st)
    else if k.coverage.Some? then st.(coverageFile := k.coverage)
    else st
  }

  /** The state after lines of kinds `ks` have gone through `eol`, oldest first. A coverage file
      is only ever recorded inside the section. */
  function Scan(ks: seq<LineKind>): (r: ScanState)
    ensures r.coverageFile.Some? ==> r.attachmentsSection
  {
    if ks == [] then Initial else Step(Scan(ks[..|ks| - 1]), ks[|ks| - 1])
  }

  /** Index of the first header line, if any. */
  function FirstHeader(ks: seq<LineKind>): (r: Option<nat>)
    ensures r.None? <==> forall i :: 0 <= i < |ks| ==> !ks[i].isHeader
    ensures r.Some? ==> r.value < |ks| && ks[r.value].isHeader
                        && forall i :: 0 <= i < r.value ==> !ks[i].isHeader
  {
    if ks == [] then None
    else
      var earlier := FirstHeader(ks[..|ks| - 1]);
      if earlier.Some? then earlier
      else if ks[|ks| - 1].isHeader then Some(|ks| - 1)
      else None
  }

  /** The coverage path of the last line of `ks` that names one. */
  function LastCoverage(ks: seq<LineKind>): (r: Option<string>)
    ensures r.None? <==> forall i :: 0 <= i < |ks| ==> ks[i].coverage.None?
  {
    if ks == [] then None
    else if ks[|ks| - 1].coverage.Some? then ks[|ks| - 1].coverage
    else LastCoverage(ks[..|ks| - 1])
  }

  /** A line naming a coverage file with no such line after it gives `LastCoverage`. */
  lemma {:induction false} LastCoverageAt(ks: seq<LineKind>, i: nat)
    requires i < |ks| && ks[i].coverage.Some?
    requires forall m :: i < m < |ks| ==> ks[m].coverage.None?
    ensures LastCoverage(ks) == ks[i].coverage
  {
    var n := |ks| - 1;
    if i < n {
      var init := ks[..n];
      assert init[i] == ks[i];
      assert forall m :: i < m < |init| ==> init[m] == ks[m];
      LastCoverageAt(init, i);
    }
  }

  /** What the decorator is meant to know: whether a header was seen, and the coverage
      path of the last line after the first header that names one. */
  function Expected(ks: seq<LineKind>): ScanState {
    match FirstHeader(ks)
    case None => Initial
    case Some(h) => ScanState(true, LastCoverage(ks[h + 1..]))
  }

  /** The line-by-line state machine computes exactly `Expected`. */
  lemma {:induction false} ScanIsExpected(ks: seq<LineKind>)
    ensures Scan(ks) == Expected(ks)
  {
    if ks != [] {
      var init := ks[..|ks| - 1];
      var last := ks[|ks| - 1];
      assert Scan(ks) == Step(Scan(init), last);
      ScanIsExpected(init);
      match FirstHeader(init) {
        case None =>
          if last.isHeader {
            assert FirstHeader(ks) == Some(|ks| - 1);
            assert ks[|ks|..] == [];
          } else {
            assert FirstHeader(ks).None?;
          }
        case Some(h) =>
          assert FirstHeader(ks) == Some(h);
          var tail := ks[h + 1..];
          assert tail == init[h + 1..] + [last];
          assert tail[..|tail| - 1] == init[h + 1..];
          assert LastCoverage(tail) == if last.coverage.Some? then last.coverage else LastCoverage(init[h + 1..]);
      }
    }
  }

  /** The section flag is set exactly when some line so far was an `Attachments:` header. */
  lemma SectionIffHeaderSeen(ks: seq<LineKind>)
    ensures Scan(ks).attachmentsSection <==> exists i :: 0 <= i < |ks| && ks[i].isHeader
  {
    ScanIsExpected(ks);
  }

  /** Once inside the section the decorator never leaves it, whatever lines follow. */
  lemma SectionNeverReverts(ks: seq<LineKind>, more: seq<LineKind>)
    requires Scan(ks).attachmentsSection
    ensures Scan(ks + more).attachmentsSection
  {
    SectionIffHeaderSeen(ks);
    var i :| 0 <= i < |ks| && ks[i].isHeader;
    assert (ks + more)[i] == ks[i];
    SectionIffHeaderSeen(ks + more);
  }

  /** Without an `Attachments:` line the decorator stays in its initial state: no coverage file. */
  lemma NoHeaderNoCoverage(ks: seq<LineKind>)
    requires forall i :: 0 <= i < |ks| ==> !ks[i].isHeader
    ensures Scan(ks) == Initial && Scan(ks).coverageFile == None
  {
    ScanIsExpected(ks);
  }

  /** Up to and including the first header line, no coverage file is recorded. */
  lemma NothingCapturedBeforeSection(ks: seq<LineKind>, h: nat)
    requires h < |ks| && ks[h].isHeader
    requires forall i :: 0 <= i < h ==> !ks[i].isHeader
    ensures Scan(ks[..h + 1]) == ScanState(true, None)
  {
    var p := ks[..h + 1];
    ScanIsExpected(p);
    assert FirstHeader(p) == Some(h);
    assert p[h + 1..] == [];
  }

  lemma ExpectedLastMatch(ks: seq<LineKind>, h: nat, j: nat)
    requires h < j < |ks| && ks[h].isHeader && ks[j].coverage.Some?
    requires forall m :: j < m < |ks| ==> ks[m].coverage.None?
    ensures Expected(ks).coverageFile == ks[j].coverage
  {
    var h0 := FirstHeader(ks).value;
    assert h0 <= h;
    var tail := ks[h0 + 1..];
    var k := j - (h0 + 1);
    assert tail[k] == ks[j];
    assert forall m :: k < m < |tail| ==> tail[m] == ks[m + h0 + 1];
    LastCoverageAt(tail, k);
  }

  /** Last match wins: after a header, the latest line naming a coverage file decides the result. */
  lemma LastMatchWins(ks: seq<LineKind>, h: nat, j: nat)
    requires h < j < |ks| && ks[h].isHeader && ks[j].coverage.Some?
    requires forall m :: j < m < |ks| ==> ks[m].coverage.None?
    ensures Scan(ks).coverageFile == ks[j].coverage
  {
    ScanIsExpected(ks);
    ExpectedLastMatch(ks, h, j);
  }

  /** Inside the section, a line naming no coverage file leaves the recorded one alone. */
  lemma NonMatchingLineKeepsCoverage(ks: seq<LineKind>, k: LineKind)
    requires k.coverage.None?
    ensures Scan(ks + [k]).coverageFile == Scan(ks).coverageFile
  {
    assert (ks + [k])[..|ks|] == ks;
  }

  lemma {:induction false} LastMatchIndexExists(ks: seq<LineKind>)
    requires LastCoverage(ks).Some?
    ensures exists i :: 0 <= i < |ks| && ks[i].coverage == LastCoverage(ks)
                        && forall m :: i < m < |ks| ==> ks[m].coverage.None?
  {
    var n := |ks| - 1;
    if ks[n].coverage.None? {
      var init := ks[..n];
      LastMatchIndexExists(init);
      var i :| 0 <= i < |init| && init[i].coverage == LastCoverage(init)
               && forall m :: i < m < |init| ==> init[m].coverage.None?;
      assert ks[i] == init[i];
      assert forall m :: i < m < |ks| ==> m == n || ks[m] == init[m];
    }
  }

  /** The recorded coverage path always comes from a line after a header. */
  lemma CoverageComesFromSection(ks: seq<LineKind>)
    requires Scan(ks).coverageFile.Some?
    ensures exists h, j :: 0 <= h < j < |ks| && ks[h].isHeader && ks[j].coverage == Scan(ks).coverageFile
  {
    ScanIsExpected(ks);
    var h := FirstHeader(ks).value;
    var tail := ks[h + 1..];
    LastMatchIndexExists(tail);
    var i :| 0 <= i < |tail| && tail[i].coverage == LastCoverage(tail)
             && forall m :: i < m < |tail| ==> tail[m].coverage.None?;
    assert tail[i] == ks[h + 1 + i];
  }

  /** Whatever the decorator records is a path ending in `.coverage`. */
  lemma RecordedPathIsCoverageFile(lines: seq<string>)
    ensures Scan(Kinds(lines)).coverageFile.Some? ==> EndsWith(Scan(Kinds(lines)).coverageFile.value, CoverageSuffix)
  {
    var ks := Kinds(lines);
    if Scan(ks).coverageFile.Some? {
      CoverageComesFromSection(ks);
      var h, j :| 0 <= h < j < |ks| && ks[h].isHeader && ks[j].coverage == Scan(ks).coverageFile;
      assert ks[j] == Classify(lines[j]);
    }
  }

  /** An indented path line, as NUnit prints attachments: the path itself is captured. */
  lemma IndentedCoverageLine(p: string)
    requires IsPrintedPath(p)
    ensures CoverageMatch("  " + p + "\n") == Some(p)
  {
    var line := "  " + p + "\n";
    var end := |line| - 1;
    assert line[end - 1] == p[|p| - 1] == 'e';
    assert BodyEnd(line) == end;
    assert line[2] == p[0];
    assert SpaceEnd(line, 0, end) == 2;
    assert line[2..end] == p;
    assert line[end - |CoverageSuffix|..end] == p[|p| - |CoverageSuffix|..];
    assert forall k :: 2 <= k < end ==> line[k] == p[k - 2];
  }

  /** A path as NUnit prints it under `Attachments:`: a `.coverage` file name that does not start
      with whitespace and holds no line terminator. */
  predicate IsPrintedPath(p: string) {
    EndsWith(p, CoverageSuffix) && !IsRegexSpace(p[0])
    && forall k :: 0 <= k < |p| ==> !IsLineTerminator(p[k])
  }

  /** Two indented coverage lines after a header: the second one is kept. */
  lemma TwoCoverageLinesKeepTheLast(first: string, second: string)
    requires IsPrintedPath(first) && IsPrintedPath(second)
    ensures Scan(Kinds(["Attachments:\n", "  " + first + "\n", "  " + second + "\n"])).coverageFile
            == Some(second)
  {
    var lines := ["Attachments:\n", "  " + first + "\n", "  " + second + "\n"];
    assert lines[0][..|AttachmentsLabel|] == AttachmentsLabel;
    assert IsAttachmentsHeader(lines[0]);
    IndentedCoverageLine(second);
    LastMatchWins(Kinds(lines), 0, 2);
  }

  /**
   * The decorator object. `listener` is the downstream build log, or null when the decorator
   * was built without a task listener. `received` records the lines that reached `eol`
   * while a downstream exists; it is there for the specification only.
   */
  class ListenerDecorator {
    const listener: TaskLog.Logger?
    var attachmentsSection: bool
    var coverageFile: Option<string>
    ghost var received: seq<string>

    function State(): ScanState
      reads this
    {
      ScanState(attachmentsSection, coverageFile)
    }

    ghost predicate Valid()
      reads this
    {
      State() == Scan(Kinds(received)) && (listener == null ==> received == [])
    }

    /** A fresh decorator is outside the section and has no coverage file. */
    constructor (listener: TaskLog.Logger?)
      ensures this.listener == listener && Valid() && received == []
      ensures !attachmentsSection && coverageFile == None
    {
      this.listener := listener;
      coverageFile := None;
      attachmentsSection := false;
      received := [];
    }

    /** `getCoverageFile`: the coverage path of the last line after the first header that names one. */
    function GetCoverageFile(): (r: Option<string>)
      reads this
      requires Valid()
      ensures r == Expected(Kinds(received)).coverageFile
      ensures r.Some? ==> EndsWith(r.value, CoverageSuffix)
    {
      ScanIsExpected(Kinds(received));
      RecordedPathIsCoverageFile(received);
      coverageFile
    }

    /** `eol`: without a downstream, nothing happens; otherwise the state steps on the line and
        the line itself is written downstream unchanged, after everything written before. */
    method Eol(line: string)
      requires Valid()
      modifies this, listener
      ensures Valid()
      ensures listener == null ==> State() == old(State()) && received == old(received)
      ensures listener != null ==> received == old(received) + [line]
      ensures listener != null ==> State() == Step(old(State()), Classify(line))
      ensures listener != null ==> listener.lines == old(listener.lines) + [line]
    {
      if listener == null {
        return;
      }
      if !attachmentsSection {
        if IsAttachmentsHeader(line) {
          attachmentsSection := true;
        }
      } else {
        var m := CoverageMatch(line);
        if m.Some? {
          coverageFile := m;
        }
      }
      received := received + [line];
      assert Kinds(received)[..|received| - 1] == Kinds(old(received));
      listener.Println(line);
    }
  }
}
