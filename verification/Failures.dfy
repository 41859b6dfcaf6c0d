/** From a suite's output to the tests the next run is narrowed to: `parseFailures`, `merge`,
    `collectFailures`, `failedTests`. Which lines name a failing test, and how a report's text is
    split into message, stack and screenshot, is left to the caller. */
module Failures {
  import Naming
  import Words
  import opened Orders

  datatype Category = ImplementationDefect | FlakyTest | EnvironmentIssue

  datatype Failure = Failure(testName: string, message: string, stackTrace: string, screenshotKey: string, category: Category)

  /** A line of output: one that names a failing test, or any other. */
  datatype Line = Marker(title: string) | Text(text: string)

  /** One failure report: the name on the marker and the lines up to the next one. */
  datatype Report = Report(name: string, body: seq<Line>)

  /** How a report's text becomes evidence (`readBody`); the name does not come from it. */
  type Reader = seq<Line> -> Failure

  function ToFailure(r: Report, read: Reader): Failure {
    read(r.body).(testName := r.name)
  }

  // ---- parsing ----

  /** The reports after one more line. */
  function Extended(reports: seq<Report>, line: Line): seq<Report> {
    if line.Marker? then reports + [Report(line.title, [])]
    else if reports == [] then []
    else
      var r := reports[|reports| - 1];
      reports[..|reports| - 1] + [Report(r.name, r.body + [line])]
  }

  /** The reports in a sequence of lines. */
  function Reports(lines: seq<Line>): seq<Report> {
    if lines == [] then [] else Extended(Reports(lines[..|lines| - 1]), lines[|lines| - 1])
  }

  predicate AllText(lines: seq<Line>) {
    forall i :: 0 <= i < |lines| ==> lines[i].Text?
  }

  function Print(r: Report): seq<Line> {
    [Marker(r.name)] + r.body
  }

  function Printed(reports: seq<Report>): seq<Line> {
    if reports == [] then [] else Printed(reports[..|reports| - 1]) + Print(reports[|reports| - 1])
  }

  lemma ReportsOfOneMore(lines: seq<Line>, line: Line)
    ensures Reports(lines + [line]) == Extended(Reports(lines), line)
  {
    assert (lines + [line])[..|lines|] == lines;
  }

  lemma PrintedOneMore(reports: seq<Report>, r: Report)
    ensures Printed(reports + [r]) == Printed(reports) + Print(r)
  {
    assert (reports + [r])[..|reports|] == reports;
  }

  lemma TextGoesToTheLast(reports: seq<Report>, name: string, body: seq<Line>, line: Line)
    requires line.Text?
    ensures Extended(reports + [Report(name, body)], line) == reports + [Report(name, body + [line])]
  {
    assert (reports + [Report(name, body)])[..|reports|] == reports;
  }

  lemma {:induction false} TextBeforeReports(pre: seq<Line>)
    requires AllText(pre)
    ensures Reports(pre) == []
  {
    if pre != [] {
      TextBeforeReports(pre[..|pre| - 1]);
    }
  }

  lemma PrintLonger(lines: seq<Line>, name: string, body: seq<Line>, line: Line)
    ensures lines + Print(Report(name, body + [line])) == lines + Print(Report(name, body)) + [line]
  {
  }

  lemma {:induction false} ReportsExtend(lines: seq<Line>, name: string, body: seq<Line>)
    requires AllText(body)
    ensures Reports(lines + Print(Report(name, body))) == Reports(lines) + [Report(name, body)]
    decreases |body|
  {
    if body == [] {
      assert Print(Report(name, body)) == [Marker(name)];
      ReportsOfOneMore(lines, Marker(name));
    } else {
      var shorter, last := body[..|body| - 1], body[|body| - 1];
      assert shorter + [last] == body;
      ReportsExtend(lines, name, shorter);
      ReportsOfOneMore(lines + Print(Report(name, shorter)), last);
      TextGoesToTheLast(Reports(lines), name, shorter, last);
      PrintLonger(lines, name, shorter, last);
    }
  }

  ghost predicate PlainBodies(reports: seq<Report>) {
    forall i :: 0 <= i < |reports| ==> AllText(reports[i].body)
  }

  /** Printing reports and parsing them gives them back, whatever text stands before them. */
  lemma {:induction false} PrintedReportsParse(pre: seq<Line>, reports: seq<Report>)
    requires AllText(pre) && PlainBodies(reports)
    ensures Reports(pre + Printed(reports)) == reports
  {
    if reports == [] {
      assert pre + Printed(reports) == pre;
      TextBeforeReports(pre);
    } else {
      var front, r := reports[..|reports| - 1], reports[|reports| - 1];
      assert AllText(r.body) && front + [r] == reports;
      PrintedReportsParse(pre, front);
      ReportsExtend(pre + Printed(front), r.name, r.body);
      Reassociate(pre, Printed(front), Print(r));
    }
  }

  /** One more line of output is one more line of print. */
  lemma ExtendingPrints(reports: seq<Report>, line: Line)
    requires PlainBodies(reports) && (line.Marker? || reports != [])
    ensures PlainBodies(Extended(reports, line)) && Printed(Extended(reports, line)) == Printed(reports) + [line]
  {
    if line.Marker? {
      PrintedOneMore(reports, Report(line.title, []));
    } else {
      var front, r := reports[..|reports| - 1], reports[|reports| - 1];
      PrintedOneMore(front, Report(r.name, r.body + [line]));
    }
  }

  /** Parsing loses nothing: the output is some text followed by the printed reports. */
  lemma {:induction false} ParsingIsLossless(lines: seq<Line>) returns (pre: seq<Line>)
    ensures AllText(pre) && PlainBodies(Reports(lines)) && lines == pre + Printed(Reports(lines))
  {
    if lines == [] {
      pre := [];
    } else {
      var front, last := lines[..|lines| - 1], lines[|lines| - 1];
      assert lines == front + [last];
      pre := ParsingIsLossless(front);
      if last.Marker? || Reports(front) != [] {
        ExtendingPrints(Reports(front), last);
      } else {
        pre := pre + [last];
      }
    }
  }

  /** After `i` lines: what has been flushed, and the report that is open since line `start`. */
  ghost predicate Parsing(lines: seq<Line>, i: nat, found: seq<Report>, name: string, start: int) {
    && -1 <= start <= i <= |lines|
    && (start < 0 ==> found == [] && Reports(lines[..i]) == [])
    && (start >= 0 ==> Reports(lines[..i]) == found + [Report(name, lines[start..i])])
  }

  lemma ParseMarker(lines: seq<Line>, i: nat, found: seq<Report>, name: string, start: int)
    requires i < |lines| && Parsing(lines, i, found, name, start) && lines[i].Marker?
    ensures Parsing(lines, i + 1, if start >= 0 then found + [Report(name, lines[start..i])] else found, lines[i].title, i + 1)
  {
    assert lines[..i + 1] == lines[..i] + [lines[i]];
    ReportsOfOneMore(lines[..i], lines[i]);
    assert lines[i + 1..i + 1] == [];
  }

  lemma ParseText(lines: seq<Line>, i: nat, found: seq<Report>, name: string, start: int)
    requires i < |lines| && Parsing(lines, i, found, name, start) && lines[i].Text?
    ensures Parsing(lines, i + 1, found, name, start)
  {
    assert lines[..i + 1] == lines[..i] + [lines[i]];
    ReportsOfOneMore(lines[..i], lines[i]);
    if start >= 0 {
      TextGoesToTheLast(found, name, lines[start..i], lines[i]);
      assert lines[start..i + 1] == lines[start..i] + [lines[i]];
    }
  }

  /** The loop of `parseFailures`: a report is flushed when the next marker, or the end, is seen. */
  method ParseReports(lines: seq<Line>) returns (found: seq<Report>)
    ensures found == Reports(lines)
  {
    found := [];
    var name, start := "", -1;
    for i := 0 to |lines|
      invariant Parsing(lines, i, found, name, start)
    {
      if lines[i].Marker? {
        ParseMarker(lines, i, found, name, start);
        if start >= 0 {
          found := found + [Report(name, lines[start..i])];
        }
        name, start := lines[i].title, i + 1;
      } else {
        ParseText(lines, i, found, name, start);
      }
    }
    assert lines[..|lines|] == lines;
    if start >= 0 {
      found := found + [Report(name, lines[start..|lines|])];
    }
  }

  // ---- merging ----

  const SEPARATOR: string := " \U{203A} "

  /** What follows the last separator in a test's name. */
  function LastSegment(name: string): string {
    LastSegmentFrom(name, name)
  }

  function LastSegmentFrom(rest: string, segment: string): string
    decreases |rest|
  {
    if |rest| < |SEPARATOR| then segment
    else if rest[..|SEPARATOR|] == SEPARATOR then LastSegmentFrom(rest[|SEPARATOR|..], rest[|SEPARATOR|..])
    else LastSegmentFrom(rest[1..], segment)
  }

  function Slug(s: string): string {
    Naming.Trim(Naming.ReplaceRuns(Naming.Lower(s), c => !Naming.Alnum(c)))
  }

  /** Which failures count as the same test. */
  function Key(name: string): string {
    Slug(LastSegment(name))
  }

  /** The words of a test's title: what follows the last separator, in lower case. */
  function TitleWords(name: string): seq<string> {
    Words.WordsOf(Naming.Lower(LastSegment(name)))
  }

  /** The key is the words of the title, so two names share it exactly when their titles have the same
      words in the same order. */
  lemma SameKeyIff(a: string, b: string)
    ensures Key(a) == Words.Dashed(TitleWords(a))
    ensures Key(a) == Key(b) <==> TitleWords(a) == TitleWords(b)
  {
    var x, y := Naming.Lower(LastSegment(a)), Naming.Lower(LastSegment(b));
    Words.PassTrimmed(x);
    Words.PassTrimmed(y);
    var _ := Words.WordsAreRuns(x);
    var _ := Words.WordsAreRuns(y);
    Words.DashedIsInjective(TitleWords(a), TitleWords(b));
  }

  function JoinedBy(parts: seq<string>): string {
    if parts == [] then "" else if |parts| == 1 then parts[0] else parts[0] + SEPARATOR + JoinedBy(parts[1..])
  }

  /** The first separator of a text that begins with `part` and a separator stands behind `part`. */
  predicate EndsAtSeparator(part: string) {
    forall i :: 0 <= i < |part| ==> !(SEPARATOR <= (part + SEPARATOR)[i..])
  }

  predicate NoSeparator(part: string) {
    forall i :: 0 <= i <= |part| ==> !(SEPARATOR <= part[i..])
  }

  /** The parts of a text between its separators, found from the left. */
  ghost predicate SplitInto(text: string, parts: seq<string>) {
    && parts != [] && text == JoinedBy(parts) && NoSeparator(parts[|parts| - 1])
    && forall i :: 0 <= i < |parts| - 1 ==> EndsAtSeparator(parts[i])
  }

  lemma {:induction false} SplitAtSeparators(rest: string, done: string) returns (parts: seq<string>)
    requires EndsAtSeparatorSoFar(done, rest)
    ensures SplitInto(done + rest, parts) && LastSegmentFrom(rest, done + rest) == parts[|parts| - 1]
    decreases |rest|
  {
    if |rest| < |SEPARATOR| {
      parts := [done + rest];
      NothingInTheRest(done, rest);
    } else if rest[..|SEPARATOR|] == SEPARATOR {
      var behind := rest[|SEPARATOR|..];
      assert "" + behind == behind;
      var more := SplitAtSeparators(behind, "");
      parts := [done] + more;
      OnePartMore(done, rest, more);
    } else {
      OneFurther(done, rest);
      parts := SplitAtSeparators(rest[1..], done + [rest[0]]);
    }
  }

  lemma OnePartMore(done: string, rest: string, more: seq<string>)
    requires EndsAtSeparatorSoFar(done, rest) && SEPARATOR <= rest && SplitInto(rest[|SEPARATOR|..], more)
    ensures SplitInto(done + rest, [done] + more) && ([done] + more)[|more|] == more[|more| - 1]
  {
    var behind := rest[|SEPARATOR|..];
    JoinedFront(done, more);
    assert rest == SEPARATOR + behind;
    assert done + rest == done + SEPARATOR + behind;
    PartEnds(done, rest);
  }

  /** No separator begins within what has been passed. */
  predicate EndsAtSeparatorSoFar(done: string, rest: string) {
    forall i :: 0 <= i < |done| ==> !(SEPARATOR <= (done + rest)[i..])
  }

  lemma OneFurther(done: string, rest: string)
    requires EndsAtSeparatorSoFar(done, rest) && |rest| >= |SEPARATOR| && rest[..|SEPARATOR|] != SEPARATOR
    ensures EndsAtSeparatorSoFar(done + [rest[0]], rest[1..]) && done + [rest[0]] + rest[1..] == done + rest
  {
    assert done + [rest[0]] + rest[1..] == done + rest;
    assert (done + rest)[|done|..] == rest;
  }

  lemma StillNoSeparator(done: string, rest: string, i: nat)
    requires EndsAtSeparatorSoFar(done, rest) && i < |done| && SEPARATOR <= rest
    ensures !(SEPARATOR <= (done + SEPARATOR)[i..])
  {
    var long, short := (done + rest)[i..], (done + SEPARATOR)[i..];
    assert rest == SEPARATOR + rest[|SEPARATOR|..];
    assert long == short + rest[|SEPARATOR|..];
  }

  lemma JoinedFront(part: string, more: seq<string>)
    requires more != []
    ensures JoinedBy([part] + more) == part + SEPARATOR + JoinedBy(more)
    ensures ([part] + more)[|more|] == more[|more| - 1] && forall i :: 0 < i < |more| ==> ([part] + more)[i] == more[i - 1]
  {
    assert ([part] + more)[1..] == more;
  }

  lemma PartEnds(done: string, rest: string)
    requires EndsAtSeparatorSoFar(done, rest) && SEPARATOR <= rest
    ensures EndsAtSeparator(done)
  {
    forall i | 0 <= i < |done| ensures !(SEPARATOR <= (done + SEPARATOR)[i..]) {
      StillNoSeparator(done, rest, i);
    }
  }

  lemma NothingInTheRest(done: string, rest: string)
    requires EndsAtSeparatorSoFar(done, rest) && |rest| < |SEPARATOR|
    ensures NoSeparator(done + rest)
  {
  }

  /** The last of the parts that splitting a name at its separators, from the left, gives. */
  lemma LastSegmentIsLastPart(name: string) returns (parts: seq<string>)
    ensures SplitInto(name, parts) && LastSegment(name) == parts[|parts| - 1]
  {
    assert "" + name == name;
    parts := SplitAtSeparators(name, "");
  }

  /** Length in bytes, as Go's `len` has it. */
  function Bytes(s: string): nat {
    if s == "" then 0
    else
      var c := s[0];
      (if c < '\U{0080}' then 1 else if c < '\U{0800}' then 2 else if c < '\U{10000}' then 3 else 4) + Bytes(s[1..])
  }

  /** One byte for an ASCII character, two to four for any other; a longer text has more. */
  lemma {:induction false} BytesAreCounted(a: string, b: string)
    ensures Bytes(a + b) == Bytes(a) + Bytes(b)
    ensures |a| <= Bytes(a) <= 4 * |a|
    ensures Bytes(a) == |a| <==> forall i :: 0 <= i < |a| ==> a[i] < '\U{0080}'
  {
    if a == "" {
      assert a + b == b;
    } else {
      assert (a + b)[1..] == a[1..] + b;
      BytesAreCounted(a[1..], b);
      if Bytes(a[1..]) == |a[1..]| && a[0] < '\U{0080}' {
        forall i | 0 <= i < |a| ensures a[i] < '\U{0080}' {
          assert i > 0 ==> a[i] == a[1..][i - 1];
        }
      }
      if forall i :: 0 <= i < |a| ==> a[i] < '\U{0080}' {
        assert forall i :: 0 <= i < |a[1..]| ==> a[1..][i] == a[i + 1];
      }
    }
  }

  function Combine(a: Failure, b: Failure): Failure {
    Failure(
      if Bytes(b.testName) > Bytes(a.testName) then b.testName else a.testName,
      if Bytes(b.message) > Bytes(a.message) then b.message else a.message,
      if a.stackTrace == "" then b.stackTrace else a.stackTrace,
      if a.screenshotKey == "" then b.screenshotKey else a.screenshotKey,
      if a.category == ImplementationDefect then b.category else a.category)
  }

  /** The first position of a failure with this key. */
  function Position(fs: seq<Failure>, key: string): (i: nat)
    ensures i <= |fs| && (i < |fs| ==> Key(fs[i].testName) == key)
    ensures forall j :: 0 <= j < i ==> Key(fs[j].testName) != key
  {
    if fs == [] || Key(fs[0].testName) == key then 0 else 1 + Position(fs[1..], key)
  }

  function Absorb(out: seq<Failure>, f: Failure): seq<Failure> {
    var i := Position(out, Key(f.testName));
    if i < |out| then out[i := Combine(out[i], f)] else out + [f]
  }

  /** The failures folded together key by key, in order of first appearance. */
  function Merged(fs: seq<Failure>): seq<Failure> {
    if fs == [] then [] else Absorb(Merged(fs[..|fs| - 1]), fs[|fs| - 1])
  }

  ghost predicate KeysDiffer(fs: seq<Failure>) {
    forall i, j :: 0 <= i < j < |fs| ==> Key(fs[i].testName) != Key(fs[j].testName)
  }

  lemma AbsorbKeepsKeys(out: seq<Failure>, f: Failure)
    requires KeysDiffer(out)
    ensures KeysDiffer(Absorb(out, f))
    ensures |out| <= |Absorb(out, f)| && forall i :: 0 <= i < |out| ==> Key(Absorb(out, f)[i].testName) == Key(out[i].testName)
  {
  }

  lemma {:induction false} MergedKeysDiffer(fs: seq<Failure>)
    ensures KeysDiffer(Merged(fs))
  {
    if fs != [] {
      MergedKeysDiffer(fs[..|fs| - 1]);
      AbsorbKeepsKeys(Merged(fs[..|fs| - 1]), fs[|fs| - 1]);
    }
  }

  /** The entry is as rich as a failure: of the same key, with a name and a message at least as long,
      and with a stack and a screenshot if it has them. */
  ghost predicate Covers(entry: Failure, f: Failure) {
    && Key(entry.testName) == Key(f.testName)
    && Bytes(f.testName) <= Bytes(entry.testName) && Bytes(f.message) <= Bytes(entry.message)
    && (f.stackTrace != "" ==> entry.stackTrace != "") && (f.screenshotKey != "" ==> entry.screenshotKey != "")
    && (f.category != ImplementationDefect ==> entry.category != ImplementationDefect)
  }

  /** Every failure is covered by an entry. */
  lemma {:induction false} MergedCovers(fs: seq<Failure>, k: nat) returns (i: nat)
    requires k < |fs|
    ensures i < |Merged(fs)| && Covers(Merged(fs)[i], fs[k])
  {
    var last := |fs| - 1;
    var out := Merged(fs[..last]);
    if k == last {
      i := Position(out, Key(fs[k].testName));
    } else {
      i := MergedCovers(fs[..last], k);
    }
  }

  // what an entry is made of

  ghost predicate Longest(fs: seq<Failure>, key: string, part: Failure -> string, value: string) {
    exists n :: 0 <= n < |fs| && LongestAt(fs, key, part, n) && part(fs[n]) == value
  }

  /** The first of the longest among the failures of one key. */
  ghost predicate LongestAt(fs: seq<Failure>, key: string, part: Failure -> string, n: nat)
    requires n < |fs|
  {
    && Key(fs[n].testName) == key
    && forall m :: 0 <= m < |fs| && Key(fs[m].testName) == key ==>
         if m < n then Bytes(part(fs[m])) < Bytes(part(fs[n])) else Bytes(part(fs[m])) <= Bytes(part(fs[n]))
  }

  /** The first among the failures of one key that has any; the blank if none has. */
  ghost predicate FirstWith<T>(fs: seq<Failure>, key: string, part: Failure -> T, blank: T, value: T) {
    if value == blank then forall m :: 0 <= m < |fs| && Key(fs[m].testName) == key ==> part(fs[m]) == blank
    else exists n :: 0 <= n < |fs| && FirstAt(fs, key, part, blank, n) && part(fs[n]) == value
  }

  ghost predicate FirstAt<T>(fs: seq<Failure>, key: string, part: Failure -> T, blank: T, n: nat)
    requires n < |fs|
  {
    Key(fs[n].testName) == key && forall m :: 0 <= m < n && Key(fs[m].testName) == key ==> part(fs[m]) == blank
  }

  lemma LongestOfOneMore(fs: seq<Failure>, f: Failure, key: string, part: Failure -> string, value: string)
    requires Longest(fs, key, part, value)
    ensures Longest(fs + [f], key, part, if Key(f.testName) == key && Bytes(part(f)) > Bytes(value) then part(f) else value)
  {
    var n :| 0 <= n < |fs| && LongestAt(fs, key, part, n) && part(fs[n]) == value;
    var more := fs + [f];
    var k := if Key(f.testName) == key && Bytes(part(f)) > Bytes(value) then |fs| else n;
    assert LongestAt(more, key, part, k);
  }

  lemma FirstOfOneMore<T>(fs: seq<Failure>, f: Failure, key: string, part: Failure -> T, blank: T, value: T)
    requires FirstWith(fs, key, part, blank, value)
    ensures FirstWith(fs + [f], key, part, blank, if Key(f.testName) == key && value == blank then part(f) else value)
  {
    var more := fs + [f];
    if value != blank {
      var n :| 0 <= n < |fs| && FirstAt(fs, key, part, blank, n) && part(fs[n]) == value;
      assert FirstAt(more, key, part, blank, n) && more[n] == fs[n];
    } else if Key(f.testName) == key && part(f) != blank {
      assert FirstAt(more, key, part, blank, |fs|) && more[|fs|] == f;
    }
  }

  /** An entry is what its group of failures has to offer: the longest name and message, the first
      stack and screenshot, the first category that is no defect. */
  ghost predicate Richest(fs: seq<Failure>, e: Failure) {
    var key := Key(e.testName);
    && Longest(fs, key, (f: Failure) => f.testName, e.testName) && Longest(fs, key, (f: Failure) => f.message, e.message)
    && FirstWith(fs, key, (f: Failure) => f.stackTrace, "", e.stackTrace)
    && FirstWith(fs, key, (f: Failure) => f.screenshotKey, "", e.screenshotKey)
    && FirstWith(fs, key, (f: Failure) => f.category, ImplementationDefect, e.category)
  }

  lemma RichestOfOneMore(fs: seq<Failure>, f: Failure, e: Failure)
    requires Richest(fs, e)
    ensures Richest(fs + [f], if Key(f.testName) == Key(e.testName) then Combine(e, f) else e)
  {
    var key := Key(e.testName);
    LongestOfOneMore(fs, f, key, (f: Failure) => f.testName, e.testName);
    LongestOfOneMore(fs, f, key, (f: Failure) => f.message, e.message);
    FirstOfOneMore(fs, f, key, (f: Failure) => f.stackTrace, "", e.stackTrace);
    FirstOfOneMore(fs, f, key, (f: Failure) => f.screenshotKey, "", e.screenshotKey);
    FirstOfOneMore(fs, f, key, (f: Failure) => f.category, ImplementationDefect, e.category);
  }

  lemma RichestAlone(fs: seq<Failure>, f: Failure)
    requires forall k :: 0 <= k < |fs| ==> Key(fs[k].testName) != Key(f.testName)
    ensures Richest(fs + [f], f)
  {
    var more, key, n := fs + [f], Key(f.testName), |fs|;
    assert more[n] == f;
    assert LongestAt(more, key, (f: Failure) => f.testName, n) && LongestAt(more, key, (f: Failure) => f.message, n);
    assert FirstAt(more, key, (f: Failure) => f.stackTrace, "", n) && FirstAt(more, key, (f: Failure) => f.screenshotKey, "", n);
    assert FirstAt(more, key, (f: Failure) => f.category, ImplementationDefect, n);
  }

  lemma {:induction false} EntriesAreRichest(fs: seq<Failure>, i: nat)
    requires i < |Merged(fs)|
    ensures Richest(fs, Merged(fs)[i])
  {
    var front, f := fs[..|fs| - 1], fs[|fs| - 1];
    var out := Merged(front);
    assert front + [f] == fs;
    var p := Position(out, Key(f.testName));
    if i < |out| {
      EntriesAreRichest(front, i);
      MergedKeysDiffer(front);
      RichestOfOneMore(front, f, out[i]);
    } else {
      KeyIsNew(front, f);
      RichestAlone(front, f);
    }
  }

  lemma KeyIsNew(front: seq<Failure>, f: Failure)
    requires Position(Merged(front), Key(f.testName)) == |Merged(front)|
    ensures forall k :: 0 <= k < |front| ==> Key(front[k].testName) != Key(f.testName)
  {
    forall k | 0 <= k < |front| ensures Key(front[k].testName) != Key(f.testName) {
      var j := MergedCovers(front, k);
    }
  }

  /** Two failures go into one entry exactly when the titles have the same words. */
  lemma ShareEntryIff(fs: seq<Failure>, j: nat, k: nat) returns (a: nat, b: nat)
    requires j < |fs| && k < |fs|
    ensures a < |Merged(fs)| && Covers(Merged(fs)[a], fs[j]) && b < |Merged(fs)| && Covers(Merged(fs)[b], fs[k])
    ensures a == b <==> TitleWords(fs[j].testName) == TitleWords(fs[k].testName)
  {
    a := MergedCovers(fs, j);
    b := MergedCovers(fs, k);
    MergedKeysDiffer(fs);
    SameKeyIff(fs[j].testName, fs[k].testName);
  }

  /** Entries stand in the order in which their keys first appear. */
  ghost predicate AppearsBefore(fs: seq<Failure>, early: string, late: string) {
    exists k :: 0 <= k < |fs| && Key(fs[k].testName) == early && forall m :: 0 <= m <= k ==> Key(fs[m].testName) != late
  }

  lemma {:induction false} MergedInOrder(fs: seq<Failure>, i: nat, j: nat)
    requires i < j < |Merged(fs)|
    ensures AppearsBefore(fs, Key(Merged(fs)[i].testName), Key(Merged(fs)[j].testName))
  {
    var front, f := fs[..|fs| - 1], fs[|fs| - 1];
    var out := Merged(front);
    assert front + [f] == fs;
    MergedKeysDiffer(front);
    AbsorbKeepsKeys(out, f);
    if j < |out| {
      MergedInOrder(front, i, j);
      StillAppearsBefore(front, f, Key(out[i].testName), Key(out[j].testName));
    } else {
      LastEntryIsNew(front, f, i);
    }
  }

  lemma StillAppearsBefore(front: seq<Failure>, f: Failure, early: string, late: string)
    requires AppearsBefore(front, early, late)
    ensures AppearsBefore(front + [f], early, late)
  {
    var k :| 0 <= k < |front| && Key(front[k].testName) == early && forall m :: 0 <= m <= k ==> Key(front[m].testName) != late;
    var more := front + [f];
    assert more[k] == front[k] && forall m :: 0 <= m <= k ==> more[m] == front[m];
  }

  lemma LastEntryIsNew(front: seq<Failure>, f: Failure, i: nat)
    requires i < |Merged(front)| && Position(Merged(front), Key(f.testName)) == |Merged(front)|
    ensures AppearsBefore(front + [f], Key(Merged(front)[i].testName), Key(f.testName))
  {
    var n, _ := MergedIsMadeOf(front, i);
    var more := front + [f];
    forall m | 0 <= m <= n ensures Key(more[m].testName) != Key(f.testName) {
      var q := MergedCovers(front, m);
      assert more[m] == front[m];
    }
    assert more[n] == front[n];
  }

  /** An entry takes each of its parts from a failure of its own key: it makes nothing up. */
  lemma {:induction false} MergedIsMadeOf(fs: seq<Failure>, i: nat) returns (n: nat, m: nat)
    requires i < |Merged(fs)|
    ensures n < |fs| && fs[n].testName == Merged(fs)[i].testName
    ensures m < |fs| && fs[m].message == Merged(fs)[i].message && Key(fs[m].testName) == Key(Merged(fs)[i].testName)
  {
    var last := |fs| - 1;
    var out, f := Merged(fs[..last]), fs[last];
    var p := Position(out, Key(f.testName));
    if i < |out| {
      n, m := MergedIsMadeOf(fs[..last], i);
      if i == p {
        if Bytes(f.testName) > Bytes(out[i].testName) {
          n := last;
        }
        if Bytes(f.message) > Bytes(out[i].message) {
          m := last;
        }
      }
    } else {
      n, m := last, last;
    }
  }

  ghost predicate Indexes(at: map<string, nat>, out: seq<Failure>) {
    && (forall key :: key in at ==> at[key] < |out| && Key(out[at[key]].testName) == key)
    && (forall i :: 0 <= i < |out| ==> Key(out[i].testName) in at)
  }

  lemma IndexGrows(at: map<string, nat>, out: seq<Failure>, f: Failure)
    requires KeysDiffer(out) && Indexes(at, out)
    ensures var key := Key(f.testName);
      if key in at then at[key] < |out| && Absorb(out, f) == out[at[key] := Combine(out[at[key]], f)] && Indexes(at, Absorb(out, f))
      else Absorb(out, f) == out + [f] && Indexes(at[key := |out|], out + [f])
  {
    var key := Key(f.testName);
    var p := Position(out, key);
    if key in at {
      assert p == at[key];
      AbsorbKeepsKeys(out, f);
    }
  }

  /** `merge`, with its index of keys. */
  method Merge(fs: seq<Failure>) returns (out: seq<Failure>)
    ensures out == Merged(fs)
  {
    out := [];
    var at: map<string, nat> := map[];
    for k := 0 to |fs|
      invariant out == Merged(fs[..k]) && Indexes(at, out)
    {
      assert fs[..k + 1][..k] == fs[..k];
      var f := fs[k];
      var key := Key(f.testName);
      MergedKeysDiffer(fs[..k]);
      IndexGrows(at, out, f);
      if key !in at {
        at := at[key := |out|];
        out := out + [f];
      } else {
        out := out[at[key] := Combine(out[at[key]], f)];
      }
    }
    assert fs[..|fs|] == fs;
  }

  // ---- the names to narrow to ----

  predicate HasName(fs: seq<Failure>, name: string) {
    exists i :: 0 <= i < |fs| && fs[i].testName == name
  }

  /** `failedTests`: the names in order of first appearance, once each, blanks left out. */
  function NamesOf(fs: seq<Failure>): seq<string> {
    if fs == [] then []
    else
      var before, name := NamesOf(fs[..|fs| - 1]), fs[|fs| - 1].testName;
      if name == "" || name in before then before else before + [name]
  }

  method FailedTests(fs: seq<Failure>) returns (out: seq<string>)
    ensures out == NamesOf(fs)
  {
    out := [];
    var seen: set<string> := {};
    for k := 0 to |fs|
      invariant out == NamesOf(fs[..k])
      invariant forall n :: n in seen <==> n in out
    {
      assert fs[..k + 1][..k] == fs[..k];
      var name := fs[k].testName;
      if name == "" || name in seen {
        continue;
      }
      seen := seen + {name};
      out := out + [name];
    }
    assert fs[..|fs|] == fs;
  }

  lemma {:induction false} NamesOfMembers(fs: seq<Failure>, name: string)
    ensures name in NamesOf(fs) <==> name != "" && HasName(fs, name)
  {
    if fs != [] {
      var front := fs[..|fs| - 1];
      NamesOfMembers(front, name);
      if HasName(fs, name) && fs[|fs| - 1].testName != name {
        var i :| 0 <= i < |fs| && fs[i].testName == name;
        assert front[i].testName == name;
      }
      if HasName(front, name) {
        var i :| 0 <= i < |front| && front[i].testName == name;
        assert fs[i].testName == name;
      }
    }
  }

  /** Each name stands once, where it first appeared. */
  lemma {:induction false} NamesInOrder(fs: seq<Failure>, i: nat, j: nat)
    requires i < j < |NamesOf(fs)|
    ensures exists k :: 0 <= k < |fs| && fs[k].testName == NamesOf(fs)[i] && forall m :: 0 <= m <= k ==> fs[m].testName != NamesOf(fs)[j]
  {
    var front := fs[..|fs| - 1];
    if j < |NamesOf(front)| {
      NamesInOrder(front, i, j);
      var k :| 0 <= k < |front| && front[k].testName == NamesOf(front)[i] && forall m :: 0 <= m <= k ==> front[m].testName != NamesOf(front)[j];
      assert fs[k] == front[k] && forall m :: 0 <= m <= k ==> fs[m] == front[m];
    } else {
      var early, late := NamesOf(fs)[i], NamesOf(fs)[j];
      NamesOfMembers(front, early);
      NamesOfMembers(front, late);
      var k :| 0 <= k < |front| && front[k].testName == early;
      forall m | 0 <= m <= k ensures fs[m].testName != late {
        assert fs[m] == front[m];
        assert fs[m].testName == late ==> HasName(front, late);
      }
      assert fs[k] == front[k];
    }
  }

  /** Every reported name is among the names to re-run exactly when none is blank and no two
      different names have the same key: merging drops the shorter of two names. */
  ghost predicate NamesAreFaithful(fs: seq<Failure>) {
    && (forall i :: 0 <= i < |fs| ==> fs[i].testName != "")
    && (forall i, j :: 0 <= i < |fs| && 0 <= j < |fs| && Key(fs[i].testName) == Key(fs[j].testName) ==> fs[i].testName == fs[j].testName)
  }

  ghost predicate AllNamed(fs: seq<Failure>, only: seq<string>) {
    forall i :: 0 <= i < |fs| ==> fs[i].testName in only
  }

  lemma NamedAtEntry(fs: seq<Failure>, name: string) returns (i: nat)
    requires name in NamesOf(Merged(fs))
    ensures name != "" && i < |Merged(fs)| && Merged(fs)[i].testName == name
  {
    NamesOfMembers(Merged(fs), name);
    i :| 0 <= i < |Merged(fs)| && Merged(fs)[i].testName == name;
  }

  lemma FaithfulIfNamed(fs: seq<Failure>)
    requires AllNamed(fs, NamesOf(Merged(fs)))
    ensures NamesAreFaithful(fs)
  {
    forall i | 0 <= i < |fs| ensures fs[i].testName != "" {
      var _ := NamedAtEntry(fs, fs[i].testName);
    }
    forall i, j | 0 <= i < |fs| && 0 <= j < |fs| && Key(fs[i].testName) == Key(fs[j].testName)
      ensures fs[i].testName == fs[j].testName
    {
      var a := NamedAtEntry(fs, fs[i].testName);
      var b := NamedAtEntry(fs, fs[j].testName);
      MergedKeysDiffer(fs);
    }
  }

  lemma NamedIfFaithful(fs: seq<Failure>)
    requires NamesAreFaithful(fs)
    ensures AllNamed(fs, NamesOf(Merged(fs)))
  {
    forall k | 0 <= k < |fs| ensures fs[k].testName in NamesOf(Merged(fs)) {
      var i := MergedCovers(fs, k);
      var n, m := MergedIsMadeOf(fs, i);
      assert Merged(fs)[i].testName == fs[k].testName;
      NamesOfMembers(Merged(fs), fs[k].testName);
    }
  }

  lemma NarrowingIsFaithfulIff(fs: seq<Failure>)
    ensures AllNamed(fs, NamesOf(Merged(fs))) <==> NamesAreFaithful(fs)
    ensures NamesAreFaithful(fs) <==>
              && (forall i :: 0 <= i < |fs| ==> fs[i].testName != "")
              && (forall i, j :: 0 <= i < |fs| && 0 <= j < |fs| && TitleWords(fs[i].testName) == TitleWords(fs[j].testName) ==>
                    fs[i].testName == fs[j].testName)
  {
    forall i, j | 0 <= i < |fs| && 0 <= j < |fs|
      ensures Key(fs[i].testName) == Key(fs[j].testName) <==> TitleWords(fs[i].testName) == TitleWords(fs[j].testName)
    {
      SameKeyIff(fs[i].testName, fs[j].testName);
    }
    if NamesAreFaithful(fs) {
      NamedIfFaithful(fs);
    } else if AllNamed(fs, NamesOf(Merged(fs))) {
      FaithfulIfNamed(fs);
    }
  }

  /** No character of the name is, or lowers to, a Latin letter or a digit. */
  predicate Foreign(s: string) {
    forall i :: 0 <= i < |s| ==> !Naming.Alnum(Naming.LowerChar(s[i]))
  }

  lemma {:induction false} ForeignSegment(rest: string, segment: string)
    requires Foreign(rest) && Foreign(segment)
    ensures Foreign(LastSegmentFrom(rest, segment))
    decreases |rest|
  {
    if |rest| >= |SEPARATOR| {
      if rest[..|SEPARATOR|] == SEPARATOR {
        ForeignSegment(rest[|SEPARATOR|..], rest[|SEPARATOR|..]);
      } else {
        ForeignSegment(rest[1..], segment);
      }
    }
  }

  lemma {:induction false} AllBadIsSkipped(s: string, bad: char -> bool)
    requires forall i :: 0 <= i < |s| ==> bad(s[i])
    ensures Naming.SkipRun(s, bad) == ""
  {
    if s != "" {
      AllBadIsSkipped(s[1..], bad);
    }
  }

  /** All names without a Latin letter or digit share one key, so two of them are never both re-run. */
  lemma ForeignNamesCollide(name: string)
    requires Foreign(name)
    ensures Key(name) == ""
  {
    ForeignSegment(name, name);
    var low, bad := Naming.Lower(LastSegment(name)), (c: char) => !Naming.Alnum(c);
    if low != "" {
      AllBadIsSkipped(low[1..], bad);
      assert Naming.ReplaceRuns(low, bad) == "-";
      assert Naming.TrimLeft("-") == Naming.TrimLeft("");
    }
  }

  // ---- names with a suite in front ----

  lemma {:induction false} NoSeparatorLeft(rest: string, segment: string)
    requires ' ' !in rest
    ensures LastSegmentFrom(rest, segment) == segment
    decreases |rest|
  {
    if |rest| >= |SEPARATOR| {
      assert rest[..|SEPARATOR|][0] == rest[0] && SEPARATOR[0] == ' ';
      NoSeparatorLeft(rest[1..], segment);
    }
  }

  lemma {:induction false} SuiteIsPassed(suite: string, title: string, segment: string)
    requires ' ' !in suite && ' ' !in title
    ensures LastSegmentFrom(suite + SEPARATOR + title, segment) == title
    decreases |suite|
  {
    var rest := suite + SEPARATOR + title;
    if suite == "" {
      assert rest == SEPARATOR + title;
      assert rest[..|SEPARATOR|] == SEPARATOR && rest[|SEPARATOR|..] == title;
      NoSeparatorLeft(title, title);
    } else {
      assert rest[..|SEPARATOR|][0] == suite[0] && SEPARATOR[0] == ' ';
      assert rest[1..] == suite[1..] + SEPARATOR + title;
      SuiteIsPassed(suite[1..], title, segment);
    }
  }

  /** The suite in front of a title does not count. */
  lemma SameTitleSameKey(suite: string, title: string)
    requires ' ' !in suite && ' ' !in title
    ensures Key(suite + SEPARATOR + title) == Slug(title)
  {
    SuiteIsPassed(suite, title, suite + SEPARATOR + title);
  }

  lemma DifferentSuites(a: string, b: string, title: string)
    requires a != b
    ensures a + SEPARATOR + title != b + SEPARATOR + title
  {
    var x, y := a + SEPARATOR + title, b + SEPARATOR + title;
    if |a| == |b| {
      assert x[..|a|] == a && y[..|b|] == b;
    } else {
      assert |x| != |y|;
    }
  }
}
