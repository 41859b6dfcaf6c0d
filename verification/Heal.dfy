/** The self-healing loop: run the declared suites, ask for a fix while they fail, re-run what
    failed, and report a verdict. What a command prints and whether it fails is arbitrary. */
module Heal {
  import opened Orders
  import opened Failures

  const MAX_HEALING_ATTEMPTS: nat := 3
  const UNIT: string := "unit"
  const E2E: string := "e2e"

  /** The declared commands; an empty one is not declared. */
  datatype Config = Config(unitTest: seq<string>, e2eTest: seq<string>, e2eFilter: seq<string>, app: bool)

  datatype Step = Step(name: string, argv: seq<string>, output: seq<Line>, failed: bool)

  datatype Result = Result(attempt: nat, passed: bool, failures: seq<Failure>, steps: seq<Step>)

  /** One attempt as it took place: what it was narrowed to, and the commands that were run. */
  datatype Attempt = Attempt(only: seq<string>, steps: seq<Step>)

  datatype Event = TestsVerified | SelfHealingExhausted

  /** How output becomes evidence: of a single report, and of a step that named no test. */
  datatype Reading = Reading(report: Reader, whole: Reader)

  function E2eArgv(c: Config, only: seq<string>): seq<string> {
    if only == [] || c.e2eFilter == [] then c.e2eTest else c.e2eFilter + only
  }

  /** The commands an attempt is made of. */
  function Planned(c: Config, only: seq<string>): seq<(string, seq<string>)> {
    (if c.unitTest != [] && only == [] then [(UNIT, c.unitTest)] else [])
    + (if E2eArgv(c, only) != [] then [(E2E, E2eArgv(c, only))] else [])
  }

  ghost predicate Ran(steps: seq<Step>, plan: seq<(string, seq<string>)>) {
    && |steps| == |plan|
    && forall i :: 0 <= i < |steps| ==> (steps[i].name, steps[i].argv) == plan[i]
  }

  predicate NoneFailed(steps: seq<Step>) {
    forall i :: 0 <= i < |steps| ==> !steps[i].failed
  }

  predicate StepFailed(steps: seq<Step>, name: string) {
    exists i :: 0 <= i < |steps| && steps[i].name == name && steps[i].failed
  }

  // ---- evidence ----

  function ReportFailures(reports: seq<Report>, read: Reader): (fs: seq<Failure>)
    ensures |fs| == |reports| && forall i :: 0 <= i < |fs| ==> fs[i] == read(reports[i].body).(testName := reports[i].name)
  {
    seq(|reports|, i requires 0 <= i < |reports| => ToFailure(reports[i], read))
  }

  /** The failures of one step; one that names no test is itself the failure. */
  function StepFailures(s: Step, read: Reading): (fs: seq<Failure>)
    ensures s.failed <==> fs != []
    ensures s.failed && Reports(s.output) == [] ==> fs == [read.whole(s.output).(testName := s.name)]
    ensures s.failed && Reports(s.output) != [] ==>
              && |fs| == |Reports(s.output)|
              && forall i :: 0 <= i < |fs| ==> fs[i] == read.report(Reports(s.output)[i].body).(testName := Reports(s.output)[i].name)
  {
    if !s.failed then []
    else if Reports(s.output) == [] then [read.whole(s.output).(testName := s.name)]
    else ReportFailures(Reports(s.output), read.report)
  }

  function Collected(steps: seq<Step>, read: Reading): seq<Failure> {
    if steps == [] then [] else Collected(steps[..|steps| - 1], read) + StepFailures(steps[|steps| - 1], read)
  }

  /** `collectFailures`, without the screenshots looked up afterwards. */
  method CollectFailures(steps: seq<Step>, read: Reading) returns (failures: seq<Failure>)
    ensures failures == Merged(Collected(steps, read))
  {
    var out: seq<Failure> := [];
    for k := 0 to |steps|
      invariant out == Collected(steps[..k], read)
    {
      assert steps[..k + 1][..k] == steps[..k];
      if !steps[k].failed {
        continue;
      }
      var reports := ParseReports(steps[k].output);
      var parsed := ReportFailures(reports, read.report);
      if |parsed| == 0 {
        parsed := [read.whole(steps[k].output).(testName := steps[k].name)];
      }
      out := out + parsed;
    }
    assert steps[..|steps|] == steps;
    failures := Merge(out);
  }

  /** Step by step, in the order in which they were run. */
  lemma {:induction false} CollectedInOrder(a: seq<Step>, b: seq<Step>, read: Reading)
    ensures Collected(a + b, read) == Collected(a, read) + Collected(b, read)
    ensures |b| == 1 ==> Collected(b, read) == StepFailures(b[0], read)
    decreases |b|
  {
    if b == [] {
      assert a + b == a;
    } else {
      var front, last := b[..|b| - 1], b[|b| - 1];
      assert (a + b)[..|a + b| - 1] == a + front;
      CollectedInOrder(a, front, read);
      Reassociate(Collected(a, read), Collected(front, read), StepFailures(last, read));
    }
  }

  lemma NoneFailedFront(steps: seq<Step>)
    requires steps != []
    ensures NoneFailed(steps) <==> NoneFailed(steps[..|steps| - 1]) && !steps[|steps| - 1].failed
  {
  }

  /** A failed run always carries at least one failure. */
  lemma {:induction false} FailedRunHasFailures(steps: seq<Step>, read: Reading)
    ensures NoneFailed(steps) <==> Collected(steps, read) == []
  {
    if steps != [] {
      var front, last := steps[..|steps| - 1], steps[|steps| - 1];
      FailedRunHasFailures(front, read);
      NoneFailedFront(steps);
    }
  }

  lemma MergedEmptyIff(fs: seq<Failure>)
    ensures Merged(fs) == [] <==> fs == []
  {
    if fs != [] {
      var i := MergedCovers(fs, 0);
    }
  }

  // ---- what is run next ----

  /** `nextOnly`: everything after a failed unit suite, else the names of the failed tests. */
  function NextOnly(r: Result): seq<string> {
    if StepFailed(r.steps, UNIT) then [] else NamesOf(r.failures)
  }

  method DecideNext(r: Result) returns (only: seq<string>)
    ensures only == NextOnly(r)
  {
    for k := 0 to |r.steps|
      invariant forall i :: 0 <= i < k ==> !(r.steps[i].name == UNIT && r.steps[i].failed)
    {
      if r.steps[k].name == UNIT && r.steps[k].failed {
        return [];
      }
    }
    only := FailedTests(r.failures);
  }

  // ---- sessions ----

  function LastStep(steps: seq<Step>, name: string): Option<Step> {
    if steps == [] then None
    else if steps[|steps| - 1].name == name then Some(steps[|steps| - 1])
    else LastStep(steps[..|steps| - 1], name)
  }

  /** The last execution of a suite in a session. */
  function LastRun(session: seq<Attempt>, name: string): Option<Step> {
    if session == [] then None
    else
      var last := LastStep(session[|session| - 1].steps, name);
      if last.Some? then last else LastRun(session[..|session| - 1], name)
  }

  predicate Succeeded(s: Option<Step>) {
    s.Some? && !s.value.failed
  }

  /** Where a step stands in a session: in which attempt, and where in it. */
  ghost predicate RunAt(session: seq<Attempt>, i: nat, j: nat, name: string) {
    i < |session| && j < |session[i].steps| && session[i].steps[j].name == name
  }

  lemma {:induction false} LastStepIsLast(steps: seq<Step>, name: string) returns (j: nat)
    ensures var last := LastStep(steps, name);
      if last.None? then forall k :: 0 <= k < |steps| ==> steps[k].name != name
      else j < |steps| && steps[j] == last.value && steps[j].name == name && forall k :: j < k < |steps| ==> steps[k].name != name
  {
    j := 0;
    if steps != [] {
      var n := |steps| - 1;
      if steps[n].name == name {
        j := n;
      } else {
        j := LastStepIsLast(steps[..n], name);
        assert forall k :: 0 <= k < n ==> steps[..n][k] == steps[k];
      }
    }
  }

  /** The last run of a suite is a step of that name with none of that name behind it. */
  lemma {:induction false} LastRunIsLast(session: seq<Attempt>, name: string) returns (i: nat, j: nat)
    ensures var last := LastRun(session, name);
      if last.None? then forall x: nat, y: nat :: !RunAt(session, x, y, name)
      else
        && RunAt(session, i, j, name) && session[i].steps[j] == last.value
        && forall x: nat, y: nat :: RunAt(session, x, y, name) ==> x < i || (x == i && y <= j)
  {
    i, j := 0, 0;
    if session != [] {
      var n := |session| - 1;
      var last := LastStep(session[n].steps, name);
      j := LastStepIsLast(session[n].steps, name);
      if last.Some? {
        i := n;
      } else {
        i, j := LastRunIsLast(session[..n], name);
        forall x: nat, y: nat | RunAt(session, x, y, name) ensures RunAt(session[..n], x, y, name) {
          assert session[..n][..] == session[..n];
        }
        assert forall x: nat, y: nat :: RunAt(session[..n], x, y, name) ==> RunAt(session, x, y, name);
      }
    }
  }

  /** The last execution of every declared suite succeeded, and ran the declared command: for the E2E
      suite as a whole, or its filter on some tests. */
  predicate Verified(c: Config, session: seq<Attempt>) {
    && (c.unitTest != [] ==> Succeeded(LastRun(session, UNIT)) && LastRun(session, UNIT).value.argv == c.unitTest)
    && (c.e2eTest != [] ==>
          && Succeeded(LastRun(session, E2E))
          && var argv := LastRun(session, E2E).value.argv;
             argv == c.e2eTest || (c.e2eFilter != [] && c.e2eFilter < argv))
  }

  /** Every step ran the command its name stands for. */
  ghost predicate AsDeclared(c: Config, only: seq<string>, steps: seq<Step>) {
    forall i :: 0 <= i < |steps| ==>
      || (steps[i].name == "unit" && only == [] && steps[i].argv == c.unitTest != [])
      || (steps[i].name == "e2e" && steps[i].argv == (if only == [] || c.e2eFilter == [] then c.e2eTest else c.e2eFilter + only))
  }

  ghost predicate AllAsDeclared(c: Config, session: seq<Attempt>) {
    forall i :: 0 <= i < |session| ==> AsDeclared(c, session[i].only, session[i].steps)
  }

  /** A session as far as it went: the first attempt not narrowed, every step as declared. */
  ghost predicate Recorded(c: Config, session: seq<Attempt>) {
    session != [] && session[0].only == [] && AllAsDeclared(c, session)
  }

  lemma RecordedGrows(c: Config, session: seq<Attempt>, a: Attempt)
    requires AllAsDeclared(c, session) && AsDeclared(c, a.only, a.steps)
    ensures AllAsDeclared(c, session + [a])
    ensures Recorded(c, session) ==> Recorded(c, session + [a])
  {
  }

  lemma PlannedAsDeclared(c: Config, only: seq<string>, steps: seq<Step>)
    requires Ran(steps, Planned(c, only))
    ensures AsDeclared(c, only, steps)
  {
  }

  /** The result of an attempt says what was run and what came of it. */
  ghost predicate Judged(c: Config, read: Reading, only: seq<string>, r: Result) {
    && Ran(r.steps, Planned(c, only))
    && r.passed == NoneFailed(r.steps) && r.failures == Merged(Collected(r.steps, read))
  }

  /** Where a session stands after an attempt with this result. */
  ghost predicate Healing(c: Config, read: Reading, session: seq<Attempt>, r: Result) {
    && session != [] && AllAsDeclared(c, session)
    && var last := session[|session| - 1];
    && r.steps == last.steps && Judged(c, read, last.only, r)
    && (last.only != [] ==> c.e2eTest != [])
    && (c.unitTest != [] && last.only != [] ==> Succeeded(LastRun(session, UNIT)))
  }

  /** Every attempt after the first ran something. */
  ghost predicate NoneEmpty(session: seq<Attempt>) {
    forall i :: 1 <= i < |session| ==> session[i].steps != []
  }

  /** The same, together with `NoneEmpty`, as one value for the contracts below; `Unsound` is a session
      of which one of its clauses is not true. */
  datatype Standing = Sound | Unsound

  ghost function Stands(c: Config, read: Reading, session: seq<Attempt>, r: Result): Standing {
    if Healing(c, read, session, r) && NoneEmpty(session) then Sound else Unsound
  }

  lemma NoneEmptyGrows(session: seq<Attempt>, a: Attempt)
    requires NoneEmpty(session) && a.steps != []
    ensures NoneEmpty(session + [a])
  {
  }

  lemma PlanHasE2e(c: Config, only: seq<string>, steps: seq<Step>)
    requires Ran(steps, Planned(c, only))
    ensures LastStep(steps, E2E).Some? <==> E2eArgv(c, only) != []
    ensures LastStep(steps, E2E).Some? ==> LastStep(steps, E2E).value in steps
  {
  }

  lemma PlanHasUnit(c: Config, only: seq<string>, steps: seq<Step>)
    requires Ran(steps, Planned(c, only))
    ensures LastStep(steps, UNIT).Some? <==> c.unitTest != [] && only == []
    ensures LastStep(steps, UNIT).Some? ==> LastStep(steps, UNIT).value in steps && LastStep(steps, UNIT).value.name == UNIT
  {
  }

  /** If not the unit suite, it was the E2E suite that failed, the last to be run. */
  lemma WhatFailed(c: Config, only: seq<string>, steps: seq<Step>)
    requires Ran(steps, Planned(c, only)) && !NoneFailed(steps) && !StepFailed(steps, UNIT)
    ensures steps != [] && steps[|steps| - 1].failed && steps[|steps| - 1].name == E2E && NoneFailed(steps[..|steps| - 1])
    ensures E2eArgv(c, only) != []
  {
  }

  lemma LastRunOfOneMore(session: seq<Attempt>, a: Attempt, name: string)
    ensures LastRun(session + [a], name) ==
              if LastStep(a.steps, name).Some? then LastStep(a.steps, name) else LastRun(session, name)
  {
    assert (session + [a])[..|session|] == session;
  }

  /** A pass is a verification: no suite that failed is left without a successful re-run. */
  lemma PassedMeansVerified(c: Config, read: Reading, session: seq<Attempt>, r: Result)
    requires Healing(c, read, session, r) && r.passed
    ensures Verified(c, session)
  {
    var last := session[|session| - 1];
    PlanHasUnit(c, last.only, last.steps);
    PlanHasE2e(c, last.only, last.steps);
    if c.unitTest != [] {
      LastRunAsDeclared(c, session, UNIT);
    }
    if c.e2eTest != [] {
      LastRunAsDeclared(c, session, E2E);
    }
  }

  lemma LastRunAsDeclared(c: Config, session: seq<Attempt>, name: string)
    requires AllAsDeclared(c, session) && LastRun(session, name).Some?
    ensures var argv := LastRun(session, name).value.argv;
      if name == UNIT then argv == c.unitTest
      else name == E2E && (argv == c.e2eTest || (c.e2eFilter != [] && c.e2eFilter < argv))
  {
    var i, j := LastRunIsLast(session, name);
    assert AsDeclared(c, session[i].only, session[i].steps);
  }

  lemma FirstAttempt(c: Config, read: Reading, r: Result)
    requires Judged(c, read, [], r)
    ensures Stands(c, read, [Attempt([], r.steps)], r) == Sound
  {
    PlannedAsDeclared(c, [], r.steps);
  }

  /** A unit suite that did not fail now has a last run that succeeded. */
  lemma UnitIsSettled(c: Config, read: Reading, session: seq<Attempt>, r: Result)
    requires Healing(c, read, session, r) && !StepFailed(r.steps, UNIT) && c.unitTest != []
    ensures Succeeded(LastRun(session, UNIT))
  {
    var last := session[|session| - 1];
    PlanHasUnit(c, last.only, last.steps);
  }

  /** The E2E suite can only fail if it is declared. */
  lemma E2eIsDeclared(c: Config, read: Reading, session: seq<Attempt>, r: Result)
    requires Healing(c, read, session, r) && !r.passed && !StepFailed(r.steps, UNIT)
    ensures c.e2eTest != []
  {
    WhatFailed(c, session[|session| - 1].only, r.steps);
  }

  lemma UnitIsDeclared(c: Config, only: seq<string>, steps: seq<Step>)
    requires Ran(steps, Planned(c, only)) && StepFailed(steps, UNIT)
    ensures c.unitTest != []
  {
  }

  lemma PlanIsNotEmpty(c: Config, only: seq<string>, steps: seq<Step>)
    requires Ran(steps, Planned(c, only)) && (c.e2eTest != [] || (c.unitTest != [] && only == []))
    ensures steps != []
  {
  }

  /** A failed unit suite is run again in full; otherwise it was the E2E suite that failed, so a
      narrowed attempt has something to run, and the unit suite's last run was a success. */
  lemma NextAttempt(c: Config, read: Reading, session: seq<Attempt>, r: Result, r': Result)
    requires Healing(c, read, session, r) && !r.passed && Judged(c, read, NextOnly(r), r')
    ensures Healing(c, read, session + [Attempt(NextOnly(r), r'.steps)], r')
    ensures r'.steps != []
  {
    var only := NextOnly(r);
    var session' := session + [Attempt(only, r'.steps)];
    assert session'[|session'| - 1] == Attempt(only, r'.steps);
    if StepFailed(r.steps, UNIT) {
      UnitIsDeclared(c, session[|session| - 1].only, r.steps);
    } else {
      E2eIsDeclared(c, read, session, r);
      if c.unitTest != [] {
        UnitIsSettled(c, read, session, r);
      }
    }
    PlannedAsDeclared(c, only, r'.steps);
    RecordedGrows(c, session, Attempt(only, r'.steps));
    PlanIsNotEmpty(c, only, r'.steps);
    PlanHasUnit(c, only, r'.steps);
    LastRunOfOneMore(session, Attempt(only, r'.steps), UNIT);
  }

  lemma FailedMeansEvidence(c: Config, read: Reading, session: seq<Attempt>, r: Result)
    requires Healing(c, read, session, r) && !r.passed
    ensures r.failures != []
  {
    FailedRunHasFailures(r.steps, read);
    MergedEmptyIff(Collected(r.steps, read));
  }

  // ---- does the next attempt run everything that failed? ----

  /** What an attempt narrowed to `only` runs of the E2E suite is all of it. */
  predicate RunsWholeSuite(c: Config, only: seq<string>) {
    only == [] || c.e2eFilter == []
  }

  lemma WholeSuiteIsPlanned(c: Config, only: seq<string>)
    ensures RunsWholeSuite(c, only) ==> E2eArgv(c, only) == c.e2eTest
    ensures !RunsWholeSuite(c, only) ==> E2eArgv(c, only)[|c.e2eFilter|..] == only
  {
  }

  /** The next attempt covers what the failed suite reported: it runs the whole suite, or every test
      the suite named, of which there is at least one. */
  ghost predicate Rechecks(c: Config, reports: seq<Report>, only: seq<string>) {
    RunsWholeSuite(c, only) || AllReported(reports, only)
  }

  ghost predicate AllReported(reports: seq<Report>, only: seq<string>) {
    reports != [] && forall i :: 0 <= i < |reports| ==> reports[i].name in only
  }

  /** All names are blank, or none is and different names have different keys. */
  ghost predicate Distinguishable(reports: seq<Report>) {
    || (forall i :: 0 <= i < |reports| ==> reports[i].name == "")
    || (&& (forall i :: 0 <= i < |reports| ==> reports[i].name != "")
        && (forall i, j :: 0 <= i < |reports| && 0 <= j < |reports| && Key(reports[i].name) == Key(reports[j].name) ==>
              reports[i].name == reports[j].name))
  }

  lemma OnlyLastCollected(steps: seq<Step>, read: Reading)
    requires steps != [] && NoneFailed(steps[..|steps| - 1])
    ensures Collected(steps, read) == StepFailures(steps[|steps| - 1], read)
  {
    FailedRunHasFailures(steps[..|steps| - 1], read);
  }

  /** The names to re-run are none exactly when every reported name is blank. */
  lemma NoNamesIff(fs: seq<Failure>)
    ensures NamesOf(Merged(fs)) == [] <==> forall i :: 0 <= i < |fs| ==> fs[i].testName == ""
  {
    var only := NamesOf(Merged(fs));
    if k :| 0 <= k < |fs| && fs[k].testName != "" {
      var i := MergedCovers(fs, k);
      assert Merged(fs)[i].testName != "";
      NamesOfMembers(Merged(fs), Merged(fs)[i].testName);
    } else if only != [] {
      var i := NamedAtEntry(fs, only[0]);
      var n, m := MergedIsMadeOf(fs, i);
    }
  }

  /** After a failed E2E suite the next attempt re-runs what the suite reported exactly when there is
      no command to narrow it with, or the suite named some test and its names are distinguishable.
      Otherwise a suite that never reached a test is re-run narrowed to its own step name, and of two
      tests with the same title only one is re-run. */
  lemma RecheckedIff(c: Config, read: Reading, only: seq<string>, r: Result)
    requires Judged(c, read, only, r) && !r.passed && !StepFailed(r.steps, UNIT)
    ensures r.steps != []
    ensures var reports := Reports(r.steps[|r.steps| - 1].output);
      Rechecks(c, reports, NextOnly(r)) <==> c.e2eFilter == [] || (reports != [] && Distinguishable(reports))
  {
    WhatFailed(c, only, r.steps);
    var e := r.steps[|r.steps| - 1];
    OnlyLastCollected(r.steps, read);
    StepRecheckedIff(e, read);
  }

  lemma StepRecheckedIff(e: Step, read: Reading)
    requires e.failed && e.name == E2E
    ensures var only := NamesOf(Merged(StepFailures(e, read)));
      only == [] || AllReported(Reports(e.output), only) <==> Reports(e.output) != [] && Distinguishable(Reports(e.output))
  {
    var fs, reports := StepFailures(e, read), Reports(e.output);
    NoNamesIff(fs);
    NarrowingIsFaithfulIff(fs);
    if reports == [] {
      assert fs[0].testName == E2E;
    } else {
      SameNames(fs, reports, NamesOf(Merged(fs)));
    }
  }

  lemma SameNames(fs: seq<Failure>, reports: seq<Report>, only: seq<string>)
    requires |fs| == |reports| > 0 && forall i :: 0 <= i < |fs| ==> fs[i].testName == reports[i].name
    ensures AllReported(reports, only) <==> AllNamed(fs, only)
    ensures Distinguishable(reports) <==> NamesAreFaithful(fs) || forall i :: 0 <= i < |fs| ==> fs[i].testName == ""
  {
    if AllNamed(fs, only) {
      forall i | 0 <= i < |reports| ensures reports[i].name in only {
        assert fs[i].testName in only;
      }
    }
    if AllReported(reports, only) {
      forall i | 0 <= i < |fs| ensures fs[i].testName in only {
        assert reports[i].name in only;
      }
    }
  }

  /** For instance: two tests of one title in different suites fail, and a filter is declared. */
  lemma SameTitleIsSkipped(c: Config, read: Reading, a: string, b: string, title: string) returns (r: Result)
    requires c.e2eTest != [] && c.e2eFilter != [] && a != b && ' ' !in a && ' ' !in b && ' ' !in title
    ensures Judged(c, read, [], r) && !r.passed && !StepFailed(r.steps, UNIT)
    ensures var reports := Reports(r.steps[|r.steps| - 1].output);
      reports == [Report(a + SEPARATOR + title, []), Report(b + SEPARATOR + title, [])] && !Rechecks(c, reports, NextOnly(r))
  {
    var x, y := a + SEPARATOR + title, b + SEPARATOR + title;
    r := E2eFails(c, read, [Marker(x), Marker(y)]);
    TwoReports(x, y);
    SameTitles(a, b, title);
    RecheckedIff(c, read, [], r);
  }

  lemma E2eFails(c: Config, read: Reading, output: seq<Line>) returns (r: Result)
    requires c.e2eTest != []
    ensures Judged(c, read, [], r) && !r.passed && !StepFailed(r.steps, UNIT)
    ensures r.steps != [] && r.steps[|r.steps| - 1].output == output
  {
    var e := Step(E2E, c.e2eTest, output, true);
    var steps := (if c.unitTest != [] then [Step(UNIT, c.unitTest, [], false)] else []) + [e];
    r := Result(1, false, Merged(Collected(steps, read)), steps);
    assert steps[|steps| - 1].failed;
  }

  lemma TwoReports(x: string, y: string)
    ensures Reports([Marker(x), Marker(y)]) == [Report(x, []), Report(y, [])]
  {
    ReportsOfOneMore([Marker(x)], Marker(y));
    ReportsOfOneMore([], Marker(x));
    assert [] + [Marker(x)] == [Marker(x)] && [Marker(x)] + [Marker(y)] == [Marker(x), Marker(y)];
  }

  lemma SameTitles(a: string, b: string, title: string)
    requires a != b && ' ' !in a && ' ' !in b && ' ' !in title
    ensures !Distinguishable([Report(a + SEPARATOR + title, []), Report(b + SEPARATOR + title, [])])
  {
    var reports := [Report(a + SEPARATOR + title, []), Report(b + SEPARATOR + title, [])];
    SameTitleSameKey(a, title);
    SameTitleSameKey(b, title);
    DifferentSuites(a, b, title);
    assert Key(reports[0].name) == Key(reports[1].name) && reports[0].name != reports[1].name && reports[0].name != "";
  }

  class Loop {
    const config: Config
    const read: Reading
    /** The attempts and the fix requests of the healing session under way. */
    ghost var session: seq<Attempt>
    ghost var requests: nat
    var notices: seq<Event>

    constructor (config: Config, read: Reading)
      ensures this.config == config && this.read == read && session == [] && requests == 0 && notices == []
    {
      this.config, this.read := config, read;
      session, requests, notices := [], 0, [];
    }

    /** `step`: run a command and keep its output; only keeping it can fail. */
    method RunStep(name: string, argv: seq<string>, steps: seq<Step>, passed: bool) returns (ok: bool, steps': seq<Step>, passed': bool)
      ensures |steps'| == |steps| + 1 && steps'[..|steps|] == steps
      ensures steps'[|steps|].name == name && steps'[|steps|].argv == argv
      ensures passed' == (passed && !steps'[|steps|].failed)
    {
      var output: seq<Line>, failed: bool := *, *;
      steps' := steps + [Step(name, argv, output, failed)];
      passed' := passed;
      if failed {
        passed' := false;
      }
      ok := *;
    }

    /** `execute`: the unit suite unless the attempt is narrowed, then the E2E suite. */
    method RunSuites(only: seq<string>) returns (ok: bool, steps: seq<Step>, passed: bool)
      ensures ok ==> Ran(steps, Planned(config, only)) && passed == NoneFailed(steps)
      ensures forall i :: 0 <= i < |steps| && steps[i].name == "unit" ==> i == 0 && only == [] && steps[i].argv == config.unitTest != []
      ensures forall i :: 0 <= i < |steps| && steps[i].name == "e2e" ==>
                i == |steps| - 1 && steps[i].argv == if only == [] || config.e2eFilter == [] then config.e2eTest else config.e2eFilter + only
      ensures forall i :: 0 <= i < |steps| ==> steps[i].name == "unit" || steps[i].name == "e2e"
      ensures ok ==>
                && (config.unitTest != [] && only == [] ==> exists i :: 0 <= i < |steps| && steps[i].name == "unit")
                && (config.e2eTest != [] || (config.e2eFilter != [] && only != []) ==> exists i :: 0 <= i < |steps| && steps[i].name == "e2e")
                && (passed <==> forall i :: 0 <= i < |steps| ==> !steps[i].failed)
    {
      steps, passed := [], true;
      ok := *;
      if !ok {
        return;
      }
      var rerun := |only| > 0;
      if config.unitTest != [] && !rerun {
        ok, steps, passed := RunStep(UNIT, config.unitTest, steps, passed);
        if !ok {
          return;
        }
      }
      ghost var before := steps;
      var e2e := E2eArgv(config, only);
      if e2e == [] {
        return;
      }
      if config.app {
        var served: bool := *;
        if !served {
          return false, steps, passed;
        }
      }
      ok, steps, passed := RunStep(E2E, e2e, steps, passed);
      assert steps == before + [steps[|before|]];
    }

    /** `Execute`, recorded as one attempt of the session. */
    method Execute(attempt: nat, only: seq<string>) returns (ok: bool, r: Result)
      modifies `session
      ensures exists steps :: AsDeclared(config, only, steps) && session == old(session) + [Attempt(only, steps)]
      ensures ok ==> session == old(session) + [Attempt(only, r.steps)] && Judged(config, read, only, r)
    {
      var steps, passed;
      ok, steps, passed := RunSuites(only);
      session := session + [Attempt(only, steps)];
      var failures := CollectFailures(steps, read);
      r := Result(attempt, passed, failures, steps);
    }

    /** Hand the evidence to the session and wait for its answer. */
    method Request() returns (ok: bool)
      modifies `requests
      ensures requests == old(requests) + 1
    {
      requests := requests + 1;
      ok := *;
    }

    /** `Heal`: at most three fix requests and four runs, none of the re-runs empty. A verdict of
        `TestsVerified` means that the last run of every declared suite in this session succeeded;
        an exhausted session ends with failures to show after all four runs. */
    method Heal() returns (ok: bool, r: Result)
      modifies `session, `requests, `notices
      ensures |session| <= 4 && requests <= 3
      ensures !ok ==> notices == old(notices)
      ensures ok ==> notices == old(notices) + if r.passed then [TestsVerified] else [SelfHealingExhausted]
      ensures ok && r.passed ==> Verified(config, session)
      ensures ok && !r.passed ==> r.failures != [] && |session| == 4 && requests == 3
      ensures ok ==> NoneEmpty(session)
      ensures Recorded(config, session)
    {
      requests := 0;
      ok, r := First();
      if !ok {
        return;
      }
      var n := 1;
      while n <= MAX_HEALING_ATTEMPTS && !r.passed
        invariant 1 <= n <= MAX_HEALING_ATTEMPTS + 1 && |session| == n && requests == n - 1
        invariant notices == old(notices)
        invariant Stands(config, read, session, r) == Sound
        invariant Recorded(config, session)
      {
        ok, r := Again(n, r);
        if !ok {
          return;
        }
        n := n + 1;
      }
      ok := true;
      Report(r);
    }

    /** The run a completed turn triggers. */
    method First() returns (ok: bool, r: Result)
      modifies `session
      ensures |session| == 1 && Recorded(config, session)
      ensures ok ==> Stands(config, read, session, r) == Sound
    {
      session := [];
      ok, r := Execute(1, []);
      if ok {
        assert session == [Attempt([], r.steps)];
        FirstAttempt(config, read, r);
      }
    }

    /** One fix request and the run that follows it. */
    method Again(n: nat, r: Result) returns (ok: bool, r': Result)
      requires Stands(config, read, session, r) == Sound && !r.passed && Recorded(config, session)
      modifies `session, `requests
      ensures requests == old(requests) + 1 && |session| <= |old(session)| + 1
      ensures Recorded(config, session)
      ensures ok ==> |session| == |old(session)| + 1 && Stands(config, read, session, r') == Sound
    {
      r' := r;
      ok := Request();
      if !ok {
        return;
      }
      var only := DecideNext(r);
      ok, r' := Execute(n + 1, only);
      RecordedGrows(config, old(session), session[|old(session)|]);
      if ok {
        NextAttempt(config, read, old(session), r, r');
        NoneEmptyGrows(old(session), Attempt(only, r'.steps));
      }
    }

    /** `report`: the verdict. */
    method Report(r: Result)
      requires Stands(config, read, session, r) == Sound
      modifies `notices
      ensures notices == old(notices) + if r.passed then [TestsVerified] else [SelfHealingExhausted]
      ensures r.passed ==> Verified(config, session)
      ensures !r.passed ==> r.failures != []
      ensures NoneEmpty(session)
    {
      if r.passed {
        PassedMeansVerified(config, read, session, r);
        notices := notices + [TestsVerified];
      } else {
        FailedMeansEvidence(config, read, session, r);
        notices := notices + [SelfHealingExhausted];
      }
    }
  }
}
