/**
  AbstractTestLinkRunListener of the surefire module: every callback asks
  selectListener which listener to forward to, the injected one when the
  test carries a TestLink marker and a do-nothing RunListener otherwise.
  The injected listener here is the XML listener (InTestLinkXmlRunListener).

  Beyond the single callbacks, this module runs whole tests and suites
  through the dispatcher, following the runner's protocol for one test
  (JUnit.TestRun), and relates the records collected to a reference record
  per marked test.  A listener that throws is dropped by the runner, so a
  suite stops at the first exception.
*/
module AbstractTestLinkRunListener {
  import opened Wrappers
  import opened JUnit
  import opened Timestamp
  import opened Dom
  import opened TestState
  import opened TestLinkId
  import SurefireTestLinkId
  import opened AbstractInTestLinkRunListener
  import opened InTestLinkXmlRunListener

  datatype Listener = InTestLink | NoTestLink

  /** selectListener: the injected listener exactly when the marker is present; the ids are not consulted. */
  function SelectListener(d: Description): (l: Listener)
    ensures l == InTestLink <==> d.testLink.Some?
  {
    if d.testLink.Some? then InTestLink else NoTestLink
  }

  // The five forwarding callbacks, on the state of the injected listener.

  function OnStarted(s: XmlState, testerName: string, d: Description, now: DateTime): (r: Step)
    requires ValidDateTime(now)
    ensures SelectListener(d) == NoTestLink ==> r == Step(s, Pass)
    ensures SelectListener(d) == InTestLink ==> r == Started(s, testerName, d, now)
  {
    match SelectListener(d)
    case InTestLink => Started(s, testerName, d, now)
    case NoTestLink => Step(s, Pass)
  }

  function OnIgnored(s: XmlState, testerName: string, d: Description, now: DateTime): (r: Step)
    requires ValidDateTime(now)
    requires d.testLink.Some? && SetsId(d.testLink.value) ==> d.ignore.Some?
    ensures SelectListener(d) == NoTestLink ==> r == Step(s, Pass)
    ensures SelectListener(d) == InTestLink ==> r == Ignored(s, testerName, d, now)
  {
    match SelectListener(d)
    case InTestLink => Ignored(s, testerName, d, now)
    case NoTestLink => Step(s, Pass)
  }

  /** Failures are dispatched on the failure's own description. */
  function OnFailure(s: XmlState, f: Failure): (r: XmlState)
    requires f.description.testLink.Some? ==> HasCurrent(s)
    ensures SelectListener(f.description) == NoTestLink ==> r == s
    ensures SelectListener(f.description) == InTestLink ==> r == TestFailed(s, f)
  {
    match SelectListener(f.description)
    case InTestLink => TestFailed(s, f)
    case NoTestLink => s
  }

  function OnAssumptionFailure(s: XmlState, f: Failure): (r: XmlState)
    requires f.description.testLink.Some? ==> HasCurrent(s)
    ensures SelectListener(f.description) == NoTestLink ==> r == s
    ensures SelectListener(f.description) == InTestLink ==> r == AssumptionFailed(s, f)
  {
    match SelectListener(f.description)
    case InTestLink => AssumptionFailed(s, f)
    case NoTestLink => s
  }

  function OnFinished(s: XmlState, d: Description): (r: XmlState)
    requires d.testLink.Some? ==> Consistent(s) && !s.failure.Unset?
    ensures SelectListener(d) == NoTestLink ==> r == s
    ensures SelectListener(d) == InTestLink ==> r == Finished(s, d)
  {
    match SelectListener(d)
    case InTestLink => Finished(s, d)
    case NoTestLink => s
  }

  /** A test without marker leaves the injected listener's records and failure slot as they were, whatever the callback. */
  lemma UnmarkedIsNoOp(s: XmlState, testerName: string, d: Description, f: Failure, now: DateTime)
    requires d.testLink.None? && f.description.testLink.None? && ValidDateTime(now)
    ensures OnStarted(s, testerName, d, now) == Step(s, Pass)
    ensures OnIgnored(s, testerName, d, now) == Step(s, Pass)
    ensures OnFailure(s, f) == s && OnAssumptionFailure(s, f) == s && OnFinished(s, d) == s
  {
  }

  /** A marker without ids is still forwarded, and the listener's exception reaches the caller. */
  lemma MarkedWithoutIdPropagates(s: XmlState, testerName: string, d: Description, now: DateTime)
    requires d.testLink.Some? && !SetsId(d.testLink.value) && ValidDateTime(now)
    ensures OnStarted(s, testerName, d, now).outcome == Fail(IllegalArgumentException(MissingIdMessage(d.displayName)))
    ensures |OnStarted(s, testerName, d, now).state.results| == |s.results| + 1
  {
  }

  /** One test, delivered by the runner as its protocol allows, through the dispatcher. */
  function RunTest(s: XmlState, testerName: string, run: TestRun): Step
    requires Legal(run) && ValidDateTime(run.start)
  {
    match run
    case Skipped(d, now) => OnIgnored(s, testerName, d, now)
    case Ran(d, now, ending) =>
      var started := OnStarted(s, testerName, d, now);
      if started.outcome.Fail? then started
      else
        var afterFailure :=
          match ending
          case Passes => started.state
          case Fails(f) => OnFailure(started.state, f)
          case AssumptionFails(f) => OnAssumptionFailure(started.state, f);
        Step(OnFinished(afterFailure, d), Pass)
  }

  /** Every run of the suite is runner-legal and happens at a representable time. */
  predicate LegalSuite(runs: seq<TestRun>)
    decreases |runs|
  {
    runs == [] || (Legal(runs[0]) && ValidDateTime(runs[0].start) && LegalSuite(runs[1..]))
  }

  /** A suite, test after test; the first exception ends it. */
  function RunSuite(s: XmlState, testerName: string, runs: seq<TestRun>): Step
    requires LegalSuite(runs)
    decreases |runs|
  {
    if runs == [] then Step(s, Pass)
    else
      var first := RunTest(s, testerName, runs[0]);
      if first.outcome.Fail? then first else RunSuite(first.state, testerName, runs[1..])
  }

  /** A marked test whose marker sets an id (the runs for which no exception is raised). */
  predicate Resolvable(run: TestRun) {
    Marked(run) ==> SetsId(run.d.testLink.value)
  }

  /** The state the record of a run reports. */
  function ExpectedState(run: TestRun): State {
    match run
    case Skipped(_, _) => Blocked
    case Ran(_, _, Passes) => Passed
    case Ran(_, _, Fails(_)) => TestState.Failed
    case Ran(_, _, AssumptionFails(_)) => Blocked
  }

  /** The notes of the record of a run. */
  function ExpectedNote(run: TestRun): string
    requires Legal(run)
  {
    match run
    case Skipped(d, _) => IgnoredNote(d.displayName, d.ignore.value)
    case Ran(d, _, Passes) => PassedNote(d.displayName)
    case Ran(_, _, Fails(f)) => FailureNote(f.TestHeader(), TestState.Failed, Reason(f))
    case Ran(_, _, AssumptionFails(f)) => FailureNote(f.TestHeader(), Blocked, Reason(f))
  }

  /**
    The reference record of a marked test: its id attribute, then tester,
    timestamp, result and notes, each exactly once.
  */
  function ExpectedRecord(testerName: string, run: TestRun): TestCase
    requires Legal(run) && ValidDateTime(run.start) && Marked(run) && Resolvable(run)
  {
    var id := FromDescription(run.d).value;
    TestCase(
      Some(Attribute(SurefireTestLinkId.GetType(id), id.IdText())),
      [ Element("tester", testerName), Element("timestamp", Format(run.start)),
        Element("result", ExpectedState(run).GetState()), Element("notes", ExpectedNote(run)) ])
  }

  /** Every run of the suite that is marked sets an id. */
  predicate ResolvableSuite(runs: seq<TestRun>)
    decreases |runs|
  {
    runs == [] || (Resolvable(runs[0]) && ResolvableSuite(runs[1..]))
  }

  /** The reference records of a suite: one per marked test, in order. */
  function Records(testerName: string, runs: seq<TestRun>): (r: seq<TestCase>)
    requires LegalSuite(runs) && ResolvableSuite(runs)
    ensures |r| <= |runs|
    decreases |runs|
  {
    if runs == [] then []
    else
      RecordOf(testerName, runs[0]) + Records(testerName, runs[1..])
  }

  /** The reference record of a run when it is marked, as a list of at most one. */
  function RecordOf(testerName: string, run: TestRun): seq<TestCase>
    requires Legal(run) && ValidDateTime(run.start) && Resolvable(run)
  {
    if Marked(run) then [ExpectedRecord(testerName, run)] else []
  }

  /** One test through the dispatcher appends its reference record when marked, and nothing otherwise. */
  lemma RunTestRecords(s: XmlState, testerName: string, run: TestRun)
    requires Legal(run) && ValidDateTime(run.start) && Resolvable(run)
    ensures RunTest(s, testerName, run).outcome.Pass?
    ensures RunTest(s, testerName, run).state.results == s.results + RecordOf(testerName, run)
  {
    if !Marked(run) {
      assert s.results + [] == s.results;
    } else if run.Skipped? {
      SkippedRecord(s, testerName, run);
    } else if run.ending.Passes? {
      PassedRecord(s, testerName, run);
    } else if run.ending.Fails? {
      FailedRecord(s, testerName, run);
    } else {
      BlockedRecord(s, testerName, run);
    }
  }

  lemma SkippedRecord(s: XmlState, testerName: string, run: TestRun)
    requires Legal(run) && ValidDateTime(run.start) && Resolvable(run) && Marked(run) && run.Skipped?
    ensures RunTest(s, testerName, run).outcome.Pass?
    ensures RunTest(s, testerName, run).state.results == s.results + [ExpectedRecord(testerName, run)]
  {
    var k := |s.results|;
    var started := Started(s, testerName, run.d, run.start).state;
    var r := Ignored(s, testerName, run.d, run.start);
    assert ExpectedState(run).GetState() == "b" && ExpectedNote(run) == IgnoredNote(run.d.displayName, run.d.ignore.value);
    ExpectedFromStart(testerName, run, started.results[k], r.state.results[k]);
    Snoc(s.results, r.state.results, ExpectedRecord(testerName, run));
  }

  lemma PassedRecord(s: XmlState, testerName: string, run: TestRun)
    requires Legal(run) && ValidDateTime(run.start) && Resolvable(run) && Marked(run) && run.Ran? && run.ending.Passes?
    ensures RunTest(s, testerName, run).outcome.Pass?
    ensures RunTest(s, testerName, run).state.results == s.results + [ExpectedRecord(testerName, run)]
  {
    var started := Started(s, testerName, run.d, run.start).state;
    assert RunTest(s, testerName, run) == Step(Finished(started, run.d), Pass);
    PassedClosed(s, testerName, run, started);
  }

  /** testFinished after a clean start completes the reference record. */
  lemma PassedClosed(s: XmlState, testerName: string, run: TestRun, started: XmlState)
    requires Legal(run) && ValidDateTime(run.start) && Resolvable(run) && Marked(run) && run.Ran? && run.ending.Passes?
    requires started == Started(s, testerName, run.d, run.start).state
    ensures Finished(started, run.d).results == s.results + [ExpectedRecord(testerName, run)]
  {
    var k := |s.results|;
    var closed := Finished(started, run.d);
    assert ExpectedState(run).GetState() == "p" && ExpectedNote(run) == PassedNote(run.d.displayName);
    ExpectedFromStart(testerName, run, started.results[k], closed.results[k]);
    ClosedRecord(s, started, closed, ExpectedRecord(testerName, run));
  }

  lemma FailedRecord(s: XmlState, testerName: string, run: TestRun)
    requires Legal(run) && ValidDateTime(run.start) && Resolvable(run) && Marked(run) && run.Ran? && run.ending.Fails?
    ensures RunTest(s, testerName, run).outcome.Pass?
    ensures RunTest(s, testerName, run).state.results == s.results + [ExpectedRecord(testerName, run)]
  {
    var started := Started(s, testerName, run.d, run.start).state;
    var failed := TestFailed(started, run.ending.failure);
    FailureRecord(s, testerName, run, started, failed);
    assert RunTest(s, testerName, run) == Step(Finished(failed, run.d), Pass);
  }

  lemma BlockedRecord(s: XmlState, testerName: string, run: TestRun)
    requires Legal(run) && ValidDateTime(run.start) && Resolvable(run) && Marked(run) && run.Ran? && run.ending.AssumptionFails?
    ensures RunTest(s, testerName, run).outcome.Pass?
    ensures RunTest(s, testerName, run).state.results == s.results + [ExpectedRecord(testerName, run)]
  {
    var started := Started(s, testerName, run.d, run.start).state;
    var failed := AssumptionFailed(started, run.ending.failure);
    FailureRecord(s, testerName, run, started, failed);
    assert RunTest(s, testerName, run) == Step(Finished(failed, run.d), Pass);
  }

  /** After a reported (assumption) failure, testFinished adds nothing and the record is the reference one. */
  lemma FailureRecord(s: XmlState, testerName: string, run: TestRun, started: XmlState, failed: XmlState)
    requires Legal(run) && ValidDateTime(run.start) && Resolvable(run) && Marked(run) && run.Ran? && !run.ending.Passes?
    requires started == Started(s, testerName, run.d, run.start).state
    requires failed == FailedOrBlocked(started, run.ending.failure, ExpectedState(run))
    ensures Finished(failed, run.d) == failed
    ensures failed.results == s.results + [ExpectedRecord(testerName, run)]
  {
    var k := |s.results|;
    assert ExpectedNote(run) == FailureNote(run.ending.failure.TestHeader(), ExpectedState(run), Reason(run.ending.failure));
    ExpectedFromStart(testerName, run, started.results[k], failed.results[k]);
    ClosedRecord(s, started, failed, ExpectedRecord(testerName, run));
  }

  /** A started record completed by the run's result and notes is the reference record. */
  lemma ExpectedFromStart(testerName: string, run: TestRun, started: TestCase, closed: TestCase)
    requires Legal(run) && ValidDateTime(run.start) && Marked(run) && Resolvable(run)
    requires started.attribute == ExpectedRecord(testerName, run).attribute
    requires started.children == [Element("tester", testerName), Element("timestamp", Format(run.start))]
    requires closed.attribute == started.attribute
    requires closed.children
          == started.children + [Element("result", ExpectedState(run).GetState()), Element("notes", ExpectedNote(run))]
    ensures closed == ExpectedRecord(testerName, run)
  {
    TwoMoreChildren(started, closed, Element("tester", testerName), Element("timestamp", Format(run.start)),
      Element("result", ExpectedState(run).GetState()), Element("notes", ExpectedNote(run)));
  }

  /**
    A state that appended one record to `s`, and a later state that changed
    only that record, into `x`: the records are those of `s` and then `x`.
  */
  lemma ClosedRecord(s: XmlState, started: XmlState, closed: XmlState, x: TestCase)
    requires |started.results| == |s.results| + 1 && started.results[..|s.results|] == s.results
    requires |closed.results| == |s.results| + 1 && closed.results[|s.results|] == x
    requires forall i :: 0 <= i < |s.results| ==> closed.results[i] == started.results[i]
    ensures closed.results == s.results + [x]
  {
    var k := |s.results|;
    assert closed.results[..k] == started.results[..k];
    Snoc(s.results, closed.results, x);
  }

  /** A list one longer than `a`, starting with `a` and ending in `x`, is `a + [x]`. */
  lemma Snoc(a: seq<TestCase>, b: seq<TestCase>, x: TestCase)
    requires |b| == |a| + 1 && b[..|a|] == a && b[|a|] == x
    ensures b == a + [x]
  {
    assert b == b[..|a|] + [b[|a|]];
  }

  /**
    A suite of legal runs whose markers all set an id ends without exception,
    with exactly the reference records of its marked tests appended in order.
  */
  lemma {:induction false} RunSuiteRecords(s: XmlState, testerName: string, runs: seq<TestRun>)
    requires LegalSuite(runs) && ResolvableSuite(runs)
    ensures RunSuite(s, testerName, runs).outcome.Pass?
    ensures RunSuite(s, testerName, runs).state.results == s.results + Records(testerName, runs)
    decreases |runs|
  {
    if runs == [] {
      assert s.results + [] == s.results;
    } else {
      var first := RunTest(s, testerName, runs[0]);
      var head := RecordOf(testerName, runs[0]);
      var tail := runs[1..];
      assert first.outcome.Pass? && first.state.results == s.results + head by {
        RunTestRecords(s, testerName, runs[0]);
      }
      assert LegalSuite(tail) && ResolvableSuite(tail);
      assert RunSuite(s, testerName, runs) == RunSuite(first.state, testerName, tail)
          && Records(testerName, runs) == head + Records(testerName, tail) by {
        SuiteStep(s, testerName, runs);
      }
      RunSuiteRecords(first.state, testerName, tail);
      AppendAssociative(s.results, head, Records(testerName, tail));
    }
  }

  lemma AppendAssociative(a: seq<TestCase>, b: seq<TestCase>, c: seq<TestCase>)
    ensures (a + b) + c == a + (b + c)
  {
  }

  /** A suite whose first test raises nothing continues with the rest, and its records start with the first test's. */
  lemma SuiteStep(s: XmlState, testerName: string, runs: seq<TestRun>)
    requires runs != [] && LegalSuite(runs) && ResolvableSuite(runs)
    requires RunTest(s, testerName, runs[0]).outcome.Pass?
    ensures LegalSuite(runs[1..]) && ResolvableSuite(runs[1..])
    ensures RunSuite(s, testerName, runs) == RunSuite(RunTest(s, testerName, runs[0]).state, testerName, runs[1..])
    ensures Records(testerName, runs) == RecordOf(testerName, runs[0]) + Records(testerName, runs[1..])
  {
  }

  /**
    Every reference record passes the tests' check: an id attribute and
    exactly one non-empty tester, timestamp, result and notes (the tester
    name must not be empty).
  */
  lemma ExpectedRecordWellFormed(testerName: string, run: TestRun)
    requires Legal(run) && ValidDateTime(run.start) && Marked(run) && Resolvable(run) && testerName != ""
    ensures WellFormed(ExpectedRecord(testerName, run))
  {
    var id := FromDescription(run.d).value;
    assert |Format(run.start)| == 19 && |ExpectedState(run).GetState()| == 1;
    assert ExpectedNote(run)[0] == '\'';
    CompleteRecordWellFormed(Attribute(SurefireTestLinkId.GetType(id), id.IdText()), testerName,
      Format(run.start), ExpectedState(run).GetState(), ExpectedNote(run));
  }

  /** Hence every record a suite collects, as the tests require, is complete. */
  lemma SuiteRecordsWellFormed(s: XmlState, testerName: string, runs: seq<TestRun>)
    requires LegalSuite(runs) && ResolvableSuite(runs) && testerName != ""
    requires forall i :: 0 <= i < |s.results| ==> WellFormed(s.results[i])
    ensures forall i :: 0 <= i < |RunSuite(s, testerName, runs).state.results| ==>
      WellFormed(RunSuite(s, testerName, runs).state.results[i])
  {
    RunSuiteRecords(s, testerName, runs);
    RecordsWellFormed(testerName, runs);
  }

  lemma {:induction false} RecordsWellFormed(testerName: string, runs: seq<TestRun>)
    requires LegalSuite(runs) && ResolvableSuite(runs) && testerName != ""
    ensures forall i :: 0 <= i < |Records(testerName, runs)| ==> WellFormed(Records(testerName, runs)[i])
    decreases |runs|
  {
    if runs != [] {
      RecordsSplit(testerName, runs);
      RecordsWellFormed(testerName, runs[1..]);
      RecordOfWellFormed(testerName, runs[0]);
      AllWellFormedConcat(RecordOf(testerName, runs[0]), Records(testerName, runs[1..]));
    }
  }

  lemma RecordsSplit(testerName: string, runs: seq<TestRun>)
    requires runs != [] && LegalSuite(runs) && ResolvableSuite(runs)
    ensures LegalSuite(runs[1..]) && ResolvableSuite(runs[1..])
    ensures Legal(runs[0]) && ValidDateTime(runs[0].start) && Resolvable(runs[0])
    ensures Records(testerName, runs) == RecordOf(testerName, runs[0]) + Records(testerName, runs[1..])
  {
  }

  lemma RecordOfWellFormed(testerName: string, run: TestRun)
    requires Legal(run) && ValidDateTime(run.start) && Resolvable(run) && testerName != ""
    ensures forall i :: 0 <= i < |RecordOf(testerName, run)| ==> WellFormed(RecordOf(testerName, run)[i])
  {
    if Marked(run) {
      var rec := ExpectedRecord(testerName, run);
      ExpectedRecordWellFormed(testerName, run);
      assert RecordOf(testerName, run) == [rec];
      SingleWellFormed(rec);
    }
  }

  lemma SingleWellFormed(tc: TestCase)
    requires WellFormed(tc)
    ensures forall i :: 0 <= i < |[tc]| ==> WellFormed([tc][i])
  {
  }

  lemma AllWellFormedConcat(a: seq<TestCase>, b: seq<TestCase>)
    requires forall i :: 0 <= i < |a| ==> WellFormed(a[i])
    requires forall i :: 0 <= i < |b| ==> WellFormed(b[i])
    ensures forall i :: 0 <= i < |a + b| ==> WellFormed((a + b)[i])
  {
    forall i | 0 <= i < |a + b|
      ensures WellFormed((a + b)[i])
    {
      if i >= |a| {
        assert (a + b)[i] == b[i - |a|];
      }
    }
  }

  // What the tests count over the collected records.

  /** Records carrying an external_id attribute. */
  function CountExternal(results: seq<TestCase>): nat
    decreases |results|
  {
    if results == [] then 0
    else (if results[0].GetAttribute("external_id").Some? then 1 else 0) + CountExternal(results[1..])
  }

  /** Whether getChild("result") of a record reads the blocked token. */
  predicate IsBlocked(tc: TestCase) {
    var named := ChildrenNamed(tc.children, "result");
    named != [] && named[0].value == Blocked.GetState()
  }

  /** Records whose result is blocked. */
  function CountBlocked(results: seq<TestCase>): nat
    decreases |results|
  {
    if results == [] then 0
    else (if IsBlocked(results[0]) then 1 else 0) + CountBlocked(results[1..])
  }

  /** Marked runs. */
  function CountMarked(runs: seq<TestRun>): nat
    decreases |runs|
  {
    if runs == [] then 0 else (if Marked(runs[0]) then 1 else 0) + CountMarked(runs[1..])
  }

  /** Marked runs whose marker sets the external id. */
  function CountMarkedExternal(runs: seq<TestRun>): nat
    decreases |runs|
  {
    if runs == [] then 0
    else (if Marked(runs[0]) && runs[0].d.testLink.value.externalId != NOT_AVAILABLE then 1 else 0)
         + CountMarkedExternal(runs[1..])
  }

  /** Marked runs that are ignored or whose assumption fails. */
  function CountMarkedBlocked(runs: seq<TestRun>): nat
    decreases |runs|
  {
    if runs == [] then 0
    else (if Marked(runs[0]) && (runs[0].Skipped? || runs[0].ending.AssumptionFails?) then 1 else 0)
         + CountMarkedBlocked(runs[1..])
  }

  /** The reference record has an external_id exactly for external markers and is blocked exactly for skipped tests and failed assumptions. */
  lemma ExpectedRecordCounts(testerName: string, run: TestRun)
    requires Legal(run) && ValidDateTime(run.start) && Marked(run) && Resolvable(run)
    ensures ExpectedRecord(testerName, run).GetAttribute("external_id").Some?
        <==> run.d.testLink.value.externalId != NOT_AVAILABLE
    ensures IsBlocked(ExpectedRecord(testerName, run)) <==> (run.Skipped? || run.ending.AssumptionFails?)
  {
    ExpectedRecordExternal(testerName, run);
    ExpectedRecordBlocked(testerName, run);
  }

  /** The reference record carries external_id exactly when the marker sets the external id. */
  lemma ExpectedRecordExternal(testerName: string, run: TestRun)
    requires Legal(run) && ValidDateTime(run.start) && Marked(run) && Resolvable(run)
    ensures ExpectedRecord(testerName, run).GetAttribute("external_id").Some?
        <==> run.d.testLink.value.externalId != NOT_AVAILABLE
  {
    var id := FromDescription(run.d).value;
    assert ExpectedRecord(testerName, run).attribute == Some(Attribute(SurefireTestLinkId.GetType(id), id.IdText()));
  }

  /** The reference record reads blocked exactly for an ignored test or a failed assumption. */
  lemma ExpectedRecordBlocked(testerName: string, run: TestRun)
    requires Legal(run) && ValidDateTime(run.start) && Marked(run) && Resolvable(run)
    ensures IsBlocked(ExpectedRecord(testerName, run)) <==> (run.Skipped? || run.ending.AssumptionFails?)
  {
    var st := ExpectedState(run);
    var rec := ExpectedRecord(testerName, run);
    CompleteRecordChildren(testerName, Format(run.start), st.GetState(), ExpectedNote(run));
    assert ChildrenNamed(rec.children, "result") == [Element("result", st.GetState())];
    TokenIdentifiesState(st, Blocked);
  }

  /** The records of a suite: one per marked test, as many external as external markers, as many blocked as ignored or assumption-failed marked tests. */
  lemma {:induction false} RecordsCounts(testerName: string, runs: seq<TestRun>)
    requires LegalSuite(runs) && ResolvableSuite(runs)
    ensures |Records(testerName, runs)| == CountMarked(runs)
    ensures CountExternal(Records(testerName, runs)) == CountMarkedExternal(runs)
    ensures CountBlocked(Records(testerName, runs)) == CountMarkedBlocked(runs)
    decreases |runs|
  {
    if runs != [] {
      RecordsCounts(testerName, runs[1..]);
      var rest := Records(testerName, runs[1..]);
      if Marked(runs[0]) {
        var rec := ExpectedRecord(testerName, runs[0]);
        ExpectedRecordCounts(testerName, runs[0]);
        assert Records(testerName, runs) == [rec] + rest;
        assert ([rec] + rest)[0] == rec && ([rec] + rest)[1..] == rest;
      } else {
        assert Records(testerName, runs) == rest by {
          assert [] + rest == rest;
        }
      }
    }
  }

  /**
    The dispatcher object.  It forwards to the injected XML listener or to
    a listener that does nothing, so its methods change the injected
    listener (and its failure slot) or nothing at all.
  */
  class Dispatcher {
    const inTestLinkListener: XmlListener

    constructor(testLinkRunListener: XmlListener)
      ensures inTestLinkListener == testLinkRunListener
    {
      inTestLinkListener := testLinkRunListener;
    }

    /** getInTestLinkListener(). */
    method GetInTestLinkListener() returns (l: XmlListener)
      ensures l == inTestLinkListener
    {
      l := inTestLinkListener;
    }

    method TestStarted(d: Description, now: DateTime) returns (outcome: Outcome<Exception>)
      requires ValidDateTime(now)
      modifies inTestLinkListener, inTestLinkListener.failures
      ensures Step(inTestLinkListener.Model(), outcome)
           == OnStarted(old(inTestLinkListener.Model()), inTestLinkListener.testerName, d, now)
    {
      if SelectListener(d) == InTestLink {
        outcome := inTestLinkListener.TestStarted(d, now);
      } else {
        outcome := Pass;
      }
    }

    method TestIgnored(d: Description, now: DateTime) returns (outcome: Outcome<Exception>)
      requires ValidDateTime(now)
      requires d.testLink.Some? && SetsId(d.testLink.value) ==> d.ignore.Some?
      modifies inTestLinkListener, inTestLinkListener.failures
      ensures Step(inTestLinkListener.Model(), outcome)
           == OnIgnored(old(inTestLinkListener.Model()), inTestLinkListener.testerName, d, now)
    {
      if SelectListener(d) == InTestLink {
        outcome := inTestLinkListener.TestIgnored(d, now);
      } else {
        outcome := Pass;
      }
    }

    method TestFailure(f: Failure)
      requires f.description.testLink.Some? ==> HasCurrent(inTestLinkListener.Model())
      modifies inTestLinkListener, inTestLinkListener.failures
      ensures inTestLinkListener.Model() == OnFailure(old(inTestLinkListener.Model()), f)
    {
      if SelectListener(f.description) == InTestLink {
        inTestLinkListener.TestFailure(f);
      }
    }

    method TestAssumptionFailure(f: Failure)
      requires f.description.testLink.Some? ==> HasCurrent(inTestLinkListener.Model())
      modifies inTestLinkListener, inTestLinkListener.failures
      ensures inTestLinkListener.Model() == OnAssumptionFailure(old(inTestLinkListener.Model()), f)
    {
      if SelectListener(f.description) == InTestLink {
        inTestLinkListener.TestAssumptionFailure(f);
      }
    }

    method TestFinished(d: Description)
      requires d.testLink.Some? ==> Consistent(inTestLinkListener.Model()) && !inTestLinkListener.failures.current.Unset?
      modifies inTestLinkListener
      ensures inTestLinkListener.Model() == OnFinished(old(inTestLinkListener.Model()), d)
    {
      if SelectListener(d) == InTestLink {
        inTestLinkListener.TestFinished(d);
      }
    }
  }
}
