/**
  The oldest listener, com.github.oneandone.testlinkjunit.tljunit.TestLinkRunListener:
  the whole machine in one class with plain mutable fields.  It keeps the
  stored failure (null when none), the result list, and the current record;
  a record holds only an id attribute, a result and notes (no tester, no
  timestamp), and its note texts differ from the later listeners'.  Unmarked
  tests are skipped by checking the marker in each callback.

  The class inherits RunListener's empty testAssumptionFailure, so an
  assumption failure is not seen at all and the test is reported as passed.
*/
module LegacyTestLinkRunListener {
  import opened Wrappers
  import opened JUnit
  import opened Decimal
  import opened Dom
  import opened TestLinkId
  import TestState

  /** The notes of an ignored marked test. */
  function BlockedNote(displayName: string, ignoreValue: string): string {
    "'" + displayName + "' blocked because '" + ignoreValue + "'"
  }

  /** The notes of a failure; String.format renders a null message as "null". */
  function FailedNote(displayName: string, message: Option<string>): string {
    "'" + displayName + "' failed because '" + (if message.Some? then message.value else "null") + "'"
  }

  /** The notes of a passing test. */
  function SuccessNote(displayName: string): string {
    "'" + displayName + "' ran successfully"
  }

  /** The text of the RuntimeException for a marker with neither id; the name is not quoted here. */
  function NoIdMessage(displayName: string): string {
    "Must set either internalId or externalId on " + displayName
  }

  /** The fields: the result list, the current record (by index, None while null) and the stored failure. */
  datatype LegacyState = LegacyState(results: seq<TestCase>, current: Option<nat>, currentFailure: Option<Failure>)

  /** A freshly constructed listener. */
  const INITIAL: LegacyState := LegacyState([], None, None)

  predicate HasCurrent(s: LegacyState) {
    s.current.Some? && s.current.value < |s.results|
  }

  /** The state after a void callback and whether it threw. */
  datatype LegacyStep = LegacyStep(state: LegacyState, outcome: Outcome<Exception>)

  /** The state after startNewTestCase and what it returned or threw. */
  datatype StartStep = StartStep(state: LegacyState, started: Result<bool, Exception>)

  /** Replaces the current record, which the result list holds. */
  function UpdateCurrent(s: LegacyState, tc: TestCase): (r: LegacyState)
    requires HasCurrent(s)
    ensures HasCurrent(r) && r.current == s.current && r.currentFailure == s.currentFailure
    ensures |r.results| == |s.results| && r.results[s.current.value] == tc
    ensures forall i :: 0 <= i < |s.results| && i != s.current.value ==> r.results[i] == s.results[i]
  {
    s.(results := s.results[s.current.value := tc])
  }

  /** addResult: one result child appended to the current record, nothing else touched. */
  function AddedResult(s: LegacyState, resultValue: string): (r: LegacyState)
    requires HasCurrent(s)
    ensures HasCurrent(r) && r.current == s.current && r.currentFailure == s.currentFailure
    ensures |r.results| == |s.results|
    ensures forall i :: 0 <= i < |s.results| && i != s.current.value ==> r.results[i] == s.results[i]
    ensures r.results[s.current.value].attribute == s.results[s.current.value].attribute
    ensures r.results[s.current.value].children == s.results[s.current.value].children + [Element("result", resultValue)]
  {
    UpdateCurrent(s, s.results[s.current.value].AddChild(Element("result", resultValue)))
  }

  /** addNotes: one notes child appended to the current record, nothing else touched. */
  function AddedNotes(s: LegacyState, notesValue: string): (r: LegacyState)
    requires HasCurrent(s)
    ensures HasCurrent(r) && r.current == s.current && r.currentFailure == s.currentFailure
    ensures |r.results| == |s.results|
    ensures forall i :: 0 <= i < |s.results| && i != s.current.value ==> r.results[i] == s.results[i]
    ensures r.results[s.current.value].attribute == s.results[s.current.value].attribute
    ensures r.results[s.current.value].children == s.results[s.current.value].children + [Element("notes", notesValue)]
  {
    UpdateCurrent(s, s.results[s.current.value].AddChild(Element("notes", notesValue)))
  }

  /**
    startNewTestCase: for a marked test, appends an empty record and makes it
    current, then sets external_id or internal_id, or throws with the record
    already appended; for an unmarked test, returns false and changes nothing.
    The attribute agrees with what TestLinkId resolution of the tljunit module
    gives for the same marker.
  */
  function NewTestCase(s: LegacyState, d: Description): (r: StartStep)
    ensures d.testLink.None? ==> r == StartStep(s, Ok(false))
    ensures d.testLink.Some? ==>
      && HasCurrent(r.state) && r.state.current == Some(|s.results|) && r.state.currentFailure == s.currentFailure
      && |r.state.results| == |s.results| + 1 && r.state.results[..|s.results|] == s.results
      && r.state.results[|s.results|].children == []
      && (r.started == Ok(true) <==> SetsId(d.testLink.value))
      && (r.started.Ok? ==> r.started.value)
      && (r.started.Err? ==>
            r.started.error == RuntimeException(NoIdMessage(d.displayName)) && r.state.results[|s.results|].attribute.None?)
      && (r.started.Ok? ==>
            var id := FromDescription(d).value;
            r.state.results[|s.results|].attribute == Some(Attribute(id.GetType(), id.IdText())))
  {
    if d.testLink.None? then StartStep(s, Ok(false))
    else
      var testLink := d.testLink.value;
      var appended := s.(results := s.results + [TestCase(None, [])], current := Some(|s.results|));
      assert appended.results[..|s.results|] == s.results;
      if testLink.externalId != NOT_AVAILABLE then
        StartStep(UpdateCurrent(appended, TestCase(None, []).SetAttribute("external_id", testLink.externalId)), Ok(true))
      else if testLink.internalId != 0 then
        StartStep(UpdateCurrent(appended, TestCase(None, []).SetAttribute("internal_id", LongToString(testLink.internalId))), Ok(true))
      else
        StartStep(appended, Err(RuntimeException(NoIdMessage(d.displayName))))
  }

  /** testStarted: clears the stored failure, then starts a record. */
  function Started(s: LegacyState, d: Description): (r: LegacyStep)
    ensures r.state.currentFailure == None
    ensures var start := NewTestCase(s.(currentFailure := None), d);
      r.state == start.state && (r.outcome.Fail? <==> start.started.Err?)
    ensures r.outcome.Fail? ==> r.outcome.error == RuntimeException(NoIdMessage(d.displayName))
  {
    var start := NewTestCase(s.(currentFailure := None), d);
    LegacyStep(start.state, if start.started.Err? then Fail(start.started.error) else Pass)
  }

  /**
    testIgnored: starts a record and, for a marked test, adds the blocked
    result and the @Ignore value as notes.  The stored failure is left alone.
  */
  function Ignored(s: LegacyState, d: Description): (r: LegacyStep)
    requires d.testLink.Some? && SetsId(d.testLink.value) ==> d.ignore.Some?
    ensures var start := NewTestCase(s, d);
      && (start.started.Err? ==> r == LegacyStep(start.state, Fail(start.started.error)))
      && (start.started == Ok(false) ==> r == LegacyStep(s, Pass))
      && (start.started == Ok(true) ==>
            && r.outcome.Pass? && HasCurrent(r.state) && r.state.current == start.state.current
            && r.state.currentFailure == s.currentFailure
            && |r.state.results| == |s.results| + 1 && r.state.results[..|s.results|] == s.results
            && r.state.results[|s.results|].attribute == start.state.results[|s.results|].attribute
            && r.state.results[|s.results|].children
               == [Element("result", "b"), Element("notes", BlockedNote(d.displayName, d.ignore.value))])
  {
    var start := NewTestCase(s, d);
    match start.started
    case Err(e) => LegacyStep(start.state, Fail(e))
    case Ok(false) => LegacyStep(start.state, Pass)
    case Ok(true) =>
      var noted := AddedNotes(AddedResult(start.state, "b"), BlockedNote(d.displayName, d.ignore.value));
      assert noted.results[..|s.results|] == s.results by {
        assert forall i :: 0 <= i < |s.results| ==> noted.results[i] == start.state.results[i];
      }
      LegacyStep(noted, Pass)
  }

  /**
    testFailure: always stores the failure; for a marked test it adds the
    failed result and notes to the current record, which must exist.
  */
  function TestFailed(s: LegacyState, f: Failure): (r: LegacyState)
    requires f.description.testLink.Some? ==> HasCurrent(s)
    ensures r.currentFailure == Some(f) && r.current == s.current
    ensures f.description.testLink.None? ==> r.results == s.results
    ensures f.description.testLink.Some? ==>
      && |r.results| == |s.results|
      && (forall i :: 0 <= i < |s.results| && i != s.current.value ==> r.results[i] == s.results[i])
      && r.results[s.current.value].attribute == s.results[s.current.value].attribute
      && r.results[s.current.value].children == s.results[s.current.value].children
         + [Element("result", "f"), Element("notes", FailedNote(f.description.displayName, f.message))]
  {
    var stored := s.(currentFailure := Some(f));
    if f.description.testLink.Some? then
      AddedNotes(AddedResult(stored, "f"), FailedNote(f.description.displayName, f.message))
    else stored
  }

  /** The condition under which testFinished reports a pass. */
  predicate ReportsPass(s: LegacyState, d: Description) {
    d.testLink.Some? && d.ignore.None? && s.currentFailure.None?
  }

  /**
    testFinished: the passed result and notes when the test is marked, not
    ignored and has no stored failure; otherwise nothing changes.
  */
  function Finished(s: LegacyState, d: Description): (r: LegacyState)
    requires ReportsPass(s, d) ==> HasCurrent(s)
    ensures r.current == s.current && r.currentFailure == s.currentFailure
    ensures !ReportsPass(s, d) ==> r == s
    ensures ReportsPass(s, d) ==>
      && |r.results| == |s.results|
      && (forall i :: 0 <= i < |s.results| && i != s.current.value ==> r.results[i] == s.results[i])
      && r.results[s.current.value].attribute == s.results[s.current.value].attribute
      && r.results[s.current.value].children == s.results[s.current.value].children
         + [Element("result", "p"), Element("notes", SuccessNote(d.displayName))]
  {
    if ReportsPass(s, d) then
      AddedNotes(AddedResult(s, "p"), SuccessNote(d.displayName)).(currentFailure := None)
    else s
  }

  /** testAssumptionFailure is RunListener's: it does nothing. */
  function AssumptionFailed(s: LegacyState, f: Failure): LegacyState {
    s
  }

  /** The callbacks of one test, in the runner's order, stopping at the first exception. */
  function RunTest(s: LegacyState, run: TestRun): LegacyStep
    requires Legal(run)
  {
    match run
    case Skipped(d, _) => Ignored(s, d)
    case Ran(d, _, ending) =>
      var started := Started(s, d);
      if started.outcome.Fail? then started
      else
        var ended :=
          match ending
          case Passes => started.state
          case Fails(f) => TestFailed(started.state, f)
          case AssumptionFails(f) => AssumptionFailed(started.state, f);
        LegacyStep(Finished(ended, d), Pass)
  }

  /** The children the record of a legal run of a marked test with an id ends up with. */
  function ExpectedChildren(run: TestRun): (r: seq<Element>)
    requires Legal(run)
    ensures |r| == 2 && r[0].name == "result" && r[1].name == "notes"
    ensures r[0].value == "f" <==> run.Ran? && run.ending.Fails?
    ensures r[0].value == "b" <==> run.Skipped?
  {
    match run
    case Skipped(d, _) => [Element("result", "b"), Element("notes", BlockedNote(d.displayName, d.ignore.value))]
    case Ran(d, _, Fails(f)) => [Element("result", "f"), Element("notes", FailedNote(d.displayName, f.message))]
    case Ran(d, _, _) => [Element("result", "p"), Element("notes", SuccessNote(d.displayName))]
  }

  /** A run of an unmarked test changes no record. */
  lemma UnmarkedRunKeepsResults(s: LegacyState, run: TestRun)
    requires Legal(run) && !Marked(run) && HasCurrent(s)
    ensures RunTest(s, run).outcome.Pass? && RunTest(s, run).state.results == s.results
  {
    match run
    case Skipped(d, _) =>
    case Ran(d, _, ending) =>
      match ending
      case Passes =>
      case Fails(f) => assert f.description == d;
      case AssumptionFails(f) =>
  }

  /** A marker without ids: the exception propagates with an attribute-less record appended. */
  lemma MissingIdKeepsEmptyRecord(s: LegacyState, d: Description)
    requires d.testLink.Some? && !SetsId(d.testLink.value)
    ensures Started(s, d).outcome == Fail(RuntimeException(NoIdMessage(d.displayName)))
    ensures Started(s, d).state.results == s.results + [TestCase(None, [])]
  {
    var r := Started(s, d).state;
    assert r.results == r.results[..|s.results|] + [r.results[|s.results|]];
  }

  /**
    A legal run of a marked test with an id appends exactly one record: the
    id attribute of TestLinkId resolution, then one result and one notes
    whose values follow from how the test ended.
  */
  lemma MarkedRunAppendsRecord(s: LegacyState, run: TestRun)
    requires Legal(run) && Marked(run) && SetsId(run.d.testLink.value)
    ensures var r := RunTest(s, run);
      && r.outcome.Pass?
      && |r.state.results| == |s.results| + 1 && r.state.results[..|s.results|] == s.results
      && r.state.results[|s.results|].attribute
         == Some(Attribute(FromDescription(run.d).value.GetType(), FromDescription(run.d).value.IdText()))
      && r.state.results[|s.results|].children == ExpectedChildren(run)
  {
    match run
    case Skipped(d, _) =>
    case Ran(d, _, ending) =>
      var started := Started(s, d).state;
      match ending
      case Passes =>
        FinishedKeepsPrefix(s.results, started, d);
      case Fails(f) =>
        assert f.description == d;
        var failed := TestFailed(started, f);
        PrefixKept(s.results, started.results, failed.results);
        FinishedKeepsPrefix(s.results, failed, d);
      case AssumptionFails(f) =>
        FinishedKeepsPrefix(s.results, started, d);
  }

  /** Two lists agreeing below the last index keep the same proper prefix. */
  lemma PrefixKept(p: seq<TestCase>, a: seq<TestCase>, b: seq<TestCase>)
    requires |a| == |b| == |p| + 1 && a[..|p|] == p
    requires forall i :: 0 <= i < |a| && i != |p| ==> b[i] == a[i]
    ensures b[..|p|] == p
  {
    assert forall i :: 0 <= i < |p| ==> b[..|p|][i] == a[..|p|][i];
  }

  /** testFinished on the newest record keeps every earlier one. */
  lemma FinishedKeepsPrefix(p: seq<TestCase>, s: LegacyState, d: Description)
    requires |s.results| == |p| + 1 && s.results[..|p|] == p && s.current == Some(|p|)
    ensures Finished(s, d).results[..|p|] == p
  {
    if ReportsPass(s, d) {
      PrefixKept(p, s.results, Finished(s, d).results);
    }
  }

  /** A failed assumption goes unseen: the record says passed and ran successfully. */
  lemma AssumptionFailureReportedPassed(s: LegacyState, d: Description, t: Timestamp.DateTime, f: Failure)
    requires Legal(Ran(d, t, AssumptionFails(f))) && d.testLink.Some? && SetsId(d.testLink.value)
    ensures var r := RunTest(s, Ran(d, t, AssumptionFails(f))).state.results[|s.results|];
      r.children == [Element("result", TestState.State.Passed.GetState()), Element("notes", SuccessNote(d.displayName))]
  {
    MarkedRunAppendsRecord(s, Ran(d, t, AssumptionFails(f)));
  }

  /**
    The listener object: the result list, the current record and the stored
    failure are fields that the callbacks reassign.
  */
  class LegacyListener {
    var results: seq<TestCase>
    var current: Option<nat>
    var currentFailure: Option<Failure>

    function Model(): LegacyState
      reads this
    {
      LegacyState(results, current, currentFailure)
    }

    constructor()
      ensures Model() == INITIAL
    {
      results := [];
      current := None;
      currentFailure := None;
    }

    method TestStarted(d: Description) returns (outcome: Outcome<Exception>)
      modifies this
      ensures LegacyStep(Model(), outcome) == Started(old(Model()), d)
    {
      currentFailure := None;
      var started := StartNewTestCase(d);
      outcome := if started.Err? then Fail(started.error) else Pass;
    }

    method StartNewTestCase(d: Description) returns (started: Result<bool, Exception>)
      modifies this
      ensures StartStep(Model(), started) == NewTestCase(old(Model()), d)
    {
      if d.testLink.None? {
        return Ok(false);
      }
      var testLink := d.testLink.value;
      results := results + [TestCase(None, [])];
      current := Some(|results| - 1);
      if testLink.externalId != NOT_AVAILABLE {
        results := results[current.value := results[current.value].SetAttribute("external_id", testLink.externalId)];
      } else if testLink.internalId != 0 {
        results := results[current.value := results[current.value].SetAttribute("internal_id", LongToString(testLink.internalId))];
      } else {
        return Err(RuntimeException(NoIdMessage(d.displayName)));
      }
      started := Ok(true);
    }

    method TestIgnored(d: Description) returns (outcome: Outcome<Exception>)
      requires d.testLink.Some? && SetsId(d.testLink.value) ==> d.ignore.Some?
      modifies this
      ensures LegacyStep(Model(), outcome) == Ignored(old(Model()), d)
    {
      var started := StartNewTestCase(d);
      if started.Err? {
        return Fail(started.error);
      }
      outcome := Pass;
      if started.value {
        AddResult("b");
        AddNotes(BlockedNote(d.displayName, d.ignore.value));
      }
    }

    method AddNotes(notesValue: string)
      requires HasCurrent(Model())
      modifies this
      ensures Model() == AddedNotes(old(Model()), notesValue)
    {
      results := results[current.value := results[current.value].AddChild(Element("notes", notesValue))];
    }

    method AddResult(resultValue: string)
      requires HasCurrent(Model())
      modifies this
      ensures Model() == AddedResult(old(Model()), resultValue)
    {
      results := results[current.value := results[current.value].AddChild(Element("result", resultValue))];
    }

    method TestFailure(f: Failure)
      requires f.description.testLink.Some? ==> HasCurrent(Model())
      modifies this
      ensures Model() == TestFailed(old(Model()), f)
    {
      currentFailure := Some(f);
      if f.description.testLink.Some? {
        AddResult("f");
        AddNotes(FailedNote(f.description.displayName, f.message));
      }
    }

    method TestFinished(d: Description)
      requires ReportsPass(Model(), d) ==> HasCurrent(Model())
      modifies this
      ensures Model() == Finished(old(Model()), d)
    {
      if d.testLink.Some? && d.ignore.None? && currentFailure.None? {
        AddResult("p");
        AddNotes(SuccessNote(d.displayName));
        currentFailure := None;
      }
    }
  }
}
