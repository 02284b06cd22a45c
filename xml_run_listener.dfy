/**
  InTestLinkXmlRunListener of the surefire module: collects one <testcase>
  record per marked test into an ordered result list.  testStarted appends a
  record (tester, timestamp, then the id attribute), the failure callbacks
  and testIgnored add a result and notes to the current record, and
  testFinished adds the passing result when no failure was stored.

  The behaviour is given twice: as pure transitions on XmlState, about which
  the lemmas speak, and as the class XmlListener, whose methods update the
  record list in place and promise exactly those transitions.  The current
  record, which `InTestLinkXmlRunListener` holds by reference while it is also a child of
  the result list, is held as its index in that list.
*/
module InTestLinkXmlRunListener {
  import opened Wrappers
  import opened JUnit
  import opened Timestamp
  import opened Dom
  import opened TestState
  import opened TestLinkId
  import SurefireTestLinkId
  import opened AbstractInTestLinkRunListener

  // The value constructors for the record's children.

  function CreateElementWithText(elementName: string, text: string): Element {
    Element(elementName, text)
  }

  function CreateTester(userName: string): Element {
    CreateElementWithText("tester", userName)
  }

  /** The timestamp as "yyyy-MM-dd HH:mm:ss" of the moment given (the clock is an input). */
  function CreateTimeStamp(date: DateTime): Element
    requires ValidDateTime(date)
  {
    CreateElementWithText("timestamp", Format(date))
  }

  function CreateNotes(notesValue: string): Element {
    CreateElementWithText("notes", notesValue)
  }

  function CreateResult(testState: State): Element {
    CreateElementWithText("result", testState.GetState())
  }

  /** The notes of an ignored test. */
  function IgnoredNote(displayName: string, ignoreValue: string): string {
    "'" + displayName + "' BLOCKED because '" + ignoreValue + "'."
  }

  /** The notes of a failure or assumption failure: the header, the state's word and the reason. */
  function FailureNote(header: string, testState: State, reason: string): string {
    "'" + header + "' " + testState.GetDescription() + " because '" + reason + "'."
  }

  /** The notes of a passing test. */
  function PassedNote(displayName: string): string {
    "'" + displayName + "' PASSED."
  }

  /** The reason a failure reports: its message, or its trace when the message is null. */
  function Reason(f: Failure): string {
    if f.message.Some? then f.message.value else f.trace
  }

  /** The id attribute: getType() of the surefire TestLinkId and String.valueOf(getId()). */
  function IdAttributeName(id: Id): string {
    SurefireTestLinkId.GetType(id)
  }

  /**
    The listener's state: the records collected so far, the index of the
    current record (None before the first test), and the failure slot.
  */
  datatype XmlState = XmlState(results: seq<TestCase>, current: Option<nat>, failure: Slot)

  /** A freshly constructed listener. */
  const INITIAL: XmlState := XmlState([], None, Unset)

  /** The current record exists: it is set (non-null) and is one of the results. */
  predicate HasCurrent(s: XmlState) {
    s.current.Some? && s.current.value < |s.results|
  }

  /** What every reachable state keeps: the slot is set exactly when a current record is. */
  predicate Consistent(s: XmlState) {
    (s.current.None? <==> s.failure.Unset?) && (s.current.Some? ==> HasCurrent(s))
  }

  /** The state after a callback and whether the callback threw. */
  datatype Step = Step(state: XmlState, outcome: Outcome<Exception>)

  /** Xpp3Dom.addChild on the current record, which is held by the result list. */
  function AddToCurrent(s: XmlState, e: Element): (r: XmlState)
    requires HasCurrent(s)
    ensures HasCurrent(r) && r.current == s.current && r.failure == s.failure
    ensures |r.results| == |s.results|
    ensures forall i :: 0 <= i < |s.results| && i != s.current.value ==> r.results[i] == s.results[i]
    ensures r.results[s.current.value] == s.results[s.current.value].AddChild(e)
  {
    s.(results := s.results[s.current.value := s.results[s.current.value].AddChild(e)])
  }

  /**
    testStarted: resets the slot, appends a record holding the tester and the
    timestamp and makes it current, and only then resolves the id.  A marker
    without ids throws, leaving the record in the list without an attribute.
  */
  function Started(s: XmlState, testerName: string, d: Description, now: DateTime): (r: Step)
    requires d.testLink.Some? && ValidDateTime(now)
    ensures Consistent(r.state) && r.state.failure == NoFailure
    ensures |r.state.results| == |s.results| + 1 && r.state.results[..|s.results|] == s.results
    ensures r.state.current == Some(|s.results|)
    ensures r.state.results[|s.results|].children == [Element("tester", testerName), Element("timestamp", Format(now))]
    ensures r.outcome.Pass? <==> SetsId(d.testLink.value)
    ensures r.outcome.Pass? <==> r.state.results[|s.results|].attribute.Some?
    ensures r.outcome.Pass? ==>
      var id := FromDescription(d).value;
      r.state.results[|s.results|].attribute == Some(Attribute(SurefireTestLinkId.GetType(id), id.IdText()))
    ensures r.outcome.Fail? ==> r.outcome.error == IllegalArgumentException(MissingIdMessage(d.displayName))
  {
    var testCase := TestCase(None, []).AddChild(CreateTester(testerName)).AddChild(CreateTimeStamp(now));
    var appended := XmlState(s.results + [testCase], Some(|s.results|), NoFailure);
    match FromDescription(d)
    case Err(e) => Step(appended, Fail(e))
    case Ok(id) =>
      Step(appended.(results := s.results + [testCase.SetAttribute(IdAttributeName(id), id.IdText())]), Pass)
  }

  /**
    testIgnored: testStarted, then the blocked result and the ignore value as
    notes.  An exception from testStarted ends the callback there.  `InTestLinkXmlRunListener`
    reads the @Ignore value only after a successful start.
  */
  function Ignored(s: XmlState, testerName: string, d: Description, now: DateTime): (r: Step)
    requires d.testLink.Some? && ValidDateTime(now)
    requires SetsId(d.testLink.value) ==> d.ignore.Some?
    ensures var started := Started(s, testerName, d, now);
      && (started.outcome.Fail? ==> r == started)
      && (started.outcome.Pass? ==>
            && r.outcome.Pass? && r.state.current == started.state.current && r.state.failure == NoFailure
            && |r.state.results| == |s.results| + 1 && r.state.results[..|s.results|] == s.results
            && r.state.results[|s.results|].attribute == started.state.results[|s.results|].attribute
            && r.state.results[|s.results|].children
               == started.state.results[|s.results|].children
                  + [Element("result", "b"), Element("notes", IgnoredNote(d.displayName, d.ignore.value))])
  {
    var started := Started(s, testerName, d, now);
    if started.outcome.Fail? then started
    else
      var blocked := AddToCurrent(started.state, CreateResult(Blocked));
      var noted := AddToCurrent(blocked, CreateNotes(IgnoredNote(d.displayName, d.ignore.value)));
      assert noted.results[..|s.results|] == s.results by {
        assert forall i :: 0 <= i < |s.results| ==> noted.results[i] == started.state.results[i];
      }
      Step(noted, Pass)
  }

  /**
    setFailedOrIgnoredForFailureOrAssumptionFailure: stores the failure, then
    adds the state's result and notes to the current record.  Nothing checks
    that the record has no result yet.
  */
  function FailedOrBlocked(s: XmlState, f: Failure, testState: State): (r: XmlState)
    requires HasCurrent(s)
    ensures Consistent(r) && r.failure == Holds(f) && r.current == s.current
    ensures |r.results| == |s.results|
    ensures forall i :: 0 <= i < |s.results| && i != s.current.value ==> r.results[i] == s.results[i]
    ensures r.results[s.current.value].attribute == s.results[s.current.value].attribute
    ensures r.results[s.current.value].children == s.results[s.current.value].children
      + [Element("result", testState.GetState()), Element("notes", FailureNote(f.TestHeader(), testState, Reason(f)))]
  {
    var stored := s.(failure := Holds(f));
    var withResult := AddToCurrent(stored, CreateResult(testState));
    AddToCurrent(withResult, CreateNotes(FailureNote(f.TestHeader(), testState, Reason(f))))
  }

  /** testFailure: a failed result. */
  function TestFailed(s: XmlState, f: Failure): (r: XmlState)
    requires HasCurrent(s)
    ensures r == FailedOrBlocked(s, f, TestState.Failed)
    ensures r.results[s.current.value].children[|s.results[s.current.value].children|].value == "f"
  {
    FailedOrBlocked(s, f, TestState.Failed)
  }

  /** testAssumptionFailure: a blocked result. */
  function AssumptionFailed(s: XmlState, f: Failure): (r: XmlState)
    requires HasCurrent(s)
    ensures r == FailedOrBlocked(s, f, Blocked)
    ensures r.results[s.current.value].children[|s.results[s.current.value].children|].value == "b"
  {
    FailedOrBlocked(s, f, Blocked)
  }

  /**
    testFinished: when no failure was stored since the start, the passed
    result and notes; otherwise nothing changes.  The slot must have been
    reset or set (`testFinished` dereferences it).
  */
  function Finished(s: XmlState, d: Description): (r: XmlState)
    requires Consistent(s) && !s.failure.Unset?
    ensures Consistent(r) && r.current == s.current && r.failure == s.failure
    ensures s.failure != NoFailure ==> r == s
    ensures s.failure == NoFailure ==>
      && |r.results| == |s.results|
      && (forall i :: 0 <= i < |s.results| && i != s.current.value ==> r.results[i] == s.results[i])
      && r.results[s.current.value].attribute == s.results[s.current.value].attribute
      && r.results[s.current.value].children == s.results[s.current.value].children
         + [Element("result", "p"), Element("notes", PassedNote(d.displayName))]
  {
    if s.failure.NoFailure? then
      AddToCurrent(AddToCurrent(s, CreateResult(Passed)), CreateNotes(PassedNote(d.displayName)))
    else s
  }

  /** A marker without ids: the exception propagates, and the record without attribute is already collected. */
  lemma StartWithoutIdKeepsRecord(s: XmlState, testerName: string, d: Description, now: DateTime)
    requires d.testLink.Some? && !SetsId(d.testLink.value) && ValidDateTime(now)
    ensures Started(s, testerName, d, now).outcome == Fail(IllegalArgumentException(MissingIdMessage(d.displayName)))
    ensures Started(s, testerName, d, now).state.results
         == s.results + [TestCase(None, [Element("tester", testerName), Element("timestamp", Format(now))])]
  {
    var r := Started(s, testerName, d, now);
    assert r.state.results[|s.results|] == TestCase(None, [Element("tester", testerName), Element("timestamp", Format(now))]);
    assert r.state.results == r.state.results[..|s.results|] + [r.state.results[|s.results|]];
  }

  /** The number of result children of a record. */
  function ResultCount(tc: TestCase): nat {
    |ChildrenNamed(tc.children, "result")|
  }

  /** Each failure callback adds one result to the current record, whatever it already holds. */
  lemma FailureAddsResult(s: XmlState, f: Failure, testState: State)
    requires HasCurrent(s)
    ensures ResultCount(FailedOrBlocked(s, f, testState).results[s.current.value])
         == ResultCount(s.results[s.current.value]) + 1
  {
    var c := s.results[s.current.value].children;
    var added := [Element("result", testState.GetState()), Element("notes", FailureNote(f.TestHeader(), testState, Reason(f)))];
    ChildrenNamedAppend(c, added, "result");
    ChildrenNamedCons(added[0], [added[1]], "result");
    ChildrenNamedCons(added[1], [], "result");
    assert [added[0]] + [added[1]] == added;
    assert "notes" != "result" by { NamesDistinct(); }
  }

  /** A freshly started record holds no result yet. */
  lemma StartedHasNoResult(s: XmlState, testerName: string, d: Description, now: DateTime)
    requires d.testLink.Some? && ValidDateTime(now)
    ensures ResultCount(Started(s, testerName, d, now).state.results[|s.results|]) == 0
  {
    var tester := Element("tester", testerName);
    var timestamp := Element("timestamp", Format(now));
    assert Started(s, testerName, d, now).state.results[|s.results|].children == [tester] + [timestamp];
    ChildrenNamedCons(tester, [timestamp], "result");
    ChildrenNamedCons(timestamp, [], "result");
    NamesDistinct();
  }

  /**
    Nothing in the code forbids a second failure event: after a start, two
    failure callbacks leave the record with two results.  Well-formed records
    rely on the runner's protocol, not on the listener.
  */
  lemma SecondFailureAddsSecondResult(s: XmlState, testerName: string, d: Description, now: DateTime, f: Failure, g: Failure)
    requires d.testLink.Some? && SetsId(d.testLink.value) && ValidDateTime(now)
    ensures var started := Started(s, testerName, d, now).state;
      ResultCount(TestFailed(TestFailed(started, f), g).results[|s.results|]) == 2
  {
    var started := Started(s, testerName, d, now).state;
    StartedHasNoResult(s, testerName, d, now);
    FailureAddsResult(started, f, TestState.Failed);
    FailureAddsResult(TestFailed(started, f), g, TestState.Failed);
  }

  /** After an assumption failure, testFinished adds nothing: the record stays blocked. */
  lemma AssumptionFailureStaysBlocked(s: XmlState, f: Failure, d: Description)
    requires HasCurrent(s)
    ensures Finished(AssumptionFailed(s, f), d) == AssumptionFailed(s, f)
  {
  }

  /**
    The listener object.  `failures` is the inherited failure slot, held as
    an object of its own; `results` and `current` are the record list and the
    current-record slot.
  */
  class XmlListener {
    const testerName: string
    var results: seq<TestCase>
    var current: Option<nat>
    const failures: FailureSlot

    function Model(): XmlState
      reads this, failures
    {
      XmlState(results, current, failures.current)
    }

    constructor(testerName: string)
      ensures this.testerName == testerName && Model() == INITIAL && fresh(failures)
    {
      this.testerName := testerName;
      results := [];
      current := None;
      failures := new FailureSlot();
    }

    /** getResults(). */
    method GetResults() returns (r: seq<TestCase>)
      ensures r == results
    {
      r := results;
    }

    method TestStarted(d: Description, now: DateTime) returns (outcome: Outcome<Exception>)
      requires d.testLink.Some? && ValidDateTime(now)
      modifies this, failures
      ensures Step(Model(), outcome) == Started(old(Model()), testerName, d, now)
    {
      failures.ResetCurrentFailure();
      var testCase := TestCase(None, []);
      testCase := testCase.AddChild(CreateTester(testerName));
      testCase := testCase.AddChild(CreateTimeStamp(now));
      results := results + [testCase];
      current := Some(|results| - 1);
      var id := FromDescription(d);
      if id.Err? {
        return Fail(id.error);
      }
      results := results[current.value := results[current.value].SetAttribute(IdAttributeName(id.value), id.value.IdText())];
      outcome := Pass;
    }

    method TestIgnored(d: Description, now: DateTime) returns (outcome: Outcome<Exception>)
      requires d.testLink.Some? && ValidDateTime(now)
      requires SetsId(d.testLink.value) ==> d.ignore.Some?
      modifies this, failures
      ensures Step(Model(), outcome) == Ignored(old(Model()), testerName, d, now)
    {
      outcome := TestStarted(d, now);
      if outcome.Fail? {
        return;
      }
      AddChild(CreateResult(Blocked));
      AddChild(CreateNotes(IgnoredNote(d.displayName, d.ignore.value)));
    }

    method TestAssumptionFailure(f: Failure)
      requires HasCurrent(Model())
      modifies this, failures
      ensures Model() == AssumptionFailed(old(Model()), f)
    {
      SetFailedOrIgnored(f, Blocked);
    }

    method TestFailure(f: Failure)
      requires HasCurrent(Model())
      modifies this, failures
      ensures Model() == TestFailed(old(Model()), f)
    {
      SetFailedOrIgnored(f, TestState.Failed);
    }

    /** setFailedOrIgnoredForFailureOrAssumptionFailure. */
    method SetFailedOrIgnored(f: Failure, testState: State)
      requires HasCurrent(Model())
      modifies this, failures
      ensures Model() == FailedOrBlocked(old(Model()), f, testState)
    {
      failures.SetCurrentFailure(f);
      AddChild(CreateResult(testState));
      var reason := if f.message.Some? then f.message.value else f.trace;
      AddChild(CreateNotes(FailureNote(f.TestHeader(), testState, reason)));
    }

    method TestFinished(d: Description)
      requires Consistent(Model()) && !failures.current.Unset?
      modifies this
      ensures Model() == Finished(old(Model()), d)
    {
      if failures.HasPassed() {
        AddChild(CreateResult(Passed));
        AddChild(CreateNotes(PassedNote(d.displayName)));
      }
    }

    /** getCurrentTestCase().addChild(e). */
    method AddChild(e: Element)
      requires HasCurrent(Model())
      modifies this
      ensures Model() == AddToCurrent(old(Model()), e)
    {
      results := results[current.value := results[current.value].AddChild(e)];
    }
  }
}
