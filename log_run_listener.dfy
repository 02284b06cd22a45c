/**
  InTestLinkLogRunListener of the tljunit module: the same lifecycle as the
  XML listener, but each callback appends lines to a logger instead of
  building records.  A log line is kept as slf4j receives it: the level, the
  message template with its `{}` placeholders, and the arguments; rendering
  the template is the logging library's business.

  testStarted writes one START line, and a second one carrying the deep link
  when the listener was given a TestLink address; each ending writes one END
  line.  The link comes from the kind-dispatching resolver of the surefire
  module (SurefireTestLinkUriResolver.FromTestLinkId), because the tljunit
  resolver has only the two typed overloads.
*/
module InTestLinkLogRunListener {
  import opened Wrappers
  import opened JUnit
  import opened TestLinkId
  import opened TestLinkUriResolver
  import opened SurefireTestLinkUriResolver
  import opened AbstractInTestLinkRunListener

  datatype Level = Info | Warn | Error

  /** A logging argument: a string, null, or an exception (held as its string form). */
  datatype Arg = Text(text: string) | Null | Thrown(exception: string)

  datatype LogLine = LogLine(level: Level, template: string, args: seq<Arg>)

  const START_TEMPLATE: string := "START Testcase '{}' '{}'."
  const BLOCKED_TEMPLATE: string := "END Testcase '{}' '{}' BLOCKED because '{}'."
  const FAILED_TEMPLATE: string := "END Testcase '{}' '{}' FAILED because '{}'."
  const PASSED_TEMPLATE: string := "END Testcase '{}' {} PASSED"

  /** NULL_URI, the address meaning "no TestLink instance": URI.create(""). */
  const NULL_URI: string := ""

  /**
    getId: String.valueOf of the resolved TestLinkId, e.g. external_id='T1'.
    A marker without ids makes resolution throw.
  */
  function GetId(d: Description): (r: Result<string, Exception>)
    requires d.testLink.Some?
    ensures r.Ok? <==> SetsId(d.testLink.value)
    ensures r.Ok? ==> r.value == Typed(FromDescription(d).value.GetType(), FromDescription(d).value.IdText())
    ensures r.Err? ==> r.error == IllegalArgumentException(MissingIdMessage(d.displayName))
  {
    match FromDescription(d)
    case Ok(id) => Ok(id.ToString())
    case Err(e) => Err(e)
  }

  /**
    What the deep link needs when an address is configured and the id
    resolves: a base the concatenation model covers and an id it can embed.
  */
  predicate LinkableFrom(uri: string, d: Description)
    requires d.testLink.Some?
  {
    uri != NULL_URI && FromDescription(d).Ok? ==> Valid(New(uri)) && Linkable(FromDescription(d).value)
  }

  /** The listener's state: the lines logged so far and the failure slot. */
  datatype LogState = LogState(lines: seq<LogLine>, failure: Slot)

  /** A freshly constructed listener. */
  const INITIAL: LogState := LogState([], Unset)

  /** The state after a callback and whether the callback threw. */
  datatype LogStep = LogStep(state: LogState, outcome: Outcome<Exception>)

  /** The START lines of a test whose id resolved: one with the display name, one with the link if an address is set. */
  function StartLines(uri: string, d: Description, id: Id): (r: seq<LogLine>)
    requires uri != NULL_URI ==> Valid(New(uri)) && Linkable(id)
    ensures |r| == if uri == NULL_URI then 1 else 2
    ensures r[0] == LogLine(Info, START_TEMPLATE, [Text(id.ToString()), Text(d.displayName)])
    ensures uri != NULL_URI ==> r[1] == LogLine(Info, START_TEMPLATE, [Text(id.ToString()), Text(FromTestLinkId(New(uri), id))])
  {
    var first := [LogLine(Info, START_TEMPLATE, [Text(id.ToString()), Text(d.displayName)])];
    if uri == NULL_URI then first
    else first + [LogLine(Info, START_TEMPLATE, [Text(id.ToString()), Text(FromTestLinkId(New(uri), id))])]
  }

  /**
    testStarted: resets the slot, then resolves the id; a marker without ids
    throws before anything is logged.
  */
  function Started(uri: string, s: LogState, d: Description): (r: LogStep)
    requires d.testLink.Some? && LinkableFrom(uri, d)
    ensures r.state.failure == NoFailure
    ensures r.outcome.Pass? <==> SetsId(d.testLink.value)
    ensures r.outcome.Fail? ==>
      r.state.lines == s.lines && r.outcome.error == IllegalArgumentException(MissingIdMessage(d.displayName))
    ensures r.outcome.Pass? ==> r.state.lines == s.lines + StartLines(uri, d, FromDescription(d).value)
  {
    match GetId(d)
    case Err(e) => LogStep(LogState(s.lines, NoFailure), Fail(e))
    case Ok(_) => LogStep(LogState(s.lines + StartLines(uri, d, FromDescription(d).value), NoFailure), Pass)
  }

  /**
    testIgnored: testStarted, then a warning with the @Ignore value.  The slot
    stays at the sentinel.  An exception from testStarted ends the callback
    there; `InTestLinkLogRunListener` reads the @Ignore value only after a successful start.
  */
  function Ignored(uri: string, s: LogState, d: Description): (r: LogStep)
    requires d.testLink.Some? && LinkableFrom(uri, d)
    requires SetsId(d.testLink.value) ==> d.ignore.Some?
    ensures var started := Started(uri, s, d);
      && (started.outcome.Fail? ==> r == started)
      && (started.outcome.Pass? ==>
            && r.outcome.Pass? && r.state.failure == NoFailure
            && r.state.lines == started.state.lines
               + [LogLine(Warn, BLOCKED_TEMPLATE, [Text(GetId(d).value), Text(d.displayName), Text(d.ignore.value)])])
  {
    var started := Started(uri, s, d);
    if started.outcome.Fail? then started
    else
      var line := LogLine(Warn, BLOCKED_TEMPLATE, [Text(GetId(d).value), Text(d.displayName), Text(d.ignore.value)]);
      LogStep(started.state.(lines := started.state.lines + [line]), Pass)
  }

  /** What a failure line reports: the message, or the exception itself when the message is null. */
  function FailureArg(f: Failure): (a: Arg)
    ensures a.Text? <==> f.message.Some?
    ensures f.message.Some? ==> a == Text(f.message.value)
    ensures f.message.None? ==> a == Thrown(f.exception)
  {
    if f.message.Some? then Text(f.message.value) else Thrown(f.exception)
  }

  /** An assumption failure line reports the message as it is, null included. */
  function AssumptionArg(f: Failure): (a: Arg)
    ensures a.Null? <==> f.message.None?
    ensures f.message.Some? ==> a == Text(f.message.value)
  {
    if f.message.Some? then Text(f.message.value) else Null
  }

  /**
    testFailure: stores the failure, then logs one error line.  The id is
    resolved after the store, so a marker without ids throws with the failure
    already stored and nothing logged.
  */
  function TestFailed(s: LogState, f: Failure): (r: LogStep)
    requires f.description.testLink.Some?
    ensures r.state.failure == Holds(f)
    ensures r.outcome.Pass? <==> SetsId(f.description.testLink.value)
    ensures r.outcome.Fail? ==> r.state.lines == s.lines
    ensures r.outcome.Pass? ==>
      r.state.lines == s.lines + [LogLine(Error, FAILED_TEMPLATE, [Text(GetId(f.description).value), Text(f.TestHeader()), FailureArg(f)])]
  {
    match GetId(f.description)
    case Err(e) => LogStep(LogState(s.lines, Holds(f)), Fail(e))
    case Ok(id) => LogStep(LogState(s.lines + [LogLine(Error, FAILED_TEMPLATE, [Text(id), Text(f.TestHeader()), FailureArg(f)])], Holds(f)), Pass)
  }

  /** testAssumptionFailure: stores the failure, then logs one BLOCKED warning. */
  function AssumptionFailed(s: LogState, f: Failure): (r: LogStep)
    requires f.description.testLink.Some?
    ensures r.state.failure == Holds(f)
    ensures r.outcome.Pass? <==> SetsId(f.description.testLink.value)
    ensures r.outcome.Fail? ==> r.state.lines == s.lines
    ensures r.outcome.Pass? ==>
      r.state.lines == s.lines + [LogLine(Warn, BLOCKED_TEMPLATE, [Text(GetId(f.description).value), Text(f.TestHeader()), AssumptionArg(f)])]
  {
    match GetId(f.description)
    case Err(e) => LogStep(LogState(s.lines, Holds(f)), Fail(e))
    case Ok(id) => LogStep(LogState(s.lines + [LogLine(Warn, BLOCKED_TEMPLATE, [Text(id), Text(f.TestHeader()), AssumptionArg(f)])], Holds(f)), Pass)
  }

  /**
    testFinished: the PASSED line when no failure was stored since the start,
    nothing otherwise.  The slot must have been reset or set.
  */
  function Finished(s: LogState, d: Description): (r: LogStep)
    requires d.testLink.Some? && !s.failure.Unset?
    ensures r.state.failure == s.failure
    ensures s.failure != NoFailure ==> r == LogStep(s, Pass)
    ensures s.failure == NoFailure ==>
      && (r.outcome.Pass? <==> SetsId(d.testLink.value))
      && (r.outcome.Fail? ==> r.state.lines == s.lines)
      && (r.outcome.Pass? ==> r.state.lines == s.lines + [LogLine(Info, PASSED_TEMPLATE, [Text(GetId(d).value), Text(d.displayName)])])
  {
    if s.failure.NoFailure? then
      match GetId(d)
      case Err(e) => LogStep(s, Fail(e))
      case Ok(id) => LogStep(s.(lines := s.lines + [LogLine(Info, PASSED_TEMPLATE, [Text(id), Text(d.displayName)])]), Pass)
    else LogStep(s, Pass)
  }

  /** Exactly one START line without an address, exactly two with one; both name the same id. */
  lemma StartLineCount(uri: string, s: LogState, d: Description)
    requires d.testLink.Some? && SetsId(d.testLink.value) && LinkableFrom(uri, d)
    ensures var added := StartLines(uri, d, FromDescription(d).value);
      && Started(uri, s, d).state.lines == s.lines + added
      && |added| == (if uri == NULL_URI then 1 else 2)
      && (forall line :: line in added ==>
            line.level == Info && line.template == START_TEMPLATE && line.args[..1] == [Text(GetId(d).value)])
  {
    var added := StartLines(uri, d, FromDescription(d).value);
    assert forall line :: line in added ==> line == added[0] || line == added[|added| - 1];
  }

  /** The link line names the test case: different ids give different links. */
  lemma LinkLineIdentifiesTest(uri: string, d: Description, e: Description)
    requires d.testLink.Some? && SetsId(d.testLink.value) && LinkableFrom(uri, d)
    requires e.testLink.Some? && SetsId(e.testLink.value) && LinkableFrom(uri, e)
    requires uri != NULL_URI
    ensures StartLines(uri, d, FromDescription(d).value)[1] == StartLines(uri, e, FromDescription(e).value)[1]
        <==> FromDescription(d) == FromDescription(e)
  {
    var a := FromDescription(d).value;
    var b := FromDescription(e).value;
    LinkIdentifiesId(New(uri), a, b);
    ToStringInjective(a, b);
  }

  /** The END line a test of a runner-legal run logs: its level and template. */
  function ExpectedEnd(run: TestRun): (r: (Level, string))
    ensures run.Ran? && run.ending.Passes? <==> r == (Info, PASSED_TEMPLATE)
    ensures run.Ran? && run.ending.Fails? <==> r == (Error, FAILED_TEMPLATE)
    ensures run.Skipped? || (run.Ran? && run.ending.AssumptionFails?) <==> r == (Warn, BLOCKED_TEMPLATE)
  {
    match run
    case Skipped(_, _) => (Warn, BLOCKED_TEMPLATE)
    case Ran(_, _, Passes) => (Info, PASSED_TEMPLATE)
    case Ran(_, _, Fails(_)) => (Error, FAILED_TEMPLATE)
    case Ran(_, _, AssumptionFails(_)) => (Warn, BLOCKED_TEMPLATE)
  }

  /** The callbacks of one test, in the runner's order, stopping at the first exception. */
  function RunTest(uri: string, s: LogState, run: TestRun): LogStep
    requires Legal(run) && Marked(run) && LinkableFrom(uri, run.d)
  {
    match run
    case Skipped(d, _) => Ignored(uri, s, d)
    case Ran(d, _, ending) =>
      var started := Started(uri, s, d);
      if started.outcome.Fail? then started
      else
        var failed :=
          match ending
          case Passes => started
          case Fails(f) => TestFailed(started.state, f)
          case AssumptionFails(f) => AssumptionFailed(started.state, f);
        if failed.outcome.Fail? then failed else Finished(failed.state, d)
  }

  /**
    A legal run of a marked test with an id logs its START lines and then
    exactly one END line, whose level and template follow from how the test
    ended; the END line is the last line logged.
  */
  lemma RunLogsOneEnd(uri: string, s: LogState, run: TestRun)
    requires Legal(run) && Marked(run) && SetsId(run.d.testLink.value) && LinkableFrom(uri, run.d)
    ensures var r := RunTest(uri, s, run);
      && r.outcome.Pass?
      && |r.state.lines| == |s.lines| + (if uri == NULL_URI then 1 else 2) + 1
      && r.state.lines[..|r.state.lines| - 1] == Started(uri, s, run.d).state.lines
      && (r.state.lines[|r.state.lines| - 1].level, r.state.lines[|r.state.lines| - 1].template) == ExpectedEnd(run)
  {
    var started := Started(uri, s, run.d);
    var r := RunTest(uri, s, run);
    match run
    case Skipped(d, _) =>
    case Ran(d, _, ending) =>
      match ending
      case Passes =>
      case Fails(f) =>
        assert f.description == d;
      case AssumptionFails(f) =>
        assert f.description == d;
  }

  /** An ignored test leaves the slot at the sentinel: a later testFinished would log PASSED. */
  lemma IgnoredCountsAsPassed(uri: string, s: LogState, d: Description)
    requires d.testLink.Some? && SetsId(d.testLink.value) && d.ignore.Some? && LinkableFrom(uri, d)
    ensures Ignored(uri, s, d).state.failure == NoFailure
    ensures var finished := Finished(Ignored(uri, s, d).state, d);
      finished.state.lines[|finished.state.lines| - 1].template == PASSED_TEMPLATE
  {
  }

  /**
    The listener object.  `uri` is the configured address (NULL_URI for none)
    and `resolver` the one built from it; `lines` is what the injected logger
    has received, and `failures` the inherited failure slot.
  */
  class LogListener {
    const uri: string
    const resolver: Resolver
    var lines: seq<LogLine>
    const failures: FailureSlot

    function Model(): LogState
      reads this, failures
    {
      LogState(lines, failures.current)
    }

    constructor(testlinkUri: string)
      ensures uri == testlinkUri && resolver == New(testlinkUri)
      ensures Model() == INITIAL && fresh(failures)
    {
      uri := testlinkUri;
      resolver := New(testlinkUri);
      lines := [];
      failures := new FailureSlot();
    }

    method TestStarted(d: Description) returns (outcome: Outcome<Exception>)
      requires d.testLink.Some? && LinkableFrom(uri, d) && resolver == New(uri)
      modifies this, failures
      ensures LogStep(Model(), outcome) == Started(uri, old(Model()), d)
    {
      failures.ResetCurrentFailure();
      var id := GetId(d);
      if id.Err? {
        return Fail(id.error);
      }
      lines := lines + [LogLine(Info, START_TEMPLATE, [Text(id.value), Text(d.displayName)])];
      if uri != NULL_URI {
        var link := FromTestLinkId(resolver, FromDescription(d).value);
        lines := lines + [LogLine(Info, START_TEMPLATE, [Text(id.value), Text(link)])];
      }
      outcome := Pass;
    }

    method TestIgnored(d: Description) returns (outcome: Outcome<Exception>)
      requires d.testLink.Some? && LinkableFrom(uri, d) && resolver == New(uri)
      requires SetsId(d.testLink.value) ==> d.ignore.Some?
      modifies this, failures
      ensures LogStep(Model(), outcome) == Ignored(uri, old(Model()), d)
    {
      outcome := TestStarted(d);
      if outcome.Fail? {
        return;
      }
      var message := d.ignore.value;
      var id := GetId(d);
      lines := lines + [LogLine(Warn, BLOCKED_TEMPLATE, [Text(id.value), Text(d.displayName), Text(message)])];
    }

    method TestFailure(f: Failure) returns (outcome: Outcome<Exception>)
      requires f.description.testLink.Some?
      modifies this, failures
      ensures LogStep(Model(), outcome) == TestFailed(old(Model()), f)
    {
      failures.SetCurrentFailure(f);
      var id := GetId(f.description);
      if id.Err? {
        return Fail(id.error);
      }
      if f.message.Some? {
        lines := lines + [LogLine(Error, FAILED_TEMPLATE, [Text(id.value), Text(f.TestHeader()), Text(f.message.value)])];
      } else {
        lines := lines + [LogLine(Error, FAILED_TEMPLATE, [Text(id.value), Text(f.TestHeader()), Thrown(f.exception)])];
      }
      outcome := Pass;
    }

    method TestAssumptionFailure(f: Failure) returns (outcome: Outcome<Exception>)
      requires f.description.testLink.Some?
      modifies this, failures
      ensures LogStep(Model(), outcome) == AssumptionFailed(old(Model()), f)
    {
      failures.SetCurrentFailure(f);
      var id := GetId(f.description);
      if id.Err? {
        return Fail(id.error);
      }
      lines := lines + [LogLine(Warn, BLOCKED_TEMPLATE, [Text(id.value), Text(f.TestHeader()), AssumptionArg(f)])];
      outcome := Pass;
    }

    method TestFinished(d: Description) returns (outcome: Outcome<Exception>)
      requires d.testLink.Some? && !failures.current.Unset?
      modifies this
      ensures LogStep(Model(), outcome) == Finished(old(Model()), d)
    {
      outcome := Pass;
      if failures.HasPassed() {
        var id := GetId(d);
        if id.Err? {
          return Fail(id.error);
        }
        lines := lines + [LogLine(Info, PASSED_TEMPLATE, [Text(id.value), Text(d.displayName)])];
      }
    }
  }
}
