/**
  The JUnit objects the listeners consume, reduced to plain records: a test's
  Description (display name, the optional TestLink marker, the optional @Ignore
  value), a Failure, and the two exceptions the listeners throw.  It also holds
  the runner's lifecycle protocol for one test (TestRun), the shape of every
  callback sequence the runner legally delivers.
*/
module JUnit {
  import opened Wrappers
  import opened Timestamp

  /** A Java long. */
  type Long = n: int | -0x8000_0000_0000_0000 <= n < 0x8000_0000_0000_0000

  /** The default of TestLink.externalId(), meaning "no external id". */
  const NOT_AVAILABLE: string := "NOT_AVAILABLE"

  /** The fields of a TestLink annotation; its defaults are internalId 0 and externalId NOT_AVAILABLE. */
  datatype TestLink = TestLink(internalId: Long, externalId: string)

  const DEFAULT_TEST_LINK: TestLink := TestLink(0, NOT_AVAILABLE)

  /**
    A test's Description: getDisplayName(), getAnnotation(TestLink.class)
    (None when absent) and getAnnotation(Ignore.class).value() (None when the
    test carries no @Ignore).
  */
  datatype Description = Description(displayName: string, testLink: Option<TestLink>, ignore: Option<string>)

  /**
    A Failure: its Description, getMessage() (None for null), getTrace() and
    the string form of getException().  getTestHeader() is, in JUnit, the
    description's display name.
  */
  datatype Failure = Failure(description: Description, message: Option<string>, trace: string, exception: string)
  {
    function TestHeader(): string { description.displayName }
  }

  /** The Java exceptions the core throws, each with its message. */
  datatype Exception =
    | IllegalArgumentException(message: string)
    | RuntimeException(message: string)
  {
    /** Throwable.toString(): the class name, ": " and the message. */
    function ToString(): string {
      match this
      case IllegalArgumentException(m) => "java.lang.IllegalArgumentException: " + m
      case RuntimeException(m) => "java.lang.RuntimeException: " + m
    }
  }

  /** How a test that was started ends. */
  datatype Ending = Passes | Fails(failure: Failure) | AssumptionFails(failure: Failure)

  /**
    The callbacks the runner delivers for one test of a suite: either
    testStarted, at most one testFailure or testAssumptionFailure, then
    testFinished (Ran); or testIgnored alone, with no testStarted (Skipped).
    `start` is the wall-clock time of the first callback.
  */
  datatype TestRun = Ran(d: Description, start: DateTime, ending: Ending) | Skipped(d: Description, start: DateTime)

  /**
    What the runner guarantees of one test's callbacks: a failure it reports
    belongs to the running test, a skipped test carries @Ignore and a test that
    runs does not.
  */
  predicate Legal(run: TestRun) {
    match run
    case Skipped(d, _) => d.ignore.Some?
    case Ran(d, _, ending) =>
      d.ignore.None? && (ending.Passes? || ending.failure.description == d)
  }

  /** The test of run `run` carries a TestLink marker. */
  predicate Marked(run: TestRun) {
    run.d.testLink.Some?
  }
}
