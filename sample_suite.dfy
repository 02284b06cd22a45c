/**
  The sample suite the listener tests run: eleven tests, seven of them
  marked (five with an external id, two with an internal one), among them
  one ignored and one whose assumption fails; four unmarked ones pass, fail,
  fail an assumption and are ignored.  Display names are the method names;
  failure messages and traces are representative texts.
*/
module SampleSuite {
  import opened Wrappers
  import opened JUnit
  import opened Timestamp
  import opened Dom
  import opened TestLinkId
  import opened InTestLinkXmlRunListener
  import opened AbstractTestLinkRunListener

  function External(name: string, externalId: string, ignore: Option<string>): Description {
    Description(name, Some(TestLink(0, externalId)), ignore)
  }

  function Internal(name: string, internalId: Long): Description {
    Description(name, Some(TestLink(internalId, NOT_AVAILABLE)), None)
  }

  function Unmarked(name: string, ignore: Option<string>): Description {
    Description(name, None, ignore)
  }

  const TRACE: string := "java.lang.AssertionError"

  /** The tests of the sample class, in declaration order: seven marked ones, then four unmarked ones. */
  function Suite(t: DateTime): seq<TestRun> {
    var failed := External("testFailed", "T2", None);
    var withoutMessage := External("testFailedWithOutMessage", "T2_WITHOUT_MESSAGE", None);
    var assumption := External("testFailingAssumption", "ASSUMPTION_FAILED", None);
    var unmarkedAssumption := Unmarked("testFailingAssumptionWithoutTestLinkAnnotation", None);
    var unmarkedFailure := Unmarked("testNoTestLinkAnnotationFailure", None);
    [ Ran(External("testSuccessExternal", "T1", None), t, Passes),
      Ran(Internal("testSuccessInternal", 4), t, Passes),
      Ran(failed, t, Fails(Failure(failed, Some("Failed"), TRACE, TRACE))),
      Ran(withoutMessage, t, Fails(Failure(withoutMessage, None, TRACE, TRACE))),
      Ran(Internal("testSuccessInternal2", 5), t, Passes),
      Skipped(External("testIgnore", "T3", Some("Does not run.")), t),
      Ran(assumption, t, AssumptionFails(Failure(assumption, Some("got: <0>, expected: is <1>"), TRACE, TRACE))),
      Ran(unmarkedAssumption, t, AssumptionFails(Failure(unmarkedAssumption, Some("Could not connect to server"), TRACE, TRACE))),
      Ran(Unmarked("testNoTestLinkAnnotationSuccess", None), t, Passes),
      Ran(unmarkedFailure, t, Fails(Failure(unmarkedFailure, None, TRACE, TRACE))),
      Skipped(Unmarked("testNoTestLinkAnnotationIgnore", Some("")), t) ]
  }

  /** The suite facts the record lemmas need, with the three counts. */
  predicate Facts(runs: seq<TestRun>, marked: nat, external: nat, blocked: nat) {
    && LegalSuite(runs) && ResolvableSuite(runs)
    && CountMarked(runs) == marked && CountMarkedExternal(runs) == external && CountMarkedBlocked(runs) == blocked
  }

  /** One more run in front of a suite adds its own share to each count. */
  lemma FactsStep(runs: seq<TestRun>, marked: nat, external: nat, blocked: nat)
    requires runs != [] && Facts(runs[1..], marked, external, blocked)
    requires Legal(runs[0]) && ValidDateTime(runs[0].start) && Resolvable(runs[0])
    ensures Facts(runs, marked + (if Marked(runs[0]) then 1 else 0),
      external + (if Marked(runs[0]) && runs[0].d.testLink.value.externalId != NOT_AVAILABLE then 1 else 0),
      blocked + (if Marked(runs[0]) && (runs[0].Skipped? || runs[0].ending.AssumptionFails?) then 1 else 0))
  {
  }

  /** The four unmarked tests at the end add nothing to the counts. */
  lemma UnmarkedTailFacts(t: DateTime)
    requires ValidDateTime(t)
    ensures Facts(Suite(t)[7..], 0, 0, 0)
  {
    var r := Suite(t);
    assert r[11..] == [];
    assert Facts(r[11..], 0, 0, 0);
    FactsStep(r[10..], 0, 0, 0);
    FactsStep(r[9..], 0, 0, 0);
    FactsStep(r[8..], 0, 0, 0);
    FactsStep(r[7..], 0, 0, 0);
  }

  /** From the second internal test on: the ignored test and the failed assumption are the two blocked ones. */
  lemma IgnoredAndAssumptionFacts(t: DateTime)
    requires ValidDateTime(t)
    ensures Facts(Suite(t)[4..], 3, 2, 2)
  {
    var r := Suite(t);
    UnmarkedTailFacts(t);
    FactsStep(r[6..], 0, 0, 0);
    FactsStep(r[5..], 1, 1, 1);
    FactsStep(r[4..], 2, 2, 2);
  }

  lemma SuiteFacts(t: DateTime)
    requires ValidDateTime(t)
    ensures Facts(Suite(t), 7, 5, 2)
  {
    var r := Suite(t);
    IgnoredAndAssumptionFacts(t);
    FactsStep(r[3..], 3, 2, 2);
    FactsStep(r[2..], 4, 3, 2);
    FactsStep(r[1..], 5, 4, 2);
    FactsStep(r[0..], 6, 4, 2);
    assert r[0..] == r;
  }

  /**
    The whole sample suite through the dispatcher and the XML listener:
    no exception, seven records, each complete, five with an external id
    and two blocked.
  */
  lemma SampleSuiteResults(t: DateTime)
    requires ValidDateTime(t)
    ensures LegalSuite(Suite(t))
    ensures var r := RunSuite(INITIAL, "goofy", Suite(t));
      && r.outcome.Pass?
      && |r.state.results| == 7
      && (forall i :: 0 <= i < |r.state.results| ==> WellFormed(r.state.results[i]))
      && CountExternal(r.state.results) == 5
      && CountBlocked(r.state.results) == 2
  {
    SuiteFacts(t);
    RunSuiteRecords(INITIAL, "goofy", Suite(t));
    RecordsCounts("goofy", Suite(t));
    SuiteRecordsWellFormed(INITIAL, "goofy", Suite(t));
    assert INITIAL.results + Records("goofy", Suite(t)) == Records("goofy", Suite(t));
  }
}
