# testlink-junit in Dafny

testlink-junit connects JUnit test runs to TestLink, a test management
system. A JUnit `RunListener` watches the lifecycle callbacks of each test
(`testStarted`, `testIgnored`, `testFailure`, `testAssumptionFailure`,
`testFinished`). Tests carrying a `@TestLink` marker, which holds an
external id or an internal id, each get one result record:

- in the XML form that TestLink imports (a `<testcase>` with an id
  attribute and `tester`, `timestamp`, `result` and `notes` children), or
- as log lines that also carry a deep link into the TestLink web interface.

This project models that bookkeeping and proves what the code promises:

| module (file) | models |
|---|---|
| `TestLinkId` (test_link_id.dfy) | id resolution from a marker, `getType`, `toString` (tljunit module) |
| `SurefireTestLinkId` (surefire_test_link_id.dfy) | the surefire copy, whose internal ids are named `id` |
| `TestLinkUriResolver` (uri_resolver.dfy) | base normalisation and the two link shapes (tljunit) |
| `SurefireTestLinkUriResolver` (surefire_uri_resolver.dfy) | the kind-dispatching `fromTestLinkId` of the surefire copy |
| `TestState` (test_state.dfy) | the three results with their word and one-letter token |
| `AbstractInTestLinkRunListener` (abstract_in_test_link_run_listener.dfy) | the per-test failure slot and `hasPassed` |
| `InTestLinkXmlRunListener` (xml_run_listener.dfy) | the XML record collector (surefire) |
| `AbstractTestLinkRunListener` (dispatcher.dfy) | `selectListener` and the five forwarding callbacks, plus whole tests and suites |
| `InTestLinkLogRunListener` (log_run_listener.dfy) | the logging listener |
| `LegacyTestLinkRunListener` (legacy_run_listener.dfy) | the oldest, self-contained listener of the `com.github` package |
| `SampleSuite` (sample_suite.dfy) | the sample test class and the counts its XML run must give |
| `Wrappers`, `JUnit`, `Decimal`, `Timestamp`, `Dom` | shared data: results, JUnit descriptions and failures, `String.valueOf(long)`, `SimpleDateFormat`, Xpp3Dom records |

Each stateful listener is modelled twice:

- as pure transition functions on a state datatype, which the lemmas are
  about;
- as a class whose fields the methods update in place. Each method ensures
  that its new `Model()` is the transition applied to the old one.

A callback that throws returns `Fail(exception)` in an `Outcome`. A Java
null dereference is a precondition.

The runner's per-test protocol is `JUnit.TestRun`:

- an ignored test gets `testIgnored` only;
- any other test gets `testStarted`, then at most one failure or
  assumption-failure callback on its own description, then
  `testFinished`.

Whole-run properties (one record per marked test, every record complete)
hold for runs of this shape. The listeners themselves do not enforce it:
`SecondFailureAddsSecondResult` shows a second failure adding a second
result.

A marker without either id still leaves a record: `testStarted` appends it
before the id is resolved (the legacy listener appends an empty one), and
the exception leaves it in the list (`StartWithoutIdKeepsRecord`,
`MissingIdKeepsEmptyRecord`).

## Model

| member | source | states |
|---|---|---|
| TestLinkId.FromDescription | tljunit/src/main/java/net/oneandone/testlinkjunit/tljunit/TestLinkId.java:54-66 | succeeds iff the marker sets an id; External exactly when the external id is not NOT_AVAILABLE, carrying it; otherwise Internal with the non-zero internal id; otherwise IllegalArgumentException with the exact message |
| TestLinkId.ExternalTakesPrecedence | tljunit/src/main/java/net/oneandone/testlinkjunit/tljunit/TestLinkId.java:58-59 | a non-sentinel external id gives External(externalId) whatever the internal id is |
| TestLinkId.InternalWithoutExternal | tljunit/src/main/java/net/oneandone/testlinkjunit/tljunit/TestLinkId.java:60-61 | with the sentinel external id, any non-zero internal id (negative included) gives Internal(internalId) |
| TestLinkId.MissingIdFails | tljunit/src/main/java/net/oneandone/testlinkjunit/tljunit/TestLinkId.java:62-64 | a default marker fails with "Must set either internalId or externalId on '<name>'", exactly as toString renders it |
| TestLinkId.FromDescriptionDeterministic | tljunit/src/main/java/net/oneandone/testlinkjunit/tljunit/TestLinkId.java:54-66 | resolution depends only on the marker and the display name, so two calls on them agree |
| TestLinkId.TypedInjective | tljunit/src/main/java/net/oneandone/testlinkjunit/tljunit/TestLinkId.java:41-43 | the "%s='%s'" rendering of two type names with distinct first letters determines both parts |
| TestLinkId.ToStringInjective | tljunit/src/main/java/net/oneandone/testlinkjunit/tljunit/TestLinkId.java:41-43 | toString (external_id/internal_id='id') determines the id: kind and value |
| SurefireTestLinkId.GetType | tljunit-surefire/src/main/java/net/oneandone/testlinkjunit/tljunit/TestLinkId.java:103-124 | "external_id" exactly for external ids, "id" exactly for internal ones |
| SurefireTestLinkId.ExternalIdWins | tljunit-surefire/src/main/java/net/oneandone/testlinkjunit/tljunit/TestLinkId.java:76-79 | the external id wins over any internal id, and renders as external_id='<id>' |
| SurefireTestLinkId.InternalIdTaken | tljunit-surefire/src/main/java/net/oneandone/testlinkjunit/tljunit/TestLinkId.java:80-81 | with the sentinel external id a non-zero internal id is taken and renders as id='<n>' |
| SurefireTestLinkId.NeitherIdSet | tljunit-surefire/src/main/java/net/oneandone/testlinkjunit/tljunit/TestLinkId.java:82-84 | no id set: IllegalArgumentException whose toString is the text the listener test expects |
| SurefireTestLinkId.AttributeIdentifiesId | tljunit-surefire/src/main/java/net/oneandone/testlinkjunit/tljunit/InTestLinkXmlRunListener.java:67-68 | the attribute written for an id (getType, String.valueOf(getId)) determines the id, both directions |
| SurefireTestLinkId.ToStringInjective | tljunit-surefire/src/main/java/net/oneandone/testlinkjunit/tljunit/TestLinkId.java:61-63 | the surefire toString determines the id |
| TestLinkUriResolver.New | tljunit/src/main/java/net/oneandone/testlinkjunit/tljunit/TestLinkUriResolver.java:25-32 | the base ends in '/', extends the given text by at most one character, and is kept as given when it already ends in '/' |
| TestLinkUriResolver.NewIdempotent | tljunit/src/main/java/net/oneandone/testlinkjunit/tljunit/TestLinkUriResolver.java:27-31 | normalising a normalised base changes nothing |
| TestLinkUriResolver.TrailingSlashIrrelevant | tljunit/src/main/java/net/oneandone/testlinkjunit/tljunit/TestLinkUriResolver.java:25-32 | a base given with or without its trailing slash gives the same resolver |
| TestLinkUriResolver.NumeralUriSafe | tljunit/src/main/java/net/oneandone/testlinkjunit/tljunit/TestLinkUriResolver.java:41-43 | the rendering of any long consists of legal query characters, so internal links need no escaping |
| TestLinkUriResolver.FromInternal | tljunit/src/main/java/net/oneandone/testlinkjunit/tljunit/TestLinkUriResolver.java:41-43 | the link is base + "lib/testcases/tcPrint.php?testcase_id=" + the id's decimal text |
| TestLinkUriResolver.FromExternal | tljunit/src/main/java/net/oneandone/testlinkjunit/tljunit/TestLinkUriResolver.java:52-54 | the link is base + "lib/testcases/archiveData.php?targetTestCase=" + the id verbatim + "&edit=testcase&allowedit=0" |
| TestLinkUriResolver.InternalLinkIdentifiesId | tljunit/src/main/java/net/oneandone/testlinkjunit/tljunit/TestLinkUriResolver.java:41-43 | two internal ids give the same print link iff they are equal |
| TestLinkUriResolver.ExternalLinkIdentifiesId | tljunit/src/main/java/net/oneandone/testlinkjunit/tljunit/TestLinkUriResolver.java:52-54 | two external ids give the same archive link iff they are equal |
| SurefireTestLinkUriResolver.FromTestLinkId | tljunit-surefire/src/main/java/net/oneandone/testlinkjunit/tljunit/TestLinkUriResolver.java:83-90 | the print link shape exactly for internal ids, the archive shape for external ones |
| SurefireTestLinkUriResolver.LinkIdentifiesId | tljunit-surefire/src/main/java/net/oneandone/testlinkjunit/tljunit/TestLinkUriResolver.java:56-90 | two ids give the same link iff they are equal, across both kinds |
| SurefireTestLinkUriResolver.PageLetter | tljunit-surefire/src/main/java/net/oneandone/testlinkjunit/tljunit/TestLinkUriResolver.java:56-71 | the character after "lib/testcases/" is 't' for internal and 'a' for external ids |
| SurefireTestLinkUriResolver.LinkIgnoresTrailingSlash | tljunit-surefire/src/main/java/net/oneandone/testlinkjunit/tljunit/TestLinkUriResolver.java:40-47 | the base with or without its trailing slash yields the same link for every id |
| SurefireTestLinkUriResolver.DemoLinks | tljunit-surefire/src/test/java/net/oneandone/testlinkjunit/tljunit/TestLinkUriResolverTest.java:42-47 | internal id 2750 and external id "SM-1" give the two expected links under a base written without '/' |
| TestState.State.GetState | tljunit/src/main/java/net/oneandone/testlinkjunit/tljunit/TestState.java:61-65 | the result token is one character |
| TestState.TokenIdentifiesState | tljunit/src/main/java/net/oneandone/testlinkjunit/tljunit/TestState.java:28-34 | two states have the same token ("p", "b", "f") iff they are the same state |
| TestState.DescriptionIdentifiesState | tljunit/src/main/java/net/oneandone/testlinkjunit/tljunit/TestState.java:28-34 | two states have the same word (PASSED, BLOCKED, FAILED) iff they are the same state |
| AbstractInTestLinkRunListener.FailureSlot.constructor | tljunit/src/main/java/net/oneandone/testlinkjunit/tljunit/AbstractInTestLinkRunListener.java:37 | a new slot holds nothing (the ThreadLocal's null) |
| AbstractInTestLinkRunListener.FailureSlot.GetCurrentFailure | tljunit/src/main/java/net/oneandone/testlinkjunit/tljunit/AbstractInTestLinkRunListener.java:44-46 | returns the value stored last |
| AbstractInTestLinkRunListener.FailureSlot.SetCurrentFailure | tljunit/src/main/java/net/oneandone/testlinkjunit/tljunit/AbstractInTestLinkRunListener.java:54-56 | stores the failure; afterwards hasPassed is false |
| AbstractInTestLinkRunListener.FailureSlot.ResetCurrentFailure | tljunit/src/main/java/net/oneandone/testlinkjunit/tljunit/AbstractInTestLinkRunListener.java:61-63 | stores the NO_FAILURE sentinel; afterwards hasPassed is true |
| InTestLinkXmlRunListener.Started | tljunit-surefire/src/main/java/net/oneandone/testlinkjunit/tljunit/InTestLinkXmlRunListener.java:57-69 | resets the slot; appends exactly one record, which becomes current, leaving earlier records alone; its children are tester then timestamp; it gets the getType()=id attribute iff the marker sets an id, otherwise the exact IllegalArgumentException |
| InTestLinkXmlRunListener.Ignored | tljunit-surefire/src/main/java/net/oneandone/testlinkjunit/tljunit/InTestLinkXmlRunListener.java:73-79 | testStarted, and if that raised nothing, the started record plus result "b" and notes "'<name>' BLOCKED because '<value>'." |
| InTestLinkXmlRunListener.FailedOrBlocked | tljunit-surefire/src/main/java/net/oneandone/testlinkjunit/tljunit/InTestLinkXmlRunListener.java:103-117 | stores the failure; adds to the current record only its state's token and "'<header>' <WORD> because '<message, or the trace when null>'." |
| InTestLinkXmlRunListener.TestFailed | tljunit-surefire/src/main/java/net/oneandone/testlinkjunit/tljunit/InTestLinkXmlRunListener.java:90-92 | the shared failure step with the failed state; the added result reads "f" |
| InTestLinkXmlRunListener.AssumptionFailed | tljunit-surefire/src/main/java/net/oneandone/testlinkjunit/tljunit/InTestLinkXmlRunListener.java:83-86 | the shared failure step with the blocked state; the added result reads "b" |
| InTestLinkXmlRunListener.Finished | tljunit-surefire/src/main/java/net/oneandone/testlinkjunit/tljunit/InTestLinkXmlRunListener.java:125-131 | with no failure stored since the start, adds only result "p" and "'<name>' PASSED." to the current record; otherwise the state is unchanged |
| InTestLinkXmlRunListener.StartWithoutIdKeepsRecord | tljunit-surefire/src/main/java/net/oneandone/testlinkjunit/tljunit/InTestLinkXmlRunListener.java:64-68 | a marker without ids throws with the attribute-less tester/timestamp record already appended |
| InTestLinkXmlRunListener.FailureAddsResult | tljunit-surefire/src/main/java/net/oneandone/testlinkjunit/tljunit/InTestLinkXmlRunListener.java:103-117 | each failure callback adds one result child, whatever the record already holds |
| InTestLinkXmlRunListener.StartedHasNoResult | tljunit-surefire/src/main/java/net/oneandone/testlinkjunit/tljunit/InTestLinkXmlRunListener.java:59-62 | a freshly started record holds no result |
| InTestLinkXmlRunListener.SecondFailureAddsSecondResult | tljunit-surefire/src/main/java/net/oneandone/testlinkjunit/tljunit/InTestLinkXmlRunListener.java:103-117 | two failure callbacks after one start leave two results, so complete records depend on the runner's protocol |
| InTestLinkXmlRunListener.AssumptionFailureStaysBlocked | tljunit-surefire/src/main/java/net/oneandone/testlinkjunit/tljunit/InTestLinkXmlRunListener.java:125-131 | testFinished after an assumption failure changes nothing |
| InTestLinkXmlRunListener.AddToCurrent | tljunit-surefire/src/main/java/net/oneandone/testlinkjunit/tljunit/InTestLinkXmlRunListener.java:104-116 | appends one child to the current record; every other record, the current index and the failure are unchanged |
| InTestLinkXmlRunListener.XmlListener.AddChild | tljunit-surefire/src/main/java/net/oneandone/testlinkjunit/tljunit/InTestLinkXmlRunListener.java:76 | the records end as AddToCurrent gives |
| InTestLinkXmlRunListener.XmlListener.constructor | tljunit-surefire/src/main/java/net/oneandone/testlinkjunit/tljunit/InTestLinkXmlRunListener.java:46-49 | keeps the tester name and starts with no records and an unset slot |
| InTestLinkXmlRunListener.XmlListener.GetResults | tljunit-surefire/src/main/java/net/oneandone/testlinkjunit/tljunit/InTestLinkXmlRunListener.java:193-195 | returns the collected records |
| InTestLinkXmlRunListener.XmlListener.TestStarted | tljunit-surefire/src/main/java/net/oneandone/testlinkjunit/tljunit/InTestLinkXmlRunListener.java:57-69 | the in-place update ends in the state Started gives, with its outcome |
| InTestLinkXmlRunListener.XmlListener.TestIgnored | tljunit-surefire/src/main/java/net/oneandone/testlinkjunit/tljunit/InTestLinkXmlRunListener.java:73-79 | the in-place update ends in the state Ignored gives, with its outcome |
| InTestLinkXmlRunListener.XmlListener.TestAssumptionFailure | tljunit-surefire/src/main/java/net/oneandone/testlinkjunit/tljunit/InTestLinkXmlRunListener.java:83-86 | the in-place update ends in the state AssumptionFailed gives |
| InTestLinkXmlRunListener.XmlListener.TestFailure | tljunit-surefire/src/main/java/net/oneandone/testlinkjunit/tljunit/InTestLinkXmlRunListener.java:90-92 | the in-place update ends in the state TestFailed gives |
| InTestLinkXmlRunListener.XmlListener.SetFailedOrIgnored | tljunit-surefire/src/main/java/net/oneandone/testlinkjunit/tljunit/InTestLinkXmlRunListener.java:103-117 | the in-place update ends in the state FailedOrBlocked gives |
| InTestLinkXmlRunListener.XmlListener.TestFinished | tljunit-surefire/src/main/java/net/oneandone/testlinkjunit/tljunit/InTestLinkXmlRunListener.java:125-131 | the in-place update ends in the state Finished gives |
| Timestamp.Format | tljunit-surefire/src/main/java/net/oneandone/testlinkjunit/tljunit/InTestLinkXmlRunListener.java:163-166 | 19 characters: digit fields of widths 4, 2, 2, 2, 2, 2 separated by '-', '-', ' ', ':', ':' |
| Timestamp.FormatRoundTrip | tljunit-surefire/src/main/java/net/oneandone/testlinkjunit/tljunit/InTestLinkXmlRunListener.java:163-166 | reading the text back gives the time it was made from |
| Timestamp.FormatInjective | tljunit-surefire/src/main/java/net/oneandone/testlinkjunit/tljunit/InTestLinkXmlRunListener.java:163-166 | two times give the same text iff they are equal |
| Timestamp.EpochZeroUtc | tljunit-surefire/src/test/java/net/oneandone/testlinkjunit/tljunit/TestLinkRunListenerTest.java:64-67 | epoch 0 in UTC is 1970-01-01 00:00:00 |
| Timestamp.EpochZeroTimestamp | tljunit-surefire/src/test/java/net/oneandone/testlinkjunit/tljunit/TestLinkRunListenerTest.java:64-70 | epoch 0 in UTC formats as "1970-01-01 00:00:00" |
| Decimal.LongToStringRoundTrip | tljunit-surefire/src/main/java/net/oneandone/testlinkjunit/tljunit/InTestLinkXmlRunListener.java:68 | String.valueOf of a long parses back to the same long |
| Decimal.LongToStringInjective | tljunit-surefire/src/main/java/net/oneandone/testlinkjunit/tljunit/InTestLinkXmlRunListener.java:68 | two longs render the same iff they are equal |
| Decimal.ZeroPadValue | tljunit-surefire/src/main/java/net/oneandone/testlinkjunit/tljunit/InTestLinkXmlRunListener.java:164 | zero padding keeps the value of the field |
| Decimal.ZeroPadLength | tljunit-surefire/src/main/java/net/oneandone/testlinkjunit/tljunit/InTestLinkXmlRunListener.java:164 | a field below 10^width pads to exactly width characters |
| Dom.ChildrenNamed | tljunit-surefire/src/test/java/net/oneandone/testlinkjunit/tljunit/AbstractTestLinkRunListenerTest.java:35 | getChildren(name): only children of that name, and every child of that name as often as it occurs among the children (so "exactly one" counts all of them) |
| Dom.ChildrenNamedAppend | tljunit-surefire/src/test/java/net/oneandone/testlinkjunit/tljunit/AbstractTestLinkRunListenerTest.java:35 | getChildren(name) of two child lists joined is that of the first followed by that of the second, so the children keep their document order |
| Dom.CompleteRecordWellFormed | tljunit-surefire/src/test/java/net/oneandone/testlinkjunit/tljunit/AbstractTestLinkRunListenerTest.java:34-38 | a record with an attribute and one non-empty tester, timestamp, result and notes passes the tests' check |
| AbstractTestLinkRunListener.SelectListener | tljunit-surefire/src/main/java/net/oneandone/testlinkjunit/tljunit/AbstractTestLinkRunListener.java:108-115 | the injected listener iff the description carries a marker; the ids are not consulted |
| AbstractTestLinkRunListener.OnStarted | tljunit-surefire/src/main/java/net/oneandone/testlinkjunit/tljunit/AbstractTestLinkRunListener.java:61-64 | forwards to the XML listener's testStarted for a marked test, changes nothing otherwise |
| AbstractTestLinkRunListener.OnIgnored | tljunit-surefire/src/main/java/net/oneandone/testlinkjunit/tljunit/AbstractTestLinkRunListener.java:68-71 | forwards testIgnored for a marked test, changes nothing otherwise |
| AbstractTestLinkRunListener.OnFailure | tljunit-surefire/src/main/java/net/oneandone/testlinkjunit/tljunit/AbstractTestLinkRunListener.java:75-78 | selects on the failure's description, then forwards or changes nothing |
| AbstractTestLinkRunListener.OnAssumptionFailure | tljunit-surefire/src/main/java/net/oneandone/testlinkjunit/tljunit/AbstractTestLinkRunListener.java:82-85 | selects on the failure's description, then forwards or changes nothing |
| AbstractTestLinkRunListener.OnFinished | tljunit-surefire/src/main/java/net/oneandone/testlinkjunit/tljunit/AbstractTestLinkRunListener.java:89-92 | forwards testFinished for a marked test, changes nothing otherwise |
| AbstractTestLinkRunListener.UnmarkedIsNoOp | tljunit-surefire/src/main/java/net/oneandone/testlinkjunit/tljunit/AbstractTestLinkRunListener.java:61-92 | every callback for an unmarked test leaves the records and the failure slot as they were |
| AbstractTestLinkRunListener.MarkedWithoutIdPropagates | tljunit-surefire/src/main/java/net/oneandone/testlinkjunit/tljunit/AbstractTestLinkRunListener.java:109-111 | a marker without ids still reaches the listener; its exception comes back and a record was appended |
| AbstractTestLinkRunListener.Records | tljunit-surefire/src/main/java/net/oneandone/testlinkjunit/tljunit/AbstractTestLinkRunListener.java:61-92 | the reference records of a suite, no more than its tests |
| AbstractTestLinkRunListener.RunTestRecords | tljunit-surefire/src/main/java/net/oneandone/testlinkjunit/tljunit/AbstractTestLinkRunListener.java:61-92 | one legal test through the dispatcher raises nothing and appends its reference record if marked, nothing otherwise |
| AbstractTestLinkRunListener.SkippedRecord | tljunit-surefire/src/main/java/net/oneandone/testlinkjunit/tljunit/InTestLinkXmlRunListener.java:73-79 | an ignored marked test appends exactly its reference record |
| AbstractTestLinkRunListener.PassedRecord | tljunit-surefire/src/main/java/net/oneandone/testlinkjunit/tljunit/InTestLinkXmlRunListener.java:125-131 | a passing marked test appends exactly its reference record |
| AbstractTestLinkRunListener.FailedRecord | tljunit-surefire/src/main/java/net/oneandone/testlinkjunit/tljunit/InTestLinkXmlRunListener.java:90-92 | a failing marked test appends exactly its reference record |
| AbstractTestLinkRunListener.BlockedRecord | tljunit-surefire/src/main/java/net/oneandone/testlinkjunit/tljunit/InTestLinkXmlRunListener.java:83-86 | a marked test whose assumption fails appends exactly its reference record |
| AbstractTestLinkRunListener.RunSuiteRecords | tljunit-surefire/src/main/java/net/oneandone/testlinkjunit/tljunit/AbstractTestLinkRunListener.java:61-92 | a legal suite raises nothing and appends exactly the reference records of its marked tests, in order |
| AbstractTestLinkRunListener.ExpectedRecordWellFormed | tljunit-surefire/src/test/java/net/oneandone/testlinkjunit/tljunit/AbstractTestLinkRunListenerTest.java:53-62 | every reference record has an attribute and exactly one non-empty tester, timestamp, result and notes |
| AbstractTestLinkRunListener.RecordsWellFormed | tljunit-surefire/src/test/java/net/oneandone/testlinkjunit/tljunit/AbstractTestLinkRunListenerTest.java:53-62 | all reference records of a suite are complete |
| AbstractTestLinkRunListener.SuiteRecordsWellFormed | tljunit-surefire/src/test/java/net/oneandone/testlinkjunit/tljunit/AbstractTestLinkRunListenerTest.java:53-62 | starting from complete records, every record after a legal suite is complete |
| AbstractTestLinkRunListener.ExpectedRecordExternal | tljunit-surefire/src/test/java/net/oneandone/testlinkjunit/tljunit/AbstractTestLinkRunListenerTest.java:40-51 | a reference record carries external_id iff the marker sets the external id |
| AbstractTestLinkRunListener.ExpectedRecordBlocked | tljunit-surefire/src/test/java/net/oneandone/testlinkjunit/tljunit/AbstractTestLinkRunListenerTest.java:64-74 | a reference record's first result is "b" iff the test was ignored or its assumption failed |
| AbstractTestLinkRunListener.ExpectedRecordCounts | tljunit-surefire/src/test/java/net/oneandone/testlinkjunit/tljunit/AbstractTestLinkRunListenerTest.java:40-74 | both of the above for one record |
| AbstractTestLinkRunListener.RecordsCounts | tljunit-surefire/src/test/java/net/oneandone/testlinkjunit/tljunit/AbstractTestLinkRunListenerTest.java:40-74 | a suite has as many records as marked tests, as many external ones as external markers, as many blocked as ignored or assumption-failed marked tests |
| AbstractTestLinkRunListener.Dispatcher.constructor | tljunit-surefire/src/main/java/net/oneandone/testlinkjunit/tljunit/AbstractTestLinkRunListener.java:55-57 | keeps the injected listener |
| AbstractTestLinkRunListener.Dispatcher.GetInTestLinkListener | tljunit-surefire/src/main/java/net/oneandone/testlinkjunit/tljunit/AbstractTestLinkRunListener.java:97-99 | returns the injected listener |
| AbstractTestLinkRunListener.Dispatcher.TestStarted | tljunit-surefire/src/main/java/net/oneandone/testlinkjunit/tljunit/AbstractTestLinkRunListener.java:61-64 | the injected listener ends in the state OnStarted gives, with its outcome |
| AbstractTestLinkRunListener.Dispatcher.TestIgnored | tljunit-surefire/src/main/java/net/oneandone/testlinkjunit/tljunit/AbstractTestLinkRunListener.java:68-71 | the injected listener ends in the state OnIgnored gives, with its outcome |
| AbstractTestLinkRunListener.Dispatcher.TestFailure | tljunit-surefire/src/main/java/net/oneandone/testlinkjunit/tljunit/AbstractTestLinkRunListener.java:75-78 | the injected listener ends in the state OnFailure gives |
| AbstractTestLinkRunListener.Dispatcher.TestAssumptionFailure | tljunit-surefire/src/main/java/net/oneandone/testlinkjunit/tljunit/AbstractTestLinkRunListener.java:82-85 | the injected listener ends in the state OnAssumptionFailure gives |
| AbstractTestLinkRunListener.Dispatcher.TestFinished | tljunit-surefire/src/main/java/net/oneandone/testlinkjunit/tljunit/AbstractTestLinkRunListener.java:89-92 | the injected listener ends in the state OnFinished gives |
| SampleSuite.SuiteFacts | tljunit/src/test/java/net/oneandone/testlinkjunit/tljunit/SUTTestLinkRunListener.java:32-94 | the sample class has 7 marked tests (5 external, 2 ignored or assumption-failed), all legal and with ids |
| SampleSuite.SampleSuiteResults | tljunit-surefire/src/test/java/net/oneandone/testlinkjunit/tljunit/TestLinkRunListenerTest.java:46-59 | the sample suite through the dispatcher raises nothing and gives 7 complete records, 5 with external_id and 2 blocked |
| InTestLinkLogRunListener.GetId | tljunit/src/main/java/net/oneandone/testlinkjunit/tljunit/InTestLinkLogRunListener.java:114-116 | succeeds iff the marker sets an id, with the type='id' rendering; otherwise the resolution's exception |
| InTestLinkLogRunListener.StartLines | tljunit/src/main/java/net/oneandone/testlinkjunit/tljunit/InTestLinkLogRunListener.java:100-104 | one START line (id, display name), and a second (id, link) iff an address is configured |
| InTestLinkLogRunListener.Started | tljunit/src/main/java/net/oneandone/testlinkjunit/tljunit/InTestLinkLogRunListener.java:98-105 | resets the slot; logs the START lines iff the id resolves, nothing and the exception otherwise |
| InTestLinkLogRunListener.Ignored | tljunit/src/main/java/net/oneandone/testlinkjunit/tljunit/InTestLinkLogRunListener.java:80-85 | testStarted, then one BLOCKED warning with the @Ignore value; the slot stays at the sentinel |
| InTestLinkLogRunListener.FailureArg | tljunit/src/main/java/net/oneandone/testlinkjunit/tljunit/InTestLinkLogRunListener.java:68-75 | the message when there is one, the exception when it is null |
| InTestLinkLogRunListener.AssumptionArg | tljunit/src/main/java/net/oneandone/testlinkjunit/tljunit/InTestLinkLogRunListener.java:91-92 | the message as it is, null included |
| InTestLinkLogRunListener.TestFailed | tljunit/src/main/java/net/oneandone/testlinkjunit/tljunit/InTestLinkLogRunListener.java:66-76 | stores the failure first; one FAILED error line iff the id resolves, nothing logged otherwise |
| InTestLinkLogRunListener.AssumptionFailed | tljunit/src/main/java/net/oneandone/testlinkjunit/tljunit/InTestLinkLogRunListener.java:89-94 | stores the failure first; one BLOCKED warning iff the id resolves |
| InTestLinkLogRunListener.Finished | tljunit/src/main/java/net/oneandone/testlinkjunit/tljunit/InTestLinkLogRunListener.java:58-62 | one PASSED info line iff no failure was stored since the start (and the id resolves); nothing otherwise |
| InTestLinkLogRunListener.StartLineCount | tljunit/src/main/java/net/oneandone/testlinkjunit/tljunit/InTestLinkLogRunListener.java:98-105 | testStarted logs exactly one START line without an address and two with one, all info lines naming the same id |
| InTestLinkLogRunListener.LinkLineIdentifiesTest | tljunit/src/main/java/net/oneandone/testlinkjunit/tljunit/InTestLinkLogRunListener.java:102-104 | two tests get the same link line iff their ids are equal |
| InTestLinkLogRunListener.ExpectedEnd | tljunit/src/main/java/net/oneandone/testlinkjunit/tljunit/InTestLinkLogRunListener.java:58-93 | the level and template of a test's END line: PASSED info iff it passed, FAILED error iff it failed, BLOCKED warning iff ignored or its assumption failed |
| InTestLinkLogRunListener.RunLogsOneEnd | tljunit/src/main/java/net/oneandone/testlinkjunit/tljunit/InTestLinkLogRunListener.java:58-105 | a legal run of a marked test logs its START lines, then exactly one END line with the expected level and template, last |
| InTestLinkLogRunListener.IgnoredCountsAsPassed | tljunit/src/main/java/net/oneandone/testlinkjunit/tljunit/InTestLinkLogRunListener.java:80-85 | an ignored test leaves the sentinel in the slot, so a later testFinished would log PASSED |
| InTestLinkLogRunListener.LogListener.constructor | tljunit/src/main/java/net/oneandone/testlinkjunit/tljunit/InTestLinkLogRunListener.java:50-54 | keeps the address and builds the resolver from it; nothing logged, slot unset |
| InTestLinkLogRunListener.LogListener.TestStarted | tljunit/src/main/java/net/oneandone/testlinkjunit/tljunit/InTestLinkLogRunListener.java:98-105 | the log and slot end as Started gives, with its outcome |
| InTestLinkLogRunListener.LogListener.TestIgnored | tljunit/src/main/java/net/oneandone/testlinkjunit/tljunit/InTestLinkLogRunListener.java:80-85 | the log and slot end as Ignored gives, with its outcome |
| InTestLinkLogRunListener.LogListener.TestFailure | tljunit/src/main/java/net/oneandone/testlinkjunit/tljunit/InTestLinkLogRunListener.java:66-76 | the log and slot end as TestFailed gives, with its outcome |
| InTestLinkLogRunListener.LogListener.TestAssumptionFailure | tljunit/src/main/java/net/oneandone/testlinkjunit/tljunit/InTestLinkLogRunListener.java:89-94 | the log and slot end as AssumptionFailed gives, with its outcome |
| InTestLinkLogRunListener.LogListener.TestFinished | tljunit/src/main/java/net/oneandone/testlinkjunit/tljunit/InTestLinkLogRunListener.java:58-62 | the log ends as Finished gives, with its outcome |
| LegacyTestLinkRunListener.UpdateCurrent | tljunit/src/main/java/com/github/oneandone/testlinkjunit/tljunit/TestLinkRunListener.java:80-89 | replaces the current record and nothing else |
| LegacyTestLinkRunListener.AddedResult | tljunit/src/main/java/com/github/oneandone/testlinkjunit/tljunit/TestLinkRunListener.java:87-91 | appends exactly one result child to the current record; every other record, the current index and the failure are unchanged |
| LegacyTestLinkRunListener.AddedNotes | tljunit/src/main/java/com/github/oneandone/testlinkjunit/tljunit/TestLinkRunListener.java:78-82 | appends exactly one notes child to the current record and touches nothing else |
| LegacyTestLinkRunListener.NewTestCase | tljunit/src/main/java/com/github/oneandone/testlinkjunit/tljunit/TestLinkRunListener.java:43-62 | unmarked: false, nothing changed; marked: one empty record appended and made current, then external_id or internal_id as TestLinkId resolution would choose, or the RuntimeException with the record left in place |
| LegacyTestLinkRunListener.Started | tljunit/src/main/java/com/github/oneandone/testlinkjunit/tljunit/TestLinkRunListener.java:33-37 | clears the stored failure, then startNewTestCase; throws exactly when it does |
| LegacyTestLinkRunListener.Ignored | tljunit/src/main/java/com/github/oneandone/testlinkjunit/tljunit/TestLinkRunListener.java:66-73 | a marked test gets a new record with "b" and "'<name>' blocked because '<value>'"; an unmarked one changes nothing |
| LegacyTestLinkRunListener.TestFailed | tljunit/src/main/java/com/github/oneandone/testlinkjunit/tljunit/TestLinkRunListener.java:95-103 | always stores the failure; a marked test's record gets "f" and "'<name>' failed because '<message>'" |
| LegacyTestLinkRunListener.ReportsPass | tljunit/src/main/java/com/github/oneandone/testlinkjunit/tljunit/TestLinkRunListener.java:111-112 | marked, not @Ignore'd, no stored failure |
| LegacyTestLinkRunListener.Finished | tljunit/src/main/java/com/github/oneandone/testlinkjunit/tljunit/TestLinkRunListener.java:107-118 | adds "p" and "'<name>' ran successfully" exactly when it reports a pass; otherwise the state is unchanged |
| LegacyTestLinkRunListener.ExpectedChildren | tljunit/src/main/java/com/github/oneandone/testlinkjunit/tljunit/TestLinkRunListener.java:66-118 | a result then a notes child; "f" iff the test failed, "b" iff it was ignored |
| LegacyTestLinkRunListener.UnmarkedRunKeepsResults | tljunit/src/main/java/com/github/oneandone/testlinkjunit/tljunit/TestLinkRunListener.java:59-61 | a legal run of an unmarked test raises nothing and changes no record |
| LegacyTestLinkRunListener.MissingIdKeepsEmptyRecord | tljunit/src/main/java/com/github/oneandone/testlinkjunit/tljunit/TestLinkRunListener.java:46-57 | a marker without ids throws with an empty record already appended |
| LegacyTestLinkRunListener.MarkedRunAppendsRecord | tljunit/src/main/java/com/github/oneandone/testlinkjunit/tljunit/TestLinkRunListener.java:33-118 | a legal run of a marked test with an id appends exactly one record: the resolved id attribute and the expected result and notes |
| LegacyTestLinkRunListener.AssumptionFailureReportedPassed | tljunit/src/main/java/com/github/oneandone/testlinkjunit/tljunit/TestLinkRunListener.java:107-118 | with no testAssumptionFailure override, a failed assumption is recorded as "p" and "ran successfully" |
| LegacyTestLinkRunListener.LegacyListener.constructor | tljunit/src/main/java/com/github/oneandone/testlinkjunit/tljunit/TestLinkRunListener.java:26-29 | no records, no current record, no failure |
| LegacyTestLinkRunListener.LegacyListener.TestStarted | tljunit/src/main/java/com/github/oneandone/testlinkjunit/tljunit/TestLinkRunListener.java:33-37 | the fields end as Started gives, with its outcome |
| LegacyTestLinkRunListener.LegacyListener.StartNewTestCase | tljunit/src/main/java/com/github/oneandone/testlinkjunit/tljunit/TestLinkRunListener.java:43-62 | the fields and the result end as NewTestCase gives |
| LegacyTestLinkRunListener.LegacyListener.TestIgnored | tljunit/src/main/java/com/github/oneandone/testlinkjunit/tljunit/TestLinkRunListener.java:66-73 | the fields end as Ignored gives, with its outcome |
| LegacyTestLinkRunListener.LegacyListener.AddNotes | tljunit/src/main/java/com/github/oneandone/testlinkjunit/tljunit/TestLinkRunListener.java:78-82 | the fields end as AddedNotes gives |
| LegacyTestLinkRunListener.LegacyListener.AddResult | tljunit/src/main/java/com/github/oneandone/testlinkjunit/tljunit/TestLinkRunListener.java:87-91 | the fields end as AddedResult gives |
| LegacyTestLinkRunListener.LegacyListener.TestFailure | tljunit/src/main/java/com/github/oneandone/testlinkjunit/tljunit/TestLinkRunListener.java:95-103 | the fields end as TestFailed gives |
| LegacyTestLinkRunListener.LegacyListener.TestFinished | tljunit/src/main/java/com/github/oneandone/testlinkjunit/tljunit/TestLinkRunListener.java:107-118 | the fields end as Finished gives |

## Left out

- Concurrency: the `ThreadLocal` failure slot and current record, and `synchronized (results)`, become one sequential test context. The threading tests are not modelled.
- Output: `testRunFinished` printing or closing the XML, the XML header, and Xpp3Dom serialisation. Records are plain datatypes (an optional attribute and named text children).
- Logging: slf4j's rendering of `{}` templates is not modelled. A log line is kept as level, template and arguments.
- Clock and time zone: the start time is an input, already broken down into local fields. `Format` covers years 1 to 9999. Only the UTC breakdown of epoch instants is modelled. The tljunit timestamp test that depends on the host time zone is not modelled.
- URI handling: `java.net.URI` parsing and `URI.resolve` are not modelled. Resolution is concatenation, under preconditions that make it coincide with section 5.2 of RFC 2396: a base with no query, fragment or dot segment that is not an opaque URI, and external ids made of unescaped query characters. Malformed-URI exceptions are not modelled.
- InTestLinkLogRunListener.Started: a non-empty address must satisfy those preconditions for the listener to be callable.
- Null dereferences: a missing marker in `fromDescription`, a missing `@Ignore` in `testIgnored`, a null current record, and `hasPassed` on an unset slot are all preconditions, not exceptions.
- The tljunit `TestLinkUriResolver` has only the two typed overloads. Its log listener (`InTestLinkLogRunListener.java:103`) and its test call a kind-dispatching overload that file does not declare. The model takes that overload from the surefire copy (`SurefireTestLinkUriResolver.FromTestLinkId`).
- Inheritance: the listeners hold the failure slot as an object of their own, instead of inheriting `AbstractInTestLinkRunListener`.
- The current record is held as its index in the result list, not as a second reference to the same object.
- The dispatcher is modelled with the XML listener injected. The log listener's behaviour under the dispatcher is that of the listener alone, because unmarked tests never reach it.
- An exception from a listener stops the modelled suite.
- The sample suite's display names are the method names. Its failure messages and traces are representative texts.
- SurefireTestLinkUriResolver.DemoLinks: stated for any resolvable base written without its trailing slash, not for the literal demo address.
- The tljunit strategy classes, its own `AbstractTestLinkRunListener`, `TestLinkRunListener` and `InTestLinkXmlRunListener`, and the `TestLinkXmlRunListener`/`TestLinkLoggingRunListener` wiring are not part of this model. They call members that the modelled sources do not declare, or only wire files, streams and loggers together.
- The `TestLink` annotation is the `JUnit.TestLink` record with its defaults (internal id 0 and external id `NOT_AVAILABLE`).
