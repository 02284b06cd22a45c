/**
  TestLinkId of the tljunit module: the id a TestLink marker carries, either
  an external id (a string) or an internal id (a long), resolved from a test's
  Description.  The surefire module's copy of FromDescription is the same
  code; it differs only in the attribute name of internal ids (see
  SurefireTestLinkId).
*/
module TestLinkId {
  import opened Wrappers
  import opened JUnit
  import opened Decimal

  datatype Id = External(externalId: string) | Internal(internalId: Long)
  {
    /** getId() as "%s" and String.valueOf render it. */
    function IdText(): string {
      match this
      case External(s) => s
      case Internal(n) => LongToString(n)
    }

    /** getType() of tljunit's ExternalTestLinkId and InternalTestLinkId. */
    function GetType(): string {
      match this
      case External(_) => "external_id"
      case Internal(_) => "internal_id"
    }

    /** toString(): type='id'. */
    function ToString(): string {
      Typed(GetType(), IdText())
    }
  }

  /** The "%s='%s'" rendering of a type name and an id. */
  function Typed(typeName: string, text: string): string {
    typeName + "='" + text + "'"
  }

  /** The text of the IllegalArgumentException for a marker with neither id. */
  function MissingIdMessage(displayName: string): string {
    "Must set either internalId or externalId on '" + displayName + "'"
  }

  /** A marker sets an id when its external id is not the sentinel or its internal id is not 0. */
  predicate SetsId(m: TestLink) {
    m.externalId != NOT_AVAILABLE || m.internalId != 0
  }

  /**
    fromDescription: the external id when it is not the sentinel, otherwise the
    internal id when it is not 0, otherwise an IllegalArgumentException naming
    the test.  The marker must be present (the code dereferences it).
  */
  function FromDescription(d: Description): (r: Result<Id, Exception>)
    requires d.testLink.Some?
    ensures r.Ok? <==> SetsId(d.testLink.value)
    ensures r.Ok? ==> (r.value.External? <==> d.testLink.value.externalId != NOT_AVAILABLE)
    ensures r.Ok? && r.value.External? ==> r.value.externalId == d.testLink.value.externalId
    ensures r.Ok? && r.value.Internal? ==> r.value.internalId == d.testLink.value.internalId != 0
    ensures r.Err? ==> r.error == IllegalArgumentException(MissingIdMessage(d.displayName))
  {
    var testLink := d.testLink.value;
    if testLink.externalId != NOT_AVAILABLE then Ok(External(testLink.externalId))
    else if testLink.internalId != 0 then Ok(Internal(testLink.internalId))
    else Err(IllegalArgumentException(MissingIdMessage(d.displayName)))
  }

  /** An external id wins over any internal id. */
  lemma ExternalTakesPrecedence(d: Description)
    requires d.testLink.Some? && d.testLink.value.externalId != NOT_AVAILABLE
    ensures FromDescription(d) == Ok(External(d.testLink.value.externalId))
  {
  }

  /** With the sentinel external id, any non-zero internal id, negative ones included, is taken. */
  lemma InternalWithoutExternal(d: Description)
    requires d.testLink.Some? && d.testLink.value.externalId == NOT_AVAILABLE && d.testLink.value.internalId != 0
    ensures FromDescription(d) == Ok(Internal(d.testLink.value.internalId))
  {
  }

  /** A marker left at its defaults fails with the exact message, naming the test in quotes. */
  lemma MissingIdFails(d: Description)
    requires d.testLink == Some(DEFAULT_TEST_LINK)
    ensures FromDescription(d) == Err(IllegalArgumentException(MissingIdMessage(d.displayName)))
    ensures FromDescription(d).error.ToString()
         == "java.lang.IllegalArgumentException: " + "Must set either internalId or externalId on '" + d.displayName + "'"
  {
  }

  /** Resolution reads only the marker and the display name, so repeated calls agree. */
  lemma FromDescriptionDeterministic(d1: Description, d2: Description)
    requires d1.testLink.Some? && d1.testLink == d2.testLink && d1.displayName == d2.displayName
    ensures FromDescription(d1) == FromDescription(d2)
  {
  }

  /** Two renderings of different type names whose first characters differ cannot be equal. */
  lemma TypedInjective(t1: string, v1: string, t2: string, v2: string)
    requires |t1| > 0 && |t2| > 0 && (t1 == t2 || t1[0] != t2[0])
    ensures Typed(t1, v1) == Typed(t2, v2) <==> t1 == t2 && v1 == v2
  {
    if Typed(t1, v1) == Typed(t2, v2) {
      assert Typed(t1, v1)[0] == t1[0] && Typed(t2, v2)[0] == t2[0];
      var s := Typed(t1, v1);
      assert v1 == s[|t1| + 2..|s| - 1];
      assert v2 == s[|t2| + 2..|s| - 1];
    }
  }

  /** The rendering identifies the id: its kind and its value. */
  lemma ToStringInjective(a: Id, b: Id)
    ensures a.ToString() == b.ToString() <==> a == b
  {
    TypedInjective(a.GetType(), a.IdText(), b.GetType(), b.IdText());
    if a.Internal? && b.Internal? {
      LongToStringInjective(a.internalId, b.internalId);
    }
  }
}
