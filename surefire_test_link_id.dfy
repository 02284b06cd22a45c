/**
  TestLinkId of the surefire module.  fromDescription is the same code as in
  the tljunit module and is modelled once, as TestLinkId.FromDescription; the
  lemmas here state its promises for this copy.  Only getType differs: an
  internal id is reported under the attribute name "id".
*/
module SurefireTestLinkId {
  import opened Wrappers
  import opened JUnit
  import opened Decimal
  import opened TestLinkId

  /** getType(): "external_id" for external ids and "id" for internal ones. */
  function GetType(id: Id): (t: string)
    ensures id.External? <==> t == "external_id"
    ensures id.Internal? <==> t == "id"
  {
    match id
    case External(_) => "external_id"
    case Internal(_) => "id"
  }

  /** toString(): getType() + "='" + id + "'". */
  function ToString(id: Id): string {
    Typed(GetType(id), id.IdText())
  }

  /** The external id takes precedence, whatever the internal id is. */
  lemma ExternalIdWins(d: Description)
    requires d.testLink.Some? && d.testLink.value.externalId != NOT_AVAILABLE
    ensures FromDescription(d) == Ok(External(d.testLink.value.externalId))
    ensures ToString(FromDescription(d).value) == "external_id='" + d.testLink.value.externalId + "'"
  {
  }

  /** A non-zero internal id, negative ones included, is taken when the external id is the sentinel. */
  lemma InternalIdTaken(d: Description)
    requires d.testLink.Some? && d.testLink.value.externalId == NOT_AVAILABLE && d.testLink.value.internalId != 0
    ensures FromDescription(d) == Ok(Internal(d.testLink.value.internalId))
    ensures ToString(FromDescription(d).value) == "id='" + LongToString(d.testLink.value.internalId) + "'"
  {
  }

  /** Neither id set: an IllegalArgumentException whose toString is exactly what the tests expect. */
  lemma NeitherIdSet(d: Description)
    requires d.testLink.Some? && !SetsId(d.testLink.value)
    ensures FromDescription(d).Err?
    ensures FromDescription(d).error.ToString()
         == "java.lang.IllegalArgumentException: " + "Must set either internalId or externalId on '" + d.displayName + "'"
  {
  }

  /** The attribute (name and value) written for an id determines the id. */
  lemma AttributeIdentifiesId(a: Id, b: Id)
    ensures (GetType(a) == GetType(b) && a.IdText() == b.IdText()) <==> a == b
  {
    if a.Internal? && b.Internal? {
      LongToStringInjective(a.internalId, b.internalId);
    }
  }

  /** The rendering identifies the id. */
  lemma ToStringInjective(a: Id, b: Id)
    ensures ToString(a) == ToString(b) <==> a == b
  {
    TypedInjective(GetType(a), a.IdText(), GetType(b), b.IdText());
    AttributeIdentifiesId(a, b);
  }
}
