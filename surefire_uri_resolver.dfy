/**
  TestLinkUriResolver of the surefire module.  The constructor and the two
  private shape functions are the tljunit code (TestLinkUriResolver.New,
  FromInternal, FromExternal); this copy adds the public overload that
  chooses the shape by the kind of the id.
*/
module SurefireTestLinkUriResolver {
  import opened JUnit
  import opened Decimal
  import opened TestLinkId
  import opened TestLinkUriResolver

  /** The precondition of the concatenation model, for the id part: external ids must be legal query text. */
  predicate Linkable(id: Id) {
    id.External? ==> UriSafe(id.externalId)
  }

  /** fromTestLinkId(TestLinkId<?>): the print view for internal ids, the archive view otherwise. */
  function FromTestLinkId(r: Resolver, id: Id): (u: string)
    requires Valid(r) && Linkable(id)
    ensures id.Internal? ==> u == r.baseUri + "lib/testcases/tcPrint.php?testcase_id=" + LongToString(id.internalId)
    ensures id.External? ==> u == r.baseUri + "lib/testcases/archiveData.php?targetTestCase=" + id.externalId + "&edit=testcase&allowedit=0"
  {
    if id.Internal? then FromInternal(r, id) else FromExternal(r, id)
  }

  /** The link determines the id: its kind (by the page) and its value. */
  lemma LinkIdentifiesId(r: Resolver, a: Id, b: Id)
    requires Valid(r) && Linkable(a) && Linkable(b)
    ensures FromTestLinkId(r, a) == FromTestLinkId(r, b) <==> a == b
  {
    if a.Internal? && b.Internal? {
      InternalLinkIdentifiesId(r, a, b);
    } else if a.External? && b.External? {
      ExternalLinkIdentifiesId(r, a, b);
    } else {
      // the page name differs right after "lib/testcases/": 't' for tcPrint, 'a' for archiveData
      var k := |r.baseUri + TEST_CASES|;
      PageLetter(r, a);
      PageLetter(r, b);
      assert FromTestLinkId(r, a)[k] != FromTestLinkId(r, b)[k];
    }
  }

  /** The character after "lib/testcases/" names the page: 't' for tcPrint, 'a' for archiveData. */
  lemma PageLetter(r: Resolver, id: Id)
    requires Valid(r) && Linkable(id)
    ensures |r.baseUri + TEST_CASES| < |FromTestLinkId(r, id)|
    ensures FromTestLinkId(r, id)[|r.baseUri + TEST_CASES|] == if id.Internal? then 't' else 'a'
  {
    if id.Internal? {
      PrintPageLetter(r, id);
    } else {
      ArchivePageLetter(r, id);
    }
  }

  lemma PrintPageLetter(r: Resolver, id: Id)
    requires Valid(r) && id.Internal?
    ensures |r.baseUri + TEST_CASES| < |FromTestLinkId(r, id)|
    ensures FromTestLinkId(r, id)[|r.baseUri + TEST_CASES|] == 't'
  {
    var n := LongToString(id.internalId);
    assert FromTestLinkId(r, id) == r.baseUri + TC_PRINT + n;
    assert TC_PRINT[|TEST_CASES|] == 't';
    CharInMiddle(r.baseUri, TC_PRINT, n, |TEST_CASES|);
  }

  lemma ArchivePageLetter(r: Resolver, id: Id)
    requires Valid(r) && id.External? && UriSafe(id.externalId)
    ensures |r.baseUri + TEST_CASES| < |FromTestLinkId(r, id)|
    ensures FromTestLinkId(r, id)[|r.baseUri + TEST_CASES|] == 'a'
  {
    var rest := id.externalId + ARCHIVE_DATA_TAIL;
    assert FromTestLinkId(r, id) == r.baseUri + ARCHIVE_DATA + rest;
    assert ARCHIVE_DATA[|TEST_CASES|] == 'a';
    CharInMiddle(r.baseUri, ARCHIVE_DATA, rest, |TEST_CASES|);
  }

  /** The k-th character of the middle part b of a + b + c. */
  lemma CharInMiddle(a: string, b: string, c: string, k: nat)
    requires k < |b|
    ensures |a| + k < |a + b + c| && (a + b + c)[|a| + k] == b[k]
  {
  }

  /** A base given with or without its trailing slash yields the same link. */
  lemma LinkIgnoresTrailingSlash(uri: string, id: Id)
    requires !EndsWithSlash(uri) && Valid(New(uri)) && Linkable(id)
    ensures Valid(New(uri + "/"))
    ensures FromTestLinkId(New(uri + "/"), id) == FromTestLinkId(New(uri), id)
  {
    TrailingSlashIrrelevant(uri);
  }

  /**
    The two links of the resolver test (internal id 2750, external id "SM-1"),
    for any resolvable base written without its trailing slash, such as the
    TestLink demo site.
  */
  lemma DemoLinks(uri: string)
    requires !EndsWithSlash(uri) && Valid(New(uri))
    ensures FromTestLinkId(New(uri), Internal(2750))
         == uri + "/" + "lib/testcases/tcPrint.php?testcase_id=" + "2750"
    ensures Linkable(External("SM-1"))
    ensures FromTestLinkId(New(uri), External("SM-1"))
         == uri + "/" + "lib/testcases/archiveData.php?targetTestCase=" + "SM-1" + "&edit=testcase&allowedit=0"
  {
    ExampleNumeral();
    assert UriSafe("SM-1") by {
      assert UriChar('S') && UriChar('M') && UriChar('-') && UriChar('1');
    }
  }

  lemma ExampleNumeral()
    ensures LongToString(2750) == "2750"
  {
    assert NatToString(2) == "2";
    assert NatToString(27) == "27";
    assert NatToString(275) == "275";
  }
}
