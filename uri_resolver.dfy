/**
  TestLinkUriResolver of the tljunit module: a base address normalised to end
  in '/' and the two deep-link shapes, one per id kind.  `TestLinkUriResolver` resolves
  each relative reference against the base with java.net.URI.resolve
  (section 5.2 of RFC 2396).  For a base that ends in '/', is hierarchical,
  has no query, no fragment and no "." or ".." segment, and a reference that
  is a relative path with a query made of legal URI characters, that
  resolution is plain concatenation; the model is stated for those inputs.
*/
module TestLinkUriResolver {
  import opened JUnit
  import opened Decimal
  import opened TestLinkId

  predicate EndsWithSlash(s: string) {
    |s| > 0 && s[|s| - 1] == '/'
  }

  predicate SlashBefore(b: string, i: nat)
    requires i <= |b|
  {
    exists j :: 0 <= j < i && b[j] == '/'
  }

  /** A "." or ".." path segment starts at index i. */
  predicate DotSegmentAt(b: string, i: nat)
    requires i < |b|
  {
    && (i == 0 || b[i - 1] == '/') && b[i] == '.'
    && ((i + 1 < |b| && b[i + 1] == '/') || (i + 2 < |b| && b[i + 1] == '.' && b[i + 2] == '/'))
  }

  /**
    The bases for which resolving a relative path is concatenation: no query or
    fragment delimiter, no dot segment, and a scheme, when there is one, followed
    by '/' (not an opaque URI such as "mailto:x").
  */
  predicate ResolvableBase(b: string) {
    forall i :: 0 <= i < |b| ==>
      && b[i] != '?' && b[i] != '#' && !DotSegmentAt(b, i)
      && (b[i] == ':' && !SlashBefore(b, i) ==> i + 1 < |b| && b[i + 1] == '/')
  }

  /** The characters RFC 2396 allows unescaped in a query ('%' escapes and '#' excluded). */
  predicate UriChar(c: char) {
    || ('a' <= c <= 'z') || ('A' <= c <= 'Z') || ('0' <= c <= '9')
    || c in "-_.!~*'();/?:@&=+$,"
  }

  predicate UriSafe(s: string) {
    forall i :: 0 <= i < |s| ==> UriChar(s[i])
  }

  /** The resolver holds the normalised base. */
  datatype Resolver = Resolver(baseUri: string)

  /**
    The constructor: a base that already ends in '/' is kept, otherwise exactly
    one '/' is appended.  The result is the shortest extension of `uri` that
    ends in '/'.
  */
  function New(uri: string): (r: Resolver)
    ensures EndsWithSlash(r.baseUri)
    ensures uri <= r.baseUri && |r.baseUri| <= |uri| + 1
    ensures EndsWithSlash(uri) ==> r.baseUri == uri
  {
    if EndsWithSlash(uri) then Resolver(uri) else Resolver(uri + "/")
  }

  /** Normalising a normalised base changes nothing. */
  lemma NewIdempotent(uri: string)
    ensures New(New(uri).baseUri) == New(uri)
  {
  }

  /** Whether the caller's base had a trailing slash makes no difference. */
  lemma TrailingSlashIrrelevant(uri: string)
    requires !EndsWithSlash(uri)
    ensures New(uri + "/") == New(uri)
  {
    assert EndsWithSlash(uri + "/");
  }

  predicate Valid(r: Resolver) {
    EndsWithSlash(r.baseUri) && ResolvableBase(r.baseUri)
  }

  /**
    baseUri.resolve(relativePath) for the references this core builds: a fixed
    path of legal characters not starting with '/', then a query whose variable
    part the callers require to be UriSafe.
  */
  function Resolve(base: string, relativePath: string): string
    requires EndsWithSlash(base) && ResolvableBase(base)
    requires |relativePath| > 0 && relativePath[0] != '/'
  {
    base + relativePath
  }

  const TEST_CASES: string := "lib/testcases/"
  const TC_PRINT: string := "lib/testcases/tcPrint.php?testcase_id="
  const ARCHIVE_DATA: string := TEST_CASES + "archiveData.php?targetTestCase="
  const ARCHIVE_DATA_TAIL: string := "&edit=testcase&allowedit=0"

  /** A numeral consists of legal query characters, so an internal id never needs escaping. */
  lemma NumeralUriSafe(n: int)
    ensures UriSafe(LongToString(n))
  {
    var s := NatToString(if n < 0 then -n else n);
    assert AllDigits(s);
    if n < 0 {
      forall i | 0 <= i < |"-" + s| ensures UriChar(("-" + s)[i]) {
        if i > 0 { assert ("-" + s)[i] == s[i - 1]; }
      }
    }
  }

  /** fromTestLinkId(InternalTestLinkId): the print view of the test case. */
  function FromInternal(r: Resolver, id: Id): (u: string)
    requires Valid(r) && id.Internal?
    ensures u == r.baseUri + "lib/testcases/tcPrint.php?testcase_id=" + LongToString(id.internalId)
  {
    var n := LongToString(id.internalId);
    assert (TC_PRINT + n)[0] == 'l';
    assert r.baseUri + TC_PRINT + n == r.baseUri + (TC_PRINT + n);
    Resolve(r.baseUri, TC_PRINT + LongToString(id.internalId))
  }

  /** fromTestLinkId(ExternalTestLinkId): the archive view, with the external id substituted verbatim. */
  function FromExternal(r: Resolver, id: Id): (u: string)
    requires Valid(r) && id.External? && UriSafe(id.externalId)
    ensures u == r.baseUri + "lib/testcases/archiveData.php?targetTestCase=" + id.externalId + "&edit=testcase&allowedit=0"
  {
    assert (ARCHIVE_DATA + id.externalId + ARCHIVE_DATA_TAIL)[0] == 'l';
    Resolve(r.baseUri, ARCHIVE_DATA + id.externalId + ARCHIVE_DATA_TAIL)
  }

  /** Distinct internal ids get distinct links. */
  lemma InternalLinkIdentifiesId(r: Resolver, a: Id, b: Id)
    requires Valid(r) && a.Internal? && b.Internal?
    ensures FromInternal(r, a) == FromInternal(r, b) <==> a == b
  {
    var p := r.baseUri + TC_PRINT;
    if FromInternal(r, a) == FromInternal(r, b) {
      assert LongToString(a.internalId) == FromInternal(r, a)[|p|..];
      assert LongToString(b.internalId) == FromInternal(r, b)[|p|..];
      LongToStringInjective(a.internalId, b.internalId);
    }
  }

  /** Distinct external ids get distinct links. */
  lemma ExternalLinkIdentifiesId(r: Resolver, a: Id, b: Id)
    requires Valid(r) && a.External? && b.External? && UriSafe(a.externalId) && UriSafe(b.externalId)
    ensures FromExternal(r, a) == FromExternal(r, b) <==> a == b
  {
    var p := r.baseUri + ARCHIVE_DATA;
    if FromExternal(r, a) == FromExternal(r, b) {
      var u := FromExternal(r, a);
      assert a.externalId == u[|p|..|u| - |ARCHIVE_DATA_TAIL|];
      assert b.externalId == u[|p|..|u| - |ARCHIVE_DATA_TAIL|];
    }
  }
}
