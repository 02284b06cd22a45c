/**
  The fragment of an Xpp3Dom tree the listeners build: a <testcase> element
  with at most one attribute and an ordered list of text-valued child elements
  (tester, timestamp, result, notes).
*/
module Dom {
  import opened Wrappers

  datatype Attribute = Attribute(name: string, value: string)

  /** A child element with its text value, as createElementWithText builds it. */
  datatype Element = Element(name: string, value: string)

  datatype TestCase = TestCase(attribute: Option<Attribute>, children: seq<Element>)
  {
    /** addChild: appends one child after the existing ones. */
    function AddChild(e: Element): TestCase {
      this.(children := children + [e])
    }

    /** setAttribute(name, value): a record in this core receives at most one attribute. */
    function SetAttribute(name: string, value: string): TestCase {
      this.(attribute := Some(Attribute(name, value)))
    }

    /** getAttribute(name): the value when the attribute is set. */
    function GetAttribute(name: string): Option<string> {
      if attribute.Some? && attribute.value.name == name then Some(attribute.value.value) else None
    }
  }

  /**
    getChildren(name): every child called `name`, as often as it occurs, and
    no other; ChildrenNamedAppend states that the order is kept.
  */
  function ChildrenNamed(children: seq<Element>, name: string): (r: seq<Element>)
    ensures |r| <= |children|
    ensures forall e :: e in r ==> e in children && e.name == name
    ensures forall i :: 0 <= i < |children| && children[i].name == name ==> children[i] in r
    ensures forall e: Element :: e.name == name ==> multiset(r)[e] == multiset(children)[e]
  {
    if children == [] then []
    else
      assert children == [children[0]] + children[1..];
      if children[0].name == name then [children[0]] + ChildrenNamed(children[1..], name)
      else ChildrenNamed(children[1..], name)
  }

  /** getChildren(name) distributes over appending children. */
  lemma {:induction false} ChildrenNamedAppend(a: seq<Element>, b: seq<Element>, name: string)
    ensures ChildrenNamed(a + b, name) == ChildrenNamed(a, name) + ChildrenNamed(b, name)
  {
    if a == [] {
      assert a + b == b;
    } else {
      assert (a + b)[0] == a[0];
      assert (a + b)[1..] == a[1..] + b;
      ChildrenNamedAppend(a[1..], b, name);
    }
  }

  /** The check the tests make of every record: exactly one child `name`, with a non-empty value. */
  predicate HasExactlyOneNonEmpty(tc: TestCase, name: string) {
    var named := ChildrenNamed(tc.children, name);
    |named| == 1 && named[0].value != ""
  }

  /** A complete record: an id attribute and one non-empty tester, timestamp, result and notes. */
  predicate WellFormed(tc: TestCase) {
    && tc.attribute.Some?
    && HasExactlyOneNonEmpty(tc, "tester")
    && HasExactlyOneNonEmpty(tc, "timestamp")
    && HasExactlyOneNonEmpty(tc, "result")
    && HasExactlyOneNonEmpty(tc, "notes")
  }

  /** The four element names are pairwise distinct. */
  lemma NamesDistinct()
    ensures "tester" != "timestamp" && "tester" != "result" && "tester" != "notes"
    ensures "timestamp" != "result" && "timestamp" != "notes" && "result" != "notes"
  {
    assert "tester"[1] != "timestamp"[1];
    assert "tester"[0] != "result"[0] && "tester"[0] != "notes"[0];
    assert "timestamp"[0] != "result"[0] && "timestamp"[0] != "notes"[0];
    assert "result"[0] != "notes"[0];
  }

  /** The element as a list of one when it is called `name`, else the empty list. */
  function Pick(e: Element, name: string): seq<Element> {
    if e.name == name then [e] else []
  }

  /** getChildren(name) of a list starting with `e`. */
  lemma ChildrenNamedCons(e: Element, rest: seq<Element>, name: string)
    ensures ChildrenNamed([e] + rest, name) == Pick(e, name) + ChildrenNamed(rest, name)
  {
    assert ([e] + rest)[0] == e;
    assert ([e] + rest)[1..] == rest;
  }

  /** A record with two children that gains two more keeps its attribute and lists all four in order. */
  lemma TwoMoreChildren(started: TestCase, closed: TestCase, a: Element, b: Element, c: Element, d: Element)
    requires started.children == [a, b]
    requires closed.attribute == started.attribute && closed.children == started.children + [c, d]
    ensures closed == TestCase(started.attribute, [a, b, c, d])
  {
  }

  /** getChildren(name) of four children, one child at a time. */
  lemma FourChildrenNamed(a: Element, b: Element, c: Element, d: Element, name: string)
    ensures ChildrenNamed([a, b, c, d], name) == Pick(a, name) + (Pick(b, name) + (Pick(c, name) + Pick(d, name)))
  {
    assert [a, b, c, d] == [a] + ([b] + ([c] + [d]));
    ChildrenNamedCons(d, [], name);
    ChildrenNamedCons(c, [d], name);
    ChildrenNamedCons(b, [c] + [d], name);
    ChildrenNamedCons(a, [b] + ([c] + [d]), name);
    assert ChildrenNamed([], name) == [];
    assert Pick(d, name) + [] == Pick(d, name);
  }

  /** In the children tester, timestamp, result, notes, each name picks out its own element. */
  lemma CompleteRecordChildren(tester: string, timestamp: string, result: string, notes: string)
    ensures var c := [Element("tester", tester), Element("timestamp", timestamp),
                      Element("result", result), Element("notes", notes)];
      && ChildrenNamed(c, "tester") == [c[0]] && ChildrenNamed(c, "timestamp") == [c[1]]
      && ChildrenNamed(c, "result") == [c[2]] && ChildrenNamed(c, "notes") == [c[3]]
  {
    NamesDistinct();
    var t := Element("tester", tester);
    var m := Element("timestamp", timestamp);
    var r := Element("result", result);
    var n := Element("notes", notes);
    FourChildrenNamed(t, m, r, n, "tester");
    FourChildrenNamed(t, m, r, n, "timestamp");
    FourChildrenNamed(t, m, r, n, "result");
    FourChildrenNamed(t, m, r, n, "notes");
  }

  /** A record with an attribute and the four non-empty children, once each, is complete. */
  lemma CompleteRecordWellFormed(a: Attribute, tester: string, timestamp: string, result: string, notes: string)
    requires tester != "" && timestamp != "" && result != "" && notes != ""
    ensures WellFormed(TestCase(Some(a), [Element("tester", tester), Element("timestamp", timestamp),
                                          Element("result", result), Element("notes", notes)]))
  {
    CompleteRecordChildren(tester, timestamp, result, notes);
  }
}
