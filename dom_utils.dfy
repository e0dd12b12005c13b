/**
 * DomUtils: the recursive search for an element in a DOM tree, by name, or by
 * name and one attribute/value pair. The search looks at the element itself
 * first, then at each child's subtree in document order, and stops at the
 * first match: it returns the first matching node in pre-order.
 */
module DomUtils {
  import opened Common

  /** A DOM element: its original name, its attributes and its element children. */
  datatype Element = Element(name: string, attributes: map<string, string>, children: seq<Element>)

  /** What a search looks for: the two findElement overloads. */
  datatype Query =
    | ByName(elementName: string)
    | ByAttribute(elementName: string, attributeName: string, attributeValue: string)

  /** The node matches the query: same name and, for the attribute query, the attribute with that value. */
  predicate Matches(e: Element, q: Query) {
    match q
    case ByName(n) => e.name == n
    case ByAttribute(n, a, v) => e.name == n && a in e.attributes && e.attributes[a] == v
  }

  /** `d` is `e` itself or lies in the subtree of one of its children. */
  predicate DescendantOrSelf(d: Element, e: Element)
    decreases e
  {
    d == e || exists c | c in e.children :: DescendantOrSelf(d, c)
  }

  /** The nodes of a tree in pre-order (document order). */
  function PreOrder(e: Element): (r: seq<Element>)
    ensures |r| >= 1 && r[0] == e
    decreases e, 1
  {
    [e] + PreOrderAll(e.children)
  }

  /** The pre-orders of a list of sibling trees, one after the other. */
  function PreOrderAll(children: seq<Element>): seq<Element>
    decreases children, 0
  {
    if children == [] then [] else PreOrder(children[0]) + PreOrderAll(children[1..])
  }

  /** The first node of a sequence that matches, scanning from the front. */
  function FirstMatch(s: seq<Element>, q: Query): (r: Option<Element>)
    ensures r.None? <==> forall x | x in s :: !Matches(x, q)
    ensures r.Some? ==> r.value in s && Matches(r.value, q)
  {
    if s == [] then None
    else if Matches(s[0], q) then Some(s[0])
    else
      assert s == [s[0]] + s[1..];
      FirstMatch(s[1..], q)
  }

  /** findElement: the element itself if it matches, otherwise the first hit among its children's subtrees. */
  function Find(e: Element, q: Query): (r: Option<Element>)
    ensures r.Some? ==> Matches(r.value, q) && DescendantOrSelf(r.value, e)
    decreases e, 1
  {
    if Matches(e, q) then Some(e) else FindIn(e.children, q)
  }

  /** The loop over the element children: the first child whose subtree holds a match decides. */
  function FindIn(children: seq<Element>, q: Query): (r: Option<Element>)
    ensures r.Some? ==> Matches(r.value, q) && exists c | c in children :: DescendantOrSelf(r.value, c)
    decreases children, 0
  {
    if children == [] then None
    else
      var hit := Find(children[0], q);
      if hit.Some? then hit
      else
        var rest := FindIn(children[1..], q);
        assert rest.Some? ==> exists c | c in children :: DescendantOrSelf(rest.value, c) by {
          if rest.Some? {
            var c :| c in children[1..] && DescendantOrSelf(rest.value, c);
            assert c in children;
          }
        }
        rest
  }

  /** findElement(element, elementName). */
  function FindElement(e: Element, elementName: string): (r: Option<Element>)
    ensures r.Some? ==> r.value.name == elementName && DescendantOrSelf(r.value, e)
    ensures e.name == elementName ==> r == Some(e)
  {
    Find(e, ByName(elementName))
  }

  /** findElement(element, elementName, attributeName, attributeValue). */
  function FindElementWithAttribute(e: Element, elementName: string, attributeName: string, attributeValue: string)
    : (r: Option<Element>)
    ensures r.Some? ==>
      && r.value.name == elementName
      && attributeName in r.value.attributes && r.value.attributes[attributeName] == attributeValue
      && DescendantOrSelf(r.value, e)
    ensures e.name == elementName && attributeName in e.attributes && e.attributes[attributeName] == attributeValue
      ==> r == Some(e)
  {
    Find(e, ByAttribute(elementName, attributeName, attributeValue))
  }

  /** Scanning two sequences one after the other: the first one's match wins. */
  lemma {:induction false} FirstMatchAppend(a: seq<Element>, b: seq<Element>, q: Query)
    ensures FirstMatch(a + b, q) == if FirstMatch(a, q).Some? then FirstMatch(a, q) else FirstMatch(b, q)
    decreases |a|
  {
    if a == [] {
      assert a + b == b;
    } else {
      assert (a + b)[0] == a[0];
      assert (a + b)[1..] == a[1..] + b;
      FirstMatchAppend(a[1..], b, q);
    }
  }

  /** The recursive search returns exactly the first match of the pre-order. */
  lemma {:induction false} FindIsFirstInPreOrder(e: Element, q: Query)
    ensures Find(e, q) == FirstMatch(PreOrder(e), q)
    decreases e, 1
  {
    FindInIsFirstInPreOrder(e.children, q);
    FirstMatchAppend([e], PreOrderAll(e.children), q);
    assert FirstMatch([e], q) == if Matches(e, q) then Some(e) else None by {
      assert [e][1..] == [];
    }
  }

  lemma {:induction false} FindInIsFirstInPreOrder(children: seq<Element>, q: Query)
    ensures FindIn(children, q) == FirstMatch(PreOrderAll(children), q)
    decreases children, 0
  {
    if children != [] {
      FindIsFirstInPreOrder(children[0], q);
      FindInIsFirstInPreOrder(children[1..], q);
      FirstMatchAppend(PreOrder(children[0]), PreOrderAll(children[1..]), q);
    }
  }

  /** The first match of a sequence sits at an index before which nothing matches. */
  lemma {:induction false} FirstMatchIsFirst(s: seq<Element>, q: Query)
    ensures FirstMatch(s, q).Some? ==>
      exists i | 0 <= i < |s| :: s[i] == FirstMatch(s, q).value && forall j | 0 <= j < i :: !Matches(s[j], q)
  {
    if s != [] && !Matches(s[0], q) {
      FirstMatchIsFirst(s[1..], q);
      if FirstMatch(s, q).Some? {
        var i :| 0 <= i < |s[1..]| && s[1..][i] == FirstMatch(s[1..], q).value
          && forall j | 0 <= j < i :: !Matches(s[1..][j], q);
        assert s[i + 1] == FirstMatch(s, q).value;
        assert forall j | 0 <= j < i + 1 :: !Matches(s[j], q) by {
          forall j | 0 <= j < i + 1 ensures !Matches(s[j], q) {
            if j > 0 {
              assert s[j] == s[1..][j - 1];
            }
          }
        }
      }
    } else if s != [] {
      assert s[0] == FirstMatch(s, q).value;
    }
  }

  /** A search finds nothing exactly when no node of the tree matches. */
  lemma NoneIffNoMatch(e: Element, q: Query)
    ensures Find(e, q).None? <==> forall x | x in PreOrder(e) :: !Matches(x, q)
  {
    FindIsFirstInPreOrder(e, q);
  }

  /**
   * The search returns the first matching node in document order: no node
   * earlier in the pre-order matches.
   */
  lemma FindIsFirstMatch(e: Element, q: Query)
    ensures Find(e, q).Some? ==> exists i | 0 <= i < |PreOrder(e)| ::
      PreOrder(e)[i] == Find(e, q).value && forall j | 0 <= j < i :: !Matches(PreOrder(e)[j], q)
  {
    FindIsFirstInPreOrder(e, q);
    FirstMatchIsFirst(PreOrder(e), q);
  }
}
