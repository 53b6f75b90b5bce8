/**
 * An already-parsed XML API reply as an abstract tree, and the ElementPath
 * queries the script runs over it.
 */
module Xml {
  import opened Results

  /** An element: tag, attribute map, optional text (None when empty), ordered children. */
  datatype Element = Element(tag: string, attrs: map<string, string>, text: Option<string>, children: seq<Element>)

  /** A reply body: zero bytes, or a parsed document. */
  datatype Body = EmptyBody | Parsed(root: Element)

  /** `e` is a `tag` element whose attribute `attr` is `val`: the step `tag[@attr='val']`. */
  predicate Matches(e: Element, tag: string, attr: string, val: string) {
    e.tag == tag && attr in e.attrs && e.attrs[attr] == val
  }

  /** The elements of `es` that match `tag[@attr='val']`, in their order. */
  function Select(es: seq<Element>, tag: string, attr: string, val: string): seq<Element> {
    if es == [] then []
    else (if Matches(es[0], tag, attr, val) then [es[0]] else []) + Select(es[1..], tag, attr, val)
  }

  /** An element is selected exactly when it is in `es` and matches the step. */
  lemma {:induction false} SelectSpec(es: seq<Element>, tag: string, attr: string, val: string, x: Element)
    ensures x in Select(es, tag, attr, val) <==> x in es && Matches(x, tag, attr, val)
  {
    if es != [] {
      SelectSpec(es[1..], tag, attr, val, x);
      assert es == [es[0]] + es[1..];
    }
  }

  /** Selecting from a list with a known head. */
  lemma SelectCons(e: Element, es: seq<Element>, tag: string, attr: string, val: string)
    ensures Select([e] + es, tag, attr, val) == (if Matches(e, tag, attr, val) then [e] else []) + Select(es, tag, attr, val)
  {
    assert ([e] + es)[1..] == es;
  }

  /** The elements of `es` whose tag is `tag` (the step `tag` with no predicate). */
  function Tagged(es: seq<Element>, tag: string): seq<Element> {
    if es == [] then []
    else (if es[0].tag == tag then [es[0]] else []) + Tagged(es[1..], tag)
  }

  /** One more path step: the matching children of every element of `os`, in order. */
  function SelectFrom(os: seq<Element>, tag: string, attr: string, val: string): seq<Element> {
    if os == [] then []
    else Select(os[0].children, tag, attr, val) + SelectFrom(os[1..], tag, attr, val)
  }

  /** `find` on a node list: the first element, or None. */
  function First(es: seq<Element>): Option<Element> {
    if es == [] then None else Some(es[0])
  }

  /** `findall("./tag[@name='name']")`: the direct children so named, in document order. */
  function Children(e: Element, tag: string, name: string): seq<Element> {
    Select(e.children, tag, "name", name)
  }

  /** `find("./tag[@name='name']")`. */
  function Find(e: Element, tag: string, name: string): Option<Element> {
    First(Children(e, tag, name))
  }

  /** `findall("./OBJECT[@attr='val']/PROPERTY[@name='prop']")`. */
  function PathAll(e: Element, attr: string, val: string, prop: string): seq<Element> {
    SelectFrom(Select(e.children, "OBJECT", attr, val), "PROPERTY", "name", prop)
  }

  /** `find("./OBJECT[@name='obj']/PROPERTY[@name='prop']")`. */
  function FindPath(e: Element, obj: string, prop: string): Option<Element> {
    First(PathAll(e, "name", obj, prop))
  }

  /** The text of `find(...)`: None when the node is missing (the caller's `.text` then raises). */
  function TextOf(o: Option<Element>): Option<Option<string>> {
    if o.Some? then Some(o.value.text) else None
  }

  /** `e.get(attr)`. */
  function Get(e: Element, attr: string): Option<string> {
    if attr in e.attrs then Some(e.attrs[attr]) else None
  }

  /** The proper descendants of the elements `cs`, each followed by its own, in document order. */
  function DescendantsOf(cs: seq<Element>): seq<Element>
    decreases cs
  {
    if |cs| == 0 then []
    else [cs[0]] + DescendantsOf(cs[0].children) + DescendantsOf(cs[1..])
  }

  /** Every element strictly below `e`, in document (pre-)order. */
  function Descendants(e: Element): seq<Element> {
    DescendantsOf(e.children)
  }

  /** `find(".//tag[@name='name']")`: the first matching descendant in document order. */
  function FindDeep(e: Element, tag: string, name: string): Option<Element> {
    First(Select(Descendants(e), tag, "name", name))
  }

  /** `findall(".//OBJECT[@name='obj']/PROPERTY[@name='prop']")`. */
  function PathAllDeep(e: Element, obj: string, prop: string): seq<Element> {
    SelectFrom(Select(Descendants(e), "OBJECT", "name", obj), "PROPERTY", "name", prop)
  }

  /** `e.iter(tag)`: `e` itself and its descendants with that tag, in document order. */
  function Iter(e: Element, tag: string): seq<Element> {
    Tagged([e] + Descendants(e), tag)
  }

  /** A two-step path over a concatenation is the concatenation of the two paths. */
  lemma {:induction false} SelectFromAppend(a: seq<Element>, b: seq<Element>, tag: string, attr: string, val: string)
    ensures SelectFrom(a + b, tag, attr, val) == SelectFrom(a, tag, attr, val) + SelectFrom(b, tag, attr, val)
  {
    if a != [] {
      SelectFromAppend(a[1..], b, tag, attr, val);
      assert (a + b)[1..] == a[1..] + b;
    } else {
      assert a + b == b;
    }
  }

  /** A two-step path finds nothing exactly when no element of `os` has a matching child. */
  lemma {:induction false} SelectFromEmpty(os: seq<Element>, tag: string, attr: string, val: string)
    ensures SelectFrom(os, tag, attr, val) == [] <==> forall i :: 0 <= i < |os| ==> Select(os[i].children, tag, attr, val) == []
  {
    if os != [] {
      SelectFromEmpty(os[1..], tag, attr, val);
      assert forall i :: 1 <= i < |os| ==> os[i] == os[1..][i - 1];
    }
  }

  /** The first hit of a two-step path is the first matching child of the first element of `os` that has one. */
  lemma {:induction false} SelectFromFirst(os: seq<Element>, tag: string, attr: string, val: string)
    requires SelectFrom(os, tag, attr, val) != []
    ensures exists i :: 0 <= i < |os| && Select(os[i].children, tag, attr, val) != []
                        && (forall j :: 0 <= j < i ==> Select(os[j].children, tag, attr, val) == [])
                        && SelectFrom(os, tag, attr, val)[0] == Select(os[i].children, tag, attr, val)[0]
  {
    if Select(os[0].children, tag, attr, val) == [] {
      SelectFromFirst(os[1..], tag, attr, val);
      var i :| 0 <= i < |os[1..]| && Select(os[1..][i].children, tag, attr, val) != []
               && (forall j :: 0 <= j < i ==> Select(os[1..][j].children, tag, attr, val) == [])
               && SelectFrom(os[1..], tag, attr, val)[0] == Select(os[1..][i].children, tag, attr, val)[0];
      forall j | 0 <= j < i + 1 ensures Select(os[j].children, tag, attr, val) == [] {
        if j > 0 { assert os[j] == os[1..][j - 1]; }
      }
      assert os[i + 1] == os[1..][i];
    }
  }
}
