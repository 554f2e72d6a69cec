/** The in-memory XML tree the converters build with ElementTree. */
module Xml {
  import opened Wrappers

  type Attribute = (string, string)

  /**
   * An ElementTree element: its tag, its attributes in the order they were
   * set, its text (None until assigned) and its sub-elements in order.
   */
  datatype Element = Element(tag: string, attributes: seq<Attribute>, text: Option<string>, children: seq<Element>)

  /** An element without attributes or sub-elements. */
  function Leaf(tag: string, text: Option<string>): Element {
    Element(tag, [], text, [])
  }

  /** The elements of a sequence that carry the given tag, in document order. */
  function Select(elements: seq<Element>, tag: string): (r: seq<Element>)
    ensures |r| <= |elements|
    ensures forall i :: 0 <= i < |r| ==> r[i].tag == tag
    decreases |elements|
  {
    if elements == [] then []
    else
      var last := elements[|elements| - 1];
      Select(elements[..|elements| - 1], tag) + (if last.tag == tag then [last] else [])
  }

  /** Every selected element is one of the elements selected from. */
  lemma {:induction false} SelectMembers(elements: seq<Element>, tag: string)
    ensures forall e :: e in Select(elements, tag) ==> e in elements
    decreases |elements|
  {
    if elements != [] {
      var init := elements[..|elements| - 1];
      SelectMembers(init, tag);
      assert forall e :: e in init ==> e in elements;
    }
  }

  /** Selecting from a concatenation selects from each part. */
  lemma {:induction false} SelectConcat(a: seq<Element>, b: seq<Element>, tag: string)
    ensures Select(a + b, tag) == Select(a, tag) + Select(b, tag)
    decreases |b|
  {
    if b == [] {
      assert a + b == a;
    } else {
      var b' := b[..|b| - 1];
      SelectConcat(a, b', tag);
      assert (a + b)[..|a + b| - 1] == a + b';
      assert (a + b)[|a + b| - 1] == b[|b| - 1];
    }
  }

  /** The root `tv` element and its sub-elements, appended to in place. */
  class Document {
    var children: seq<Element>

    constructor ()
      ensures children == []
    {
      children := [];
    }

    /** The whole tree as a value. */
    function Root(): Element
      reads this
    {
      Element("tv", [], None, children)
    }

    /** ET.SubElement(root, ...): a new last sub-element. */
    method Append(e: Element)
      modifies this
      ensures children == old(children) + [e]
    {
      children := children + [e];
    }
  }
}
