/** The XMLTV elements all three converters emit for a programme or a channel. */
module Xmltv {
  import opened Wrappers
  import opened Xml

  const English: Attribute := ("lang", "en")

  function Title(text: string): Element {
    Element("title", [English], Some(text), [])
  }

  function SubTitle(text: string): Element {
    Element("sub-title", [English], Some(text), [])
  }

  function Desc(text: string): Element {
    Leaf("desc", Some(text))
  }

  /** An empty credits element, emitted for the benefit of Plex. */
  const Credits: Element := Leaf("credits", Some(""))

  function EpisodeNum(system: string, text: string): Element {
    Element("episode-num", [("system", system)], Some(text), [])
  }

  function Icon(src: string): Element {
    Element("icon", [("src", src)], None, [])
  }

  /** audio with a stereo sub-element whose text is "stereo". */
  const Audio: Element := Element("audio", [], None, [Leaf("stereo", Some("stereo"))])

  const Subtitles: Element := Element("subtitles", [("type", "teletext")], None, [])

  const New: Element := Leaf("new", None)
  const PreviouslyShown: Element := Leaf("previously-shown", None)
  const PreviouslyAired: Element := Leaf("previously-aired", None)

  function Category(text: string): Element {
    Element("category", [English], Some(text), [])
  }

  /** One category element per text, in order. */
  function CategoryElements(texts: seq<string>): (r: seq<Element>)
    ensures |r| == |texts|
    ensures forall i :: 0 <= i < |r| ==> r[i] == Category(texts[i])
    decreases |texts|
  {
    if texts == [] then [] else CategoryElements(texts[..|texts| - 1]) + [Category(texts[|texts| - 1])]
  }

  /** The category elements of two lists of texts are those of the first, then those of the second. */
  lemma CategoryElementsConcat(a: seq<string>, b: seq<string>)
    ensures CategoryElements(a + b) == CategoryElements(a) + CategoryElements(b)
  {
    var l, r := CategoryElements(a + b), CategoryElements(a) + CategoryElements(b);
    assert |l| == |r|;
    forall i | 0 <= i < |l|
      ensures l[i] == r[i]
    {
      if i < |a| {
        assert (a + b)[i] == a[i];
      } else {
        assert (a + b)[i] == b[i - |a|];
      }
    }
  }

  function DisplayName(text: string): Element {
    Leaf("display-name", Some(text))
  }

  /** Nothing is selected from a sequence without an element carrying the tag. */
  lemma {:induction false} SelectNone(elements: seq<Element>, tag: string)
    requires forall i :: 0 <= i < |elements| ==> elements[i].tag != tag
    ensures Select(elements, tag) == []
    decreases |elements|
  {
    if elements != [] {
      SelectNone(elements[..|elements| - 1], tag);
    }
  }

  /** A sequence whose every element carries the tag is its own selection. */
  lemma {:induction false} SelectAll(elements: seq<Element>, tag: string)
    requires forall i :: 0 <= i < |elements| ==> elements[i].tag == tag
    ensures Select(elements, tag) == elements
    decreases |elements|
  {
    if elements != [] {
      SelectAll(elements[..|elements| - 1], tag);
      assert elements[..|elements| - 1] + [elements[|elements| - 1]] == elements;
    }
  }
}
