/** The XML tree the MXF builders assemble, standing for lxml's element tree. */
module Xml {
  import opened Wrappers

  /** An element with its attributes in insertion order, or a text node. An
      element's `.text` is a single `Text` child. */
  datatype Node =
    | Element(tag: string, attrs: seq<(string, string)>, children: seq<Node>)
    | Text(text: string)

  /** The value of the first attribute called `name`. */
  function Attr(n: Node, name: string): (r: Option<string>)
    ensures r.Some? ==> n.Element? && (name, r.value) in n.attrs
    ensures r.None? && n.Element? ==> forall a :: a in n.attrs ==> a.0 != name
  {
    if n.Text? then None else AttrIn(n.attrs, name)
  }

  function AttrIn(attrs: seq<(string, string)>, name: string): (r: Option<string>)
    ensures r.Some? ==> (name, r.value) in attrs
    ensures r.None? ==> forall a :: a in attrs ==> a.0 != name
  {
    if attrs == [] then None
    else if attrs[0].0 == name then Some(attrs[0].1)
    else AttrIn(attrs[1..], name)
  }

  /** The attribute found is the first one with that name. */
  lemma {:induction false} AttrAt(attrs: seq<(string, string)>, name: string, i: nat)
    requires i < |attrs| && attrs[i].0 == name
    requires forall j :: 0 <= j < i ==> attrs[j].0 != name
    ensures AttrIn(attrs, name) == Some(attrs[i].1)
  {
    if i > 0 {
      AttrAt(attrs[1..], name, i - 1);
    }
  }

  /** The children of an element; a text node has none. */
  function Children(n: Node): seq<Node> {
    if n.Element? then n.children else []
  }

  /** The tag names of a list of nodes ("" for a text node). */
  function Tags(nodes: seq<Node>): seq<string> {
    seq(|nodes|, k requires 0 <= k < |nodes| => if nodes[k].Element? then nodes[k].tag else "")
  }

  /** The text of an element that holds nothing but text. */
  function TextOf(n: Node): Option<string> {
    if n.Element? && |n.children| == 1 && n.children[0].Text? then Some(n.children[0].text)
    else None
  }

  // ----- References into a tree -----

  /** `path` leads from `n`, child index by child index, to an element. A
      reference a builder keeps to a sub-element is its path from the root. */
  predicate PathOk(n: Node, path: seq<nat>)
    decreases |path|
  {
    n.Element? && (path == [] || (path[0] < |n.children| && PathOk(n.children[path[0]], path[1..])))
  }

  /** The element `path` leads to. */
  function At(n: Node, path: seq<nat>): (r: Node)
    requires PathOk(n, path)
    ensures r.Element?
    decreases |path|
  {
    if path == [] then n else At(n.children[path[0]], path[1..])
  }

  /** `n` with the nodes `cs` appended, in order, under the element `path`
      leads to: what `etree.SubElement(ref, ...)` calls on a reference into the
      tree leave behind. */
  function ExtendAt(n: Node, path: seq<nat>, cs: seq<Node>): Node
    requires PathOk(n, path)
    decreases |path|
  {
    if path == [] then n.(children := n.children + cs)
    else n.(children := n.children[path[0] := ExtendAt(n.children[path[0]], path[1..], cs)])
  }

  /** Extending changes only the element on the path, which gains `cs` after
      its children; the path still leads there. */
  lemma {:induction false} ExtendAtGrows(n: Node, path: seq<nat>, cs: seq<Node>)
    requires PathOk(n, path)
    ensures PathOk(ExtendAt(n, path, cs), path)
    ensures var e := At(n, path); At(ExtendAt(n, path, cs), path) == Element(e.tag, e.attrs, e.children + cs)
    ensures ExtendAt(n, path, cs).tag == n.tag && ExtendAt(n, path, cs).attrs == n.attrs
    decreases |path|
  {
    if path != [] {
      ExtendAtGrows(n.children[path[0]], path[1..], cs);
    }
  }

  /** Two extensions of the same element are one extension by both lists. */
  lemma {:induction false} ExtendTwice(n: Node, path: seq<nat>, a: seq<Node>, b: seq<Node>)
    requires PathOk(n, path)
    ensures PathOk(ExtendAt(n, path, a), path)
    ensures ExtendAt(ExtendAt(n, path, a), path, b) == ExtendAt(n, path, a + b)
    decreases |path|
  {
    ExtendAtGrows(n, path, a);
    if path == [] {
      assert n.children + a + b == n.children + (a + b);
    } else {
      ExtendTwice(n.children[path[0]], path[1..], a, b);
    }
  }

  /** Appending under one of the nodes an extension added (the `j`-th, at
      `below` inside it) is the same as having added that node with the extra
      child in the first place. */
  lemma {:induction false} ExtendInside(n: Node, path: seq<nat>, cs: seq<Node>, j: nat, below: seq<nat>, c: Node)
    requires PathOk(n, path) && j < |cs| && PathOk(cs[j], below)
    ensures PathOk(ExtendAt(n, path, cs), path + [|At(n, path).children| + j] + below)
    ensures ExtendAt(ExtendAt(n, path, cs), path + [|At(n, path).children| + j] + below, [c])
            == ExtendAt(n, path, cs[j := ExtendAt(cs[j], below, [c])])
    ensures At(ExtendAt(n, path, cs), path + [|At(n, path).children| + j] + below) == At(cs[j], below)
    decreases |path|
  {
    var k := |At(n, path).children| + j;
    var ext := path + [k] + below;
    if path == [] {
      assert ext[0] == k && ext[1..] == below;
      assert ExtendAt(n, path, cs).children[k] == cs[j];
      assert n.children + cs[j := ExtendAt(cs[j], below, [c])]
             == (n.children + cs)[k := ExtendAt(cs[j], below, [c])];
    } else {
      var i := path[0];
      ExtendInside(n.children[i], path[1..], cs, j, below, c);
      assert ext[0] == i;
      assert ext[1..] == path[1..] + [k] + below;
    }
  }

  /** Adding nothing leaves the tree as it was. */
  lemma {:induction false} ExtendNothing(n: Node, path: seq<nat>)
    requires PathOk(n, path)
    ensures ExtendAt(n, path, []) == n
    decreases |path|
  {
    if path == [] {
      assert n.children + [] == n.children;
    } else {
      ExtendNothing(n.children[path[0]], path[1..]);
    }
  }

  /** Appending under the `i`-th child of an element. */
  lemma ExtendChild(tag: string, attrs: seq<(string, string)>, cs: seq<Node>, i: nat, c: Node)
    requires i < |cs| && cs[i].Element?
    ensures PathOk(Element(tag, attrs, cs), [i])
    ensures ExtendAt(Element(tag, attrs, cs), [i], [c])
            == Element(tag, attrs, cs[i := Element(cs[i].tag, cs[i].attrs, cs[i].children + [c])])
  {
    assert [i][1..] == [];
  }

  /** The element an extension by `e` added is reached by the next index. */
  lemma {:induction false} SectionAt(n: Node, path: seq<nat>, e: Node)
    requires PathOk(n, path) && e.Element?
    ensures PathOk(ExtendAt(n, path, [e]), path + [|At(n, path).children|])
    ensures At(ExtendAt(n, path, [e]), path + [|At(n, path).children|]) == e
    decreases |path|
  {
    var k := |At(n, path).children|;
    if path == [] {
      assert ExtendAt(n, path, [e]).children[k] == e;
      assert (path + [k])[1..] == [];
    } else {
      SectionAt(n.children[path[0]], path[1..], e);
      assert (path + [k])[0] == path[0];
      assert (path + [k])[1..] == path[1..] + [k];
    }
  }

  /** The step every section builder repeats: a child appended, through the
      kept reference, under the section element it added last. */
  lemma {:induction false} AppendToSection(n: Node, path: seq<nat>, tag: string, attrs: seq<(string, string)>, nodes: seq<Node>, c: Node)
    requires PathOk(n, path)
    ensures PathOk(ExtendAt(n, path, [Element(tag, attrs, nodes)]), path + [|At(n, path).children|])
    ensures ExtendAt(ExtendAt(n, path, [Element(tag, attrs, nodes)]), path + [|At(n, path).children|], [c])
            == ExtendAt(n, path, [Element(tag, attrs, nodes + [c])])
    ensures At(ExtendAt(n, path, [Element(tag, attrs, nodes)]), path + [|At(n, path).children|])
            == Element(tag, attrs, nodes)
    decreases |path|
  {
    var k := |At(n, path).children|;
    SectionAt(n, path, Element(tag, attrs, nodes));
    if path == [] {
      assert (path + [k])[1..] == [];
      assert (n.children + [Element(tag, attrs, nodes)])[k := Element(tag, attrs, nodes + [c])]
             == n.children + [Element(tag, attrs, nodes + [c])];
    } else {
      AppendToSection(n.children[path[0]], path[1..], tag, attrs, nodes, c);
      assert (path + [k])[0] == path[0];
      assert (path + [k])[1..] == path[1..] + [k];
    }
  }

  /** An lxml element that the section builders change in place: the root of
      the tree they build, or the element a helper is handed. */
  class XmlElement {
    var tag: string
    var attrs: seq<(string, string)>
    var children: seq<Node>

    constructor (tag: string, attrs: seq<(string, string)>)
      ensures Value() == Element(tag, attrs, [])
    {
      this.tag := tag;
      this.attrs := attrs;
      children := [];
    }

    /** The tree rooted at this element. */
    function Value(): Node
      reads this
    {
      Element(tag, attrs, children)
    }

    /** `etree.SubElement(parent, childTag, attrib=childAttrs)`, where `parent` is
        the path from this element to the parent: appends an empty child there
        and returns the path to it. */
    method SubElement(parent: seq<nat>, childTag: string, childAttrs: seq<(string, string)>)
      returns (child: seq<nat>)
      requires PathOk(Value(), parent)
      modifies this
      ensures Value() == ExtendAt(old(Value()), parent, [Element(childTag, childAttrs, [])])
      ensures child == parent + [|At(old(Value()), parent).children|]
    {
      var v := Value();
      child := parent + [|At(v, parent).children|];
      ExtendAtGrows(v, parent, [Element(childTag, childAttrs, [])]);
      var w := ExtendAt(v, parent, [Element(childTag, childAttrs, [])]);
      children := w.children;
    }

    /** `el.text = text` on an element `path` leads to that has no content yet:
        the text becomes its one child; `None` leaves it empty. */
    method SetText(path: seq<nat>, text: Option<string>)
      requires PathOk(Value(), path) && At(Value(), path).children == []
      modifies this
      ensures Value() == ExtendAt(old(Value()), path, if text.Some? then [Text(text.value)] else [])
    {
      var v := Value();
      ExtendAtGrows(v, path, if text.Some? then [Text(text.value)] else []);
      var w := ExtendAt(v, path, if text.Some? then [Text(text.value)] else []);
      children := w.children;
    }
  }

  /** An element holding just a text, or nothing for `None`. */
  function TextElement(tag: string, text: Option<string>): (r: Node)
    ensures TextOf(r) == text
  {
    Element(tag, [], if text.Some? then [Text(text.value)] else [])
  }

  /** `etree.SubElement(parent, tag).text = text`. */
  method AddTextElement(w: XmlElement, parent: seq<nat>, tag: string, text: Option<string>)
    requires PathOk(w.Value(), parent)
    modifies w
    ensures w.Value() == ExtendAt(old(w.Value()), parent, [TextElement(tag, text)])
  {
    ghost var v := w.Value();
    var child := w.SubElement(parent, tag, []);
    if text.Some? {
      AppendToSection(v, parent, tag, [], [], Text(text.value));
      assert [] + [Text(text.value)] == [Text(text.value)];
    } else {
      SectionAt(v, parent, Element(tag, [], []));
      ExtendNothing(w.Value(), child);
    }
    w.SetText(child, text);
  }

  /** The same, under the element `section` added last under `at`, which so
      far holds `nodes`. */
  method AddTextTo(w: XmlElement, section: seq<nat>, tag: string, text: Option<string>,
                   ghost v0: Node, ghost at: seq<nat>, ghost sectionTag: string,
                   ghost sectionAttrs: seq<(string, string)>, ghost nodes: seq<Node>)
    requires PathOk(v0, at) && w.Value() == ExtendAt(v0, at, [Element(sectionTag, sectionAttrs, nodes)])
    requires section == at + [|At(v0, at).children|]
    modifies w
    ensures w.Value() == ExtendAt(v0, at, [Element(sectionTag, sectionAttrs, nodes + [TextElement(tag, text)])])
  {
    AppendToSection(v0, at, sectionTag, sectionAttrs, nodes, TextElement(tag, text));
    AddTextElement(w, section, tag, text);
  }
}
