/** The parsed HTML document that the converter walks. Parsing markdown and
    HTML is not modelled; the document tree is the input. */
module Html {

  import opened Wrappers
  import opened Blocks

  /** A node of the parsed tree: a string, or an element with its `src`
      attribute (the only attribute the converter reads) and its children. */
  datatype Dom =
    | Text(content: string)
    | Element(name: string, src: Option<string>, children: seq<Dom>)

  /** What iterating over the parse yields: a string node, or a tag seen
      together with its parent's name and its text. */
  datatype Node = TextNode(content: string) | TagNode(tag: Tag)

  /** The name the parser gives the document root, the parent of every
      top-level node. */
  const DocumentName := "[document]"

  /** `get_text()`: the concatenated strings below a node, in document order. */
  function GetText(d: Dom): string
    decreases d, 1
  {
    match d
    case Text(s) => s
    case Element(_, _, kids) => GetTexts(kids)
  }

  function GetTexts(ds: seq<Dom>): string
    decreases ds, 0
  {
    if ds == [] then "" else GetText(ds[0]) + GetTexts(ds[1..])
  }

  /** A tree node as a loop over the parse sees it. */
  function NodeOf(d: Dom, parentName: string): Node {
    match d
    case Text(s) => TextNode(s)
    case Element(name, src, kids) => TagNode(Tag(name, parentName, GetTexts(kids), src))
  }

  /** `.descendants`: every node below the root, in document (pre-)order. */
  function Descendants(ds: seq<Dom>, parentName: string): seq<Node>
    decreases ds, 0
  {
    if ds == [] then []
    else [NodeOf(ds[0], parentName)] + Below(ds[0]) + Descendants(ds[1..], parentName)
  }

  function Below(d: Dom): seq<Node>
    decreases d, 1
  {
    match d
    case Text(_) => []
    case Element(name, _, kids) => Descendants(kids, name)
  }

  /** Iterating a node directly: its children, one level deep. */
  function Children(ds: seq<Dom>, parentName: string): (r: seq<Node>)
    ensures |r| == |ds|
    ensures forall i :: 0 <= i < |ds| ==> r[i] == NodeOf(ds[i], parentName)
  {
    if ds == [] then [] else [NodeOf(ds[0], parentName)] + Children(ds[1..], parentName)
  }

  /** Every child is among the descendants, in the same order: child `i`
      sits at position `i` plus the number of nodes below earlier children. */
  lemma {:induction false} ChildrenAmongDescendants(ds: seq<Dom>, parentName: string, i: nat)
    requires i < |ds|
    ensures var at := i + |Flat(ds[..i])|;
      at < |Descendants(ds, parentName)| && Descendants(ds, parentName)[at] == NodeOf(ds[i], parentName)
  {
    if i > 0 {
      ChildrenAmongDescendants(ds[1..], parentName, i - 1);
      assert ds[..i] == [ds[0]] + ds[1..][..i - 1];
      assert Flat(ds[..i]) == Below(ds[0]) + Flat(ds[1..][..i - 1]);
    }
  }

  /** The nodes below each of `ds`, in order. */
  function Flat(ds: seq<Dom>): seq<Node> {
    if ds == [] then [] else Below(ds[0]) + Flat(ds[1..])
  }
}
