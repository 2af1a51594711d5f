/** markdown_to_blocks and markdown_to_blocks2
    (src/notion_assistant/notion/updates.py): a divider, then one block per
    tag the dispatch recognises, in document order. */
module Conversion {

  import opened Wrappers
  import opened PyJson
  import opened Blocks
  import opened Html

  /** The constructor the loop picks for a node: none for strings (they fail
      the `isinstance` test, and a string's `.name` is None, which is not in
      the table); for `li` a numbered item under `ol` and a bulleted item
      elsewhere; for any other tag the table entry, if there is one. */
  function Dispatch(n: Node): Option<Constructor> {
    match n
    case TextNode(_) => None
    case TagNode(tag) =>
      if tag.name == "li" then Some(if tag.parentName == "ol" then NumberedListItem else BulletedListItem)
      else if tag.name in TagToBlock then Some(TagToBlock[tag.name])
      else None
  }

  /** The blocks the loop appends for `nodes`, after the divider. */
  function BlocksOf(nodes: seq<Node>): (r: Result<seq<Json>>)
    ensures r.Ok? ==> |r.value| <= |nodes|
  {
    if nodes == [] then Ok([])
    else
      var before :- BlocksOf(nodes[..|nodes| - 1]);
      var last := nodes[|nodes| - 1];
      match Dispatch(last)
      case None => Ok(before)
      case Some(c) =>
        var block :- Build(c, last.tag);
        Ok(before + [block])
  }

  /** The converter's result: a divider followed by the blocks. */
  function Converted(nodes: seq<Node>): (r: Result<seq<Json>>)
    ensures r.Ok? ==> 1 <= |r.value| <= |nodes| + 1 && r.value[0] == DividerBlock()
    ensures r.Err? <==> BlocksOf(nodes).Err?
  {
    var blocks :- BlocksOf(nodes);
    Ok([DividerBlock()] + blocks)
  }

  /** Once the blocks of a prefix fail, the whole sequence fails the same way. */
  lemma {:induction false} BlocksErrPrefix(nodes: seq<Node>, k: nat)
    requires k <= |nodes| && BlocksOf(nodes[..k]).Err?
    ensures BlocksOf(nodes) == BlocksOf(nodes[..k])
    decreases |nodes| - k
  {
    if k < |nodes| {
      assert nodes[..k + 1][..k] == nodes[..k];
      BlocksErrPrefix(nodes, k + 1);
    } else {
      assert nodes[..k] == nodes;
    }
  }

  /** The loop of markdown_to_blocks and markdown_to_blocks2: start from a
      divider and append the block of each recognised tag. */
  method TagsToBlocks(nodes: seq<Node>) returns (r: Result<seq<Json>>)
    ensures r == Converted(nodes)
  {
    var blocks := [DividerBlock()];
    var i := 0;
    while i < |nodes|
      invariant 0 <= i <= |nodes|
      invariant BlocksOf(nodes[..i]).Ok?
      invariant blocks == [DividerBlock()] + BlocksOf(nodes[..i]).value
    {
      var node := nodes[i];
      assert nodes[..i + 1][..i] == nodes[..i];
      if node.TagNode? {
        var create: Option<Constructor>;
        if node.tag.name == "li" {
          if node.tag.parentName == "ol" {
            create := Some(NumberedListItem);
          } else {
            create := Some(BulletedListItem);
          }
        } else {
          create := if node.tag.name in TagToBlock then Some(TagToBlock[node.tag.name]) else None;
        }
        if create.Some? {
          var block := Build(create.value, node.tag);
          if block.Err? {
            BlocksErrPrefix(nodes, i + 1);
            return Err(block.error);
          }
          blocks := blocks + [block.value];
        }
      }
      i := i + 1;
    }
    assert nodes[..i] == nodes;
    r := Ok(blocks);
  }

  /** markdown_to_blocks: the loop over every descendant of the document. */
  method MarkdownToBlocks(document: seq<Dom>) returns (r: Result<seq<Json>>)
    ensures r == Converted(Descendants(document, DocumentName))
  {
    r := TagsToBlocks(Descendants(document, DocumentName));
  }

  /** markdown_to_blocks2: the same loop over the top-level nodes only. */
  method MarkdownToBlocks2(document: seq<Dom>) returns (r: Result<seq<Json>>)
    ensures r == Converted(Children(document, DocumentName))
  {
    r := TagsToBlocks(Children(document, DocumentName));
  }

  /** The tags the dispatch recognises, with their constructors, in order. */
  function Recognised(nodes: seq<Node>): seq<(Constructor, Tag)>
  {
    if nodes == [] then []
    else
      var rest := Recognised(nodes[..|nodes| - 1]);
      var last := nodes[|nodes| - 1];
      if Dispatch(last).Some? then rest + [(Dispatch(last).value, last.tag)] else rest
  }

  /** The only failure: a recognised image without `src`. */
  predicate Buildable(nodes: seq<Node>) {
    forall i :: 0 <= i < |nodes| ==> Dispatch(nodes[i]) == Some(Image) ==> nodes[i].tag.src.Some?
  }

  /** The converter succeeds exactly when every recognised image has a
      `src`; then its output is a divider followed by one block per
      recognised tag, in document order, each built by the constructor the
      dispatch chose. */
  lemma {:induction false} ConvertedBlocks(nodes: seq<Node>)
    ensures Converted(nodes).Ok? <==> Buildable(nodes)
    ensures Converted(nodes).Ok? ==>
      var out := Converted(nodes).value;
      var rec := Recognised(nodes);
      && |out| == 1 + |rec|
      && out[0] == DividerBlock()
      && forall k :: 0 <= k < |rec| ==> Build(rec[k].0, rec[k].1) == Ok(out[k + 1])
  {
    if nodes != [] {
      var init := nodes[..|nodes| - 1];
      ConvertedBlocks(init);
      var last := nodes[|nodes| - 1];
      assert forall i :: 0 <= i < |init| ==> init[i] == nodes[i];
      if BlocksOf(init).Ok? && Dispatch(last).Some? {
        BuildShape(Dispatch(last).value, last.tag);
      }
      if !Buildable(init) {
        var i :| 0 <= i < |init| && Dispatch(init[i]) == Some(Image) && init[i].tag.src.None?;
        assert nodes[i] == init[i];
      }
    }
  }

  /** Nothing recognised: the output is the divider alone. */
  lemma NothingRecognised(nodes: seq<Node>)
    requires forall i :: 0 <= i < |nodes| ==> Dispatch(nodes[i]).None?
    ensures Converted(nodes) == Ok([DividerBlock()])
  {
    ConvertedBlocks(nodes);
    RecognisedEmpty(nodes);
    assert Buildable(nodes);
    assert Converted(nodes).value == [DividerBlock()];
  }

  lemma {:induction false} RecognisedEmpty(nodes: seq<Node>)
    requires forall i :: 0 <= i < |nodes| ==> Dispatch(nodes[i]).None?
    ensures Recognised(nodes) == []
  {
    if nodes != [] {
      RecognisedEmpty(nodes[..|nodes| - 1]);
    }
  }

  /** An `li` becomes a numbered item exactly when its parent is `ol`; a
      string node never produces a block. */
  lemma ListItems(n: Node)
    ensures n.TextNode? ==> Dispatch(n).None?
    ensures n.TagNode? && n.tag.name == "li" ==>
      var b := Build(Dispatch(n).value, n.tag).value;
      && (n.tag.parentName == "ol" ==> b.fields["type"] == JStr("numbered_list_item"))
      && (n.tag.parentName != "ol" ==> b.fields["type"] == JStr("bulleted_list_item"))
  {
  }

  /** Blocks of a concatenation are the concatenated blocks, the first
      failure winning. */
  lemma {:induction false} BlocksConcat(a: seq<Node>, b: seq<Node>)
    ensures BlocksOf(a).Err? ==> BlocksOf(a + b) == BlocksOf(a)
    ensures BlocksOf(a).Ok? && BlocksOf(b).Err? ==> BlocksOf(a + b) == BlocksOf(b)
    ensures BlocksOf(a).Ok? && BlocksOf(b).Ok? ==> BlocksOf(a + b) == Ok(BlocksOf(a).value + BlocksOf(b).value)
  {
    if b == [] {
      assert a + b == a;
      if BlocksOf(a).Ok? {
        assert BlocksOf(a).value + [] == BlocksOf(a).value;
      }
    } else {
      var b', last := b[..|b| - 1], b[|b| - 1];
      assert (a + b)[..|a + b| - 1] == a + b';
      assert (a + b)[|a + b| - 1] == last;
      BlocksConcat(a, b');
      if BlocksOf(a).Ok? && BlocksOf(b').Ok? && Dispatch(last).Some? && Build(Dispatch(last).value, last.tag).Ok? {
        var x, y, blk := BlocksOf(a).value, BlocksOf(b').value, Build(Dispatch(last).value, last.tag).value;
        assert (x + y) + [blk] == x + (y + [blk]);
      }
    }
  }

  /** Nodes that are all strings add no blocks. */
  lemma {:induction false} TextNodesAddNothing(nodes: seq<Node>)
    requires forall i :: 0 <= i < |nodes| ==> nodes[i].TextNode?
    ensures BlocksOf(nodes) == Ok([])
  {
    if nodes != [] {
      TextNodesAddNothing(nodes[..|nodes| - 1]);
    }
  }

  /** A top-level node whose children are all strings. */
  predicate Shallow(d: Dom) {
    d.Element? ==> forall k :: 0 <= k < |d.children| ==> d.children[k].Text?
  }

  /** Strings between a prefix and a suffix add no blocks. */
  lemma StringsInBetween(head: seq<Node>, strings: seq<Node>, rest: seq<Node>)
    requires forall i :: 0 <= i < |strings| ==> strings[i].TextNode?
    ensures BlocksOf(head + strings + rest) == BlocksOf(head + rest)
  {
    BlocksConcat(head + strings, rest);
    BlocksConcat(head, strings);
    TextNodesAddNothing(strings);
    BlocksConcat(head, rest);
    if BlocksOf(head).Ok? {
      assert BlocksOf(head).value + [] == BlocksOf(head).value;
    }
  }

  /** On a document whose elements hold only text, the two converters agree:
      the descendants walk meets the same tags as the top-level walk, plus
      strings. */
  lemma {:induction false} ShallowDocumentsAgree(document: seq<Dom>, parentName: string)
    requires forall i :: 0 <= i < |document| ==> Shallow(document[i])
    ensures BlocksOf(Descendants(document, parentName)) == BlocksOf(Children(document, parentName))
  {
    if document != [] {
      var d := document[0];
      var below := Below(d);
      assert forall i :: 0 <= i < |below| ==> below[i].TextNode? by {
        assert Shallow(document[0]);
        if d.Element? {
          assert below == Descendants(d.children, d.name);
          ShallowBelow(d.children, d.name);
        } else {
          assert below == [];
        }
      }
      var head := [NodeOf(d, parentName)];
      var descRest, childRest := Descendants(document[1..], parentName), Children(document[1..], parentName);
      ShallowDocumentsAgree(document[1..], parentName);
      StringsInBetween(head, below, descRest);
      assert Descendants(document, parentName) == head + below + descRest;
      assert Children(document, parentName) == head + childRest;
      BlocksConcat(head, descRest);
      BlocksConcat(head, childRest);
    }
  }

  lemma {:induction false} ShallowBelow(kids: seq<Dom>, name: string)
    requires forall k :: 0 <= k < |kids| ==> kids[k].Text?
    ensures forall i :: 0 <= i < |Descendants(kids, name)| ==> Descendants(kids, name)[i].TextNode?
  {
    if kids != [] {
      ShallowBelow(kids[1..], name);
    }
  }

  /** One more node: its block, if it has one, goes after the others. */
  lemma BlocksSnoc(nodes: seq<Node>, n: Node)
    ensures BlocksOf(nodes + [n]) ==
      (var before :- BlocksOf(nodes);
       match Dispatch(n)
       case None => Ok(before)
       case Some(c) => var block :- Build(c, n.tag); Ok(before + [block]))
  {
    assert (nodes + [n])[..|nodes|] == nodes;
  }

  lemma DescendantsCons(d: Dom, ds: seq<Dom>, parentName: string)
    ensures Descendants([d] + ds, parentName) == [NodeOf(d, parentName)] + Below(d) + Descendants(ds, parentName)
    ensures Children([d] + ds, parentName) == [NodeOf(d, parentName)] + Children(ds, parentName)
    ensures GetTexts([d] + ds) == GetText(d) + GetTexts(ds)
  {
    assert ([d] + ds)[1..] == ds;
  }

  /** A string node adds no block. */
  lemma SkipText(nodes: seq<Node>, t: string)
    ensures BlocksOf(nodes + [TextNode(t)]) == BlocksOf(nodes)
  {
    BlocksSnoc(nodes, TextNode(t));
  }

  /** A recognised tag whose block builds adds that block at the end. */
  lemma AddTag(nodes: seq<Node>, n: Node, c: Constructor, b: Json)
    requires BlocksOf(nodes).Ok? && Dispatch(n) == Some(c) && Build(c, n.tag) == Ok(b)
    ensures BlocksOf(nodes + [n]) == Ok(BlocksOf(nodes).value + [b])
  {
    BlocksSnoc(nodes, n);
  }
}
