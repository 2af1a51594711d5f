/** Worked conversions of small documents, showing where markdown_to_blocks
    (every descendant) and markdown_to_blocks2 (top-level nodes only) agree
    and where they differ. */
module ConversionExamples {

  import opened Wrappers
  import opened PyJson
  import opened Blocks
  import opened Html
  import opened Conversion

  /** An element holding one string: its text is that string, and below it
      is that string alone. */
  lemma LeafText(t: string, name: string)
    ensures GetTexts([Text(t)]) == t
    ensures Descendants([Text(t)], name) == [TextNode(t)]
  {
    DescendantsCons(Text(t), [], name);
    assert [Text(t)] == [Text(t)] + [];
  }

  /** The nodes of `<h1>Title</h1>`, a newline and `<p>Some text</p>`. */
  lemma HeadingThenParagraphNodes(h1: Dom, nl: Dom, p: Dom)
    requires h1 == Element("h1", None, [Text("Title")]) && nl == Text("\n")
    requires p == Element("p", None, [Text("Some text")])
    ensures Descendants([h1, nl, p], DocumentName) ==
      [TagNode(Tag("h1", DocumentName, "Title", None)), TextNode("Title"), TextNode("\n"),
       TagNode(Tag("p", DocumentName, "Some text", None)), TextNode("Some text")]
    ensures Children([h1, nl, p], DocumentName) ==
      [TagNode(Tag("h1", DocumentName, "Title", None)), TextNode("\n"),
       TagNode(Tag("p", DocumentName, "Some text", None))]
  {
    LeafText("Title", "h1");
    LeafText("Some text", "p");
    var n1 := TagNode(Tag("h1", DocumentName, "Title", None));
    var n2 := TagNode(Tag("p", DocumentName, "Some text", None));
    assert NodeOf(h1, DocumentName) == n1 && Below(h1) == [TextNode("Title")];
    assert NodeOf(p, DocumentName) == n2 && Below(p) == [TextNode("Some text")];
    DescendantsCons(p, [], DocumentName);
    assert [p] == [p] + [];
    assert Descendants([p], DocumentName) == [n2, TextNode("Some text")];
    assert Children([p], DocumentName) == [n2];
    DescendantsCons(nl, [p], DocumentName);
    assert [nl, p] == [nl] + [p];
    assert Descendants([nl, p], DocumentName) == [TextNode("\n"), n2, TextNode("Some text")];
    DescendantsCons(h1, [nl, p], DocumentName);
    assert [h1, nl, p] == [h1] + [nl, p];
  }

  /** A tag, two strings, a tag and a string give the two tags' blocks; so
      does a tag, one string and a tag. */
  lemma TagsAmongStrings(n1: Node, n2: Node, x: string, y: string, z: string, b1: Json, b2: Json)
    requires Dispatch(n1).Some? && Build(Dispatch(n1).value, n1.tag) == Ok(b1)
    requires Dispatch(n2).Some? && Build(Dispatch(n2).value, n2.tag) == Ok(b2)
    ensures BlocksOf([n1, TextNode(x), TextNode(y), n2, TextNode(z)]) == Ok([b1, b2])
    ensures BlocksOf([n1, TextNode(y), n2]) == Ok([b1, b2])
  {
    AddTag([], n1, Dispatch(n1).value, b1);
    assert [] + [n1] == [n1] && [] + [b1] == [b1];
    SkipText([n1], x);
    assert [n1] + [TextNode(x)] == [n1, TextNode(x)];
    SkipText([n1, TextNode(x)], y);
    assert [n1, TextNode(x)] + [TextNode(y)] == [n1, TextNode(x), TextNode(y)];
    AddTag([n1, TextNode(x), TextNode(y)], n2, Dispatch(n2).value, b2);
    assert [n1, TextNode(x), TextNode(y)] + [n2] == [n1, TextNode(x), TextNode(y), n2];
    assert [b1] + [b2] == [b1, b2];
    SkipText([n1, TextNode(x), TextNode(y), n2], z);
    assert [n1, TextNode(x), TextNode(y), n2] + [TextNode(z)] == [n1, TextNode(x), TextNode(y), n2, TextNode(z)];
    SkipText([n1], y);
    assert [n1] + [TextNode(y)] == [n1, TextNode(y)];
    AddTag([n1, TextNode(y)], n2, Dispatch(n2).value, b2);
    assert [n1, TextNode(y)] + [n2] == [n1, TextNode(y), n2];
  }

  /** `# Title` then `Some text` renders as `<h1>Title</h1>`, a newline
      string and `<p>Some text</p>`; both converters give a divider, a
      level-1 heading and a paragraph, in that order. */
  lemma HeadingThenParagraph()
    ensures var doc := [Element("h1", None, [Text("Title")]), Text("\n"), Element("p", None, [Text("Some text")])];
      var expected := Ok([DividerBlock(),
                          HeadingBlock(Tag("h1", DocumentName, "Title", None), 1),
                          ParagraphBlock(Some(Tag("p", DocumentName, "Some text", None)))]);
      && Converted(Descendants(doc, DocumentName)) == expected
      && Converted(Children(doc, DocumentName)) == expected
  {
    var h1 := Element("h1", None, [Text("Title")]);
    var p := Element("p", None, [Text("Some text")]);
    HeadingThenParagraphNodes(h1, Text("\n"), p);
    var n1 := TagNode(Tag("h1", DocumentName, "Title", None));
    var n2 := TagNode(Tag("p", DocumentName, "Some text", None));
    var b1 := HeadingBlock(n1.tag, 1);
    var b2 := ParagraphBlock(Some(n2.tag));
    assert Dispatch(n1) == Some(Heading(1)) && Build(Heading(1), n1.tag) == Ok(b1);
    assert Dispatch(n2) == Some(Paragraph) && Build(Paragraph, n2.tag) == Ok(b2);
    TagsAmongStrings(n1, n2, "Title", "\n", "Some text", b1, b2);
    assert [DividerBlock()] + [b1, b2] == [DividerBlock(), b1, b2];
  }

  /** A newline string then an item holding one string, before `rest`,
      inside an `ol`. */
  lemma NewlineItem(li: Dom, t: string, rest: seq<Dom>)
    requires li == Element("li", None, [Text(t)])
    ensures Descendants([Text("\n"), li] + rest, "ol") ==
              [TextNode("\n"), TagNode(Tag("li", "ol", t, None)), TextNode(t)] + Descendants(rest, "ol")
    ensures GetTexts([Text("\n"), li] + rest) == "\n" + t + GetTexts(rest)
  {
    LeafText(t, "li");
    assert NodeOf(li, "ol") == TagNode(Tag("li", "ol", t, None)) && Below(li) == [TextNode(t)];
    DescendantsCons(li, rest, "ol");
    assert [Text("\n"), li] + rest == [Text("\n")] + ([li] + rest);
    DescendantsCons(Text("\n"), [li] + rest, "ol");
  }

  /** The nodes of `<ol>\n<li>a</li>\n<li>b</li>\n</ol>`, the list as
      python-markdown renders it, with a newline string before each item and
      before the closing tag. */
  lemma OrderedListNodes(a: Dom, b: Dom, nl: Dom, ol: Dom)
    requires a == Element("li", None, [Text("a")]) && b == Element("li", None, [Text("b")])
    requires nl == Text("\n") && ol == Element("ol", None, [nl, a, nl, b, nl])
    ensures Descendants([ol], DocumentName) ==
      [TagNode(Tag("ol", DocumentName, "\na\nb\n", None)), TextNode("\n"),
       TagNode(Tag("li", "ol", "a", None)), TextNode("a"), TextNode("\n"),
       TagNode(Tag("li", "ol", "b", None)), TextNode("b"), TextNode("\n")]
    ensures Children([ol], DocumentName) == [TagNode(Tag("ol", DocumentName, "\na\nb\n", None))]
  {
    LeafText("\n", "ol");
    NewlineItem(b, "b", [nl]);
    assert [nl, b, nl] == [nl, b] + [nl];
    NewlineItem(a, "a", [nl, b, nl]);
    assert [nl, a, nl, b, nl] == [nl, a] + [nl, b, nl];
    assert GetTexts([nl, a, nl, b, nl]) == "\na\nb\n";
    DescendantsCons(ol, [], DocumentName);
    assert [ol] == [ol] + [];
  }

  /** Both an `ol` tag and an `li` directly under one dispatch to a numbered
      list item. */
  lemma DispatchNumbered(t: Tag)
    requires t.name == "ol" || (t.name == "li" && t.parentName == "ol")
    ensures Dispatch(TagNode(t)) == Some(NumberedListItem)
  {
    if t.name == "ol" {
      assert "ol" != "li";
      assert TagToBlock["ol"] == NumberedListItem;
    }
  }

  /** Three recognised tags, each followed by strings as in a rendered
      list, give the three tags' blocks. */
  lemma ListOfTwoItems(n0: Node, na: Node, nb: Node, x: string, y: string, b0: Json, ba: Json, bb: Json)
    requires Dispatch(n0).Some? && Build(Dispatch(n0).value, n0.tag) == Ok(b0)
    requires Dispatch(na).Some? && Build(Dispatch(na).value, na.tag) == Ok(ba)
    requires Dispatch(nb).Some? && Build(Dispatch(nb).value, nb.tag) == Ok(bb)
    ensures var s := TextNode("\n");
            BlocksOf([n0, s, na, TextNode(x), s, nb, TextNode(y), s]) == Ok([b0, ba, bb])
  {
    var s := TextNode("\n");
    AddTag([], n0, Dispatch(n0).value, b0);
    assert [] + [n0] == [n0] && [] + [b0] == [b0];
    SkipText([n0], "\n");
    assert [n0] + [s] == [n0, s];
    AddTag([n0, s], na, Dispatch(na).value, ba);
    assert [n0, s] + [na] == [n0, s, na] && [b0] + [ba] == [b0, ba];
    SkipText([n0, s, na], x);
    assert [n0, s, na] + [TextNode(x)] == [n0, s, na, TextNode(x)];
    SkipText([n0, s, na, TextNode(x)], "\n");
    assert [n0, s, na, TextNode(x)] + [s] == [n0, s, na, TextNode(x), s];
    AddTag([n0, s, na, TextNode(x), s], nb, Dispatch(nb).value, bb);
    assert [n0, s, na, TextNode(x), s] + [nb] == [n0, s, na, TextNode(x), s, nb];
    assert [b0, ba] + [bb] == [b0, ba, bb];
    SkipText([n0, s, na, TextNode(x), s, nb], y);
    assert [n0, s, na, TextNode(x), s, nb] + [TextNode(y)] == [n0, s, na, TextNode(x), s, nb, TextNode(y)];
    SkipText([n0, s, na, TextNode(x), s, nb, TextNode(y)], "\n");
    assert [n0, s, na, TextNode(x), s, nb, TextNode(y)] + [s] == [n0, s, na, TextNode(x), s, nb, TextNode(y), s];
  }

  /** Two recognised tags give their two blocks. */
  lemma TwoTags(n0: Node, na: Node, b0: Json, ba: Json)
    requires Dispatch(n0).Some? && Build(Dispatch(n0).value, n0.tag) == Ok(b0)
    requires Dispatch(na).Some? && Build(Dispatch(na).value, na.tag) == Ok(ba)
    ensures BlocksOf([n0, na]) == Ok([b0, ba])
    ensures BlocksOf([n0]) == Ok([b0])
  {
    AddTag([], n0, Dispatch(n0).value, b0);
    assert [] + [n0] == [n0] && [] + [b0] == [b0];
    AddTag([n0], na, Dispatch(na).value, ba);
    assert [n0] + [na] == [n0, na] && [b0] + [ba] == [b0, ba];
  }

  /** An ordered list `1. a` / `2. b`, rendered as
      `<ol>\n<li>a</li>\n<li>b</li>\n</ol>`: the descendants walk gives a
      numbered item for the `ol` itself (carrying the whole list's text,
      newlines included) and one per `li`; the top-level walk gives only
      the one for the `ol`. */
  lemma OrderedListDiverges()
    ensures var nl := Text("\n");
      var ol := Element("ol", None, [nl, Element("li", None, [Text("a")]), nl, Element("li", None, [Text("b")]), nl]);
      && Converted(Descendants([ol], DocumentName)) ==
           Ok([DividerBlock(),
               NumberedListItemBlock(Tag("ol", DocumentName, "\na\nb\n", None)),
               NumberedListItemBlock(Tag("li", "ol", "a", None)),
               NumberedListItemBlock(Tag("li", "ol", "b", None))])
      && Converted(Children([ol], DocumentName)) ==
           Ok([DividerBlock(), NumberedListItemBlock(Tag("ol", DocumentName, "\na\nb\n", None))])
  {
    var a := Element("li", None, [Text("a")]);
    var b := Element("li", None, [Text("b")]);
    var nl := Text("\n");
    var ol := Element("ol", None, [nl, a, nl, b, nl]);
    OrderedListNodes(a, b, nl, ol);
    var n0 := TagNode(Tag("ol", DocumentName, "\na\nb\n", None));
    var na := TagNode(Tag("li", "ol", "a", None));
    var nb := TagNode(Tag("li", "ol", "b", None));
    DispatchNumbered(n0.tag);
    DispatchNumbered(na.tag);
    DispatchNumbered(nb.tag);
    var b0, ba, bb := NumberedListItemBlock(n0.tag), NumberedListItemBlock(na.tag), NumberedListItemBlock(nb.tag);
    ListOfTwoItems(n0, na, nb, "a", "b", b0, ba, bb);
    TwoTags(n0, na, b0, ba);
    assert [DividerBlock()] + [b0, ba, bb] == [DividerBlock(), b0, ba, bb];
    assert [DividerBlock()] + [b0] == [DividerBlock(), b0];
  }
}
