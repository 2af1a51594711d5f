/** The block constructors and the tag dispatch table of
    src/notion_assistant/notion/updates.py, producing blocks in the JSON shape
    the append-children call receives (after the json round trip that turns
    the rich-text models into dicts). */
module Blocks {

  import opened Wrappers
  import opened PyJson

  /** An HTML tag as the converter reads it: its name, its parent's name,
      its `get_text()` and its `src` attribute when it has one. */
  datatype Tag = Tag(name: string, parentName: string, text: string, src: Option<string>)

  type HeadingLevel = l: int | 1 <= l <= 3 witness 1

  /** The constructors the dispatch can choose. */
  datatype Constructor =
    | Paragraph
    | Heading(level: HeadingLevel)
    | BulletedListItem
    | NumberedListItem
    | Image

  /** create_rich_text_object, serialised: one `text` span without a link. */
  function RichText(content: string): Json {
    JObj(map["type" := JStr("text"),
             "text" := JObj(map["content" := JStr(content), "link" := JNull])])
  }

  /** create_divider_block. */
  function DividerBlock(): Json {
    JObj(map["type" := JStr("divider"), "divider" := EmptyObj])
  }

  /** create_paragraph_block: an absent tag gives an empty text. */
  function ParagraphBlock(tag: Option<Tag>): Json {
    var text := if tag.Some? then tag.value.text else "";
    JObj(map["type" := JStr("paragraph"),
             "paragraph" := JObj(map["rich_text" := JArr([RichText(text)]),
                                     "children" := JArr([]),
                                     "color" := JStr("default")])])
  }

  /** `f"heading_{level}"`. */
  function HeadingType(level: HeadingLevel): string {
    "heading_" + [('0' as int + level) as char]
  }

  /** create_heading_block. */
  function HeadingBlock(tag: Tag, level: HeadingLevel): Json {
    JObj(map["type" := JStr(HeadingType(level)),
             HeadingType(level) := JObj(map["rich_text" := JArr([RichText(tag.text)]),
                                            "color" := JStr("default"),
                                            "is_toggleable" := JBool(false)])])
  }

  /** create_bulleted_list_item_block. */
  function BulletedListItemBlock(tag: Tag): Json {
    JObj(map["type" := JStr("bulleted_list_item"),
             "bulleted_list_item" := JObj(map["rich_text" := JArr([RichText(tag.text)]),
                                              "color" := JStr("default"),
                                              "children" := JArr([])])])
  }

  /** create_numbered_list_item_block. */
  function NumberedListItemBlock(tag: Tag): Json {
    JObj(map["type" := JStr("numbered_list_item"),
             "numbered_list_item" := JObj(map["rich_text" := JArr([RichText(tag.text)]),
                                              "color" := JStr("default"),
                                              "children" := JArr([])])])
  }

  /** create_image_block: `tag["src"]` raises KeyError on an image without
      a `src` attribute. */
  function ImageBlock(tag: Tag): Result<Json> {
    if tag.src.None? then Err(KeyError)
    else Ok(JObj(map["type" := JStr("image"),
                     "image" := JObj(map["external" := JObj(map["url" := JStr(tag.src.value)])])]))
  }

  /** The `tag_to_block` table. */
  const TagToBlock: map<string, Constructor> :=
    map["p" := Paragraph,
        "h1" := Heading(1),
        "h2" := Heading(2),
        "h3" := Heading(3),
        "li" := BulletedListItem,
        "img" := Image,
        "ol" := NumberedListItem]

  /** The block type each constructor writes into `type`. */
  function TypeName(c: Constructor): string {
    match c
    case Paragraph => "paragraph"
    case Heading(l) => HeadingType(l)
    case BulletedListItem => "bulleted_list_item"
    case NumberedListItem => "numbered_list_item"
    case Image => "image"
  }

  /** Applying the constructor a table entry names. */
  function Build(c: Constructor, tag: Tag): Result<Json> {
    match c
    case Paragraph => Ok(ParagraphBlock(Some(tag)))
    case Heading(l) => Ok(HeadingBlock(tag, l))
    case BulletedListItem => Ok(BulletedListItemBlock(tag))
    case NumberedListItem => Ok(NumberedListItemBlock(tag))
    case Image => ImageBlock(tag)
  }

  /** A block whose `type` names the one other key, which carries the
      payload dict. */
  predicate Typed(b: Json, typeName: string) {
    && b.JObj? && b.fields.Keys == {"type", typeName}
    && b.fields["type"] == JStr(typeName) && b.fields[typeName].JObj?
  }

  function Payload(b: Json, typeName: string): map<string, Json>
    requires Typed(b, typeName)
  {
    b.fields[typeName].fields
  }

  /** What every block the dispatch builds looks like: `type` equals the
      payload key; text blocks carry exactly one span with the tag's text,
      colour "default"; headings are not toggleable; an image carries the
      tag's `src` as its external URL; only an image without `src` fails. */
  lemma BuildShape(c: Constructor, tag: Tag)
    ensures Build(c, tag).Ok? <==> c != Image || tag.src.Some?
    ensures Build(c, tag).Ok? ==>
      var b := Build(c, tag).value;
      && Typed(b, TypeName(c))
      && (c != Image ==>
            && Payload(b, TypeName(c))["rich_text"] == JArr([RichText(tag.text)])
            && Payload(b, TypeName(c))["color"] == JStr("default"))
      && (c.Heading? ==> Payload(b, TypeName(c))["is_toggleable"] == JBool(false))
      && (c == Image ==> Payload(b, TypeName(c)) == map["external" := JObj(map["url" := JStr(tag.src.value)])])
  {
  }

  /** The divider has the same shape, with an empty payload. */
  lemma DividerShape()
    ensures Typed(DividerBlock(), "divider") && Payload(DividerBlock(), "divider") == map[]
  {
  }

  /** The seven table entries produce seven distinct block types apart from
      `li` and `ol`, which both make list items; `h1`..`h3` give
      `heading_1`..`heading_3`. */
  lemma TableTypes()
    ensures TypeName(TagToBlock["p"]) == "paragraph"
    ensures TypeName(TagToBlock["h1"]) == "heading_1"
    ensures TypeName(TagToBlock["h2"]) == "heading_2"
    ensures TypeName(TagToBlock["h3"]) == "heading_3"
    ensures TypeName(TagToBlock["img"]) == "image"
    ensures TypeName(TagToBlock["ol"]) == "numbered_list_item"
    ensures TypeName(TagToBlock["li"]) == "bulleted_list_item"
  {
  }

  /** The constructor a block `type` value names, if any. */
  function ConstructorNamed(typeName: string): Option<Constructor> {
    if typeName == "paragraph" then Some(Paragraph)
    else if typeName == "heading_1" then Some(Heading(1))
    else if typeName == "heading_2" then Some(Heading(2))
    else if typeName == "heading_3" then Some(Heading(3))
    else if typeName == "bulleted_list_item" then Some(BulletedListItem)
    else if typeName == "numbered_list_item" then Some(NumberedListItem)
    else if typeName == "image" then Some(Image)
    else None
  }

  /** A block's `type` identifies the constructor that built it, so
      different constructors write different `type` values. */
  lemma TypeNameRoundTrip(c: Constructor)
    ensures ConstructorNamed(TypeName(c)) == Some(c)
  {
    if c.Heading? {
      assert TypeName(c)[8] == ('0' as int + c.level) as char;
    }
  }
}
