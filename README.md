# notion-assistant: a verified model of the record-processing core

notion-assistant reads pages and databases from a Notion workspace and
writes analysis back to them. Almost all of it is calls into the Notion
client. Under those calls is a small layer of deterministic logic over JSON
records that have already been fetched, and this project models that layer
in Dafny and proves what it promises:

- **Attribute extraction** (`extractions.py`) is modelled in `extractions.dfy`.
  Each extractor reads a nested property path and has explicit fallbacks
  (`Title` → `Name`, a top-level timestamp → a custom property, the
  related-projects relation → `Projects`) and explicit defaults (None, or 0
  highlights).
- **Markdown to blocks** (`updates.py`) is modelled in `blocks.dfy`,
  `html.dfy`, `conversion.dfy` and `conversion_examples.dfy`. This covers the
  block constructors, the `tag_to_block` dispatch table with its `li`-under-`ol`
  special case, and the two converter loops. `markdown_to_blocks` walks every
  descendant of the parsed document; `markdown_to_blocks2` walks only the
  top-level nodes.
- **Writes** (`updates.py`) are modelled in `mutations.dfy`:
  - appending blocks to a page in batches of at most 90;
  - extending a relation property with the ids of titled pages;
  - ticking the `is_ai_analyzed` checkbox.

  The Notion client is a class `Api` that records every request it receives
  and the children appended under each block. The page dict that the update
  functions change in place is a class `PageObject`.
- **List processing after a fetch** (`helpers.py`, `reads.py`) is modelled
  in `helpers.dfy`, `reads.dfy` and `batches.dfy`. The paginated API is the
  `seq<seq<Json>>` of result batches it returned. Over those batches the
  model covers:
  - collecting a database's pages, with the `Name`/`Title` fallback;
  - joining a page's paragraph text;
  - splitting the workspace's databases into titled and faulty ones;
  - picking the first database whose title fuzzily matches a name;
  - building the map from a reference database's page titles to page ids.

JSON is the datatype `Json` (`pyjson.dfy`), and `JNull` stands for Python's
None. Python's dict and list operations return a `Result`. `d[k]`, `d.get(k,
default)`, `x[0]`, truthiness, `.replace` and `.lower` on a JSON value are
modelled with the exception each one raises (KeyError, IndexError,
TypeError, AttributeError, ValueError). Each operation is therefore total,
and its contract covers the error paths as well as the normal result.
`.strip` is modelled on strings only (`PyStr.Strip`), because the titles it
is applied to are strings in the model; see "Left out".

`batches.dfy` defines `Gather`, which models a loop or comprehension that
adds a function's output for each element, the first exception ending the
loop. The imperative loops of the source are methods, each proved equal to a
specification function whose properties are lemmas:

- the nested batch loops of helpers.py (`Helpers.GetAllPagesForDatabase`,
  `Helpers.GetAllDatabaseIds`) equal `Gather` over the flattened batches;
- the converter loop (`Conversion.TagsToBlocks`) equals `Conversion.Converted`;
- the append loop (`Mutations.AppendBlocksToPage`) sends `Mutations.Chunks`
  and leaves the children `Mutations.AfterAppend` describes;
- the two property updates (`Mutations.UpdateRefsProperty`,
  `Mutations.UpdateIsAiAnalysisDoneProperty`) equal `Mutations.RefsUpdate`
  and `Mutations.AnalysisUpdate`.

## Model

| member | source | states |
|---|---|---|
| Extractions.FirstTitleText | src/notion_assistant/notion/extractions.py:75 | `prop["title"][0]["plain_text"]` succeeds exactly when the property has a title list whose first span has `plain_text`, and then gives that text; a missing `title` is KeyError, an empty list IndexError |
| Extractions.ExtractId | src/notion_assistant/notion/extractions.py:11-13 | succeeds exactly when the record has an `id`, returning it unchanged; KeyError otherwise |
| Extractions.ExtractStars | src/notion_assistant/notion/extractions.py:16-19 | None when `Future Value Rank` is absent or its `select` is absent or falsy; the select's `name` otherwise; a record without `properties` raises |
| Extractions.FirstRelationName | src/notion_assistant/notion/extractions.py:34-37 | `related[0].get("name") if related[0] else None` on a non-empty list: succeeds exactly when the first entry is falsy or a dict, and a non-None result is that entry's `name` |
| Extractions.ExtractProjectName | src/notion_assistant/notion/extractions.py:22-39 | the first related-projects entry's `name` when that relation is non-empty; `Projects`' first entry only when the first relation is absent or empty; None when neither relation has entries |
| Extractions.ExtractIsArchived | src/notion_assistant/notion/extractions.py:42-44 | succeeds exactly when the record has `archived`, returning it unchanged |
| Extractions.NormaliseTimestamp | src/notion_assistant/notion/extractions.py:53 | after the rewrite no `Z` is left, and a string without `Z` is unchanged |
| Extractions.NormaliseTrailingZ | src/notion_assistant/notion/extractions.py:65 | a trailing `Z` becomes `+00:00` and the rest of the string is rewritten on its own |
| Extractions.ExtractTimestamp | src/notion_assistant/notion/extractions.py:49-56 | a non-empty top-level field wins; otherwise the custom property's field; None when both are missing or falsy, even when `properties` is absent; the result never contains `Z` |
| Extractions.ExtractCreatedAt | src/notion_assistant/notion/extractions.py:47-56 | top-level `created_time` if non-empty, else `properties.created_at.created_time`, else None; no failure when `properties` is missing |
| Extractions.ExtractLastUpdatedAt | src/notion_assistant/notion/extractions.py:59-68 | top-level `last_edited_time` if non-empty, else `properties.updated_at.last_edited_time`, else None |
| Extractions.ExtractTitle | src/notion_assistant/notion/extractions.py:71-78 | a present, truthy `Title` is chosen, and its first span text is returned; a `Title` with an empty list gives None without trying `Name`; otherwise `Name`'s first span text, or None when `Name` or its title list is missing |
| Extractions.ExtractNumHighlights | src/notion_assistant/notion/extractions.py:81-88 | 0 when `Highlights` is missing or empty or its `number` is absent or None; `int(number)` (truncation toward zero) for a numeric value |
| Extractions.ExtractUrl | src/notion_assistant/notion/extractions.py:91-93 | succeeds exactly when the record has `url`, returning it unchanged; KeyError otherwise |
| Extractions.ExtractExternalUrl | src/notion_assistant/notion/extractions.py:96-99 | None when `URL` is absent or falsy, or has no `url`; the `url` value otherwise |
| Extractions.ExtractRawPageAttributes | src/notion_assistant/notion/extractions.py:172-174 | succeeds exactly when the record has `id` and `url`; the row holds both unchanged and keeps the whole record |
| Extractions.ExtractParaPageAttributes | src/notion_assistant/notion/extractions.py:143-157 | succeeds exactly when every extractor does; each field is that extractor's value and the markdown export is the one supplied |
| Extractions.ExtractAreaPageAttributes | src/notion_assistant/notion/extractions.py:160-169 | succeeds exactly when its five extractors do; each field is that extractor's value |
| Extractions.MissingOptionalKeys | src/notion_assistant/notion/extractions.py:143-157 | no extractor raises on a missing optional key: a record with only `id`, `url`, `archived` and an empty-of-optionals `properties` dict yields None (0 highlights) for every optional attribute |
| PyStr.ReplaceChar | src/notion_assistant/notion/extractions.py:53 | `replace` leaves no occurrence of the pattern when the replacement lacks it, and changes nothing when the pattern does not occur |
| PyStr.ReplaceCharConcat | src/notion_assistant/notion/extractions.py:65 | replacing distributes over concatenation |
| PyStr.RemoveDashes | src/notion_assistant/helpers.py:42 | the result contains no `-` and is no longer than the input |
| PyStr.RemoveDashesIsReplace | src/notion_assistant/helpers.py:96 | dash removal is `replace("-", "")` |
| PyStr.StripLeftSpec | src/notion_assistant/notion/updates.py:253 | `lstrip` keeps the longest suffix that does not start with whitespace and drops only whitespace |
| PyStr.StripRightSpec | src/notion_assistant/notion/updates.py:253 | `rstrip` keeps the longest prefix that does not end with whitespace and drops only whitespace |
| PyStr.StripSpec | src/notion_assistant/notion/updates.py:253 | `strip` keeps a slice with no whitespace at either end and drops only whitespace on both sides |
| PyStr.StripUntrimmed | src/notion_assistant/notion/updates.py:253 | a string without whitespace at either end strips to itself |
| PyStr.StripIdempotent | src/notion_assistant/notion/updates.py:253 | stripping twice is stripping once |
| PyStr.Lower | src/notion_assistant/helpers.py:106 | same length, each character lowered, no upper-case letter left |
| PyStr.LowerIdempotent | src/notion_assistant/notion/updates.py:267-268 | lowering twice is lowering once |
| PyStr.Contains | src/notion_assistant/notion/updates.py:267-268 | `sub in s` holds exactly when `sub` occurs at some position of `s` |
| PyStr.JoinSnoc | src/notion_assistant/helpers.py:60 | joining one more string puts one separator between it and the rest |
| PyStr.JoinConcat | src/notion_assistant/helpers.py:60 | joining two non-empty lists one after the other is joining each, with one separator between the two results |
| PyStr.JoinLength | src/notion_assistant/helpers.py:60 | the joined length is the parts' total plus one separator between each two parts |
| PyStr.ParseInt | src/notion_assistant/notion/extractions.py:85 | `int()` on a string fails only with ValueError |
| PyStr.ParseIntShowNat | src/notion_assistant/notion/extractions.py:85 | `int(str(n)) == n` for every natural number |
| PyStr.Truncate | src/notion_assistant/notion/extractions.py:85 | `int()` of a float truncates toward zero |
| Blocks.BuildShape | src/notion_assistant/notion/updates.py:116-167 | every constructor succeeds except an image without `src` (KeyError); `type` names the one payload key; text blocks carry exactly one span with the tag's text and colour "default"; headings are not toggleable; an image carries `src` as its external URL |
| Blocks.DividerBlock | src/notion_assistant/notion/updates.py:106-108 | the divider block; its exact value is stated by Blocks.DividerShape |
| Blocks.ParagraphBlock | src/notion_assistant/notion/updates.py:116-126 | a paragraph block with the tag's text, or an empty text without a tag; its shape is stated by Blocks.BuildShape |
| Blocks.HeadingBlock | src/notion_assistant/notion/updates.py:129-138 | a `heading_<level>` block with the tag's text, not toggleable; stated by Blocks.BuildShape and Blocks.TypeNameRoundTrip |
| Blocks.BulletedListItemBlock | src/notion_assistant/notion/updates.py:141-150 | a bulleted item with the tag's text; stated by Blocks.BuildShape |
| Blocks.NumberedListItemBlock | src/notion_assistant/notion/updates.py:153-162 | a numbered item with the tag's text; stated by Blocks.BuildShape |
| Blocks.ImageBlock | src/notion_assistant/notion/updates.py:165-167 | an external image with the tag's `src`, KeyError without one; stated by Blocks.BuildShape |
| Blocks.Build | src/notion_assistant/notion/updates.py:171-179 | runs the constructor a `tag_to_block` entry names; that only the image can fail is stated by Blocks.BuildShape |
| Blocks.DividerShape | src/notion_assistant/notion/updates.py:106-108 | the divider is `{"type": "divider", "divider": {}}` |
| Blocks.TableTypes | src/notion_assistant/notion/updates.py:171-179 | `p`, `h1`..`h3`, `li`, `img`, `ol` build paragraph, heading_1..heading_3, bulleted item, image and numbered item blocks |
| Blocks.TypeNameRoundTrip | src/notion_assistant/notion/updates.py:129-138 | a block's `type` identifies the constructor that built it, so different constructors (including the three heading levels) write different types |
| Html.Children | src/notion_assistant/notion/updates.py:220 | iterating the document gives one node per top-level child, in order |
| Html.Descendants | src/notion_assistant/notion/updates.py:197 | `soup.descendants`: each node, then everything below it, in document order; stated by Conversion.DescendantsCons and Html.ChildrenAmongDescendants |
| Html.GetText | src/notion_assistant/notion/updates.py:118 | `tag.get_text()`: the concatenated strings below a node; stated for lists by Conversion.DescendantsCons |
| Html.ChildrenAmongDescendants | src/notion_assistant/notion/updates.py:197 | every top-level node also occurs in the descendants walk, in the same relative order |
| Conversion.Dispatch | src/notion_assistant/notion/updates.py:198-205 | the constructor the loop picks: none for strings, numbered or bulleted item for `li` by its parent, the `tag_to_block` entry otherwise; stated by Conversion.ListItems and Blocks.TableTypes |
| Conversion.BlocksOf | src/notion_assistant/notion/updates.py:197-210 | the appended blocks: never more than the nodes; their exact content is stated by Conversion.ConvertedBlocks |
| Conversion.Converted | src/notion_assistant/notion/updates.py:196-210 | the converter result starts with the divider and has at most one block per node after it; it fails exactly when a constructor does |
| Conversion.BlocksErrPrefix | src/notion_assistant/notion/updates.py:207 | once a constructor raises, the converter raises that exception |
| Conversion.TagsToBlocks | src/notion_assistant/notion/updates.py:196-210 | the loop returns exactly the converter result: a divider then the recognised tags' blocks, or the first constructor exception |
| Conversion.MarkdownToBlocks | src/notion_assistant/notion/updates.py:192-212 | the conversion of every descendant of the parsed document |
| Conversion.MarkdownToBlocks2 | src/notion_assistant/notion/updates.py:215-234 | the conversion of the top-level nodes only |
| Conversion.ConvertedBlocks | src/notion_assistant/notion/updates.py:196-210 | succeeds exactly when every recognised image has `src`; then the output is one divider followed by exactly one block per recognised tag, in document order, each built by the constructor the dispatch chose |
| Conversion.NothingRecognised | src/notion_assistant/notion/updates.py:196 | with no recognised tag the output is the divider alone |
| Conversion.ListItems | src/notion_assistant/notion/updates.py:199-203 | an `li` under `ol` becomes a numbered item, any other `li` a bulleted item; strings never produce a block |
| Conversion.BlocksConcat | src/notion_assistant/notion/updates.py:197-210 | converting a concatenation concatenates the blocks, the first failure winning |
| Conversion.TextNodesAddNothing | src/notion_assistant/notion/updates.py:198 | string nodes add no blocks |
| Conversion.StringsInBetween | src/notion_assistant/notion/updates.py:198 | strings between other nodes change nothing |
| Conversion.ShallowDocumentsAgree | src/notion_assistant/notion/updates.py:215-234 | on a document whose elements hold only text, both converters give the same blocks |
| Conversion.BlocksSnoc | src/notion_assistant/notion/updates.py:206-210 | one more node appends its block, if any, after the others |
| Conversion.SkipText | src/notion_assistant/notion/updates.py:198 | a trailing string adds nothing |
| Conversion.AddTag | src/notion_assistant/notion/updates.py:206-210 | a recognised tag whose block builds adds that block at the end |
| Conversion.DescendantsCons | src/notion_assistant/notion/updates.py:197 | the descendants of a node list are the first node, everything below it, then the rest's descendants |
| ConversionExamples.HeadingThenParagraph | src/notion_assistant/notion/updates.py:192-234 | `<h1>Title</h1>\n<p>Some text</p>` converts, with either converter, to a divider, a level-1 heading and a paragraph |
| ConversionExamples.OrderedListDiverges | src/notion_assistant/notion/updates.py:171-179 | for an ordered list the descendants walk gives a numbered item for the `ol` (carrying the whole list's text, `"\na\nb\n"` for `<ol>\n<li>a</li>\n<li>b</li>\n</ol>`) and one per `li`; the top-level walk gives only the `ol` item |
| ConversionExamples.TwoTags | src/notion_assistant/notion/updates.py:206-210 | two recognised tags give their two blocks in order |
| ConversionExamples.ListOfTwoItems | src/notion_assistant/notion/updates.py:197-210 | the newline strings python-markdown puts around list items add nothing; the three tags give their three blocks in order |
| Mutations.Api.AppendChildren | src/notion_assistant/notion/updates.py:240-242 | records one append request and puts the blocks after the block's existing children |
| Mutations.Api.RetrievePage | src/notion_assistant/notion/updates.py:243 | records one retrieve request and changes no children |
| Mutations.Api.UpdatePage | src/notion_assistant/notion/updates.py:258 | records one update request carrying the properties and changes no children |
| Mutations.Chunks | src/notion_assistant/notion/updates.py:239-242 | the 90-block batches; stated by Mutations.ChunkSizes, Mutations.ChunkAt and Mutations.ChunksFlatten |
| Mutations.ChunkSizes | src/notion_assistant/notion/updates.py:239-242 | there are ceil(n/90) batches, none empty or longer than 90, all but the last exactly 90 |
| Mutations.ChunkAt | src/notion_assistant/notion/updates.py:241 | batch k is `blocks[90k : 90k + 90]` |
| Mutations.ChunksFlatten | src/notion_assistant/notion/updates.py:239-242 | the batches, concatenated in call order, are the input list |
| Mutations.ChunkCount | src/notion_assistant/notion/updates.py:239 | there is a batch k exactly when offset 90k is inside the list |
| Mutations.AppendStep | src/notion_assistant/notion/updates.py:239-242 | loop step k sends batch k after the earlier batches |
| Mutations.AfterAppendTwice | src/notion_assistant/notion/updates.py:240-242 | appending twice under one block appends the concatenation |
| Mutations.AppendBlocksToPage | src/notion_assistant/notion/updates.py:237-243 | sends one append request per batch, in order, then one retrieve request; the page's children gain all the blocks in order |
| Mutations.AfterAppendFrame | src/notion_assistant/notion/updates.py:240-242 | only the page's children change, by the appended blocks; every other block keeps its children |
| Mutations.AppendedBatches | src/notion_assistant/notion/updates.py:239-242 | every block is sent exactly once, in order, each request holding 1 to 90 blocks, all but the last exactly 90 |
| Mutations.SetProp | src/notion_assistant/notion/updates.py:272 | after replacing a property the page reads the new property, keeps its keys and its id |
| Mutations.SetPropFrame | src/notion_assistant/notion/updates.py:256 | changing one property leaves every other property and every other page key as it was |
| Mutations.SetPropTwice | src/notion_assistant/notion/updates.py:256 | replacing a property twice keeps only the second value |
| Mutations.FirstUnresolved | src/notion_assistant/notion/updates.py:252-255 | the position where the loop raises ValueError: every earlier stripped title has an id, this one has none |
| Mutations.RefItems | src/notion_assistant/notion/updates.py:256 | one `{"id": …}` entry per title, in title order, with that title's id |
| Mutations.WithRelation | src/notion_assistant/notion/updates.py:256 | the property now holds the given relation list and keeps its other keys |
| Mutations.AppendedPropStep | src/notion_assistant/notion/updates.py:256 | appending one more entry extends the relation by that title's entry |
| Mutations.RefsExitUnresolved | src/notion_assistant/notion/updates.py:254-255 | when the loop reaches a title without id it raises ValueError, keeping the entries appended before it and sending nothing |
| Mutations.RefsExitNoRelation | src/notion_assistant/notion/updates.py:256 | a property without a relation list fails at the first append and sends nothing |
| Mutations.RefsExitNoId | src/notion_assistant/notion/updates.py:257 | a page without `id` fails after the first append and sends nothing |
| Mutations.RefsExitDone | src/notion_assistant/notion/updates.py:258 | when every title resolves, one update request sends the extended property |
| Mutations.RefsStep | src/notion_assistant/notion/updates.py:252-257 | one loop iteration extends the shared property by one entry |
| Mutations.RefsUpdate | src/notion_assistant/notion/updates.py:246-260 | the relation update without its loop: it succeeds exactly when it sends one request, sends nothing when it raises, and the request carries only the named property |
| Mutations.UpdateRefsProperty | src/notion_assistant/notion/updates.py:246-260 | the page, the requests sent and the outcome are those of the relation update; block children are untouched |
| Mutations.RefsUpdateSucceeds | src/notion_assistant/notion/updates.py:250-258 | returns normally exactly when the property exists, the page has an id, every stripped title has an id and, if there is a title, the property holds a relation list |
| Mutations.RefsUpdateAppends | src/notion_assistant/notion/updates.py:252-258 | on success the relation keeps its old entries and gains one `{"id": …}` per title, in title order, and exactly one update request carries the new property |
| Mutations.RefsUpdateValueError | src/notion_assistant/notion/updates.py:253-255 | ValueError exactly when some title has no id and the loop reaches it: at once if it is the first, otherwise only when earlier appends went through |
| Mutations.RefsUpdateFrame | src/notion_assistant/notion/updates.py:250-260 | only the named property's relation changes; a request is sent exactly when the update succeeds, and at most one |
| Mutations.Ticked | src/notion_assistant/notion/updates.py:272 | the checkbox becomes true and every other key of the property is kept |
| Mutations.MentionsAnalysis | src/notion_assistant/notion/updates.py:267-268 | the text mentions both phrases, ignoring case; stated by Mutations.MentionsIgnoresCase |
| Mutations.AnalysisUpdate | src/notion_assistant/notion/updates.py:263-279 | the checkbox update without side effects: at most one request, sent only on success and carrying only `is_ai_analyzed`; nothing changes unless the text mentions the analysis |
| Mutations.UpdateIsAiAnalysisDoneProperty | src/notion_assistant/notion/updates.py:263-279 | the page, the requests sent and the outcome are those of the checkbox update; block children are untouched |
| Mutations.MentionsIgnoresCase | src/notion_assistant/notion/updates.py:267-268 | the mention check gives the same answer on the lowered text, so case is ignored |
| Mutations.AnalysisOnlyTicks | src/notion_assistant/notion/updates.py:266-277 | without both mentions nothing changes and nothing is sent; any change sets the checkbox to true, never false, and no other property changes |
| Mutations.AnalysisSends | src/notion_assistant/notion/updates.py:266-277 | one update request is sent exactly when the text mentions both phrases and the page has the property as a dict and an id |
| Mutations.AnalysisIdempotent | src/notion_assistant/notion/updates.py:271-272 | running the update on the page it produced leaves that page as it is |
| Batches.FlattenSnoc | src/notion_assistant/notion/reads.py:46-52 | one more batch appends its elements after all earlier ones |
| Batches.Flatten | src/notion_assistant/notion/reads.py:44-52 | the generator over the batches, batch by batch; stated by Batches.FlattenAt and Batches.FlattenBag |
| Batches.FlattenConcat | src/notion_assistant/notion/reads.py:46-52 | flattening a concatenation of batch lists concatenates the results |
| Batches.FlattenAt | src/notion_assistant/notion/reads.py:29-41 | element i of batch k sits at position (size of earlier batches) + i: batch order, then in-batch order |
| Batches.FlattenBag | src/notion_assistant/notion/reads.py:44-52 | the flattened list holds exactly the batches' elements, none duplicated or dropped |
| Batches.FlattenSplit | src/notion_assistant/helpers.py:85-86 | where a nested loop stands: the batches before, the part of the current batch already seen, and the rest |
| Batches.Gather | src/notion_assistant/helpers.py:53-59 | a loop or comprehension that adds each element's output, the first exception ending it; stated by Batches.GatherConcat, Batches.GatherEach and Batches.GatherLength |
| Batches.GatherSnoc | src/notion_assistant/helpers.py:28-34 | one more element adds its output after the others, or raises |
| Batches.GatherConcat | src/notion_assistant/helpers.py:53-59 | gathering over a concatenation concatenates the outputs, the first exception winning |
| Batches.GatherErrPrefix | src/notion_assistant/helpers.py:22-45 | once an element raises, the whole loop raises the same exception |
| Batches.GatherLength | src/notion_assistant/helpers.py:28-45 | at most one output per element gives at most one output per input |
| Batches.GatherStep | src/notion_assistant/helpers.py:22-23 | one step of the nested batch loop adds the element's output or raises its exception for the whole loop |
| Batches.BatchDone | src/notion_assistant/helpers.py:22-23 | after the last element of batch b the loop stands at batch b + 1 |
| Batches.GatherEach | src/notion_assistant/notion/reads.py:110-115 | with one output per element, gathering succeeds exactly when every element does, with output i from element i |
| Helpers.NamedPage | src/notion_assistant/helpers.py:28-34 | succeeds exactly when the page has `url`, `id` and a `Name` title with a first span, giving `Page(url, id, text)` with the id unchanged |
| Helpers.PageFromRecord | src/notion_assistant/helpers.py:24-45 | a `Name`-titled page gives that page; otherwise a page whose `Title` has text gives a page with dashes removed from the id and the `Title` text; a missing or falsy `Title` gives nothing; at most one page per record |
| Helpers.GetAllPagesForDatabase | src/notion_assistant/helpers.py:19-46 | the nested loop returns the per-record pages over the batches, in batch then in-batch order, or the first exception that escapes |
| Helpers.PagesAtMostOnePerRecord | src/notion_assistant/helpers.py:28-45 | never more pages than records |
| Helpers.PagesAllNamed | src/notion_assistant/helpers.py:28-34 | when every record has a `Name` title the pages are exactly the records, in order, with ids unchanged |
| Helpers.SpanTexts | src/notion_assistant/helpers.py:58 | the texts of a paragraph's spans are its strings, in order |
| Helpers.StringsOf | src/notion_assistant/helpers.py:60 | the texts are strings exactly when every one is, and then one string per text, in order |
| Helpers.JoinTexts | src/notion_assistant/helpers.py:60 | `"\n\n".join` succeeds exactly when every text is a string, raises TypeError otherwise, is empty for no texts and otherwise as long as the texts plus one blank line between each two |
| Helpers.GetAllPageContentAsText | src/notion_assistant/helpers.py:49-62 | the first exception a block raises, TypeError for a non-string span text, the empty string for a page without paragraph text, and succeeds exactly when the texts are strings |
| Helpers.StringsOfConcat | src/notion_assistant/helpers.py:53-60 | the texts of two runs of blocks are strings exactly when both runs' are, and then the first run's followed by the second's |
| Helpers.ContentAppendsParagraph | src/notion_assistant/helpers.py:53-60 | one more paragraph keeps an earlier failure, and otherwise adds its span texts after the earlier text, separated by a blank line when both are non-empty |
| Helpers.ContentConcat | src/notion_assistant/helpers.py:52-60 | two runs of batches read as the first failure, the first run's looked at first, or as the two texts joined by a blank line |
| Helpers.ContentOfParagraph | src/notion_assistant/helpers.py:49-62 | one paragraph reads as its span texts joined by a blank line |
| Helpers.ContentSkipsOtherBlocks | src/notion_assistant/helpers.py:57 | a block that is not a paragraph with `rich_text` adds nothing to the text |
| Helpers.ContentRejectsSpanWithoutText | src/notion_assistant/helpers.py:54 | a span without `plain_text` raises KeyError |
| Helpers.Classify | src/notion_assistant/helpers.py:87-97 | a database with an id and a first title span is titled, id unchanged; one with a string id and a missing or empty title is faulty, with dashes removed and title None, exactly when the rename helper returns a truthy id, and dropped otherwise; a missing id raises KeyError |
| Helpers.Classifier | src/notion_assistant/helpers.py:87-97 | the loop body for one database as a one-verdict output; stated by Helpers.VerdictsAt |
| Helpers.Partition | src/notion_assistant/helpers.py:80-98 | both collections, or the first exception; together they never hold more databases than were fetched |
| Helpers.GetAllDatabaseIds | src/notion_assistant/helpers.py:80-98 | the nested loop returns the partition of the flattened batches: titled and faulty collections in input order, or the first exception that escapes |
| Helpers.VerdictSnoc | src/notion_assistant/helpers.py:88-97 | each database is appended to the end of its own collection only, so both keep input order |
| Helpers.VerdictsAt | src/notion_assistant/helpers.py:85-97 | the loop succeeds exactly when every database is classified, and verdict i is database i's |
| Helpers.VerdictCounts | src/notion_assistant/helpers.py:87-97 | every database is exactly one of titled, faulty and dropped |
| Helpers.PartitionSizes | src/notion_assistant/helpers.py:85-97 | the two collections together hold every database that was not dropped, each at most once |
| Helpers.NothingDropped | src/notion_assistant/helpers.py:94-97 | a rename helper that always succeeds drops nothing |
| Helpers.FuzzyMatches | src/notion_assistant/helpers.py:103-107 | the comprehension succeeds exactly when every title is a string, and keeps exactly the accurate databases in input order |
| Helpers.FilterDatabaseOnName | src/notion_assistant/helpers.py:101-109 | a returned database is one of the inputs, with a string title that scores above 90; the only exceptions are AttributeError and IndexError |
| Helpers.FilterReturnsFirstAccurate | src/notion_assistant/helpers.py:101-109 | returns normally exactly when all titles are strings and some score is above 90, and then returns the first such database in input order (reads.py's `filter_database_on_name`, lines 82-90, is the same comprehension) |
| Helpers.FilterErrors | src/notion_assistant/helpers.py:106-109 | a non-string title (a faulty database's None) raises AttributeError; no score above 90 raises IndexError |
| Reads.GetAllDatabaseIds | src/notion_assistant/notion/reads.py:60-79 | the partition with every faulty database kept: the two collections' lengths add up to the number fetched |
| Reads.KeepFaultySizes | src/notion_assistant/notion/reads.py:73-78 | with every faulty database kept, the two collections together hold exactly as many databases as were fetched |
| Reads.UntitledIsFaulty | src/notion_assistant/notion/reads.py:73-78 | a database with a string id and no title is faulty with dashes removed from its id and title None, with no rename condition |
| Reads.RawRow | src/notion_assistant/notion/reads.py:110-113 | a page gives one row, exactly when it has `id` and `url`, holding both and the whole record |
| Reads.NameTitle | src/notion_assistant/notion/reads.py:117 | `["properties"]["Name"]["title"][0]["plain_text"]` succeeds exactly when `properties` is a dict with `Name` and that has a first title span |
| Reads.TitleMap | src/notion_assistant/notion/reads.py:116-119 | the dict comprehension over the rows; every key is hashable |
| Reads.GetRefTitleToIdMapping | src/notion_assistant/notion/reads.py:108-119 | the title-to-id map over the fetched batches; every key is hashable |
| Reads.TitleMapSnoc | src/notion_assistant/notion/reads.py:116-119 | one more row overwrites its title's entry with its id |
| Reads.TitleMapDefined | src/notion_assistant/notion/reads.py:116-119 | the map is built exactly when every row has a hashable first `Name` span |
| Reads.TitleMapHasRow | src/notion_assistant/notion/reads.py:116-119 | every row's title is a key |
| Reads.TitleMapKeyFromRow | src/notion_assistant/notion/reads.py:116-119 | every key is some row's title |
| Reads.TitleMapLastWins | src/notion_assistant/notion/reads.py:116-119 | a title maps to the id of the last row carrying it |
| Reads.RowsOfPages | src/notion_assistant/notion/reads.py:110-115 | every fetched page becomes one row with its id, its record and its url, in order; the rows are built exactly when every page has `id` and `url` |
| Reads.RefMapping | src/notion_assistant/notion/reads.py:108-119 | each page's first `Name` span maps to a page id, and to this page's id when no later page shares the title |
| Reads.RefMappingKeys | src/notion_assistant/notion/reads.py:116-119 | no key other than the fetched pages' titles |
| Reads.RefMappingDefined | src/notion_assistant/notion/reads.py:108-119 | the mapping is built exactly when every page has `id`, `url` and a hashable first `Name` span |

## Left out

- Every call into the Notion client (search, database queries and updates, page retrieval and update, block append and list), including `iterate_paginated_api`. Fetches become their result batches. Writes are recorded in `Mutations.Api`.
- Markdown rendering and BeautifulSoup parsing: the parsed tree (`Html.Dom`) is the converters' input. The `json.dumps`/`json.loads` round trip is left out because it is the identity on plain dicts, and the block JSON is built in its serialised form.
- `datetime.fromisoformat` and ISO-8601 parsing: the timestamp extractors return the rewritten string.
- Extractions.ExtractCreatedAt: returns the rewritten string rather than a datetime, so a malformed timestamp's ValueError is not modelled. The same holds for Extractions.ExtractLastUpdatedAt.
- The markdown export (`StringExporter`), which is network-backed. It is a parameter of the page-attribute extractors. reads.py's `get_all_page_content_as_text` is that exporter alone and is not modelled.
- pydantic validation of `NotionDbPage`, `ParaPage`, `AreaPage` and reads.py's `Database`: field types are not checked, so a ValidationError is never raised.
- Reads.GetAllDatabaseIds: does not reject a non-string id or title, which pydantic would refuse.
- `update_notion_database_with_parent_name`, which is I/O plus a clock read. It is a total parameter of `Helpers.Classify`, so its own exceptions and the database rename it performs are not modelled.
- Helpers.FilterDatabaseOnName: `fuzz.partial_ratio` is a parameter into 0..100, so the filter is proved for every scoring function and not for thefuzz's.
- PyStr.Lower: lower-cases ASCII letters only; Unicode case mapping is not modelled.
- PyStr.ParseInt: accepts surrounding whitespace, a sign and decimal digits; underscores and non-ASCII digits are not modelled.
- Iterating a non-empty dict or string where a list of spans is expected raises TypeError in the model, as `text["plain_text"]` would on a key or character. Which key comes first is not modelled.
- Python's equality of `True` and `1` as dict keys is not modelled: `JBool(true)` and `JNum(1.0)` are different keys.
- Mutations.UpdateRefsProperty: titles are strings, so `.strip()` on a non-string title (AttributeError) is not modelled.
- Mutations.AppendBlocksToPage: the page `pages.retrieve` returns is not modelled; the call is only recorded.
- Aliasing is modelled only for the property dict the two update functions mutate; `PageObject` holds the page as one value.
- `get_database_as_df` and `get_page_titles` (pandas), `tqdm`, `print` logging, the `pdb.set_trace()` call in `get_all_pages_for_database`, and `trigger_pipedream_for_pages` (an HTTP request and a sleep). The DataFrame in `get_ref_title_to_id_mapping` is the list of rows it holds.
- docs/conf.py (documentation configuration) and `__main__.py` (an empty command).
