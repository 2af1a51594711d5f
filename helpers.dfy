/** The list processing of src/notion_assistant/helpers.py, run over the
    records the paginated API already returned (a `seq<seq<Json>>` of result
    batches): collecting a database's pages, a page's paragraph text,
    partitioning the workspace's databases into titled and faulty ones, and
    picking a database by fuzzy name. */
module Helpers {

  import opened Wrappers
  import opened PyJson
  import PyStr
  import Batches
  import Extractions

  /** The namedtuples `Page(url, id, title)` and `Database(id, title)`; a
      faulty database's title is `JNull` (None). */
  datatype Page = Page(url: Json, id: Json, title: Json)
  datatype Database = Database(id: Json, title: Json)

  // ---------------------------------------------------------------------
  // get_all_pages_for_database

  /** A page record with `url`, `id` and a `Name` title with a first span. */
  predicate Named(page: Json) {
    && page.JObj? && "url" in page.fields && "id" in page.fields
    && Extractions.HasProps(page) && "Name" in Extractions.PropsOf(page)
    && Extractions.HasTitleText(Extractions.PropsOf(page)["Name"])
  }

  /** The `try` body: url, id and the `Name` title's first `plain_text`. */
  function NamedPage(page: Json): (r: Result<Page>)
    ensures r.Ok? <==> Named(page)
    ensures r.Ok? ==> r.value == Page(page.fields["url"], page.fields["id"],
                                      Extractions.TitleTextOf(Extractions.PropsOf(page)["Name"]))
  {
    var url :- Index(page, "url");
    var id :- Index(page, "id");
    var props :- Index(page, "properties");
    var name :- Index(props, "Name");
    var title :- Extractions.FirstTitleText(name);
    Ok(Page(url, id, title))
  }

  /** The `except (IndexError, KeyError)` handler: the id with its dashes
      removed, then the `Title` property if it is truthy, else nothing. */
  function TitlePage(page: Json): Result<seq<Page>>
  {
    var id :- Index(page, "id");
    var stripped :- RemoveDashes(id);
    var props :- Index(page, "properties");
    var m :- AsDict(props);
    var titleProp := Lookup(m, "Title", JNull);
    if !Truthy(titleProp) then Ok([])
    else
      var url :- Index(page, "url");
      var title :- Extractions.FirstTitleText(titleProp);
      Ok([Page(url, JStr(stripped), title)])
  }

  /** The `Name` title is missing or has no first span: the `try` raises
      KeyError or IndexError. */
  predicate NameMissing(props: map<string, Json>) {
    || "Name" !in props
    || (props["Name"].JObj? && "title" !in props["Name"].fields)
    || (props["Name"].JObj? && "title" in props["Name"].fields && props["Name"].fields["title"] == JArr([]))
  }

  /** A page record whose `Name` title is missing but that is otherwise
      well-formed enough for the handler. */
  predicate Fallback(page: Json) {
    && page.JObj? && "url" in page.fields && "id" in page.fields && page.fields["id"].JStr?
    && Extractions.HasProps(page) && NameMissing(Extractions.PropsOf(page))
  }

  /** What one page record adds to `page_collection`: a `Name`-titled page
      as it is; otherwise, when `Title` is truthy, a page with the dashes
      removed from its id and the `Title` text; otherwise nothing. */
  function PageFromRecord(page: Json): (r: Result<seq<Page>>)
    ensures r.Ok? ==> |r.value| <= 1
    ensures Named(page) ==> r == Ok([Page(page.fields["url"], page.fields["id"],
                                           Extractions.TitleTextOf(Extractions.PropsOf(page)["Name"]))])
    ensures Fallback(page) && "Title" in Extractions.PropsOf(page)
            && Extractions.HasTitleText(Extractions.PropsOf(page)["Title"]) ==>
              r == Ok([Page(page.fields["url"], JStr(PyStr.RemoveDashes(page.fields["id"].s)),
                            Extractions.TitleTextOf(Extractions.PropsOf(page)["Title"]))])
    ensures Fallback(page) && Extractions.Missing(Extractions.PropsOf(page), "Title") ==> r == Ok([])
    ensures r.Ok? && r.value != [] && !Named(page) ==>
              r.value[0].id.JStr? && '-' !in r.value[0].id.s
    ensures !page.JObj? ==> r == Err(TypeError)
  {
    match NamedPage(page)
    case Ok(p) => Ok([p])
    case Err(e) => if e == KeyError || e == IndexError then TitlePage(page) else Err(e)
  }

  /** get_all_pages_for_database over the fetched batches. */
  method GetAllPagesForDatabase(batches: seq<seq<Json>>) returns (r: Result<seq<Page>>)
    ensures r == Batches.Gather(PageFromRecord, Batches.Flatten(batches))
  {
    var pageCollection: seq<Page> := [];
    var b := 0;
    while b < |batches|
      invariant 0 <= b <= |batches|
      invariant Batches.Gather(PageFromRecord, Batches.Flatten(batches[..b])) == Ok(pageCollection)
    {
      var block := batches[b];
      var j := 0;
      assert Batches.Flatten(batches[..b]) + block[..j] == Batches.Flatten(batches[..b]);
      while j < |block|
        invariant 0 <= j <= |block|
        invariant Batches.Gather(PageFromRecord, Batches.Flatten(batches[..b]) + block[..j]) == Ok(pageCollection)
      {
        var page := block[j];
        Batches.GatherStep(PageFromRecord, batches, b, j, pageCollection);
        var added := PageFromRecord(page);
        if added.Err? {
          return Err(added.error);
        }
        pageCollection := pageCollection + added.value;
        j := j + 1;
      }
      Batches.BatchDone(batches, b);
      b := b + 1;
    }
    assert batches[..b] == batches;
    r := Ok(pageCollection);
  }

  /** Each record contributes at most one page. */
  lemma PagesAtMostOnePerRecord(records: seq<Json>)
    requires Batches.Gather(PageFromRecord, records).Ok?
    ensures |Batches.Gather(PageFromRecord, records).value| <= |records|
  {
    Batches.GatherLength(PageFromRecord, records);
  }

  /** When every record has a `Name` title, the pages are exactly the
      records', in order, with their ids unchanged. */
  lemma {:induction false} PagesAllNamed(records: seq<Json>)
    requires forall i :: 0 <= i < |records| ==> Named(records[i])
    ensures Batches.Gather(PageFromRecord, records).Ok?
    ensures |Batches.Gather(PageFromRecord, records).value| == |records|
    ensures forall i :: 0 <= i < |records| ==>
              Batches.Gather(PageFromRecord, records).value[i] == NamedPage(records[i]).value
  {
    if records != [] {
      var init := records[..|records| - 1];
      var last := records[|records| - 1];
      PagesAllNamed(init);
      assert records == init + [last];
      Batches.GatherSnoc(PageFromRecord, init, last);
    }
  }

  // ---------------------------------------------------------------------
  // get_all_page_content_as_text

  /** `for text in j`: a list's items; an empty dict or string yields
      nothing, a non-empty one yields keys or characters on which
      `text["plain_text"]` raises TypeError; anything else is not iterable. */
  function Spans(j: Json): Result<seq<Json>> {
    match j
    case JArr(a) => Ok(a)
    case JObj(m) => if m == map[] then Ok([]) else Err(TypeError)
    case JStr(s) => if s == "" then Ok([]) else Err(TypeError)
    case _ => Err(TypeError)
  }

  /** `text["plain_text"]` for one span. */
  function PlainText(span: Json): Result<seq<Json>> {
    var t :- Index(span, "plain_text");
    Ok([t])
  }

  /** The `plain_text` of every span of one block, when it is a paragraph
      with `rich_text`; nothing for any other block. */
  function BlockTexts(block: Json): Result<seq<Json>> {
    var isParagraph :- HasKey(block, "paragraph");
    if !isParagraph then Ok([])
    else
      var paragraph :- Index(block, "paragraph");
      var hasRichText :- HasKey(paragraph, "rich_text");
      if !hasRichText then Ok([])
      else
        var richText :- Index(paragraph, "rich_text");
        var spans :- Spans(richText);
        Batches.Gather(PlainText, spans)
  }

  /** The strings of `texts`, or None when one of them is not a string. */
  function StringsOf(texts: seq<Json>): (r: Option<seq<string>>)
    ensures r.Some? <==> forall i :: 0 <= i < |texts| ==> texts[i].JStr?
    ensures r.Some? ==> |r.value| == |texts| && forall i :: 0 <= i < |texts| ==> r.value[i] == texts[i].s
  {
    if texts == [] then Some([])
    else
      match StringsOf(texts[..|texts| - 1])
      case None => None
      case Some(before) =>
        if texts[|texts| - 1].JStr? then Some(before + [texts[|texts| - 1].s]) else None
  }

  const Separator := "\n\n"

  /** `"\n\n".join(texts)`, which raises TypeError on a non-string: the
      result holds every text and one blank line between each two. */
  function JoinTexts(texts: seq<Json>): (r: Result<string>)
    ensures r.Ok? <==> forall i :: 0 <= i < |texts| ==> texts[i].JStr?
    ensures r.Err? ==> r.error == TypeError
    ensures r.Ok? && texts == [] ==> r.value == ""
    ensures r.Ok? && texts != [] ==>
              |r.value| == PyStr.TotalLength(StringsOf(texts).value) + |Separator| * (|texts| - 1)
  {
    match StringsOf(texts)
    case None => Err(TypeError)
    case Some(ss) =>
      if ss == [] then Ok(PyStr.Join(Separator, ss))
      else PyStr.JoinLength(Separator, ss); Ok(PyStr.Join(Separator, ss))
  }

  /** get_all_page_content_as_text over the fetched batches of child
      blocks: the first exception of a block, TypeError when a span's text
      is not a string, and otherwise the texts joined by blank lines. */
  function GetAllPageContentAsText(batches: seq<seq<Json>>): (r: Result<string>)
    ensures var g := Batches.Gather(BlockTexts, Batches.Flatten(batches));
            && (g.Err? ==> r == Err(g.error))
            && (g.Ok? ==> (r.Ok? <==> StringsOf(g.value).Some?))
            && (g.Ok? && StringsOf(g.value).None? ==> r == Err(TypeError))
            && (g.Ok? && g.value == [] ==> r == Ok(""))
  {
    var texts :- Batches.Gather(BlockTexts, Batches.Flatten(batches));
    JoinTexts(texts)
  }

  /** Two strings lists read as one when both are all strings, and the
      concatenation fails when either does. */
  lemma StringsOfConcat(a: seq<Json>, b: seq<Json>)
    ensures StringsOf(a + b) ==
              if StringsOf(a).Some? && StringsOf(b).Some? then Some(StringsOf(a).value + StringsOf(b).value)
              else None
  {
    if StringsOf(a).Some? && StringsOf(b).Some? {
      assert forall i :: 0 <= i < |a + b| ==> (a + b)[i].JStr? by {
        forall i | 0 <= i < |a + b| ensures (a + b)[i].JStr? {
          if i >= |a| { assert (a + b)[i] == b[i - |a|]; }
        }
      }
      var ab := StringsOf(a).value + StringsOf(b).value;
      assert StringsOf(a + b).value == ab;
    } else if StringsOf(a).None? {
      var i :| 0 <= i < |a| && !a[i].JStr?;
      assert (a + b)[i] == a[i];
    } else {
      var i :| 0 <= i < |b| && !b[i].JStr?;
      assert (a + b)[|a| + i] == b[i];
    }
  }

  /** One span per string, as the Notion API sends a paragraph's text. */
  function SpansOf(ts: seq<string>): seq<Json> {
    if ts == [] then []
    else SpansOf(ts[..|ts| - 1]) + [JObj(map["plain_text" := JStr(ts[|ts| - 1])])]
  }

  function ParagraphOf(ts: seq<string>): Json {
    JObj(map["paragraph" := JObj(map["rich_text" := JArr(SpansOf(ts))])])
  }

  lemma {:induction false} SpanTexts(ts: seq<string>)
    ensures Batches.Gather(PlainText, SpansOf(ts)).Ok?
    ensures StringsOf(Batches.Gather(PlainText, SpansOf(ts)).value) == Some(ts)
  {
    if ts != [] {
      var init := ts[..|ts| - 1];
      var span := JObj(map["plain_text" := JStr(ts[|ts| - 1])]);
      SpanTexts(init);
      Batches.GatherSnoc(PlainText, SpansOf(init), span);
      var before := Batches.Gather(PlainText, SpansOf(init)).value;
      assert (before + [JStr(ts[|ts| - 1])])[..|before|] == before;
      assert init + [ts[|ts| - 1]] == ts;
    }
  }

  /** A page holding one paragraph reads as its spans' texts joined by a
      blank line. */
  lemma ContentOfParagraph(ts: seq<string>)
    ensures GetAllPageContentAsText([[ParagraphOf(ts)]]) == Ok(PyStr.Join(Separator, ts))
  {
    var p := ParagraphOf(ts);
    SpanTexts(ts);
    assert Batches.Flatten([[p]]) == [p] by {
      assert [[p]][..0] == [];
    }
    Batches.GatherSnoc(BlockTexts, [], p);
    assert [] + [p] == [p];
    var texts := Batches.Gather(PlainText, SpansOf(ts)).value;
    assert BlockTexts(p) == Ok(texts);
    assert [] + texts == texts;
  }

  /** Reading one more paragraph after the blocks read so far: an earlier
      failure stands, otherwise its spans' texts join the earlier texts, one
      blank line after what the earlier blocks gave. */
  lemma ContentAppendsParagraph(batches: seq<seq<Json>>, ts: seq<string>)
    ensures var g := Batches.Gather(BlockTexts, Batches.Flatten(batches));
            var r := GetAllPageContentAsText(batches + [[ParagraphOf(ts)]]);
            && (GetAllPageContentAsText(batches).Err? ==> r == GetAllPageContentAsText(batches))
            && (GetAllPageContentAsText(batches).Ok? ==> r == Ok(PyStr.Join(Separator, StringsOf(g.value).value + ts)))
            && (GetAllPageContentAsText(batches).Ok? && g.value == [] ==> r == Ok(PyStr.Join(Separator, ts)))
            && (GetAllPageContentAsText(batches).Ok? && g.value != [] && ts != [] ==>
                  r == Ok(GetAllPageContentAsText(batches).value + Separator + PyStr.Join(Separator, ts)))
  {
    var p := ParagraphOf(ts);
    var g := Batches.Gather(BlockTexts, Batches.Flatten(batches));
    Batches.FlattenSnoc(batches, [p]);
    Batches.GatherSnoc(BlockTexts, Batches.Flatten(batches), p);
    SpanTexts(ts);
    var texts := Batches.Gather(PlainText, SpansOf(ts)).value;
    assert BlockTexts(p) == Ok(texts);
    if g.Ok? {
      StringsOfConcat(g.value, texts);
      if StringsOf(g.value).Some? {
        var before := StringsOf(g.value).value;
        if g.value == [] {
          assert before + ts == ts;
        } else if ts != [] {
          PyStr.JoinConcat(Separator, before, ts);
        }
      }
    }
  }

  /** The text of two runs of batches read one after the other: the first
      failure, looking at the first run first, or the two texts joined by a
      blank line. */
  lemma ContentConcat(a: seq<seq<Json>>, b: seq<seq<Json>>)
    ensures var ga := Batches.Gather(BlockTexts, Batches.Flatten(a));
            var gb := Batches.Gather(BlockTexts, Batches.Flatten(b));
            && (ga.Err? ==> GetAllPageContentAsText(a + b) == GetAllPageContentAsText(a))
            && (ga.Ok? && gb.Err? ==> GetAllPageContentAsText(a + b) == GetAllPageContentAsText(b))
            && (GetAllPageContentAsText(a).Ok? && GetAllPageContentAsText(b).Ok? && ga.value != [] && gb.value != [] ==>
                  GetAllPageContentAsText(a + b)
                  == Ok(GetAllPageContentAsText(a).value + Separator + GetAllPageContentAsText(b).value))
  {
    var ga := Batches.Gather(BlockTexts, Batches.Flatten(a));
    var gb := Batches.Gather(BlockTexts, Batches.Flatten(b));
    Batches.FlattenConcat(a, b);
    Batches.GatherConcat(BlockTexts, Batches.Flatten(a), Batches.Flatten(b));
    if ga.Ok? && gb.Ok? {
      StringsOfConcat(ga.value, gb.value);
      if StringsOf(ga.value).Some? && StringsOf(gb.value).Some? && ga.value != [] && gb.value != [] {
        PyStr.JoinConcat(Separator, StringsOf(ga.value).value, StringsOf(gb.value).value);
      }
    }
  }

  /** A block that is not a paragraph with `rich_text` adds nothing. */
  lemma ContentSkipsOtherBlocks(batches: seq<seq<Json>>, block: Json)
    requires block.JObj?
    requires "paragraph" !in block.fields
             || (block.fields["paragraph"].JObj? && "rich_text" !in block.fields["paragraph"].fields)
    ensures GetAllPageContentAsText(batches + [[block]]) == GetAllPageContentAsText(batches)
  {
    Batches.FlattenSnoc(batches, [block]);
    Batches.GatherSnoc(BlockTexts, Batches.Flatten(batches), block);
    assert BlockTexts(block) == Ok([]);
    var before := Batches.Gather(BlockTexts, Batches.Flatten(batches));
    if before.Ok? {
      assert before.value + [] == before.value;
    }
  }

  /** A span of a paragraph without `plain_text` raises KeyError, after
      every earlier block was read. */
  lemma ContentRejectsSpanWithoutText(batches: seq<seq<Json>>)
    requires Batches.Gather(BlockTexts, Batches.Flatten(batches)).Ok?
    ensures GetAllPageContentAsText(batches + [[JObj(map["paragraph" := JObj(map["rich_text" := JArr([EmptyObj])])])]])
            == Err(KeyError)
  {
    var block := JObj(map["paragraph" := JObj(map["rich_text" := JArr([EmptyObj])])]);
    Batches.FlattenSnoc(batches, [block]);
    Batches.GatherSnoc(BlockTexts, Batches.Flatten(batches), block);
    Batches.GatherSnoc(PlainText, [], EmptyObj);
    assert [] + [EmptyObj] == [EmptyObj];
  }

  // ---------------------------------------------------------------------
  // get_all_database_ids

  /** Where one database goes: the titled collection, the faulty one, or
      (when the rename helper returned a falsy value) neither. */
  datatype Verdict = Titled(db: Database) | Faulty(db: Database) | Dropped

  /** The `try` body: `Database(database["id"], database["title"][0]["plain_text"])`. */
  function TitledDatabase(database: Json): Result<Database> {
    var id :- Index(database, "id");
    var title :- Extractions.FirstTitleText(database);
    Ok(Database(id, title))
  }

  /** One database, with the rename helper's return value given by
      `parentRename`. */
  function Classify(database: Json, parentRename: Json -> Json): (r: Result<Verdict>)
    ensures database.JObj? && "id" in database.fields && Extractions.HasTitleText(database) ==>
              r == Ok(Titled(Database(database.fields["id"], Extractions.TitleTextOf(database))))
    ensures database.JObj? && "id" in database.fields && database.fields["id"].JStr?
            && ("title" !in database.fields || database.fields["title"] == JArr([])) ==>
              r == Ok(if Truthy(parentRename(database))
                      then Faulty(Database(JStr(PyStr.RemoveDashes(database.fields["id"].s)), JNull))
                      else Dropped)
    ensures database.JObj? && "id" !in database.fields ==> r == Err(KeyError)
    ensures r.Ok? && r.value.Titled? ==> database.JObj? && "id" in database.fields && r.value.db.id == database.fields["id"]
    ensures r.Ok? && r.value.Faulty? ==> r.value.db.title == JNull && r.value.db.id.JStr? && '-' !in r.value.db.id.s
    ensures r.Ok? && r.value.Faulty? ==> Truthy(parentRename(database))
  {
    match TitledDatabase(database)
    case Ok(d) => Ok(Titled(d))
    case Err(e) =>
      if e != KeyError && e != IndexError then Err(e)
      else
        var id :- Index(database, "id");
        var stripped :- RemoveDashes(id);
        Ok(if Truthy(parentRename(database)) then Faulty(Database(JStr(stripped), JNull)) else Dropped)
  }

  function Classifier(parentRename: Json -> Json): Json -> Result<seq<Verdict>> {
    database => (var v :- Classify(database, parentRename); Ok([v]))
  }

  /** The titled collection, in input order. */
  function TitledOf(vs: seq<Verdict>): seq<Database> {
    if vs == [] then []
    else TitledOf(vs[..|vs| - 1]) + (if vs[|vs| - 1].Titled? then [vs[|vs| - 1].db] else [])
  }

  /** The faulty collection, in input order. */
  function FaultyOf(vs: seq<Verdict>): seq<Database> {
    if vs == [] then []
    else FaultyOf(vs[..|vs| - 1]) + (if vs[|vs| - 1].Faulty? then [vs[|vs| - 1].db] else [])
  }

  function DroppedCount(vs: seq<Verdict>): nat {
    if vs == [] then 0
    else DroppedCount(vs[..|vs| - 1]) + (if vs[|vs| - 1].Dropped? then 1 else 0)
  }

  /** Both collections, or the first exception that escapes the loop. */
  function Partition(databases: seq<Json>, parentRename: Json -> Json): (r: Result<(seq<Database>, seq<Database>)>)
    ensures r.Ok? ==> |r.value.0| + |r.value.1| <= |databases|
  {
    VerdictsAt(databases, parentRename);
    var vs :- Batches.Gather(Classifier(parentRename), databases);
    VerdictCounts(vs);
    Ok((TitledOf(vs), FaultyOf(vs)))
  }

  /** get_all_database_ids over the fetched batches of search results. */
  method GetAllDatabaseIds(batches: seq<seq<Json>>, parentRename: Json -> Json)
    returns (r: Result<(seq<Database>, seq<Database>)>)
    ensures r == Partition(Batches.Flatten(batches), parentRename)
  {
    var databaseCollection: seq<Database> := [];
    var badDatabaseCollection: seq<Database> := [];
    ghost var vs: seq<Verdict> := [];
    var b := 0;
    while b < |batches|
      invariant 0 <= b <= |batches|
      invariant Batches.Gather(Classifier(parentRename), Batches.Flatten(batches[..b])) == Ok(vs)
      invariant databaseCollection == TitledOf(vs) && badDatabaseCollection == FaultyOf(vs)
    {
      var block := batches[b];
      var j := 0;
      assert Batches.Flatten(batches[..b]) + block[..j] == Batches.Flatten(batches[..b]);
      while j < |block|
        invariant 0 <= j <= |block|
        invariant Batches.Gather(Classifier(parentRename), Batches.Flatten(batches[..b]) + block[..j]) == Ok(vs)
        invariant databaseCollection == TitledOf(vs) && badDatabaseCollection == FaultyOf(vs)
      {
        var database := block[j];
        Batches.GatherStep(Classifier(parentRename), batches, b, j, vs);
        var verdict := Classify(database, parentRename);
        ClassifierApply(database, parentRename);
        if verdict.Err? {
          return Err(verdict.error);
        }
        VerdictSnoc(vs, verdict.value);
        if verdict.value.Titled? {
          databaseCollection := databaseCollection + [verdict.value.db];
        } else if verdict.value.Faulty? {
          badDatabaseCollection := badDatabaseCollection + [verdict.value.db];
        }
        vs := vs + [verdict.value];
        j := j + 1;
      }
      Batches.BatchDone(batches, b);
      b := b + 1;
    }
    assert batches[..b] == batches;
    r := Ok((databaseCollection, badDatabaseCollection));
  }

  lemma ClassifierApply(database: Json, parentRename: Json -> Json)
    ensures Classifier(parentRename)(database) ==
            (var v :- Classify(database, parentRename); Ok([v]))
  {
  }

  lemma VerdictSnoc(vs: seq<Verdict>, v: Verdict)
    ensures TitledOf(vs + [v]) == TitledOf(vs) + (if v.Titled? then [v.db] else [])
    ensures FaultyOf(vs + [v]) == FaultyOf(vs) + (if v.Faulty? then [v.db] else [])
  {
    assert (vs + [v])[..|vs|] == vs;
  }

  /** The loop succeeds exactly when every database is classified, and then
      database `i` gets verdict `i`. */
  lemma VerdictsAt(databases: seq<Json>, parentRename: Json -> Json)
    ensures Batches.Gather(Classifier(parentRename), databases).Ok? <==>
            forall i :: 0 <= i < |databases| ==> Classify(databases[i], parentRename).Ok?
    ensures Batches.Gather(Classifier(parentRename), databases).Ok? ==>
              && |Batches.Gather(Classifier(parentRename), databases).value| == |databases|
              && forall i :: 0 <= i < |databases| ==>
                   Classify(databases[i], parentRename) == Ok(Batches.Gather(Classifier(parentRename), databases).value[i])
  {
    forall d
      ensures Classifier(parentRename)(d).Ok? <==> Classify(d, parentRename).Ok?
      ensures Classifier(parentRename)(d).Ok? ==> Classifier(parentRename)(d).value == [Classify(d, parentRename).value]
    {
      ClassifierApply(d, parentRename);
    }
    Batches.GatherEach(Classifier(parentRename), databases);
  }

  /** Every verdict is exactly one of titled, faulty and dropped. */
  lemma {:induction false} VerdictCounts(vs: seq<Verdict>)
    ensures |TitledOf(vs)| + |FaultyOf(vs)| + DroppedCount(vs) == |vs|
  {
    if vs != [] {
      VerdictCounts(vs[..|vs| - 1]);
    }
  }

  /** Every database lands in at most one collection: the two together are
      no longer than the input. */
  lemma PartitionSizes(databases: seq<Json>, parentRename: Json -> Json)
    requires Partition(databases, parentRename).Ok?
    ensures |Partition(databases, parentRename).value.0| + |Partition(databases, parentRename).value.1|
            == |databases| - DroppedCount(Batches.Gather(Classifier(parentRename), databases).value)
  {
    VerdictsAt(databases, parentRename);
    VerdictCounts(Batches.Gather(Classifier(parentRename), databases).value);
  }

  /** A rename helper that always returns a truthy id drops nothing. */
  lemma {:induction false} NothingDropped(databases: seq<Json>, parentRename: Json -> Json)
    requires forall d :: Truthy(parentRename(d))
    requires Batches.Gather(Classifier(parentRename), databases).Ok?
    ensures DroppedCount(Batches.Gather(Classifier(parentRename), databases).value) == 0
  {
    var vs := Batches.Gather(Classifier(parentRename), databases).value;
    VerdictsAt(databases, parentRename);
    NoDroppedVerdicts(vs, databases, parentRename);
  }

  lemma {:induction false} NoDroppedVerdicts(vs: seq<Verdict>, databases: seq<Json>, parentRename: Json -> Json)
    requires forall d :: Truthy(parentRename(d))
    requires |vs| == |databases|
    requires forall i :: 0 <= i < |databases| ==> Classify(databases[i], parentRename) == Ok(vs[i])
    ensures DroppedCount(vs) == 0
  {
    if vs != [] {
      var n := |vs| - 1;
      assert Classify(databases[n], parentRename) == Ok(vs[n]);
      NoDroppedVerdicts(vs[..n], databases[..n], parentRename);
    }
  }

  // ---------------------------------------------------------------------
  // filter_database_on_name

  /** thefuzz's `partial_ratio` score, from 0 to 100. */
  type Percent = x: int | 0 <= x <= 100

  const Threshold := 90

  /** The database's title scores strictly above the threshold against the
      name, both lowercased. */
  predicate Accurate(database: Database, name: string, score: (string, string) -> Percent)
    requires database.title.JStr?
  {
    score(PyStr.Lower(database.title.s), PyStr.Lower(name)) > Threshold
  }

  /** One step of the `db_fuzz` comprehension; `.lower()` raises
      AttributeError on a title that is not a string (a faulty database's
      None). */
  function FuzzyMatch(database: Database, name: string, score: (string, string) -> Percent): Result<seq<Database>> {
    var title :- Lower(database.title);
    if score(title, PyStr.Lower(name)) > Threshold then Ok([database]) else Ok([])
  }

  function Matcher(name: string, score: (string, string) -> Percent): Database -> Result<seq<Database>> {
    database => FuzzyMatch(database, name, score)
  }

  /** filter_database_on_name: `db_fuzz[0]`. */
  function FilterDatabaseOnName(databases: seq<Database>, name: string, score: (string, string) -> Percent): (r: Result<Database>)
    ensures r.Ok? ==> r.value in databases && r.value.title.JStr? && Accurate(r.value, name, score)
    ensures r.Err? ==> r.error == AttributeError || r.error == IndexError
  {
    FuzzyMatches(databases, name, score);
    var dbFuzz :- Batches.Gather(Matcher(name, score), databases);
    if dbFuzz == [] then Err(IndexError) else Ok(dbFuzz[0])
  }

  predicate AllTitled(databases: seq<Database>) {
    forall i :: 0 <= i < |databases| ==> databases[i].title.JStr?
  }

  /** Database `i` is the first accurate one. */
  predicate FirstAccurate(databases: seq<Database>, name: string, score: (string, string) -> Percent, i: int)
    requires AllTitled(databases)
  {
    && 0 <= i < |databases| && Accurate(databases[i], name, score)
    && forall j :: 0 <= j < i ==> !Accurate(databases[j], name, score)
  }

  /** The comprehension: it succeeds exactly when every title is a string;
      its first element is the first accurate database, and it is empty
      exactly when none is accurate. */
  lemma {:induction false} FuzzyMatches(databases: seq<Database>, name: string, score: (string, string) -> Percent)
    ensures Batches.Gather(Matcher(name, score), databases).Ok? <==> AllTitled(databases)
    ensures Batches.Gather(Matcher(name, score), databases).Err? ==>
              Batches.Gather(Matcher(name, score), databases).error == AttributeError
    ensures AllTitled(databases) ==>
              (Batches.Gather(Matcher(name, score), databases).value == [] <==>
               forall i :: 0 <= i < |databases| ==> !Accurate(databases[i], name, score))
    ensures AllTitled(databases) && Batches.Gather(Matcher(name, score), databases).value != [] ==>
              exists i :: FirstAccurate(databases, name, score, i)
                          && Batches.Gather(Matcher(name, score), databases).value[0] == databases[i]
  {
    if databases != [] {
      var init := databases[..|databases| - 1];
      var last := databases[|databases| - 1];
      FuzzyMatches(init, name, score);
      assert databases == init + [last];
      Batches.GatherSnoc(Matcher(name, score), init, last);
      assert forall i :: 0 <= i < |init| ==> init[i] == databases[i];
      if AllTitled(databases) {
        assert AllTitled(init);
        var before := Batches.Gather(Matcher(name, score), init).value;
        if before != [] {
          var i :| FirstAccurate(init, name, score, i) && before[0] == init[i];
          assert FirstAccurate(databases, name, score, i);
        } else if Accurate(last, name, score) {
          assert FirstAccurate(databases, name, score, |databases| - 1);
        }
      }
    }
  }

  /** filter_database_on_name returns the first database, in input order,
      whose lowercased title scores above 90 against the lowercased name. */
  lemma FilterReturnsFirstAccurate(databases: seq<Database>, name: string, score: (string, string) -> Percent)
    ensures FilterDatabaseOnName(databases, name, score).Ok? <==>
              AllTitled(databases) && exists i :: 0 <= i < |databases| && Accurate(databases[i], name, score)
    ensures FilterDatabaseOnName(databases, name, score).Ok? ==>
              exists i :: FirstAccurate(databases, name, score, i)
                          && FilterDatabaseOnName(databases, name, score).value == databases[i]
  {
    FuzzyMatches(databases, name, score);
  }

  /** With every title a string and none accurate, `db_fuzz[0]` raises
      IndexError; a title that is not a string raises AttributeError
      first, wherever it sits. */
  lemma FilterErrors(databases: seq<Database>, name: string, score: (string, string) -> Percent)
    ensures !AllTitled(databases) ==> FilterDatabaseOnName(databases, name, score) == Err(AttributeError)
    ensures AllTitled(databases) && (forall i :: 0 <= i < |databases| ==> !Accurate(databases[i], name, score)) ==>
              FilterDatabaseOnName(databases, name, score) == Err(IndexError)
  {
    FuzzyMatches(databases, name, score);
  }
}
