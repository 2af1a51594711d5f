/** The list processing of src/notion_assistant/notion/reads.py over
    already-fetched result batches: the database partition without a rename
    step, and the map from a reference database's page titles to page ids.
    The fuzzy filter there is the same comprehension as in helpers.py
    (`Helpers.FilterDatabaseOnName`), and the two page generators are
    `Batches.Flatten`. */
module Reads {

  import opened Wrappers
  import opened PyJson
  import Batches
  import Extractions
  import Helpers

  // ---------------------------------------------------------------------
  // get_all_database_ids

  /** reads.py keeps every faulty database: it behaves as the helpers.py loop
      with a rename step that always reports success. */
  function KeepFaulty(database: Json): Json {
    JBool(true)
  }

  /** get_all_database_ids: every fetched database lands in exactly one of
      the two collections. */
  method GetAllDatabaseIds(batches: seq<seq<Json>>)
    returns (r: Result<(seq<Helpers.Database>, seq<Helpers.Database>)>)
    ensures r == Helpers.Partition(Batches.Flatten(batches), KeepFaulty)
    ensures r.Ok? ==> |r.value.0| + |r.value.1| == |Batches.Flatten(batches)|
  {
    r := Helpers.GetAllDatabaseIds(batches, KeepFaulty);
    if r.Ok? {
      KeepFaultySizes(Batches.Flatten(batches));
    }
  }

  /** With every faulty database kept, the two collections hold every
      database. */
  lemma KeepFaultySizes(databases: seq<Json>)
    requires Helpers.Partition(databases, KeepFaulty).Ok?
    ensures |Helpers.Partition(databases, KeepFaulty).value.0| + |Helpers.Partition(databases, KeepFaulty).value.1|
            == |databases|
  {
    assert Batches.Gather(Helpers.Classifier(KeepFaulty), databases).Ok?;
    assert forall d :: Truthy(KeepFaulty(d));
    Helpers.PartitionSizes(databases, KeepFaulty);
    Helpers.NothingDropped(databases, KeepFaulty);
  }

  /** Without a rename step, a database with an id but no title entry is
      faulty, with the dashes removed from its id and no title. */
  lemma UntitledIsFaulty(database: Json)
    requires database.JObj? && "id" in database.fields && database.fields["id"].JStr?
    requires "title" !in database.fields || database.fields["title"] == JArr([])
    ensures Helpers.Classify(database, KeepFaulty) ==
            Ok(Helpers.Faulty(Helpers.Database(JStr(PyStr.RemoveDashes(database.fields["id"].s)), JNull)))
  {
  }

  // ---------------------------------------------------------------------
  // get_ref_title_to_id_mapping

  /** The first pass, `extract_raw_page_attributes(data)` for one page. */
  function RawRow(data: Json): (r: Result<seq<Extractions.RawPage>>)
    ensures r.Ok? <==> data.JObj? && "id" in data.fields && "url" in data.fields
    ensures r.Ok? ==> r.value == [Extractions.RawPage(data.fields["id"], data, data.fields["url"])]
  {
    var row :- Extractions.ExtractRawPageAttributes(data);
    Ok([row])
  }

  /** `["properties"]["Name"]["title"][0]["plain_text"]` of a raw record. */
  function NameTitle(data: Json): (r: Result<Json>)
    ensures r.Ok? <==>
              && data.JObj? && "properties" in data.fields && data.fields["properties"].JObj?
              && "Name" in data.fields["properties"].fields
              && Extractions.FirstTitleText(data.fields["properties"].fields["Name"]).Ok?
    ensures r.Ok? ==> r == Extractions.FirstTitleText(data.fields["properties"].fields["Name"])
  {
    var props :- Index(data, "properties");
    var name :- Index(props, "Name");
    Extractions.FirstTitleText(name)
  }

  /** The dict comprehension over the rows: each row's title maps to its
      id; a later row overwrites an earlier one with the same title. A title
      that is a dict or a list is not hashable and raises TypeError. */
  function TitleMap(rows: seq<Extractions.RawPage>): (r: Result<map<Json, Json>>)
    ensures r.Ok? ==> forall k :: k in r.value ==> Hashable(k)
  {
    if rows == [] then Ok(map[])
    else
      var before :- TitleMap(rows[..|rows| - 1]);
      var row := rows[|rows| - 1];
      var key :- NameTitle(row.rawData);
      if !Hashable(key) then Err(TypeError) else Ok(before[key := row.id])
  }

  /** get_ref_title_to_id_mapping over the fetched batches of pages. */
  function GetRefTitleToIdMapping(batches: seq<seq<Json>>): (r: Result<map<Json, Json>>)
    ensures r.Ok? ==> forall k :: k in r.value ==> Hashable(k)
  {
    var rows :- Batches.Gather(RawRow, Batches.Flatten(batches));
    TitleMap(rows)
  }

  /** The title of row `i`. */
  function TitleOf(rows: seq<Extractions.RawPage>, i: int): Result<Json>
    requires 0 <= i < |rows|
  {
    NameTitle(rows[i].rawData)
  }

  /** No row after row `i` carries row `i`'s title. */
  predicate LastWithTitle(rows: seq<Extractions.RawPage>, i: int)
    requires 0 <= i < |rows|
  {
    forall j :: i < j < |rows| ==> TitleOf(rows, j) != TitleOf(rows, i)
  }

  /** One more row: the map so far, updated with that row's title. */
  lemma TitleMapSnoc(rows: seq<Extractions.RawPage>)
    requires rows != []
    ensures TitleMap(rows) ==
            (var before :- TitleMap(rows[..|rows| - 1]);
             var key :- TitleOf(rows, |rows| - 1);
             if !Hashable(key) then Err(TypeError) else Ok(before[key := rows[|rows| - 1].id]))
  {
  }

  /** The map is built exactly when every row has a hashable title. */
  lemma {:induction false} TitleMapDefined(rows: seq<Extractions.RawPage>)
    ensures TitleMap(rows).Ok? <==>
            forall i :: 0 <= i < |rows| ==> TitleOf(rows, i).Ok? && Hashable(TitleOf(rows, i).value)
  {
    if rows != [] {
      var n := |rows| - 1;
      TitleMapDefined(rows[..n]);
      TitleMapSnoc(rows);
      assert forall i :: 0 <= i < n ==> TitleOf(rows[..n], i) == TitleOf(rows, i);
      if forall i :: 0 <= i < |rows| ==> TitleOf(rows, i).Ok? && Hashable(TitleOf(rows, i).value) {
        assert TitleMap(rows[..n]).Ok?;
      }
    }
  }

  /** Every row's title is a key. */
  lemma {:induction false} TitleMapHasRow(rows: seq<Extractions.RawPage>, i: int)
    requires TitleMap(rows).Ok? && 0 <= i < |rows|
    ensures TitleOf(rows, i).Ok? && TitleOf(rows, i).value in TitleMap(rows).value
  {
    var n := |rows| - 1;
    TitleMapSnoc(rows);
    if i < n {
      TitleMapHasRow(rows[..n], i);
      assert TitleOf(rows[..n], i) == TitleOf(rows, i);
    }
  }

  /** Every key is some row's title. */
  lemma {:induction false} TitleMapKeyFromRow(rows: seq<Extractions.RawPage>, k: Json)
    requires TitleMap(rows).Ok? && k in TitleMap(rows).value
    ensures exists i :: 0 <= i < |rows| && TitleOf(rows, i) == Ok(k)
  {
    var n := |rows| - 1;
    TitleMapSnoc(rows);
    if TitleOf(rows, n) != Ok(k) {
      TitleMapKeyFromRow(rows[..n], k);
      var i :| 0 <= i < n && TitleOf(rows[..n], i) == Ok(k);
      assert TitleOf(rows, i) == Ok(k);
    }
  }

  /** A title maps to the id of the last row that carries it. */
  lemma {:induction false} TitleMapLastWins(rows: seq<Extractions.RawPage>, i: int)
    requires TitleMap(rows).Ok? && 0 <= i < |rows| && LastWithTitle(rows, i)
    ensures TitleOf(rows, i).Ok? && TitleOf(rows, i).value in TitleMap(rows).value
            && TitleMap(rows).value[TitleOf(rows, i).value] == rows[i].id
  {
    var n := |rows| - 1;
    var init := rows[..n];
    TitleMapSnoc(rows);
    if i < n {
      assert TitleOf(init, i) == TitleOf(rows, i);
      assert LastWithTitle(init, i) by {
        forall j | i < j < n
          ensures TitleOf(init, j) != TitleOf(init, i)
        {
          assert TitleOf(init, j) == TitleOf(rows, j);
        }
      }
      TitleMapLastWins(init, i);
      assert TitleOf(rows, n) != TitleOf(rows, i);
    }
  }

  /** Every fetched page becomes one row carrying its id and its record. */
  lemma RowsOfPages(pages: seq<Json>)
    ensures Batches.Gather(RawRow, pages).Ok? <==>
            forall i :: 0 <= i < |pages| ==> Extractions.ExtractRawPageAttributes(pages[i]).Ok?
    ensures Batches.Gather(RawRow, pages).Ok? ==>
              && |Batches.Gather(RawRow, pages).value| == |pages|
              && forall i :: 0 <= i < |pages| ==>
                   Batches.Gather(RawRow, pages).value[i] ==
                   Extractions.RawPage(pages[i].fields["id"], pages[i], pages[i].fields["url"])
  {
    Batches.GatherEach(RawRow, pages);
  }

  /** get_ref_title_to_id_mapping maps each page's first `Name` span to the
      page's id; of two pages with the same title the later one, in batch
      order then in-batch order, wins; no other key is present. */
  lemma RefMapping(batches: seq<seq<Json>>, i: int)
    requires GetRefTitleToIdMapping(batches).Ok?
    requires 0 <= i < |Batches.Flatten(batches)|
    ensures var page := Batches.Flatten(batches)[i];
            && page.JObj? && "id" in page.fields && NameTitle(page).Ok?
            && NameTitle(page).value in GetRefTitleToIdMapping(batches).value
    ensures var pages := Batches.Flatten(batches);
            (forall j :: i < j < |pages| ==> NameTitle(pages[j]) != NameTitle(pages[i])) ==>
              GetRefTitleToIdMapping(batches).value[NameTitle(pages[i]).value] == pages[i].fields["id"]
  {
    var pages := Batches.Flatten(batches);
    RowsOfPages(pages);
    var rows := Batches.Gather(RawRow, pages).value;
    TitleMapHasRow(rows, i);
    assert TitleOf(rows, i) == NameTitle(pages[i]);
    if forall j :: i < j < |pages| ==> NameTitle(pages[j]) != NameTitle(pages[i]) {
      assert LastWithTitle(rows, i) by {
        forall j | i < j < |rows|
          ensures TitleOf(rows, j) != TitleOf(rows, i)
        {
          assert TitleOf(rows, j) == NameTitle(pages[j]);
        }
      }
      TitleMapLastWins(rows, i);
    }
  }

  /** Every key of the map is the title of some fetched page. */
  lemma RefMappingKeys(batches: seq<seq<Json>>, k: Json)
    requires GetRefTitleToIdMapping(batches).Ok?
    requires k in GetRefTitleToIdMapping(batches).value
    ensures exists i :: 0 <= i < |Batches.Flatten(batches)| && NameTitle(Batches.Flatten(batches)[i]) == Ok(k)
  {
    var pages := Batches.Flatten(batches);
    RowsOfPages(pages);
    var rows := Batches.Gather(RawRow, pages).value;
    TitleMapKeyFromRow(rows, k);
    var i :| 0 <= i < |rows| && TitleOf(rows, i) == Ok(k);
    assert NameTitle(pages[i]) == Ok(k);
  }

  /** Every page has an id, a url and a hashable first `Name` span. */
  predicate AllMappable(pages: seq<Json>) {
    forall i :: 0 <= i < |pages| ==>
      && Extractions.ExtractRawPageAttributes(pages[i]).Ok?
      && NameTitle(pages[i]).Ok? && Hashable(NameTitle(pages[i]).value)
  }

  /** The mapping is built exactly when every fetched page has an id, a
      url and a hashable first `Name` span. */
  lemma RefMappingDefined(batches: seq<seq<Json>>)
    ensures GetRefTitleToIdMapping(batches).Ok? ==> AllMappable(Batches.Flatten(batches))
    ensures AllMappable(Batches.Flatten(batches)) ==> GetRefTitleToIdMapping(batches).Ok?
  {
    var pages := Batches.Flatten(batches);
    RowsOfPages(pages);
    if Batches.Gather(RawRow, pages).Ok? {
      var rows := Batches.Gather(RawRow, pages).value;
      TitleMapDefined(rows);
      assert GetRefTitleToIdMapping(batches) == TitleMap(rows);
      assert forall i :: 0 <= i < |pages| ==> TitleOf(rows, i) == NameTitle(pages[i]);
    } else {
      assert GetRefTitleToIdMapping(batches).Err?;
      var i :| 0 <= i < |pages| && !Extractions.ExtractRawPageAttributes(pages[i]).Ok?;
    }
  }
}
