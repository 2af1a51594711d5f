/** Attribute extraction from one fetched page record
    (src/notion_assistant/notion/extractions.py). Every extractor is a chain
    of dict lookups; `d[k]` raises on a missing key while `d.get(k, ...)`
    falls back to a default, so each extractor either returns a value
    (JNull for Python's None) or the exception the lookup chain raises. */
module Extractions {

  import opened Wrappers
  import opened PyJson
  import PyStr

  const RelatedProjectsKey := "Related to Projects Database (Related to Media Vault (Property))"

  /** The record is a dict with a `properties` dict. */
  predicate HasProps(data: Json) {
    data.JObj? && "properties" in data.fields && data.fields["properties"].JObj?
  }

  function PropsOf(data: Json): map<string, Json>
    requires HasProps(data)
  {
    data.fields["properties"].fields
  }

  /** `key` is absent from `m`, or present with a falsy value. */
  predicate Missing(m: map<string, Json>, key: string) {
    key !in m || !Truthy(m[key])
  }

  /** `key` is absent from `m`, or present as a dict. */
  predicate AbsentOrDict(m: map<string, Json>, key: string) {
    key !in m || m[key].JObj?
  }

  /** A rich-text property whose `title` list starts with a span that has
      `plain_text`. */
  predicate HasTitleText(prop: Json) {
    && prop.JObj? && "title" in prop.fields
    && prop.fields["title"].JArr? && |prop.fields["title"].items| > 0
    && prop.fields["title"].items[0].JObj?
    && "plain_text" in prop.fields["title"].items[0].fields
  }

  function TitleTextOf(prop: Json): Json
    requires HasTitleText(prop)
  {
    prop.fields["title"].items[0].fields["plain_text"]
  }

  /** `prop["title"][0]["plain_text"]`. */
  function FirstTitleText(prop: Json): (r: Result<Json>)
    ensures r.Ok? <==> HasTitleText(prop)
    ensures r.Ok? ==> r.value == TitleTextOf(prop)
    ensures prop.JObj? && "title" !in prop.fields ==> r == Err(KeyError)
    ensures prop.JObj? && "title" in prop.fields && prop.fields["title"] == JArr([]) ==> r == Err(IndexError)
  {
    var title :- Index(prop, "title");
    var first :- At(title, 0);
    Index(first, "plain_text")
  }

  /** extract_id: `data["id"]`. */
  function ExtractId(data: Json): (r: Result<Json>)
    ensures r.Ok? <==> data.JObj? && "id" in data.fields
    ensures r.Ok? ==> r.value == data.fields["id"]
    ensures data.JObj? && "id" !in data.fields ==> r == Err(KeyError)
  {
    Index(data, "id")
  }

  /** extract_url: `data["url"]`. */
  function ExtractUrl(data: Json): (r: Result<Json>)
    ensures r.Ok? <==> data.JObj? && "url" in data.fields
    ensures r.Ok? ==> r.value == data.fields["url"]
    ensures data.JObj? && "url" !in data.fields ==> r == Err(KeyError)
  {
    Index(data, "url")
  }

  /** extract_is_archived: `data["archived"]`. */
  function ExtractIsArchived(data: Json): (r: Result<Json>)
    ensures r.Ok? <==> data.JObj? && "archived" in data.fields
    ensures r.Ok? ==> r.value == data.fields["archived"]
  {
    Index(data, "archived")
  }

  /** extract_stars: the `name` of the `Future Value Rank` select, or None. */
  function ExtractStars(data: Json): (r: Result<Json>)
    ensures HasProps(data) && "Future Value Rank" !in PropsOf(data) ==> r == Ok(JNull)
    ensures HasProps(data) && "Future Value Rank" in PropsOf(data) ==>
      var rank := PropsOf(data)["Future Value Rank"];
      rank.JObj? ==>
        && (Missing(rank.fields, "select") ==> r == Ok(JNull))
        && ("select" in rank.fields && rank.fields["select"].JObj? && "name" in rank.fields["select"].fields ==>
              r == Ok(rank.fields["select"].fields["name"]))
    ensures !data.JObj? || "properties" !in data.fields ==> r.Err?
  {
    var props :- Index(data, "properties");
    var rank :- Get(props, "Future Value Rank", EmptyObj);
    var select :- Get(rank, "select", JNull);
    if Truthy(select) then Get(select, "name", JNull) else Ok(JNull)
  }

  /** `related[0].get("name") if related[0] else None` for a non-empty
      relation list. */
  function FirstRelationName(relation: Json): (r: Result<Json>)
    requires Truthy(relation)
    ensures relation.JArr? ==> (r.Ok? <==> !Truthy(relation.items[0]) || relation.items[0].JObj?)
    ensures relation.JArr? && r.Ok? && r.value != JNull ==>
              relation.items[0].JObj? && "name" in relation.items[0].fields && r.value == relation.items[0].fields["name"]
  {
    var first :- At(relation, 0);
    if Truthy(first) then Get(first, "name", JNull) else Ok(JNull)
  }

  /** The first related entry of `prop` has a `name`. */
  predicate HasRelationName(prop: Json) {
    && prop.JObj? && "relation" in prop.fields
    && prop.fields["relation"].JArr? && |prop.fields["relation"].items| > 0
    && prop.fields["relation"].items[0].JObj?
    && "name" in prop.fields["relation"].items[0].fields
  }

  function RelationNameOf(prop: Json): Json
    requires HasRelationName(prop)
  {
    prop.fields["relation"].items[0].fields["name"]
  }

  /** `prop` is absent, or a dict whose `relation` is absent, None or empty. */
  predicate NoRelation(m: map<string, Json>, key: string) {
    key !in m || (m[key].JObj? && Missing(m[key].fields, "relation"))
  }

  /** extract_project_name: the first entry of the related-projects relation
      when that relation is non-empty, otherwise the first entry of
      `Projects`, otherwise None. Both relations are read before either is
      used, so a malformed `Projects` fails the call either way. */
  function ExtractProjectName(data: Json): (r: Result<Json>)
    ensures HasProps(data) && AbsentOrDict(PropsOf(data), "Projects") ==>
      var props := PropsOf(data);
      && (RelatedProjectsKey in props && HasRelationName(props[RelatedProjectsKey]) ==>
            r == Ok(RelationNameOf(props[RelatedProjectsKey])))
      && (NoRelation(props, RelatedProjectsKey) && "Projects" in props && HasRelationName(props["Projects"]) ==>
            r == Ok(RelationNameOf(props["Projects"])))
      && (NoRelation(props, RelatedProjectsKey) && NoRelation(props, "Projects") ==> r == Ok(JNull))
  {
    var props :- Index(data, "properties");
    var m :- AsDict(props);
    var related :- Get(Lookup(m, RelatedProjectsKey, EmptyObj), "relation", JNull);
    var projects :- Get(Lookup(m, "Projects", EmptyObj), "relation", JNull);
    if Truthy(related) then FirstRelationName(related)
    else if Truthy(projects) then FirstRelationName(projects)
    else Ok(JNull)
  }

  /** The `Z` to `+00:00` rewrite applied before ISO-8601 parsing. */
  function NormaliseTimestamp(s: string): (r: string)
    ensures 'Z' !in r
    ensures 'Z' !in s ==> r == s
  {
    PyStr.ReplaceChar(s, 'Z', "+00:00")
  }

  /** A trailing `Z` becomes `+00:00`, the rest is rewritten on its own. */
  lemma NormaliseTrailingZ(s: string)
    ensures NormaliseTimestamp(s + "Z") == NormaliseTimestamp(s) + "+00:00"
  {
    PyStr.ReplaceCharConcat(s, "Z", 'Z', "+00:00");
  }

  /** `data.get(field) or data.get("properties", {}).get(propName, {}).get(field)`,
      normalised when it is a non-empty string; None when both are falsy. */
  function ExtractTimestamp(data: Json, field: string, propName: string): (r: Result<Option<string>>)
    ensures data.JObj? && field in data.fields && data.fields[field].JStr? && data.fields[field].s != "" ==>
      r == Ok(Some(NormaliseTimestamp(data.fields[field].s)))
    ensures data.JObj? && Missing(data.fields, field) ==>
      && ("properties" !in data.fields ==> r == Ok(None))
      && (HasProps(data) && propName !in PropsOf(data) ==> r == Ok(None))
      && (HasProps(data) && propName in PropsOf(data) && PropsOf(data)[propName].JObj? ==>
            var custom := PropsOf(data)[propName].fields;
            && (Missing(custom, field) ==> r == Ok(None))
            && (field in custom && custom[field].JStr? && custom[field].s != "" ==>
                  r == Ok(Some(NormaliseTimestamp(custom[field].s)))))
    ensures r.Ok? && r.value.Some? ==> 'Z' !in r.value.value
  {
    var record :- AsDict(data);
    var top := Lookup(record, field, JNull);
    var chosen :- if Truthy(top) then Ok(top) else
      var props := Lookup(record, "properties", EmptyObj);
      var custom :- Get(props, propName, EmptyObj);
      Get(custom, field, JNull);
    if !Truthy(chosen) then Ok(None)
    else if chosen.JStr? then Ok(Some(NormaliseTimestamp(chosen.s)))
    else Err(AttributeError)
  }

  /** extract_created_at: top-level `created_time`, else
      `properties.created_at.created_time`, else None. */
  function ExtractCreatedAt(data: Json): (r: Result<Option<string>>)
    ensures (data.JObj? && "created_time" in data.fields && data.fields["created_time"].JStr?
      && data.fields["created_time"].s != "") ==>
      r == Ok(Some(NormaliseTimestamp(data.fields["created_time"].s)))
    ensures data.JObj? && Missing(data.fields, "created_time") && "properties" !in data.fields ==> r == Ok(None)
    ensures data.JObj? && Missing(data.fields, "created_time") && HasProps(data) ==>
      && ("created_at" !in PropsOf(data) ==> r == Ok(None))
      && ("created_at" in PropsOf(data) && PropsOf(data)["created_at"].JObj? ==>
            var custom := PropsOf(data)["created_at"].fields;
            && (Missing(custom, "created_time") ==> r == Ok(None))
            && ("created_time" in custom && custom["created_time"].JStr? && custom["created_time"].s != "" ==>
                  r == Ok(Some(NormaliseTimestamp(custom["created_time"].s)))))
  {
    ExtractTimestamp(data, "created_time", "created_at")
  }

  /** extract_last_updated_at: top-level `last_edited_time`, else
      `properties.updated_at.last_edited_time`, else None. */
  function ExtractLastUpdatedAt(data: Json): (r: Result<Option<string>>)
    ensures (data.JObj? && "last_edited_time" in data.fields && data.fields["last_edited_time"].JStr?
      && data.fields["last_edited_time"].s != "") ==>
      r == Ok(Some(NormaliseTimestamp(data.fields["last_edited_time"].s)))
    ensures data.JObj? && Missing(data.fields, "last_edited_time") && "properties" !in data.fields ==> r == Ok(None)
    ensures data.JObj? && Missing(data.fields, "last_edited_time") && HasProps(data) ==>
      && ("updated_at" !in PropsOf(data) ==> r == Ok(None))
      && ("updated_at" in PropsOf(data) && PropsOf(data)["updated_at"].JObj? ==>
            var custom := PropsOf(data)["updated_at"].fields;
            && (Missing(custom, "last_edited_time") ==> r == Ok(None))
            && ("last_edited_time" in custom && custom["last_edited_time"].JStr? && custom["last_edited_time"].s != "" ==>
                  r == Ok(Some(NormaliseTimestamp(custom["last_edited_time"].s)))))
  {
    ExtractTimestamp(data, "last_edited_time", "updated_at")
  }

  /** extract_title: the `Title` property when present and truthy, otherwise
      `Name`; the chosen property's first span text, or None when the
      property is missing or its `title` list is empty. A `Title` with an
      empty list gives None without trying `Name`. */
  function ExtractTitle(data: Json): (r: Result<Json>)
    ensures HasProps(data) && "Title" in PropsOf(data) ==>
      var title := PropsOf(data)["Title"];
      && (HasTitleText(title) ==> r == Ok(TitleTextOf(title)))
      && (title.JObj? && "title" in title.fields && title.fields["title"] == JArr([]) ==> r == Ok(JNull))
    ensures HasProps(data) && Missing(PropsOf(data), "Title") ==>
      var props := PropsOf(data);
      && ("Name" in props && HasTitleText(props["Name"]) ==> r == Ok(TitleTextOf(props["Name"])))
      && (Missing(props, "Name") ==> r == Ok(JNull))
      && ("Name" in props && props["Name"].JObj? && Missing(props["Name"].fields, "title") ==> r == Ok(JNull))
  {
    var props :- Index(data, "properties");
    var m :- AsDict(props);
    var title := Lookup(m, "Title", JNull);
    var chosen := if Truthy(title) then title else Lookup(m, "Name", JNull);
    if !Truthy(chosen) then Ok(JNull)
    else
      var spans :- Get(chosen, "title", JNull);
      if !Truthy(spans) then Ok(JNull) else FirstTitleText(chosen)
  }

  /** extract_num_highlights: `int(number)` of the `Highlights` property,
      and 0 when it is missing, empty or its number is None. */
  function ExtractNumHighlights(data: Json): (r: Result<int>)
    ensures HasProps(data) && Missing(PropsOf(data), "Highlights") ==> r == Ok(0)
    ensures HasProps(data) && "Highlights" in PropsOf(data) && PropsOf(data)["Highlights"].JObj? ==>
      var h := PropsOf(data)["Highlights"].fields;
      && ("number" !in h || h["number"] == JNull ==> r == Ok(0))
      && ("number" in h && h["number"].JNum? ==> r == Ok(PyStr.Truncate(h["number"].n)))
  {
    var props :- Index(data, "properties");
    var highlights :- Get(props, "Highlights", EmptyObj);
    if !Truthy(highlights) then Ok(0)
    else
      var number :- Get(highlights, "number", JNull);
      if number == JNull then Ok(0) else IntOf(number)
  }

  /** extract_external_url: the `url` of the `URL` property, or None. */
  function ExtractExternalUrl(data: Json): (r: Result<Json>)
    ensures HasProps(data) && Missing(PropsOf(data), "URL") ==> r == Ok(JNull)
    ensures HasProps(data) && "URL" in PropsOf(data) && PropsOf(data)["URL"].JObj? ==>
      var u := PropsOf(data)["URL"].fields;
      && ("url" !in u ==> r == Ok(JNull))
      && ("url" in u ==> r == Ok(u["url"]))
  {
    var props :- Index(data, "properties");
    var urlProp :- Get(props, "URL", EmptyObj);
    if Truthy(urlProp) then Get(urlProp, "url", JNull) else Ok(JNull)
  }

  /** NotionDbPage: the id, the raw record and the Notion URL. */
  datatype RawPage = RawPage(id: Json, rawData: Json, url: Json)

  /** extract_raw_page_attributes. */
  function ExtractRawPageAttributes(data: Json): (r: Result<RawPage>)
    ensures r.Ok? <==> data.JObj? && "id" in data.fields && "url" in data.fields
    ensures r.Ok? ==> r.value == RawPage(data.fields["id"], data, data.fields["url"])
  {
    var id :- ExtractId(data);
    var url :- ExtractUrl(data);
    Ok(RawPage(id, data, url))
  }

  /** ParaPage, with the markdown export passed in. */
  datatype ParaPage = ParaPage(
    id: Json, stars: Json, projectName: Json, isArchived: Json,
    markdownContent: Option<string>, createdAt: Option<string>,
    lastUpdatedAt: Option<string>, title: Json, numHighlights: int,
    url: Json, externalUrl: Json)

  /** extract_para_page_attributes: the extractors in field order; the first
      one that raises decides the outcome. */
  function ExtractParaPageAttributes(data: Json, markdown: Option<string>): (r: Result<ParaPage>)
    ensures r.Ok? <==>
      && ExtractId(data).Ok? && ExtractStars(data).Ok? && ExtractProjectName(data).Ok?
      && ExtractIsArchived(data).Ok? && ExtractCreatedAt(data).Ok? && ExtractLastUpdatedAt(data).Ok?
      && ExtractTitle(data).Ok? && ExtractNumHighlights(data).Ok? && ExtractUrl(data).Ok?
      && ExtractExternalUrl(data).Ok?
    ensures r.Ok? ==>
      && r.value.id == data.fields["id"] && r.value.url == data.fields["url"]
      && r.value.isArchived == data.fields["archived"]
      && r.value.markdownContent == markdown
      && r.value.title == ExtractTitle(data).value
      && r.value.createdAt == ExtractCreatedAt(data).value
      && r.value.lastUpdatedAt == ExtractLastUpdatedAt(data).value
      && r.value.numHighlights == ExtractNumHighlights(data).value
      && r.value.stars == ExtractStars(data).value
      && r.value.projectName == ExtractProjectName(data).value
      && r.value.externalUrl == ExtractExternalUrl(data).value
  {
    var id :- ExtractId(data);
    var stars :- ExtractStars(data);
    var projectName :- ExtractProjectName(data);
    var isArchived :- ExtractIsArchived(data);
    var createdAt :- ExtractCreatedAt(data);
    var lastUpdatedAt :- ExtractLastUpdatedAt(data);
    var title :- ExtractTitle(data);
    var numHighlights :- ExtractNumHighlights(data);
    var url :- ExtractUrl(data);
    var externalUrl :- ExtractExternalUrl(data);
    Ok(ParaPage(id, stars, projectName, isArchived, markdown, createdAt, lastUpdatedAt,
                title, numHighlights, url, externalUrl))
  }

  /** AreaPage, with the markdown export passed in. */
  datatype AreaPage = AreaPage(
    id: Json, markdownContent: Option<string>, createdAt: Option<string>,
    updatedAt: Option<string>, title: Json, url: Json)

  /** extract_area_page_attributes. */
  function ExtractAreaPageAttributes(data: Json, markdown: Option<string>): (r: Result<AreaPage>)
    ensures r.Ok? <==>
      && ExtractId(data).Ok? && ExtractCreatedAt(data).Ok? && ExtractLastUpdatedAt(data).Ok?
      && ExtractTitle(data).Ok? && ExtractUrl(data).Ok?
    ensures r.Ok? ==>
      && r.value.id == data.fields["id"] && r.value.url == data.fields["url"]
      && r.value.markdownContent == markdown
      && r.value.createdAt == ExtractCreatedAt(data).value
      && r.value.updatedAt == ExtractLastUpdatedAt(data).value
      && r.value.title == ExtractTitle(data).value
  {
    var id :- ExtractId(data);
    var createdAt :- ExtractCreatedAt(data);
    var updatedAt :- ExtractLastUpdatedAt(data);
    var title :- ExtractTitle(data);
    var url :- ExtractUrl(data);
    Ok(AreaPage(id, markdown, createdAt, updatedAt, title, url))
  }

  /** The optional properties the extractors read. */
  const OptionalProperties: set<string> :=
    {"Future Value Rank", RelatedProjectsKey, "Projects", "created_at", "updated_at",
     "Title", "Name", "Highlights", "URL"}

  /** No extractor raises on a missing optional key: a record holding only
      `id`, `url`, `archived` and a `properties` dict without any of the
      optional properties yields None (or 0 highlights) for every optional
      attribute. */
  lemma MissingOptionalKeys(data: Json, markdown: Option<string>)
    requires HasProps(data) && "id" in data.fields && "url" in data.fields && "archived" in data.fields
    requires "created_time" !in data.fields && "last_edited_time" !in data.fields
    requires forall k :: k in OptionalProperties ==> k !in PropsOf(data)
    ensures ExtractParaPageAttributes(data, markdown) ==
      Ok(ParaPage(data.fields["id"], JNull, JNull, data.fields["archived"], markdown, None, None,
                  JNull, 0, data.fields["url"], JNull))
  {
  }
}
