/** The writes of src/notion_assistant/notion/updates.py: appending blocks to
    a page in batches of at most 90, linking a page to other pages through a
    relation property, and ticking the `is_ai_analyzed` checkbox. The Notion
    client is a class recording the calls it receives; the page dict the
    functions mutate in place is an object holding its current JSON. */
module Mutations {

  import opened Wrappers
  import opened PyJson
  import PyStr
  import Batches

  /** The most blocks one `blocks.children.append` call carries. */
  const ChunkSize := 90

  /** A request sent to Notion. */
  datatype Call =
    | Append(blockId: string, children: seq<Json>)
    | Retrieve(pageId: string)
    | Update(page: Json, properties: map<string, Json>)

  /** The children recorded under a block, none if it has never been written. */
  function ChildrenOf(m: map<string, seq<Json>>, id: string): seq<Json> {
    if id in m then m[id] else []
  }

  /** The Notion client: every call it receives, and the children appended
      under each block id. */
  class Api {
    var calls: seq<Call>
    var children: map<string, seq<Json>>

    constructor()
      ensures calls == [] && children == map[]
    {
      calls := [];
      children := map[];
    }

    /** `notion.blocks.children.append`: the blocks go after the existing ones. */
    method AppendChildren(blockId: string, blocks: seq<Json>)
      modifies this
      ensures calls == old(calls) + [Append(blockId, blocks)]
      ensures children == old(children)[blockId := ChildrenOf(old(children), blockId) + blocks]
    {
      calls := calls + [Append(blockId, blocks)];
      children := children[blockId := ChildrenOf(children, blockId) + blocks];
    }

    /** `notion.pages.retrieve`; reading changes nothing. */
    method RetrievePage(pageId: string)
      modifies this
      ensures calls == old(calls) + [Retrieve(pageId)]
      ensures children == old(children)
    {
      calls := calls + [Retrieve(pageId)];
    }

    /** `notion.pages.update`; properties are not block children. */
    method UpdatePage(pageId: Json, properties: map<string, Json>)
      modifies this
      ensures calls == old(calls) + [Update(pageId, properties)]
      ensures children == old(children)
    {
      calls := calls + [Update(pageId, properties)];
    }
  }

  /** A page dict that the update functions change in place. */
  class PageObject {
    var data: Json

    constructor(data: Json)
      ensures this.data == data
    {
      this.data := data;
    }
  }

  function Min(a: int, b: int): int {
    if a <= b then a else b
  }

  // ---------------------------------------------------------------------
  // append_blocks_to_page

  /** The batches the blocks are sent in: runs of `ChunkSize`, the last one
      possibly shorter, none for no blocks. */
  function Chunks(s: seq<Json>): seq<seq<Json>>
    decreases |s|
  {
    if s == [] then []
    else if |s| <= ChunkSize then [s]
    else [s[..ChunkSize]] + Chunks(s[ChunkSize..])
  }

  /** There are ceil(n / 90) batches; none is empty or longer than 90, and
      all but the last are full. */
  lemma {:induction false} ChunkSizes(s: seq<Json>)
    ensures |Chunks(s)| == (|s| + ChunkSize - 1) / ChunkSize
    ensures forall k :: 0 <= k < |Chunks(s)| ==> 0 < |Chunks(s)[k]| <= ChunkSize
    ensures forall k :: 0 <= k < |Chunks(s)| - 1 ==> |Chunks(s)[k]| == ChunkSize
    decreases |s|
  {
    if |s| > ChunkSize {
      var rest := s[ChunkSize..];
      ChunkSizes(rest);
      assert Chunks(s) == [s[..ChunkSize]] + Chunks(rest);
      forall k | 0 < k < |Chunks(s)|
        ensures Chunks(s)[k] == Chunks(rest)[k - 1]
      {
      }
    }
  }

  /** Batch `k` is the slice `s[90k : 90k + 90]`, as the loop over
      `range(0, len(blocks), 90)` cuts it. */
  lemma {:induction false} ChunkAt(s: seq<Json>, k: nat)
    requires k < |Chunks(s)|
    ensures ChunkSize * k < |s|
    ensures Chunks(s)[k] == s[ChunkSize * k .. Min(ChunkSize * k + ChunkSize, |s|)]
    decreases |s|
  {
    if |s| > ChunkSize && k > 0 {
      var rest := s[ChunkSize..];
      ChunkAt(rest, k - 1);
      assert Chunks(s)[k] == Chunks(rest)[k - 1];
      var lo := ChunkSize * (k - 1);
      var hi := Min(lo + ChunkSize, |rest|);
      assert |rest| == |s| - ChunkSize;
      assert ChunkSize * k == ChunkSize + lo;
      if lo + ChunkSize <= |rest| {
        assert hi == lo + ChunkSize;
        assert Min(ChunkSize * k + ChunkSize, |s|) == ChunkSize + hi;
      } else {
        assert hi == |rest|;
        assert Min(ChunkSize * k + ChunkSize, |s|) == ChunkSize + hi;
      }
      assert rest[lo..hi] == s[ChunkSize + lo .. ChunkSize + hi];
    }
  }

  /** Sending the batches in order sends every block exactly once, in order. */
  lemma {:induction false} ChunksFlatten(s: seq<Json>)
    ensures Batches.Flatten(Chunks(s)) == s
    decreases |s|
  {
    if s == [] {
    } else if |s| <= ChunkSize {
      Batches.FlattenSnoc([], s);
      assert [] + [s] == [s];
    } else {
      ChunksFlatten(s[ChunkSize..]);
      Batches.FlattenConcat([s[..ChunkSize]], Chunks(s[ChunkSize..]));
      Batches.FlattenSnoc([], s[..ChunkSize]);
      assert [] + [s[..ChunkSize]] == [s[..ChunkSize]];
      assert s[..ChunkSize] + s[ChunkSize..] == s;
    }
  }

  /** The loop over `range(0, len(s), 90)` runs once per batch. */
  lemma {:induction false} ChunkCount(s: seq<Json>, k: nat)
    ensures k < |Chunks(s)| <==> ChunkSize * k < |s|
    decreases |s|
  {
    if |s| > ChunkSize && k > 0 {
      ChunkCount(s[ChunkSize..], k - 1);
      assert ChunkSize * k == ChunkSize + ChunkSize * (k - 1);
    }
  }

  /** The append requests for a list of batches. */
  function Appends(pageId: string, chunks: seq<seq<Json>>): seq<Call>
  {
    if chunks == [] then [] else Appends(pageId, chunks[..|chunks| - 1]) + [Append(pageId, chunks[|chunks| - 1])]
  }

  lemma AppendsSnoc(pageId: string, chunks: seq<seq<Json>>, chunk: seq<Json>)
    ensures Appends(pageId, chunks + [chunk]) == Appends(pageId, chunks) + [Append(pageId, chunk)]
  {
    assert (chunks + [chunk])[..|chunks|] == chunks;
  }

  /** Batch `k` of the loop: one more append request, and its blocks after
      those of the earlier batches. */
  lemma AppendStep(pageId: string, blocks: seq<Json>, k: nat)
    requires k < |Chunks(blocks)|
    ensures ChunkSize * k < |blocks|
    ensures var chunk := blocks[ChunkSize * k .. Min(ChunkSize * k + ChunkSize, |blocks|)];
            && Appends(pageId, Chunks(blocks)[..k + 1]) == Appends(pageId, Chunks(blocks)[..k]) + [Append(pageId, chunk)]
            && Batches.Flatten(Chunks(blocks)[..k + 1]) == Batches.Flatten(Chunks(blocks)[..k]) + chunk
  {
    var chunks := Chunks(blocks);
    ChunkAt(blocks, k);
    assert chunks[..k + 1] == chunks[..k] + [chunks[k]];
    AppendsSnoc(pageId, chunks[..k], chunks[k]);
    Batches.FlattenSnoc(chunks[..k], chunks[k]);
  }

  /** The children map after appending `sent` under `id`: unchanged when
      nothing was sent. */
  function AfterAppend(m: map<string, seq<Json>>, id: string, sent: seq<Json>): map<string, seq<Json>> {
    if sent == [] then m else m[id := ChildrenOf(m, id) + sent]
  }

  /** Appending twice under one id is appending the concatenation. */
  lemma AfterAppendTwice(m: map<string, seq<Json>>, id: string, sent: seq<Json>, more: seq<Json>)
    requires more != []
    ensures AfterAppend(m, id, sent)[id := ChildrenOf(AfterAppend(m, id, sent), id) + more]
            == AfterAppend(m, id, sent + more)
  {
    if sent == [] {
      assert sent + more == more;
    } else {
      assert ChildrenOf(m, id) + sent + more == ChildrenOf(m, id) + (sent + more);
    }
  }

  /** append_blocks_to_page: one append request per batch of at most 90
      blocks, in order, then a retrieve of the page. The page ends up with
      all the blocks after its existing children, and no other block
      changes. */
  method AppendBlocksToPage(api: Api, pageId: string, blocks: seq<Json>)
    modifies api
    ensures api.calls == old(api.calls) + Appends(pageId, Chunks(blocks)) + [Retrieve(pageId)]
    ensures api.children == AfterAppend(old(api.children), pageId, blocks)
  {
    var index := 0;
    ghost var k := 0;
    ChunkCount(blocks, 0);
    while index < |blocks|
      invariant index == ChunkSize * k
      invariant k <= |Chunks(blocks)|
      invariant k < |Chunks(blocks)| <==> index < |blocks|
      invariant api.calls == old(api.calls) + Appends(pageId, Chunks(blocks)[..k])
      invariant api.children == AfterAppend(old(api.children), pageId, Batches.Flatten(Chunks(blocks)[..k]))
    {
      AppendStep(pageId, blocks, k);
      var chunk := blocks[index..Min(index + ChunkSize, |blocks|)];
      AfterAppendTwice(old(api.children), pageId, Batches.Flatten(Chunks(blocks)[..k]), chunk);
      api.AppendChildren(pageId, chunk);
      index := index + ChunkSize;
      k := k + 1;
      ChunkCount(blocks, k);
    }
    ChunksFlatten(blocks);
    assert Chunks(blocks)[..k] == Chunks(blocks);
    api.RetrievePage(pageId);
  }

  /** The page's children gain the blocks at the end; every other block's
      children are as before. */
  lemma AfterAppendFrame(m: map<string, seq<Json>>, id: string, sent: seq<Json>, other: string)
    requires other != id
    ensures ChildrenOf(AfterAppend(m, id, sent), id) == ChildrenOf(m, id) + sent
    ensures other in AfterAppend(m, id, sent) <==> other in m
    ensures ChildrenOf(AfterAppend(m, id, sent), other) == ChildrenOf(m, other)
  {
    if sent == [] {
      assert ChildrenOf(m, id) + sent == ChildrenOf(m, id);
    }
  }

  /** Every block is sent, each request stays within the batch size, and
      only the last request may be short. */
  lemma AppendedBatches(blocks: seq<Json>)
    ensures Batches.Flatten(Chunks(blocks)) == blocks
    ensures forall k :: 0 <= k < |Chunks(blocks)| ==> 0 < |Chunks(blocks)[k]| <= ChunkSize
    ensures forall k :: 0 <= k < |Chunks(blocks)| - 1 ==> |Chunks(blocks)[k]| == ChunkSize
  {
    ChunksFlatten(blocks);
    ChunkSizes(blocks);
  }

  // ---------------------------------------------------------------------
  // Shared by the two property updates

  /** What an update did to the page dict, which requests it sent, and
      whether it returned or raised. */
  datatype Outcome = Outcome(data: Json, calls: seq<Call>, result: Result<()>)

  /** `page["properties"][name]`. */
  function PropOf(data: Json, name: string): Result<Json> {
    var props :- Index(data, "properties");
    Index(props, name)
  }

  /** The page with property `name` replaced by `prop`; the property is
      shared with the page dict, so changing it changes the page. */
  function SetProp(data: Json, name: string, prop: Json): (r: Json)
    requires PropOf(data, name).Ok?
    ensures PropOf(r, name) == Ok(prop)
    ensures r.JObj? && r.fields.Keys == data.fields.Keys
    ensures "id" in data.fields ==> r.fields["id"] == data.fields["id"]
  {
    var props := data.fields["properties"];
    JObj(data.fields["properties" := JObj(props.fields[name := prop])])
  }

  /** Replacing one property leaves the other properties and every other key
      of the page as they were. */
  lemma SetPropFrame(data: Json, name: string, prop: Json)
    requires PropOf(data, name).Ok?
    ensures forall n :: n != name ==> PropOf(SetProp(data, name, prop), n) == PropOf(data, n)
    ensures forall k :: k in data.fields && k != "properties" ==> SetProp(data, name, prop).fields[k] == data.fields[k]
  {
  }

  /** Replacing a property twice keeps only the second value. */
  lemma SetPropTwice(data: Json, name: string, p: Json, q: Json)
    requires PropOf(data, name).Ok?
    ensures SetProp(SetProp(data, name, p), name, q) == SetProp(data, name, q)
  {
    var props := data.fields["properties"].fields;
    assert props[name := p][name := q] == props[name := q];
    assert data.fields["properties" := JObj(props[name := p])]["properties" := JObj(props[name := q])]
        == data.fields["properties" := JObj(props[name := q])];
  }

  // ---------------------------------------------------------------------
  // update_refs_property

  /** `title_to_id.get(title.strip())` finds an id that is not None. */
  predicate Resolves(title: string, titleToId: map<Json, Json>) {
    JStr(PyStr.Strip(title)) in titleToId && titleToId[JStr(PyStr.Strip(title))] != JNull
  }

  /** The position of the first title without an id, or the number of
      titles if every one resolves. */
  function FirstUnresolved(titles: seq<string>, titleToId: map<Json, Json>): (r: nat)
    ensures r <= |titles|
    ensures forall k :: 0 <= k < r ==> Resolves(titles[k], titleToId)
    ensures r < |titles| ==> !Resolves(titles[r], titleToId)
  {
    if titles == [] then 0
    else if !Resolves(titles[0], titleToId) then 0
    else 1 + FirstUnresolved(titles[1..], titleToId)
  }

  /** The id a resolving title maps to. */
  function IdOf(title: string, titleToId: map<Json, Json>): Json
    requires Resolves(title, titleToId)
  {
    titleToId[JStr(PyStr.Strip(title))]
  }

  /** The relation entry `{"id": id}`. */
  function RefItem(id: Json): Json {
    JObj(map["id" := id])
  }

  /** The relation entries for titles that all resolve, in title order. */
  function RefItems(titles: seq<string>, titleToId: map<Json, Json>): (r: seq<Json>)
    requires forall k :: 0 <= k < |titles| ==> Resolves(titles[k], titleToId)
    ensures |r| == |titles|
    ensures forall k :: 0 <= k < |titles| ==> r[k] == RefItem(IdOf(titles[k], titleToId))
  {
    if titles == [] then []
    else RefItems(titles[..|titles| - 1], titleToId) + [RefItem(IdOf(titles[|titles| - 1], titleToId))]
  }

  /** A property whose `relation` is a list, so that `.append` works. */
  predicate RelationReady(prop: Json) {
    prop.JObj? && "relation" in prop.fields && prop.fields["relation"].JArr?
  }

  /** The property with its relation list replaced. */
  function WithRelation(prop: Json, items: seq<Json>): (r: Json)
    requires prop.JObj?
    ensures RelationReady(r) && r.fields["relation"].items == items
    ensures r.fields.Keys == prop.fields.Keys + {"relation"}
  {
    JObj(prop.fields["relation" := JArr(items)])
  }

  /** The property after the first `i` titles were appended to its relation. */
  function AppendedProp(prop: Json, titles: seq<string>, titleToId: map<Json, Json>, i: nat): (r: Json)
    requires RelationReady(prop) && i <= |titles|
    requires forall k :: 0 <= k < i ==> Resolves(titles[k], titleToId)
    ensures RelationReady(r)
  {
    WithRelation(prop, prop.fields["relation"].items + RefItems(titles[..i], titleToId))
  }

  /** Appending one more title's entry to the property gives the property
      after one more title. */
  lemma AppendedPropStep(prop: Json, titles: seq<string>, titleToId: map<Json, Json>, i: nat)
    requires RelationReady(prop) && i < |titles|
    requires forall k :: 0 <= k <= i ==> Resolves(titles[k], titleToId)
    ensures var before := AppendedProp(prop, titles, titleToId, i);
      AppendedProp(prop, titles, titleToId, i + 1)
        == WithRelation(before, before.fields["relation"].items + [RefItem(IdOf(titles[i], titleToId))])
  {
    assert titles[..i + 1][..i] == titles[..i];
    var items := prop.fields["relation"].items;
    var more := RefItems(titles[..i], titleToId);
    var item := RefItem(IdOf(titles[i], titleToId));
    assert RefItems(titles[..i + 1], titleToId) == more + [item];
    assert items + (more + [item]) == (items + more) + [item];
    assert prop.fields["relation" := JArr(items + more)]["relation" := JArr(items + more + [item])]
        == prop.fields["relation" := JArr(items + more + [item])];
  }

  /** The effect of update_refs_property, stated without its loop. The
      property lookup sits outside the try and raises what it raises; each
      title is looked up and then appended, so the first unresolved title
      raises ValueError after the earlier ones were appended; a missing
      `relation` or `id` is a KeyError the handler turns into an
      AttributeError (it formats `page.id` on a dict); `.append` on a
      non-list raises AttributeError, indexing a non-dict TypeError. */
  function RefsUpdate(data: Json, name: string, titles: seq<string>, titleToId: map<Json, Json>): (r: Outcome)
    ensures r.result.Ok? <==> |r.calls| == 1
    ensures r.result.Err? ==> r.calls == []
    ensures r.calls != [] ==> r.calls[0].Update? && r.calls[0].properties.Keys == {name}
  {
    match PropOf(data, name)
    case Err(e) => Outcome(data, [], Err(e))
    case Ok(prop) =>
      var u := FirstUnresolved(titles, titleToId);
      if titles == [] then
        if "id" in data.fields then Outcome(data, [Update(data.fields["id"], map[name := prop])], Ok(()))
        else Outcome(data, [], Err(AttributeError))
      else if u == 0 then Outcome(data, [], Err(ValueError))
      else if !prop.JObj? then Outcome(data, [], Err(TypeError))
      else if !RelationReady(prop) then Outcome(data, [], Err(AttributeError))
      else
        if "id" !in data.fields then
          Outcome(SetProp(data, name, AppendedProp(prop, titles, titleToId, 1)), [], Err(AttributeError))
        else
          var newProp := AppendedProp(prop, titles, titleToId, u);
          var newData := SetProp(data, name, newProp);
          if u < |titles| then Outcome(newData, [], Err(ValueError))
          else Outcome(newData, [Update(data.fields["id"], map[name := newProp])], Ok(()))
  }

  /** The outcome when the loop stops at title `i` because it has no id. */
  lemma RefsExitUnresolved(data: Json, name: string, titles: seq<string>, titleToId: map<Json, Json>, i: nat)
    requires PropOf(data, name).Ok? && i < |titles|
    requires forall k :: 0 <= k < i ==> Resolves(titles[k], titleToId)
    requires !Resolves(titles[i], titleToId)
    requires i > 0 ==> RelationReady(PropOf(data, name).value) && "id" in data.fields
    ensures RefsUpdate(data, name, titles, titleToId) ==
      Outcome(if i == 0 then data else SetProp(data, name, AppendedProp(PropOf(data, name).value, titles, titleToId, i)),
              [], Err(ValueError))
  {
    assert FirstUnresolved(titles, titleToId) == i;
  }

  /** The outcome when the first title resolves but the property has no
      relation list. */
  lemma RefsExitNoRelation(data: Json, name: string, titles: seq<string>, titleToId: map<Json, Json>)
    requires PropOf(data, name).Ok? && titles != [] && Resolves(titles[0], titleToId)
    requires !RelationReady(PropOf(data, name).value)
    ensures RefsUpdate(data, name, titles, titleToId) ==
      Outcome(data, [], Err(if PropOf(data, name).value.JObj? then AttributeError else TypeError))
  {
    assert FirstUnresolved(titles, titleToId) > 0;
  }

  /** The outcome when the first entry was appended but the page has no id. */
  lemma RefsExitNoId(data: Json, name: string, titles: seq<string>, titleToId: map<Json, Json>)
    requires PropOf(data, name).Ok? && titles != [] && Resolves(titles[0], titleToId)
    requires RelationReady(PropOf(data, name).value) && "id" !in data.fields
    ensures RefsUpdate(data, name, titles, titleToId) ==
      Outcome(SetProp(data, name, AppendedProp(PropOf(data, name).value, titles, titleToId, 1)), [], Err(AttributeError))
  {
    assert FirstUnresolved(titles, titleToId) > 0;
  }

  /** The outcome when every title resolved. */
  lemma RefsExitDone(data: Json, name: string, titles: seq<string>, titleToId: map<Json, Json>)
    requires PropOf(data, name).Ok?
    requires forall k :: 0 <= k < |titles| ==> Resolves(titles[k], titleToId)
    requires titles != [] ==> RelationReady(PropOf(data, name).value) && "id" in data.fields
    ensures var prop := PropOf(data, name).value;
      var newProp := if titles == [] then prop else AppendedProp(prop, titles, titleToId, |titles|);
      RefsUpdate(data, name, titles, titleToId) ==
        if "id" in data.fields then
          Outcome(if titles == [] then data else SetProp(data, name, newProp),
                  [Update(data.fields["id"], map[name := newProp])], Ok(()))
        else Outcome(data, [], Err(AttributeError))
  {
    assert FirstUnresolved(titles, titleToId) == |titles|;
  }

  /** One pass of the loop: appending title `i`'s entry to the property
      shared with the page gives the property, and the page, after `i + 1`
      titles. */
  lemma RefsStep(start: Json, name: string, titles: seq<string>, titleToId: map<Json, Json>,
                 i: nat, data: Json, before: Json)
    requires PropOf(start, name).Ok? && i < |titles|
    requires forall k :: 0 <= k <= i ==> Resolves(titles[k], titleToId)
    requires RelationReady(before) && PropOf(data, name) == Ok(before)
    requires i == 0 ==> data == start && before == PropOf(start, name).value
    requires i > 0 ==> && RelationReady(PropOf(start, name).value)
                       && before == AppendedProp(PropOf(start, name).value, titles, titleToId, i)
                       && data == SetProp(start, name, before)
    ensures RelationReady(PropOf(start, name).value)
    ensures var after := WithRelation(before, before.fields["relation"].items + [RefItem(IdOf(titles[i], titleToId))]);
            && after == AppendedProp(PropOf(start, name).value, titles, titleToId, i + 1)
            && SetProp(data, name, after) == SetProp(start, name, after)
  {
    var prop0 := PropOf(start, name).value;
    var after := WithRelation(before, before.fields["relation"].items + [RefItem(IdOf(titles[i], titleToId))]);
    AppendedPropStep(prop0, titles, titleToId, i);
    if i == 0 {
      assert AppendedProp(prop0, titles, titleToId, 0) == prop0 by {
        var items := prop0.fields["relation"].items;
        assert titles[..0] == [] && RefItems([], titleToId) == [] && items + [] == items;
        assert prop0.fields["relation" := JArr(items)] == prop0.fields;
      }
    } else {
      SetPropTwice(start, name, before, after);
    }
  }

  /** update_refs_property: append `{"id": ...}` to the property's relation
      for each title, then send the property in one update request. */
  method UpdateRefsProperty(api: Api, page: PageObject, name: string, titles: seq<string>, titleToId: map<Json, Json>)
    returns (r: Result<()>)
    modifies api, page
    ensures var o := RefsUpdate(old(page.data), name, titles, titleToId);
      page.data == o.data && api.calls == old(api.calls) + o.calls && r == o.result
    ensures api.children == old(api.children)
  {
    var prop :- PropOf(page.data, name);
    ghost var start := page.data;
    ghost var prop0 := prop;
    var i := 0;
    while i < |titles|
      invariant 0 <= i <= |titles|
      invariant forall k :: 0 <= k < i ==> Resolves(titles[k], titleToId)
      invariant api.calls == old(api.calls) && api.children == old(api.children)
      invariant PropOf(page.data, name) == Ok(prop)
      invariant i == 0 ==> page.data == start && prop == prop0
      invariant i > 0 ==>
        && RelationReady(prop0) && "id" in start.fields
        && prop == AppendedProp(prop0, titles, titleToId, i)
        && page.data == SetProp(start, name, prop)
    {
      var key := JStr(PyStr.Strip(titles[i]));
      var refId := if key in titleToId then titleToId[key] else JNull;
      if refId == JNull {
        RefsExitUnresolved(start, name, titles, titleToId, i);
        return Err(ValueError);
      }
      if !prop.JObj? || "relation" !in prop.fields || !prop.fields["relation"].JArr? {
        RefsExitNoRelation(start, name, titles, titleToId);
        // `prop["relation"]` on a non-dict raises TypeError; a missing key is
        // caught and the handler raises AttributeError; so does `.append` on
        // a non-list.
        return Err(if prop.JObj? then AttributeError else TypeError);
      }
      var relation := prop.fields["relation"];
      RefsStep(start, name, titles, titleToId, i, page.data, prop);
      prop := WithRelation(prop, relation.items + [RefItem(refId)]);
      page.data := SetProp(page.data, name, prop);
      if "id" !in page.data.fields {
        RefsExitNoId(start, name, titles, titleToId);
        return Err(AttributeError);
      }
      i := i + 1;
    }
    RefsExitDone(start, name, titles, titleToId);
    if "id" !in page.data.fields {
      return Err(AttributeError);
    }
    api.UpdatePage(page.data.fields["id"], map[name := prop]);
    r := Ok(());
  }

  /** The update returns normally exactly when the property exists, the page
      has an id, every title resolves, and (if there is a title at all) the
      property holds a relation list. */
  lemma RefsUpdateSucceeds(data: Json, name: string, titles: seq<string>, titleToId: map<Json, Json>)
    ensures RefsUpdate(data, name, titles, titleToId).result.Ok? <==>
      && PropOf(data, name).Ok?
      && "id" in data.fields
      && FirstUnresolved(titles, titleToId) == |titles|
      && (titles != [] ==> RelationReady(PropOf(data, name).value))
  {
  }

  /** On success the relation gained one entry per title, in title order,
      after its existing entries, and exactly one update request carried
      the new property. */
  lemma RefsUpdateAppends(data: Json, name: string, titles: seq<string>, titleToId: map<Json, Json>)
    requires titles != []
    requires RefsUpdate(data, name, titles, titleToId).result.Ok?
    ensures var o := RefsUpdate(data, name, titles, titleToId);
      var prop := PropOf(data, name).value;
      var newProp := PropOf(o.data, name).value;
      && PropOf(o.data, name).Ok? && RelationReady(prop) && RelationReady(newProp)
      && |newProp.fields["relation"].items| == |prop.fields["relation"].items| + |titles|
      && newProp.fields["relation"].items[..|prop.fields["relation"].items|] == prop.fields["relation"].items
      && (forall k :: 0 <= k < |titles| ==>
            newProp.fields["relation"].items[|prop.fields["relation"].items| + k]
              == RefItem(IdOf(titles[k], titleToId)))
      && o.calls == [Update(data.fields["id"], map[name := newProp])]
  {
    RefsUpdateSucceeds(data, name, titles, titleToId);
    assert titles[..|titles|] == titles;
  }

  /** ValueError is raised exactly when some title has no id and the loop
      reaches it: at once if it is the first, otherwise only when the
      earlier appends went through. */
  lemma RefsUpdateValueError(data: Json, name: string, titles: seq<string>, titleToId: map<Json, Json>)
    ensures RefsUpdate(data, name, titles, titleToId).result == Err(ValueError) <==>
      && PropOf(data, name).Ok?
      && FirstUnresolved(titles, titleToId) < |titles|
      && (FirstUnresolved(titles, titleToId) == 0
          || (RelationReady(PropOf(data, name).value) && "id" in data.fields))
  {
  }

  /** Only the named property changes, and only in its relation; nothing is
      sent unless the update succeeds. */
  lemma RefsUpdateFrame(data: Json, name: string, titles: seq<string>, titleToId: map<Json, Json>)
    ensures var o := RefsUpdate(data, name, titles, titleToId);
      && (forall n :: n != name ==> PropOf(o.data, n) == PropOf(data, n))
      && (o.data != data ==>
            && data.JObj? && o.data.JObj? && o.data.fields.Keys == data.fields.Keys
            && (forall k :: k in data.fields && k != "properties" ==> o.data.fields[k] == data.fields[k])
            && var prop := PropOf(data, name).value;
               var newProp := PropOf(o.data, name).value;
               && PropOf(o.data, name).Ok? && prop.JObj? && newProp.JObj?
               && newProp.fields.Keys == prop.fields.Keys
               && (forall k :: k in prop.fields && k != "relation" ==> newProp.fields[k] == prop.fields[k]))
      && (o.calls != [] <==> o.result.Ok?)
      && |o.calls| <= 1
  {
  }

  // ---------------------------------------------------------------------
  // update_is_ai_analysis_done_property

  /** The checkbox property the analysis marks. */
  const AnalysedProperty := "is_ai_analyzed"

  /** The page text mentions both "AI Analysis" and "main points", ignoring
      case. */
  predicate MentionsAnalysis(text: string) {
    PyStr.Contains(PyStr.Lower(text), "ai analysis") && PyStr.Contains(PyStr.Lower(text), "main points")
  }

  /** The checkbox property with its value set to true. */
  function Ticked(prop: Json): (r: Json)
    requires prop.JObj?
    ensures r.JObj? && r.fields.Keys == prop.fields.Keys + {"checkbox"}
    ensures r.fields["checkbox"] == JBool(true)
    ensures forall k :: k in prop.fields && k != "checkbox" ==> r.fields[k] == prop.fields[k]
  {
    JObj(prop.fields["checkbox" := JBool(true)])
  }

  /** The effect of update_is_ai_analysis_done_property. Nothing happens
      unless the text mentions the analysis; a missing property or id is a
      KeyError the handler turns into an AttributeError; a non-dict in the
      way raises TypeError; the checkbox is set before the id is read. */
  function AnalysisUpdate(data: Json, text: string): (r: Outcome)
    ensures |r.calls| <= 1
    ensures r.calls != [] ==> r.result.Ok? && r.calls[0].Update? && r.calls[0].properties.Keys == {AnalysedProperty}
    ensures r.data != data || r.calls != [] ==> MentionsAnalysis(text)
  {
    if !MentionsAnalysis(text) then Outcome(data, [], Ok(()))
    else
      match PropOf(data, AnalysedProperty)
      case Err(e) => Outcome(data, [], Err(if e == KeyError then AttributeError else e))
      case Ok(prop) =>
        if !prop.JObj? then Outcome(data, [], Err(TypeError))
        else
          var newData := SetProp(data, AnalysedProperty, Ticked(prop));
          if "id" in data.fields then
            Outcome(newData, [Update(data.fields["id"], map[AnalysedProperty := Ticked(prop)])], Ok(()))
          else Outcome(newData, [], Err(AttributeError))
  }

  /** update_is_ai_analysis_done_property: tick the checkbox of a page whose
      text mentions the analysis and send the property to Notion. */
  method UpdateIsAiAnalysisDoneProperty(api: Api, page: PageObject, text: string) returns (r: Result<()>)
    modifies api, page
    ensures var o := AnalysisUpdate(old(page.data), text);
      page.data == o.data && api.calls == old(api.calls) + o.calls && r == o.result
    ensures api.children == old(api.children)
  {
    var lowered := PyStr.Lower(text);
    if PyStr.Contains(lowered, "ai analysis") && PyStr.Contains(lowered, "main points") {
      var found := PropOf(page.data, AnalysedProperty);
      if found.Err? {
        return Err(if found.error == KeyError then AttributeError else found.error);
      }
      var prop := found.value;
      if !prop.JObj? {
        return Err(TypeError);
      }
      prop := Ticked(prop);
      page.data := SetProp(page.data, AnalysedProperty, prop);
      if "id" !in page.data.fields {
        return Err(AttributeError);
      }
      api.UpdatePage(page.data.fields["id"], map[AnalysedProperty := prop]);
    }
    r := Ok(());
  }

  /** The check ignores case: lower-casing the text first decides the same. */
  lemma MentionsIgnoresCase(text: string)
    ensures MentionsAnalysis(PyStr.Lower(text)) == MentionsAnalysis(text)
  {
    PyStr.LowerIdempotent(text);
  }

  /** The page changes, or a request is sent, only when the text mentions
      the analysis; what changes is the checkbox, and it becomes true, never
      false; no other property changes. */
  lemma AnalysisOnlyTicks(data: Json, text: string)
    ensures var o := AnalysisUpdate(data, text);
      && (!MentionsAnalysis(text) ==> o == Outcome(data, [], Ok(())))
      && (o.data != data || o.calls != [] ==> MentionsAnalysis(text))
      && (o.data != data ==>
            && PropOf(o.data, AnalysedProperty).Ok?
            && PropOf(o.data, AnalysedProperty).value.JObj?
            && "checkbox" in PropOf(o.data, AnalysedProperty).value.fields
            && PropOf(o.data, AnalysedProperty).value.fields["checkbox"] == JBool(true))
      && (forall n :: n != AnalysedProperty ==> PropOf(o.data, n) == PropOf(data, n))
  {
  }

  /** The request is sent exactly when the text mentions the analysis and the
      page has the property as a dict and an id. */
  lemma AnalysisSends(data: Json, text: string)
    ensures AnalysisUpdate(data, text).calls != [] <==>
      && MentionsAnalysis(text)
      && PropOf(data, AnalysedProperty).Ok?
      && PropOf(data, AnalysedProperty).value.JObj?
      && "id" in data.fields
  {
  }

  /** Running the update again on the page it produced leaves that page as
      it is. */
  lemma {:induction false} AnalysisIdempotent(data: Json, text: string)
    ensures var once := AnalysisUpdate(data, text).data;
      AnalysisUpdate(once, text).data == once
  {
    var once := AnalysisUpdate(data, text).data;
    if MentionsAnalysis(text) && once != data {
      var prop := PropOf(data, AnalysedProperty).value;
      var ticked := Ticked(prop);
      assert once == SetProp(data, AnalysedProperty, ticked);
      assert PropOf(once, AnalysedProperty) == Ok(ticked);
      assert Ticked(ticked) == ticked by {
        assert ticked.fields["checkbox" := JBool(true)] == ticked.fields;
      }
      SetPropTwice(data, AnalysedProperty, ticked, ticked);
    }
  }
}
