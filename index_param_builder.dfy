/**
 * The bulk index compiler: every item gains its three special fields and
 * becomes two body entries, an `index` action naming the document, then its
 * data record, which holds the item's fields that have values, each value
 * cast by the field's type.
 */
module IndexParamBuilder {
  import opened Wrappers
  import opened Dict
  import opened Php
  import opened SearchApi

  /** A Search API item: a fixed identity, and fields that `setField` updates in place. */
  class Item {
    const id: string
    const datasourceId: string
    const language: string
    var fields: seq<(string, Field)>

    constructor (id: string, datasourceId: string, language: string, fields: seq<(string, Field)>)
      ensures this.id == id && this.datasourceId == datasourceId && this.language == language
      ensures this.fields == fields
    {
      this.id := id;
      this.datasourceId := datasourceId;
      this.language := language;
      this.fields := fields;
    }

    /** `setField`: the field is stored under its name, in place when the name is taken. */
    method SetField(name: string, field: Field)
      modifies this
      ensures fields == Put(old(fields), name, field)
    {
      fields := Put(fields, name, field);
    }
  }

  // ---------------------------------------------------------------------------
  // Special fields

  /** A string field created for `name`, holding the single value `value` (how each special field is made). */
  function StringField(name: string, value: string): Field {
    CreateField(name, "string").(values := [Str(value)])
  }

  /** The fields after `addSpecialFields`: the item's id, datasource and language, set in that order. */
  function WithSpecialFields(id: string, datasourceId: string, language: string, fields: seq<(string, Field)>): seq<(string, Field)> {
    var withId := Put(fields, "search_api_id", StringField("search_api_id", id));
    var withDatasource := Put(withId, "search_api_datasource", StringField("search_api_datasource", datasourceId));
    Put(withDatasource, "search_api_language", StringField("search_api_language", language))
  }

  /** `addSpecialFields`: three `setField` calls on the item. */
  method AddSpecialFields(item: Item)
    modifies item
    ensures item.fields == WithSpecialFields(item.id, item.datasourceId, item.language, old(item.fields))
  {
    item.SetField("search_api_id", StringField("search_api_id", item.id));
    item.SetField("search_api_datasource", StringField("search_api_datasource", item.datasourceId));
    item.SetField("search_api_language", StringField("search_api_language", item.language));
  }

  // ---------------------------------------------------------------------------
  // Field values

  /** `toText()` is called on each value of a text field, so those values are text objects. */
  predicate Castable(field: Field) {
    field.fieldType == "text" ==> forall i :: 0 <= i < |field.values| ==> field.values[i].TextValue?
  }

  predicate AllCastable(fields: seq<(string, Field)>) {
    forall i :: 0 <= i < |fields| ==> Castable(fields[i].1)
  }

  /** The cast `buildFieldValues` applies to a value of a field of type `fieldType`. */
  function Cast(fieldType: string, value: Value): Value
    requires fieldType == "text" ==> value.TextValue?
  {
    match fieldType
    case "string" => Str(ToStr(value))
    case "text" => Str(value.text)
    case "boolean" => ToBool(value)
    case _ => value
  }

  /**
   * `buildFieldValues`: one cast value per value of the field, in order.  The
   * PHP list it returns is `List(values)`.
   */
  method BuildFieldValues(field: Field, fieldType: string) returns (values: seq<Value>)
    requires fieldType == "text" ==> forall i :: 0 <= i < |field.values| ==> field.values[i].TextValue?
    ensures |values| == |field.values|
    ensures forall i :: 0 <= i < |values| ==> values[i] == Cast(fieldType, field.values[i])
  {
    values := [];
    for i := 0 to |field.values|
      invariant |values| == i
      invariant forall j :: 0 <= j < i ==> values[j] == Cast(fieldType, field.values[j])
    {
      values := values + [Cast(fieldType, field.values[i])];
    }
  }

  /** The field's values cast by its own type. */
  function CastValues(field: Field): seq<Value>
    requires Castable(field)
  {
    seq(|field.values|, i requires 0 <= i < |field.values| => Cast(field.fieldType, field.values[i]))
  }

  // ---------------------------------------------------------------------------
  // Data records and the bulk body

  /** `$data` after one field is written: a field with values is stored, cast, under its identifier; a field without is skipped. */
  function WriteEntry(data: seq<(Key, Value)>, field: Field): seq<(Key, Value)>
    requires Castable(field)
  {
    if field.values == [] then data else Put(data, StrKey(field.id), List(CastValues(field)))
  }

  /** `$data` after the first `n` fields are written onto `data`. */
  function Record(data: seq<(Key, Value)>, fields: seq<(string, Field)>, n: nat): seq<(Key, Value)>
    requires n <= |fields| && AllCastable(fields)
  {
    if n == 0 then data else WriteEntry(Record(data, fields, n - 1), fields[n - 1].1)
  }

  /** An item as the body sees it: its key in the item list, and its fields. */
  datatype Document = Document(key: string, fields: seq<(string, Field)>)

  predicate Indexable(docs: seq<Document>, n: nat)
    requires n <= |docs|
  {
    forall i :: 0 <= i < n ==> AllCastable(docs[i].fields)
  }

  /** The bulk action for a document: `{index: {_id: key, _index: indexId}}`. */
  function Action(indexId: string, key: string): Value {
    Assoc([("index", Assoc([("_id", Str(key)), ("_index", Str(indexId))]))])
  }

  /** The body for the first `n` documents: each one's action, then a record of its own fields. */
  function Body(indexId: string, docs: seq<Document>, n: nat): (body: seq<Value>)
    requires n <= |docs| && Indexable(docs, n)
    ensures |body| == 2 * n
  {
    if n == 0 then []
    else
      var doc := docs[n - 1];
      Body(indexId, docs, n - 1) + [Action(indexId, doc.key), Arr(Record([], doc.fields, |doc.fields|))]
  }

  /** `$params` after `$params['body'][] = ...` has appended `body`: no key at all while it is empty. */
  function BodyParams(body: seq<Value>): Value {
    if body == [] then Arr([]) else Assoc([("body", List(body))])
  }

  /** The index parameters for the documents, before the index-params event. */
  function IndexParams(indexId: string, docs: seq<Document>): Value
    requires Indexable(docs, |docs|)
  {
    BodyParams(Body(indexId, docs, |docs|))
  }

  /** The items' keys and current fields. */
  function Documents(items: seq<(string, Item)>): (docs: seq<Document>)
    reads set i | 0 <= i < |items| :: items[i].1
    ensures |docs| == |items|
    ensures forall i :: 0 <= i < |items| ==> docs[i] == Document(items[i].0, items[i].1.fields)
  {
    if items == [] then []
    else [Document(items[0].0, items[0].1.fields)] + Documents(items[1..])
  }

  // ---------------------------------------------------------------------------
  // The builder

  /** The data record of one item: the inner `foreach`, starting from an empty record. */
  method BuildRecord(fields: seq<(string, Field)>) returns (data: seq<(Key, Value)>)
    requires AllCastable(fields)
    ensures data == Record([], fields, |fields|)
  {
    data := [];
    for f := 0 to |fields|
      invariant data == Record([], fields, f)
    {
      data := WriteField(data, fields[f].1);
    }
  }

  /** One pass of the inner loop: a field with values is cast and stored under its identifier. */
  method WriteField(data: seq<(Key, Value)>, field: Field) returns (data': seq<(Key, Value)>)
    requires Castable(field)
    ensures data' == WriteEntry(data, field)
  {
    data' := data;
    var fieldType := field.fieldType;
    if field.values != [] {
      var values := BuildFieldValues(field, fieldType);
      CastAll(field, values);
      data' := Put(data, StrKey(field.id), List(values));
    }
  }

  lemma CastAll(field: Field, values: seq<Value>)
    requires Castable(field) && |values| == |field.values|
    requires forall i :: 0 <= i < |values| ==> values[i] == Cast(field.fieldType, field.values[i])
    ensures values == CastValues(field)
  {
  }

  /** The fields of `item` after `addSpecialFields`, given its fields before. */
  function Special(item: Item, fields: seq<(string, Field)>): seq<(string, Field)> {
    WithSpecialFields(item.id, item.datasourceId, item.language, fields)
  }

  /** The documents once every item has its special fields, `start` holding the items' documents before. */
  function Prepared(items: seq<(string, Item)>, start: seq<Document>): (docs: seq<Document>)
    requires |start| == |items|
    ensures |docs| == |items|
    ensures forall j :: 0 <= j < |items| ==> docs[j] == Document(items[j].0, Special(items[j].1, start[j].fields))
  {
    seq(|items|, j requires 0 <= j < |items| => Document(items[j].0, Special(items[j].1, start[j].fields)))
  }

  /** An item listed twice has one prepared document. */
  predicate Consistent(items: seq<(string, Item)>, target: seq<Document>) {
    && |target| == |items|
    && forall j, k :: 0 <= j < |items| && 0 <= k < |items| && items[j].1 == items[k].1 ==> target[j].fields == target[k].fields
  }

  /** The item's fields are `after`, or, when not yet `done`, possibly still `before`. */
  ghost predicate Prepped(item: Item, before: seq<(string, Field)>, after: seq<(string, Field)>, done: bool)
    reads item
  {
    item.fields == after || (!done && item.fields == before)
  }

  /**
   * The items after `addSpecialFields` has run on the first `n` of them:
   * `start` holds their documents before and `target` after.
   */
  ghost predicate Stage(items: seq<(string, Item)>, start: seq<Document>, target: seq<Document>, n: nat)
    requires |start| == |items| && |target| == |items|
    reads set i | 0 <= i < |items| :: items[i].1
  {
    n <= |items| && forall j :: 0 <= j < |items| ==> Prepped(items[j].1, start[j].fields, target[j].fields, j < n)
  }

  /** `addSpecialFields` on item `i`: its fields, and those of any other entry for the same item, become the prepared ones. */
  method PrepareItem(items: seq<(string, Item)>, i: nat, ghost start: seq<Document>, ghost target: seq<Document>)
    requires i < |items| && |start| == |items| && Consistent(items, target) && Stage(items, start, target, i)
    requires target[i].fields == Special(items[i].1, start[i].fields)
    modifies items[i].1
    ensures Stage(items, start, target, i + 1)
    ensures items[i].1.fields == target[i].fields
  {
    var item := items[i].1;
    AddSpecialFields(item);
    SpecialFieldsIdempotent(item.id, item.datasourceId, item.language, start[i].fields);
  }

  /**
   * `buildIndexParams`: each item gains its special fields, then its action
   * and record are appended to `body`; the result goes through the
   * index-params event, `event`.  Each record starts empty (see the findings
   * for the source's `$data`, which is never reset).
   */
  method BuildIndexParams(indexId: string, items: seq<(string, Item)>, event: (string, Value) -> Value) returns (params: Value)
    requires forall i :: 0 <= i < |items| ==> AllCastable(items[i].1.fields)
    modifies set i | 0 <= i < |items| :: items[i].1
    ensures forall i :: 0 <= i < |items| ==> items[i].1.fields == Special(items[i].1, old(items[i].1.fields))
    ensures Indexable(Documents(items), |items|)
    ensures params == event(indexId, IndexParams(indexId, Documents(items)))
  {
    ghost var start := Documents(items);
    ghost var target := Prepared(items, start);
    assert Consistent(items, target) by {
      forall j, k | 0 <= j < |items| && 0 <= k < |items| && items[j].1 == items[k].1
        ensures target[j].fields == target[k].fields
      {
        assert start[j].fields == start[k].fields;
      }
    }
    PreparedIndexable(items, start);
    params := Arr([]);
    ghost var body: seq<Value> := [];
    for i := 0 to |items|
      invariant Stage(items, start, target, i)
      invariant body == Body(indexId, target, i)
      invariant params == BodyParams(body)
    {
      var key := items[i].0;
      var item := items[i].1;
      PrepareItem(items, i, start, target);
      var data := BuildRecord(item.fields);
      params := AppendPair(params, body, Action(indexId, key), Arr(data));
      BodyStep(indexId, target, i, data);
      body := body + [Action(indexId, key)] + [Arr(data)];
    }
    StageDone(items, start, target);
    params := event(indexId, params);
  }

  /** `$params['body'][] = $action; $params['body'][] = $data;` */
  method AppendPair(params: Value, ghost body: seq<Value>, action: Value, data: Value) returns (params': Value)
    requires params == BodyParams(body)
    ensures params' == BodyParams(body + [action] + [data])
  {
    BodyPush(body, action);
    params' := SetAt(params, StrKey("body"), Push(At(params, StrKey("body")), action));
    BodyPush(body + [action], data);
    params' := SetAt(params', StrKey("body"), Push(At(params', StrKey("body")), data));
  }

  /**
   * `$data` as the source keeps it: it is never reset between items, so the
   * record of document `n` starts from the record of the document before.
   */
  function CarriedData(docs: seq<Document>, n: nat): seq<(Key, Value)>
    requires n <= |docs| && Indexable(docs, n)
  {
    if n == 0 then [] else Record(CarriedData(docs, n - 1), docs[n - 1].fields, |docs[n - 1].fields|)
  }

  /** The body the source builds for the first `n` documents, each record carrying the previous ones over. */
  function BodyAsWritten(indexId: string, docs: seq<Document>, n: nat): (body: seq<Value>)
    requires n <= |docs| && Indexable(docs, n)
    ensures |body| == 2 * n
  {
    if n == 0 then []
    else BodyAsWritten(indexId, docs, n - 1) + [Action(indexId, docs[n - 1].key), Arr(CarriedData(docs, n))]
  }

  /** Values that could be cast before the special fields were added still can. */
  lemma PreparedIndexable(items: seq<(string, Item)>, start: seq<Document>)
    requires |start| == |items| && Indexable(start, |start|)
    ensures Indexable(Prepared(items, start), |items|)
  {
    forall j | 0 <= j < |items| ensures AllCastable(Prepared(items, start)[j].fields) {
      SpecialFieldsCastable(items[j].1.id, items[j].1.datasourceId, items[j].1.language, start[j].fields);
    }
  }

  /** Once every item has been prepared, the items are the prepared documents. */
  lemma StageDone(items: seq<(string, Item)>, start: seq<Document>, target: seq<Document>)
    requires |start| == |items| && target == Prepared(items, start) && Stage(items, start, target, |items|)
    ensures Documents(items) == target
  {
  }

  /** The next document adds its action and its record to the body. */
  lemma BodyStep(indexId: string, docs: seq<Document>, n: nat, data: seq<(Key, Value)>)
    requires n < |docs| && Indexable(docs, n + 1)
    requires data == Record([], docs[n].fields, |docs[n].fields|)
    ensures Body(indexId, docs, n + 1) == Body(indexId, docs, n) + [Action(indexId, docs[n].key)] + [Arr(data)]
  {
  }

  /** `$params['body'][] = $x` appends `$x` to the body. */
  lemma BodyPush(body: seq<Value>, x: Value)
    ensures SetAt(BodyParams(body), StrKey("body"), Push(At(BodyParams(body), StrKey("body")), x)) == BodyParams(body + [x])
  {
    if body == [] {
      BodyPushFirst(x);
      assert body + [x] == [x];
    } else {
      BodyPushNext(body, x);
    }
  }

  lemma BodyPushFirst(x: Value)
    ensures SetAt(Arr([]), StrKey("body"), Push(At(Arr([]), StrKey("body")), x)) == Assoc([("body", List([x]))])
  {
    assert Push(Null, x) == List([x]);
  }

  lemma BodyPushNext(body: seq<Value>, x: Value)
    requires body != []
    ensures SetAt(Assoc([("body", List(body))]), StrKey("body"), Push(At(Assoc([("body", List(body))]), StrKey("body")), x))
      == Assoc([("body", List(body + [x]))])
  {
    AssocOne("body", List(body));
    PushList(body, x);
    AssocOne("body", List(body + [x]));
  }

  // ---------------------------------------------------------------------------
  // Properties of the special fields

  /** The special fields read back as the item's id, datasource and language; every other field as before. */
  lemma SpecialFieldsRead(id: string, datasourceId: string, language: string, fields: seq<(string, Field)>, name: string)
    ensures Get(WithSpecialFields(id, datasourceId, language, fields), name) ==
      if name == "search_api_id" then Some(StringField(name, id))
      else if name == "search_api_datasource" then Some(StringField(name, datasourceId))
      else if name == "search_api_language" then Some(StringField(name, language))
      else Get(fields, name)
  {
    var withId := Put(fields, "search_api_id", StringField("search_api_id", id));
    var withDatasource := Put(withId, "search_api_datasource", StringField("search_api_datasource", datasourceId));
    PutGet(fields, "search_api_id", StringField("search_api_id", id), name);
    PutGet(withId, "search_api_datasource", StringField("search_api_datasource", datasourceId), name);
    PutGet(withDatasource, "search_api_language", StringField("search_api_language", language), name);
  }

  /** Adding the special fields twice is adding them once. */
  lemma SpecialFieldsIdempotent(id: string, datasourceId: string, language: string, fields: seq<(string, Field)>)
    ensures
      var once := WithSpecialFields(id, datasourceId, language, fields);
      WithSpecialFields(id, datasourceId, language, once) == once
  {
    var once := WithSpecialFields(id, datasourceId, language, fields);
    SpecialFieldsRead(id, datasourceId, language, fields, "search_api_id");
    PutSame(once, "search_api_id", StringField("search_api_id", id));
    SpecialFieldsRead(id, datasourceId, language, fields, "search_api_datasource");
    PutSame(once, "search_api_datasource", StringField("search_api_datasource", datasourceId));
    SpecialFieldsRead(id, datasourceId, language, fields, "search_api_language");
    PutSame(once, "search_api_language", StringField("search_api_language", language));
  }

  /** An item without special fields keeps its own fields first, then gains the three in order. */
  lemma SpecialFieldsAppended(id: string, datasourceId: string, language: string, fields: seq<(string, Field)>)
    requires forall i :: 0 <= i < |fields| ==> fields[i].0 !in SpecialFieldNames
    ensures WithSpecialFields(id, datasourceId, language, fields) == fields + [
      ("search_api_id", StringField("search_api_id", id)),
      ("search_api_datasource", StringField("search_api_datasource", datasourceId)),
      ("search_api_language", StringField("search_api_language", language))]
  {
    var withId := Put(fields, "search_api_id", StringField("search_api_id", id));
    assert !HasKey(fields, "search_api_id");
    assert !HasKey(withId, "search_api_datasource");
    var withDatasource := Put(withId, "search_api_datasource", StringField("search_api_datasource", datasourceId));
    assert !HasKey(withDatasource, "search_api_language");
  }

  /** The special fields are string fields, so every value can still be cast. */
  lemma SpecialFieldsCastable(id: string, datasourceId: string, language: string, fields: seq<(string, Field)>)
    requires AllCastable(fields)
    ensures AllCastable(WithSpecialFields(id, datasourceId, language, fields))
  {
    var withId := Put(fields, "search_api_id", StringField("search_api_id", id));
    PutCastable(fields, "search_api_id", StringField("search_api_id", id));
    var withDatasource := Put(withId, "search_api_datasource", StringField("search_api_datasource", datasourceId));
    PutCastable(withId, "search_api_datasource", StringField("search_api_datasource", datasourceId));
    PutCastable(withDatasource, "search_api_language", StringField("search_api_language", language));
  }

  lemma {:induction false} PutCastable(fields: seq<(string, Field)>, name: string, field: Field)
    requires AllCastable(fields) && Castable(field)
    ensures AllCastable(Put(fields, name, field))
  {
    if fields != [] && fields[0].0 != name {
      PutCastable(fields[1..], name, field);
      assert Put(fields, name, field) == [fields[0]] + Put(fields[1..], name, field);
    }
  }
}
