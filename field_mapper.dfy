/**
 * The mapping compiler: every field of an index, and the three special fields
 * every index has, becomes an Elasticsearch property mapping chosen by the
 * field's Search API type; the properties start with the document id's.
 */
module FieldMapper {
  import opened Wrappers
  import opened Dict
  import opened Php
  import opened SearchApi

  /** The id property every mapping starts with. */
  function IdMapping(): Value {
    Assoc([("type", Str("keyword")), ("index", Str("true"))])
  }

  /** A `keyword` property: what strings, URIs, tokens and the special fields map to. */
  function KeywordMapping(): Value {
    Assoc([("type", Str("keyword"))])
  }

  /** The date format dates are indexed with. */
  const DateFormat: string := "strict_date_optional_time||epoch_second"

  /** The largest keyword a text field's `keyword` sub-field keeps. */
  const IgnoreAbove: int := 256

  /** The Search API types with a mapping of their own. */
  const MappedTypes: seq<string> :=
    ["text", "uri", "string", "token", "integer", "duration", "boolean", "decimal", "date", "attachment", "object", "location"]

  /** The mapping a field's type selects, before the field-mapping event. */
  function TypeMapping(field: Field): Value {
    match field.fieldType
    case "text" => Assoc([("type", Str("text")), ("boost", field.boost),
                          ("fields", Assoc([("keyword", Assoc([("type", Str("keyword")), ("ignore_above", Int(IgnoreAbove))]))]))])
    case "uri" => KeywordMapping()
    case "string" => KeywordMapping()
    case "token" => KeywordMapping()
    case "integer" => Assoc([("type", Str("integer"))])
    case "duration" => Assoc([("type", Str("integer"))])
    case "boolean" => Assoc([("type", Str("boolean"))])
    case "decimal" => Assoc([("type", Str("float"))])
    case "date" => Assoc([("type", Str("date")), ("format", Str(DateFormat))])
    case "attachment" => Assoc([("type", Str("attachment"))])
    case "object" => Assoc([("type", Str("nested"))])
    case "location" => Assoc([("type", Str("geo_point"))])
    case _ => Arr([])
  }

  /**
   * `mapFieldProperty`: the type's mapping, as the field-mapping event leaves
   * it.  `event` stands for the listeners; with none it returns the mapping
   * it is given.
   */
  function MapFieldProperty(field: Field, event: (Field, Value) -> Value): (mapping: Value)
    ensures (forall f, m :: event(f, m) == m) ==> mapping == TypeMapping(field)
  {
    event(field, TypeMapping(field))
  }

  /** A type has a mapping exactly when it is one of the mapped types; any other maps to `[]`. */
  lemma TypeMappingSet(field: Field)
    ensures Isset(TypeMapping(field), StrKey("type")) <==> field.fieldType in MappedTypes
    ensures field.fieldType !in MappedTypes ==> TypeMapping(field) == Arr([])
  {
    var t := field.fieldType;
    if t in MappedTypes {
      assert TypeMapping(field).entries[0].0 == StrKey("type");
    }
  }

  /** Strings, URIs and tokens map to a plain `keyword`. */
  lemma KeywordTypes(field: Field)
    ensures field.fieldType in ["uri", "string", "token"] ==> TypeMapping(field) == KeywordMapping()
  {
  }

  /** Integers and durations map to `integer`, booleans to `boolean`, decimals to `float`. */
  lemma ScalarTypes(field: Field)
    ensures field.fieldType in ["integer", "duration"] ==> Prop(TypeMapping(field), "type") == Str("integer")
    ensures field.fieldType == "boolean" ==> Prop(TypeMapping(field), "type") == Str("boolean")
    ensures field.fieldType == "decimal" ==> Prop(TypeMapping(field), "type") == Str("float")
  {
    var t := field.fieldType;
    if t in ["integer", "duration"] {
      TypeOnly("integer");
    } else if t == "boolean" {
      TypeOnly("boolean");
    } else if t == "decimal" {
      TypeOnly("float");
    }
  }

  /** Dates map to `date` in the fixed format. */
  lemma DateType(field: Field)
    ensures field.fieldType == "date" ==>
      Prop(TypeMapping(field), "type") == Str("date") && Prop(TypeMapping(field), "format") == Str(DateFormat)
  {
    if field.fieldType == "date" {
      var es := [("type", Str("date")), ("format", Str(DateFormat))];
      assert TypeMapping(field) == Assoc(es);
      PropAssoc(es, 0);
      PropAssoc(es, 1);
    }
  }

  /** Attachments map to `attachment`, objects to `nested`, locations to `geo_point`. */
  lemma StructuredTypes(field: Field)
    ensures field.fieldType == "attachment" ==> Prop(TypeMapping(field), "type") == Str("attachment")
    ensures field.fieldType == "object" ==> Prop(TypeMapping(field), "type") == Str("nested")
    ensures field.fieldType == "location" ==> Prop(TypeMapping(field), "type") == Str("geo_point")
  {
    var t := field.fieldType;
    if t == "attachment" {
      TypeOnly("attachment");
    } else if t == "object" {
      TypeOnly("nested");
    } else if t == "location" {
      TypeOnly("geo_point");
    }
  }

  lemma TypeOnly(name: string)
    ensures Prop(Assoc([("type", Str(name))]), "type") == Str(name)
  {
    PropAssoc([("type", Str(name))], 0);
  }

  /** A text field is analysed text that keeps its boost, with a `keyword` sub-field capped at 256. */
  lemma TextMapping(field: Field)
    requires field.fieldType == "text"
    ensures Prop(TypeMapping(field), "type") == Str("text")
    ensures Prop(TypeMapping(field), "boost") == field.boost
    ensures Prop(Prop(Prop(TypeMapping(field), "fields"), "keyword"), "type") == Str("keyword")
    ensures Prop(Prop(Prop(TypeMapping(field), "fields"), "keyword"), "ignore_above") == Int(IgnoreAbove)
  {
    var keyword := [("type", Str("keyword")), ("ignore_above", Int(IgnoreAbove))];
    var es := [("type", Str("text")), ("boost", field.boost), ("fields", Assoc([("keyword", Assoc(keyword))]))];
    assert TypeMapping(field) == Assoc(es);
    assert Prop(Assoc(es), "type") == Str("text") by { PropAssoc(es, 0); }
    assert Prop(Assoc(es), "boost") == field.boost by { PropAssoc(es, 1); }
    assert Prop(Assoc(es), "fields") == Assoc([("keyword", Assoc(keyword))]) by { PropAssoc(es, 2); }
    assert Prop(Assoc([("keyword", Assoc(keyword))]), "keyword") == Assoc(keyword) by {
      PropAssoc([("keyword", Assoc(keyword))], 0);
    }
    assert Prop(Assoc(keyword), "type") == Str("keyword") by { PropAssoc(keyword, 0); }
    assert Prop(Assoc(keyword), "ignore_above") == Int(IgnoreAbove) by { PropAssoc(keyword, 1); }
  }

  // ---------------------------------------------------------------------------
  // Special fields

  /** The special fields: one string field per special name, in that order. */
  function SpecialFields(): seq<(string, Field)> {
    seq(|SpecialFieldNames|, i requires 0 <= i < |SpecialFieldNames| =>
      (SpecialFieldNames[i], CreateField(SpecialFieldNames[i], "string")))
  }

  /** `getSpecialFields`: a string field created for each special name, keyed by the name. */
  method GetSpecialFields() returns (fields: seq<(string, Field)>)
    ensures fields == SpecialFields()
  {
    var names := SpecialFieldNames;
    fields := [];
    for i := 0 to |names|
      invariant fields == seq(i, j requires 0 <= j < i => (names[j], CreateField(names[j], "string")))
    {
      assert !HasKey(fields, names[i]) by {
        forall j | 0 <= j < i ensures fields[j].0 != names[i] {
          assert names[j] != names[i];
        }
      }
      fields := Put(fields, names[i], CreateField(names[i], "string"));
    }
  }

  /** The special fields are string fields, with distinct names, so they map to keyword properties. */
  lemma SpecialFieldsShape()
    ensures UniqueKeys(SpecialFields())
    ensures forall i :: 0 <= i < |SpecialFields()| ==>
      SpecialFields()[i].1.fieldType == "string" && TypeMapping(SpecialFields()[i].1) == KeywordMapping()
  {
  }

  /** A special name reads its string field. */
  lemma SpecialFieldGet(name: string)
    requires name in SpecialFieldNames
    ensures Get(SpecialFields(), name) == Some(CreateField(name, "string"))
  {
    var i :| 0 <= i < |SpecialFieldNames| && SpecialFieldNames[i] == name;
    SpecialFieldsShape();
    GetAt(SpecialFields(), i);
  }

  // ---------------------------------------------------------------------------
  // The mapping parameters

  /** The fields mapped: the index's own, then the special fields it lacks (PHP's `+`). */
  function MappedFields(indexFields: seq<(string, Field)>): seq<(string, Field)> {
    Union(indexFields, SpecialFields())
  }

  /** The properties after mapping the first `n` fields, each set by its id after `id`. */
  function Properties(fields: seq<(string, Field)>, event: (Field, Value) -> Value, n: nat): seq<(Key, Value)>
    requires n <= |fields|
  {
    if n == 0 then [(StrKey("id"), IdMapping())]
    else Put(Properties(fields, event, n - 1), StrKey(fields[n - 1].0), MapFieldProperty(fields[n - 1].1, event))
  }

  /** `{index: indexId, body: {properties: ...}}`. */
  function MappingParams(indexId: string, indexFields: seq<(string, Field)>, event: (Field, Value) -> Value): Value {
    var fields := MappedFields(indexFields);
    Assoc([("index", Str(indexId)), ("body", Assoc([("properties", Arr(Properties(fields, event, |fields|)))]))])
  }

  /** `mapFieldParams`: the properties filled field by field, then placed under `body.properties`. */
  method MapFieldParams(indexId: string, index: Index, event: (Field, Value) -> Value) returns (params: Value)
    ensures params == MappingParams(indexId, index.fields, event)
  {
    params := Assoc([("index", Str(indexId))]);
    var properties := [(StrKey("id"), IdMapping())];
    var special := GetSpecialFields();
    var fields := Union(index.fields, special);
    for i := 0 to |fields|
      invariant properties == Properties(fields, event, i)
    {
      var (fieldId, fieldData) := fields[i];
      properties := Put(properties, StrKey(fieldId), MapFieldProperty(fieldData, event));
    }
    params := SetPath(params, [StrKey("body"), StrKey("properties")], Arr(properties));
    BodyWritten(indexId, Arr(properties));
  }

  /** `$params['body']['properties'] = $properties` on `['index' => $indexId]`. */
  lemma BodyWritten(indexId: string, properties: Value)
    ensures SetPath(Assoc([("index", Str(indexId))]), [StrKey("body"), StrKey("properties")], properties)
      == Assoc([("index", Str(indexId)), ("body", Assoc([("properties", properties)]))])
  {
    var params := Assoc([("index", Str(indexId))]);
    AssocOne("index", Str(indexId));
    SetPath2(params, StrKey("body"), StrKey("properties"), properties);
    SetAtNull(StrKey("properties"), properties);
    AssocOne("properties", properties);
    SetAtNew([(StrKey("index"), Str(indexId))], StrKey("body"), Arr([(StrKey("properties"), properties)]));
    AssocTwo("index", Str(indexId), "body", Arr([(StrKey("properties"), properties)]));
  }

  // ---------------------------------------------------------------------------
  // Properties of the mapping

  /** The property under key `k` of the mapping of `fields`: a field's mapping under its id, else the id mapping for `id`. */
  function PropertyOf(fields: seq<(string, Field)>, event: (Field, Value) -> Value, k: Key): Option<Value> {
    if k.StrKey? && HasKey(fields, k.s) then Some(MapFieldProperty(Get(fields, k.s).value, event))
    else if k == StrKey("id") then Some(IdMapping())
    else None
  }

  /** Adding a field with a new id sets its property and leaves the others. */
  lemma PropertyOfAppend(prefix: seq<(string, Field)>, id: string, field: Field, event: (Field, Value) -> Value, k: Key)
    requires !HasKey(prefix, id)
    ensures PropertyOf(prefix + [(id, field)], event, k) ==
      if k == StrKey(id) then Some(MapFieldProperty(field, event)) else PropertyOf(prefix, event, k)
  {
    if k.StrKey? {
      GetAppend(prefix, id, field, k.s);
      HasKeyConcat(prefix, [(id, field)], k.s);
    }
  }

  /** The properties, read by key, when the field ids are distinct. */
  lemma {:induction false} PropertiesRead(fields: seq<(string, Field)>, event: (Field, Value) -> Value, n: nat, k: Key)
    requires n <= |fields| && UniquePrefix(fields, n)
    ensures Get(Properties(fields, event, n), k) == PropertyOf(fields[..n], event, k)
  {
    if n == 0 {
      assert fields[..0] == [];
    } else {
      var (id, field) := fields[n - 1];
      var prev := Properties(fields, event, n - 1);
      var m := MapFieldProperty(field, event);
      assert Get(Properties(fields, event, n), k) == if k == StrKey(id) then Some(m) else Get(prev, k) by {
        PutGet(prev, StrKey(id), m, k);
      }
      assert Get(prev, k) == PropertyOf(fields[..n - 1], event, k) by {
        PropertiesRead(fields, event, n - 1, k);
      }
      assert PropertyOf(fields[..n], event, k) == if k == StrKey(id) then Some(m) else PropertyOf(fields[..n - 1], event, k) by {
        TakeLast(fields, n);
        PropertyOfAppend(fields[..n - 1], id, field, event, k);
      }
    }
  }

  /**
   * An index field's property is its own mapping, also when it has a special
   * field's name; a special field the index lacks maps as a string field.
   */
  lemma IndexFieldsWin(indexFields: seq<(string, Field)>, event: (Field, Value) -> Value, name: string)
    requires UniqueKeys(indexFields)
    ensures
      var fields := MappedFields(indexFields);
      var properties := Properties(fields, event, |fields|);
      && (HasKey(indexFields, name) ==>
            Get(properties, StrKey(name)) == Some(MapFieldProperty(Get(indexFields, name).value, event)))
      && (!HasKey(indexFields, name) && name in SpecialFieldNames ==>
            Get(properties, StrKey(name)) == Some(MapFieldProperty(CreateField(name, "string"), event)))
  {
    var fields := MappedFields(indexFields);
    var properties := Properties(fields, event, |fields|);
    assert Get(properties, StrKey(name)) == PropertyOf(fields, event, StrKey(name)) by {
      UnionUnique(indexFields, SpecialFields());
      UniqueKeysPrefix(fields, |fields|);
      PropertiesRead(fields, event, |fields|, StrKey(name));
      assert fields[..|fields|] == fields;
    }
    assert Get(fields, name) == if HasKey(indexFields, name) then Get(indexFields, name) else Get(SpecialFields(), name);
    if !HasKey(indexFields, name) && name in SpecialFieldNames {
      SpecialFieldGet(name);
    }
  }

  /** One property per field, in field order. */
  function FieldProperties(fields: seq<(string, Field)>, event: (Field, Value) -> Value, n: nat): (r: seq<(Key, Value)>)
    requires n <= |fields|
    ensures |r| == n && forall i :: 0 <= i < n ==> r[i] == (StrKey(fields[i].0), MapFieldProperty(fields[i].1, event))
  {
    if n == 0 then [] else FieldProperties(fields, event, n - 1) + [(StrKey(fields[n - 1].0), MapFieldProperty(fields[n - 1].1, event))]
  }

  /**
   * With distinct field ids and no field named `id`, the properties are the id
   * property followed by one property per field, in field order.
   */
  lemma {:induction false} PropertiesInOrder(fields: seq<(string, Field)>, event: (Field, Value) -> Value, n: nat)
    requires n <= |fields| && UniqueKeys(fields) && !HasKey(fields, "id")
    ensures Properties(fields, event, n) == [(StrKey("id"), IdMapping())] + FieldProperties(fields, event, n)
  {
    if n > 0 {
      PropertiesInOrder(fields, event, n - 1);
      var k := StrKey(fields[n - 1].0);
      assert !HasKey(Properties(fields, event, n - 1), k) by {
        UniqueKeysPrefix(fields, n - 1);
        PropertiesRead(fields, event, n - 1, k);
        PrefixMissing(fields, n);
        assert fields[n - 1].0 != "id";
      }
      PropertiesStep(fields, event, n);
    }
  }

  lemma PropertiesStep(fields: seq<(string, Field)>, event: (Field, Value) -> Value, n: nat)
    requires 0 < n <= |fields|
    requires Properties(fields, event, n - 1) == [(StrKey("id"), IdMapping())] + FieldProperties(fields, event, n - 1)
    requires !HasKey(Properties(fields, event, n - 1), StrKey(fields[n - 1].0))
    ensures Properties(fields, event, n) == [(StrKey("id"), IdMapping())] + FieldProperties(fields, event, n)
  {
    var e := (StrKey(fields[n - 1].0), MapFieldProperty(fields[n - 1].1, event));
    var before := FieldProperties(fields, event, n - 1);
    assert Properties(fields, event, n) == ([(StrKey("id"), IdMapping())] + before) + [e];
    assert ([(StrKey("id"), IdMapping())] + before) + [e] == [(StrKey("id"), IdMapping())] + (before + [e]);
  }

  /** The special fields, written out. */
  lemma SpecialFieldsListed()
    ensures SpecialFields() == [("search_api_id", CreateField("search_api_id", "string")),
      ("search_api_datasource", CreateField("search_api_datasource", "string")),
      ("search_api_language", CreateField("search_api_language", "string"))]
  {
  }

  /** The index fields of the unit test: a text field with boost 1.1 and a string field. */
  function ExampleIndexFields(field1: string, field2: string): seq<(string, Field)> {
    [(field1, Field(field1, "text", Float("1.1"), [])), (field2, CreateField(field2, "string"))]
  }

  /** The unit test's fields and the special fields, written out. */
  function ExampleListed(field1: string, field2: string): seq<(string, Field)> {
    [(field1, Field(field1, "text", Float("1.1"), [])), (field2, CreateField(field2, "string")),
     ("search_api_id", CreateField("search_api_id", "string")),
     ("search_api_datasource", CreateField("search_api_datasource", "string")),
     ("search_api_language", CreateField("search_api_language", "string"))]
  }

  /** The fields of the unit test, with the special fields after them. */
  lemma ExampleFields(field1: string, field2: string)
    requires field1 !in SpecialFieldNames && field2 !in SpecialFieldNames
    ensures MappedFields(ExampleIndexFields(field1, field2)) == ExampleListed(field1, field2)
  {
    var fields := ExampleIndexFields(field1, field2);
    var special := SpecialFields();
    assert fields + special == ExampleListed(field1, field2) by {
      SpecialFieldsListed();
    }
    assert Union(fields, special) == fields + special by {
      SpecialFieldsListed();
      assert forall i :: 0 <= i < |special| ==> !HasKey(fields, special[i].0);
      SpecialFieldsShape();
      UnionDisjoint(fields, special);
    }
  }

  /** The unit test's field ids are distinct, and none is `id`. */
  lemma ExampleUnique(field1: string, field2: string)
    requires field1 != field2
    requires field1 !in SpecialFieldNames && field2 !in SpecialFieldNames && field1 != "id" && field2 != "id"
    ensures UniqueKeys(ExampleListed(field1, field2)) && !HasKey(ExampleListed(field1, field2), "id")
  {
  }

  /** A text field maps to the text mapping with its boost, with no listener. */
  lemma TextFieldProperty(name: string, boost: Value)
    ensures MapFieldProperty(Field(name, "text", boost, []), (f, m) => m) == Assoc([("type", Str("text")), ("boost", boost),
      ("fields", Assoc([("keyword", Assoc([("type", Str("keyword")), ("ignore_above", Int(256))]))]))])
  {
  }

  /** A string field maps to a keyword, with no listener. */
  lemma StringFieldProperty(name: string)
    ensures MapFieldProperty(CreateField(name, "string"), (f, m) => m) == KeywordMapping()
  {
  }

  /** Five fields with distinct ids, none of them `id`, map to the id property and five properties, in order. */
  lemma FiveProperties(fields: seq<(string, Field)>, event: (Field, Value) -> Value)
    requires |fields| == 5 && UniqueKeys(fields) && !HasKey(fields, "id")
    ensures Properties(fields, event, 5) == [(StrKey("id"), IdMapping()),
      (StrKey(fields[0].0), MapFieldProperty(fields[0].1, event)),
      (StrKey(fields[1].0), MapFieldProperty(fields[1].1, event)),
      (StrKey(fields[2].0), MapFieldProperty(fields[2].1, event)),
      (StrKey(fields[3].0), MapFieldProperty(fields[3].1, event)),
      (StrKey(fields[4].0), MapFieldProperty(fields[4].1, event))]
  {
    var props := FieldProperties(fields, event, 5);
    assert Properties(fields, event, 5) == [(StrKey("id"), IdMapping())] + props by {
      PropertiesInOrder(fields, event, 5);
    }
    FiveEntries(props, props[0], props[1], props[2], props[3], props[4]);
    ConsFive((StrKey("id"), IdMapping()), props[0], props[1], props[2], props[3], props[4]);
  }

  lemma ConsFive<T>(x: T, a: T, b: T, c: T, d: T, e: T)
    ensures [x] + [a, b, c, d, e] == [x, a, b, c, d, e]
  {
  }

  lemma FiveEntries<T>(s: seq<T>, a: T, b: T, c: T, d: T, e: T)
    requires |s| == 5 && s[0] == a && s[1] == b && s[2] == c && s[3] == d && s[4] == e
    ensures s == [a, b, c, d, e]
  {
  }

  /** The properties of the unit test's fields, with no listener. */
  lemma ExampleProperties(field1: string, field2: string)
    requires field1 != field2
    requires field1 !in SpecialFieldNames && field2 !in SpecialFieldNames && field1 != "id" && field2 != "id"
    ensures
      var fields := MappedFields(ExampleIndexFields(field1, field2));
      Properties(fields, (f, m) => m, |fields|) == [(StrKey("id"), IdMapping()),
      (StrKey(field1), Assoc([("type", Str("text")), ("boost", Float("1.1")),
        ("fields", Assoc([("keyword", Assoc([("type", Str("keyword")), ("ignore_above", Int(256))]))]))])),
      (StrKey(field2), KeywordMapping()), (StrKey("search_api_id"), KeywordMapping()),
      (StrKey("search_api_datasource"), KeywordMapping()), (StrKey("search_api_language"), KeywordMapping())]
  {
    var event := (f: Field, m: Value) => m;
    var listed := ExampleListed(field1, field2);
    ExampleFields(field1, field2);
    ExampleUnique(field1, field2);
    FiveProperties(listed, event);
    TextFieldProperty(field1, Float("1.1"));
    StringFieldProperty(field2);
    StringFieldProperty("search_api_id");
    StringFieldProperty("search_api_datasource");
    StringFieldProperty("search_api_language");
  }

  /**
   * The unit test: a text field with boost 1.1 and a string field map to
   * `id`, the text mapping, a keyword, then the three special keyword fields.
   */
  lemma ExampleMapping(indexId: string, field1: string, field2: string)
    requires field1 != field2
    requires field1 !in SpecialFieldNames && field2 !in SpecialFieldNames && field1 != "id" && field2 != "id"
    ensures
      var textMapping := Assoc([("type", Str("text")), ("boost", Float("1.1")),
        ("fields", Assoc([("keyword", Assoc([("type", Str("keyword")), ("ignore_above", Int(256))]))]))]);
      MappingParams(indexId, ExampleIndexFields(field1, field2), (f, m) => m) ==
        Assoc([("index", Str(indexId)), ("body", Assoc([("properties", Assoc([
          ("id", Assoc([("type", Str("keyword")), ("index", Str("true"))])),
          (field1, textMapping),
          (field2, Assoc([("type", Str("keyword"))])),
          ("search_api_id", Assoc([("type", Str("keyword"))])),
          ("search_api_datasource", Assoc([("type", Str("keyword"))])),
          ("search_api_language", Assoc([("type", Str("keyword"))]))]))]))])
  {
    ExampleProperties(field1, field2);
    ExampleEntries(field1, field2);
  }

  lemma ExampleEntries(field1: string, field2: string)
    ensures Assoc([
          ("id", Assoc([("type", Str("keyword")), ("index", Str("true"))])),
          (field1, Assoc([("type", Str("text")), ("boost", Float("1.1")),
            ("fields", Assoc([("keyword", Assoc([("type", Str("keyword")), ("ignore_above", Int(256))]))]))])),
          (field2, Assoc([("type", Str("keyword"))])),
          ("search_api_id", Assoc([("type", Str("keyword"))])),
          ("search_api_datasource", Assoc([("type", Str("keyword"))])),
          ("search_api_language", Assoc([("type", Str("keyword"))]))]).entries
      == [(StrKey("id"), IdMapping()),
      (StrKey(field1), Assoc([("type", Str("text")), ("boost", Float("1.1")),
        ("fields", Assoc([("keyword", Assoc([("type", Str("keyword")), ("ignore_above", Int(256))]))]))])),
      (StrKey(field2), KeywordMapping()), (StrKey("search_api_id"), KeywordMapping()),
      (StrKey("search_api_datasource"), KeywordMapping()), (StrKey("search_api_language"), KeywordMapping())]
  {
  }
}
