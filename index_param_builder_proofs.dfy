/** Properties of the bulk index compiler: casts, records, the body, and the source's own unit test. */
module IndexParamBuilderProofs {
  import opened Wrappers
  import opened Dict
  import opened Php
  import opened SearchApi
  import opened IndexParamBuilder

  // ---------------------------------------------------------------------------
  // Casting

  /**
   * A string or text field keeps each value's string form, a boolean field
   * its truthiness, and any other field the value itself; casting a cast
   * value again changes nothing.
   */
  lemma CastPreserves(fieldType: string, v: Value)
    requires fieldType == "text" ==> v.TextValue?
    ensures fieldType in {"string", "text"} ==> Cast(fieldType, v).Str? && ToStr(Cast(fieldType, v)) == ToStr(v)
    ensures fieldType == "boolean" ==> Cast(fieldType, v).Bool? && (Empty(Cast(fieldType, v)) <==> Empty(v))
    ensures fieldType !in {"string", "text", "boolean"} ==> Cast(fieldType, v) == v
    ensures fieldType != "text" ==> Cast(fieldType, Cast(fieldType, v)) == Cast(fieldType, v)
  {
  }

  // ---------------------------------------------------------------------------
  // Data records

  /** Some field among the first `n` has values and is stored under `k`. */
  predicate Written(fields: seq<(string, Field)>, n: nat, k: Key)
    requires n <= |fields|
  {
    exists j :: 0 <= j < n && fields[j].1.values != [] && k == StrKey(fields[j].1.id)
  }

  /** Writing a field changes the lookup of its own identifier only, and only when it has values. */
  lemma EntryGet(data: seq<(Key, Value)>, field: Field, k: Key)
    requires Castable(field)
    ensures Get(WriteEntry(data, field), k) ==
      if field.values != [] && k == StrKey(field.id) then Some(List(CastValues(field))) else Get(data, k)
  {
    if field.values != [] {
      PutGet(data, StrKey(field.id), List(CastValues(field)), k);
    }
  }

  /** A record holds a key exactly when it held it already or a field with values is stored under it. */
  lemma {:induction false} RecordKeys(data: seq<(Key, Value)>, fields: seq<(string, Field)>, n: nat, k: Key)
    requires n <= |fields| && AllCastable(fields)
    ensures HasKey(Record(data, fields, n), k) <==> HasKey(data, k) || Written(fields, n, k)
  {
    if n > 0 {
      var prev, field := Record(data, fields, n - 1), fields[n - 1].1;
      assert HasKey(Record(data, fields, n), k) <==> HasKey(prev, k) || (field.values != [] && k == StrKey(field.id)) by {
        EntryGet(prev, field, k);
      }
      assert HasKey(prev, k) <==> HasKey(data, k) || Written(fields, n - 1, k) by {
        RecordKeys(data, fields, n - 1, k);
      }
      WrittenStep(fields, n, k);
    }
  }

  lemma WrittenStep(fields: seq<(string, Field)>, n: nat, k: Key)
    requires 0 < n <= |fields|
    ensures Written(fields, n, k) <==> Written(fields, n - 1, k) || (fields[n - 1].1.values != [] && k == StrKey(fields[n - 1].1.id))
  {
    if Written(fields, n, k) {
      var j :| 0 <= j < n && fields[j].1.values != [] && k == StrKey(fields[j].1.id);
      if j < n - 1 {
        assert Written(fields, n - 1, k);
      }
    }
  }

  /** A key no field stores under reads as it did before the fields were written. */
  lemma {:induction false} RecordUntouched(data: seq<(Key, Value)>, fields: seq<(string, Field)>, n: nat, k: Key)
    requires n <= |fields| && AllCastable(fields)
    requires forall j :: 0 <= j < n ==> k != StrKey(fields[j].1.id)
    ensures Get(Record(data, fields, n), k) == Get(data, k)
  {
    if n > 0 {
      var prev := Record(data, fields, n - 1);
      assert Get(prev, k) == Get(data, k) by { RecordUntouched(data, fields, n - 1, k); }
      assert Get(Record(data, fields, n), k) == Get(prev, k) by { EntryGet(prev, fields[n - 1].1, k); }
    }
  }

  /** Search API keys an item's fields by identifier, so no two fields share one. */
  predicate DistinctIds(fields: seq<(string, Field)>) {
    forall a, b :: 0 <= a < b < |fields| ==> fields[a].1.id != fields[b].1.id
  }

  /** A field with values is stored, cast, under its identifier; a field without leaves that key as it was. */
  lemma {:induction false} RecordValue(data: seq<(Key, Value)>, fields: seq<(string, Field)>, n: nat, j: nat)
    requires n <= |fields| && AllCastable(fields) && DistinctIds(fields) && j < n
    ensures Get(Record(data, fields, n), StrKey(fields[j].1.id)) ==
      if fields[j].1.values == [] then Get(data, StrKey(fields[j].1.id)) else Some(List(CastValues(fields[j].1)))
  {
    var k := StrKey(fields[j].1.id);
    EntryGet(Record(data, fields, n - 1), fields[n - 1].1, k);
    if j < n - 1 {
      RecordValue(data, fields, n - 1, j);
    } else if fields[j].1.values == [] {
      RecordUntouched(data, fields, n - 1, k);
    }
  }

  /** The entries of the first `n` fields that have values, in field order. */
  function Stored(fields: seq<(string, Field)>, n: nat): seq<(Key, Value)>
    requires n <= |fields| && AllCastable(fields)
  {
    if n == 0 then []
    else
      var field := fields[n - 1].1;
      Stored(fields, n - 1) + if field.values == [] then [] else [(StrKey(field.id), List(CastValues(field)))]
  }

  /** With distinct identifiers, a fresh record lists the fields that have values, in field order. */
  lemma {:induction false} RecordInOrder(fields: seq<(string, Field)>, n: nat)
    requires n <= |fields| && AllCastable(fields) && DistinctIds(fields)
    ensures Record([], fields, n) == Stored(fields, n)
  {
    if n > 0 {
      var field := fields[n - 1].1;
      var prev := Stored(fields, n - 1);
      assert Record([], fields, n - 1) == prev by { RecordInOrder(fields, n - 1); }
      if field.values != [] {
        var k := StrKey(field.id);
        assert !HasKey(prev, k) by { LastFieldFresh(fields, n); }
        var entry := (k, List(CastValues(field)));
        assert Record([], fields, n) == Put(prev, k, entry.1);
        assert Put(prev, k, entry.1) == prev + [entry];
        assert Stored(fields, n) == prev + [entry];
      } else {
        assert Record([], fields, n) == prev;
        assert Stored(fields, n) == prev + [];
        assert prev + [] == prev;
      }
    }
  }

  /** With distinct identifiers, no earlier field wrote the key of field `n - 1`. */
  lemma LastFieldFresh(fields: seq<(string, Field)>, n: nat)
    requires 0 < n <= |fields| && AllCastable(fields) && DistinctIds(fields)
    ensures !HasKey(Record([], fields, n - 1), StrKey(fields[n - 1].1.id))
  {
    var k := StrKey(fields[n - 1].1.id);
    forall j | 0 <= j < n - 1
      ensures k != StrKey(fields[j].1.id)
    {
      assert fields[j].1.id != fields[n - 1].1.id;
    }
    RecordUntouched([], fields, n - 1, k);
  }

  // ---------------------------------------------------------------------------
  // The body

  /** The body holds two entries per document, in document order: its action, then its record. */
  lemma {:induction false} BodyShape(indexId: string, docs: seq<Document>, n: nat)
    requires n <= |docs| && Indexable(docs, n)
    ensures forall i :: 0 <= i < n ==>
      && Body(indexId, docs, n)[2 * i] == Action(indexId, docs[i].key)
      && Body(indexId, docs, n)[2 * i + 1] == Arr(Record([], docs[i].fields, |docs[i].fields|))
  {
    if n > 0 {
      BodyShape(indexId, docs, n - 1);
      var prev := Body(indexId, docs, n - 1);
      var body := Body(indexId, docs, n);
      assert body == prev + [Action(indexId, docs[n - 1].key), Arr(Record([], docs[n - 1].fields, |docs[n - 1].fields|))];
      forall i | 0 <= i < n - 1
        ensures body[2 * i] == prev[2 * i] && body[2 * i + 1] == prev[2 * i + 1]
      {
      }
    }
  }

  /** The parameters are an empty array exactly when there are no items; otherwise they hold the body. */
  lemma IndexParamsEmpty(indexId: string, docs: seq<Document>)
    requires Indexable(docs, |docs|)
    ensures IndexParams(indexId, docs) == Arr([]) <==> docs == []
    ensures docs != [] ==> Prop(IndexParams(indexId, docs), "body") == List(Body(indexId, docs, |docs|))
  {
    BodyShape(indexId, docs, |docs|);
    if docs != [] {
      AssocOne("body", List(Body(indexId, docs, |docs|)));
    }
  }

  /**
   * With `$data` carried over, a field the first item stores and the second
   * lacks still appears in the second item's record; in the record each item
   * should have, it does not.
   */
  lemma DataCarriedOver(indexId: string, docs: seq<Document>, j: nat)
    requires 2 <= |docs| && Indexable(docs, 2)
    requires j < |docs[0].fields| && docs[0].fields[j].1.values != []
    requires forall i :: 0 <= i < |docs[1].fields| && docs[1].fields[i].1.values != [] ==> docs[1].fields[i].1.id != docs[0].fields[j].1.id
    ensures BodyAsWritten(indexId, docs, 2)[3].Arr? && HasKey(BodyAsWritten(indexId, docs, 2)[3].entries, StrKey(docs[0].fields[j].1.id))
    ensures Body(indexId, docs, 2)[3].Arr? && !HasKey(Body(indexId, docs, 2)[3].entries, StrKey(docs[0].fields[j].1.id))
  {
    var k := StrKey(docs[0].fields[j].1.id);
    CarriedKey(docs, j);
    assert BodyAsWritten(indexId, docs, 2)[3] == Arr(CarriedData(docs, 2));
    MissingKey(docs[1].fields, k);
    BodyShape(indexId, docs, 2);
    assert Body(indexId, docs, 2)[3] == Arr(Record([], docs[1].fields, |docs[1].fields|));
  }

  /** What the first document stores is still in the carried record after the second. */
  lemma CarriedKey(docs: seq<Document>, j: nat)
    requires 2 <= |docs| && Indexable(docs, 2)
    requires j < |docs[0].fields| && docs[0].fields[j].1.values != []
    ensures HasKey(CarriedData(docs, 2), StrKey(docs[0].fields[j].1.id))
  {
    var k := StrKey(docs[0].fields[j].1.id);
    var first := Record([], docs[0].fields, |docs[0].fields|);
    assert CarriedData(docs, 1) == first;
    RecordKeys([], docs[0].fields, |docs[0].fields|, k);
    assert Written(docs[0].fields, |docs[0].fields|, k);
    RecordKeys(first, docs[1].fields, |docs[1].fields|, k);
  }

  /** A fresh record lacks a key no field with values is stored under. */
  lemma MissingKey(fields: seq<(string, Field)>, k: Key)
    requires AllCastable(fields)
    requires forall i :: 0 <= i < |fields| && fields[i].1.values != [] ==> k != StrKey(fields[i].1.id)
    ensures !HasKey(Record([], fields, |fields|), k)
  {
    RecordKeys([], fields, |fields|, k);
  }

  /** The two documents of the source's counterexample: `f` holds "x" on the first and nothing on the second. */
  lemma DataCarriedOverExample(indexId: string)
    ensures
      var f := CreateField("f", "string");
      var docs := [Document("a", [("f", f.(values := [Str("x")]))]), Document("b", [("f", f)])];
      && Indexable(docs, 2)
      && HasKey(BodyAsWritten(indexId, docs, 2)[3].entries, StrKey("f"))
      && !HasKey(Body(indexId, docs, 2)[3].entries, StrKey("f"))
  {
    var f := CreateField("f", "string");
    var docs := [Document("a", [("f", f.(values := [Str("x")]))]), Document("b", [("f", f)])];
    DataCarriedOver(indexId, docs, 0);
  }

  // ---------------------------------------------------------------------------
  // The unit test

  /** The record of a test item: its one string field, then its special fields. */
  function ExpectedRecord(field1Id: string, value: string, itemId: string): Value {
    Arr([
      (StrKey(field1Id), List([Str(value)])),
      (StrKey("search_api_id"), List([Str(itemId)])),
      (StrKey("search_api_datasource"), List([Str("")])),
      (StrKey("search_api_language"), List([Str("en")]))])
  }

  /** An item of the test: one string field with a single value, datasource "" and language "en", special fields added. */
  function TestFields(field1Id: string, value: string, itemId: string): seq<(string, Field)> {
    WithSpecialFields(itemId, "", "en", [(field1Id, StringField(field1Id, value))])
  }

  /** A string field's one value casts to itself. */
  lemma StringFieldValues(name: string, value: string)
    ensures Castable(StringField(name, value)) && CastValues(StringField(name, value)) == [Str(value)]
  {
  }

  /** A test item's fields: its own field, then the three special fields. */
  function TestList(field1Id: string, value: string, itemId: string): seq<(string, Field)> {
    [(field1Id, StringField(field1Id, value)),
     ("search_api_id", StringField("search_api_id", itemId)),
     ("search_api_datasource", StringField("search_api_datasource", "")),
     ("search_api_language", StringField("search_api_language", "en"))]
  }

  lemma TestFieldsShape(field1Id: string, value: string, itemId: string)
    requires field1Id !in SpecialFieldNames
    ensures TestFields(field1Id, value, itemId) == TestList(field1Id, value, itemId)
  {
    SpecialFieldsAppended(itemId, "", "en", [(field1Id, StringField(field1Id, value))]);
  }

  /** Every field of a test item holds its one string value, which casts to itself. */
  lemma TestListCastable(field1Id: string, value: string, itemId: string)
    ensures var fields := TestList(field1Id, value, itemId);
      && AllCastable(fields)
      && forall i :: 0 <= i < 4 ==> fields[i].1.values != [] && CastValues(fields[i].1) == fields[i].1.values
  {
    StringFieldValues(field1Id, value);
    StringFieldValues("search_api_id", itemId);
    StringFieldValues("search_api_datasource", "");
    StringFieldValues("search_api_language", "en");
  }

  /** A test item's own field is not named like a special field, so its four identifiers differ. */
  lemma TestListDistinct(field1Id: string, value: string, itemId: string)
    requires field1Id !in SpecialFieldNames
    ensures DistinctIds(TestList(field1Id, value, itemId))
  {
    assert field1Id != "search_api_id" && field1Id != "search_api_datasource" && field1Id != "search_api_language" by {
      assert SpecialFieldNames == ["search_api_id", "search_api_datasource", "search_api_language"];
    }
  }

  lemma TestRecord(field1Id: string, value: string, itemId: string)
    requires field1Id !in SpecialFieldNames
    ensures AllCastable(TestFields(field1Id, value, itemId))
    ensures |TestFields(field1Id, value, itemId)| == 4
    ensures Arr(Record([], TestFields(field1Id, value, itemId), 4)) == ExpectedRecord(field1Id, value, itemId)
  {
    var fields := TestList(field1Id, value, itemId);
    TestFieldsShape(field1Id, value, itemId);
    TestListCastable(field1Id, value, itemId);
    TestListDistinct(field1Id, value, itemId);
    RecordOfFour(fields);
  }

  /** Four fields with values and distinct identifiers make a record of four entries, in field order. */
  lemma RecordOfFour(fields: seq<(string, Field)>)
    requires |fields| == 4 && AllCastable(fields) && DistinctIds(fields)
    requires forall i :: 0 <= i < 4 ==> fields[i].1.values != []
    ensures Record([], fields, 4) == [
      (StrKey(fields[0].1.id), List(CastValues(fields[0].1))),
      (StrKey(fields[1].1.id), List(CastValues(fields[1].1))),
      (StrKey(fields[2].1.id), List(CastValues(fields[2].1))),
      (StrKey(fields[3].1.id), List(CastValues(fields[3].1)))]
  {
    var e0 := (StrKey(fields[0].1.id), List(CastValues(fields[0].1)));
    var e1 := (StrKey(fields[1].1.id), List(CastValues(fields[1].1)));
    var e2 := (StrKey(fields[2].1.id), List(CastValues(fields[2].1)));
    var e3 := (StrKey(fields[3].1.id), List(CastValues(fields[3].1)));
    RecordInOrder(fields, 4);
    assert Stored(fields, 1) == [e0];
    assert Stored(fields, 2) == [e0] + [e1];
    assert Stored(fields, 3) == [e0] + [e1] + [e2];
    assert Stored(fields, 4) == [e0] + [e1] + [e2] + [e3];
    Concat4(e0, e1, e2, e3);
  }

  lemma Concat4<T>(a: T, b: T, c: T, d: T)
    ensures [a] + [b] + [c] + [d] == [a, b, c, d]
  {
  }

  /** The expected parameters of the unit test: both items' actions and records, in item order. */
  function ExpectedParams(indexId: string, field1Id: string, item1Id: string, item2Id: string): Value {
    Assoc([("body", List([
      Action(indexId, item1Id), ExpectedRecord(field1Id, "foo", item1Id),
      Action(indexId, item2Id), ExpectedRecord(field1Id, "bar", item2Id)]))])
  }

  /** The parameters for two documents: each one's action and record, in order. */
  lemma TwoDocuments(indexId: string, d1: Document, d2: Document)
    requires AllCastable(d1.fields) && AllCastable(d2.fields)
    ensures Indexable([d1, d2], 2)
    ensures IndexParams(indexId, [d1, d2]) == Assoc([("body", List([
      Action(indexId, d1.key), Arr(Record([], d1.fields, |d1.fields|)),
      Action(indexId, d2.key), Arr(Record([], d2.fields, |d2.fields|))]))])
  {
    var docs := [d1, d2];
    var a1, r1 := Action(indexId, d1.key), Arr(Record([], d1.fields, |d1.fields|));
    var a2, r2 := Action(indexId, d2.key), Arr(Record([], d2.fields, |d2.fields|));
    assert Body(indexId, docs, 0) == [];
    assert Body(indexId, docs, 1) == [a1, r1];
    assert Body(indexId, docs, 2) == [a1, r1] + [a2, r2];
    assert [a1, r1] + [a2, r2] == [a1, r1, a2, r2];
  }

  lemma TestBody(indexId: string, field1Id: string, item1Id: string, item2Id: string)
    requires field1Id !in SpecialFieldNames
    ensures
      var docs := [Document(item1Id, TestFields(field1Id, "foo", item1Id)), Document(item2Id, TestFields(field1Id, "bar", item2Id))];
      && Indexable(docs, 2)
      && IndexParams(indexId, docs) == ExpectedParams(indexId, field1Id, item1Id, item2Id)
  {
    TestRecord(field1Id, "foo", item1Id);
    TestRecord(field1Id, "bar", item2Id);
    TwoDocuments(indexId, Document(item1Id, TestFields(field1Id, "foo", item1Id)), Document(item2Id, TestFields(field1Id, "bar", item2Id)));
  }

  /**
   * The source's unit test of `buildIndexParams`: two items, each with one
   * string field `field1Id` holding "foo" and "bar", language "en" and no
   * datasource, and an index-params event that changes nothing.
   */
  method TestBuildIndexParams(indexId: string, field1Id: string, item1Id: string, item2Id: string) returns (params: Value)
    requires field1Id !in SpecialFieldNames
    ensures params == ExpectedParams(indexId, field1Id, item1Id, item2Id)
  {
    var item1 := new Item(item1Id, "", "en", [(field1Id, StringField(field1Id, "foo"))]);
    var item2 := new Item(item2Id, "", "en", [(field1Id, StringField(field1Id, "bar"))]);
    var items := [(item1Id, item1), (item2Id, item2)];
    StringFieldValues(field1Id, "foo");
    StringFieldValues(field1Id, "bar");
    params := BuildIndexParams(indexId, items, (id, p) => p);
    assert item1.fields == TestFields(field1Id, "foo", item1Id);
    assert item2.fields == TestFields(field1Id, "bar", item2Id);
    TwoEntries(Documents(items), Document(item1Id, item1.fields), Document(item2Id, item2.fields));
    TestBody(indexId, field1Id, item1Id, item2Id);
  }

  lemma TwoEntries<T>(s: seq<T>, a: T, b: T)
    requires |s| == 2 && s[0] == a && s[1] == b
    ensures s == [a, b]
  {
  }
}
