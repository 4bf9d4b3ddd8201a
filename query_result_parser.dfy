/**
 * The result parser: an Elasticsearch search response fills the query's
 * result set with the total count, one result item per hit (its `_source`
 * entries as multi-valued fields) and, when the response has aggregations,
 * the parsed facets.
 */
module QueryResultParser {
  import opened Wrappers
  import opened Dict
  import opened Php
  import opened SearchApi
  import opened FacetParamBuilder
  import FacetResultParser

  /** A field of a result item: `createField($index, $id, ['property_path' => $id])` with its values set. */
  datatype ResultField = ResultField(id: Key, propertyPath: Key, values: Value)

  /** A result item: the hit's `_id`, its `_score`, and its fields by id. */
  datatype ResultItem = ResultItem(id: Value, score: Value, fields: seq<(Key, ResultField)>)

  /**
   * The query's result set.  Extra data and result items are keyed arrays:
   * setting a key that is present replaces its value in place.
   */
  class ResultSet {
    var extraData: seq<(string, Value)>
    var resultCount: Value
    /** `addResultItem()` keys the items by their id. */
    var resultItems: seq<(Value, ResultItem)>

    /** An empty result set. */
    constructor()
      ensures extraData == [] && resultCount == Int(0) && resultItems == []
    {
      extraData := [];
      resultCount := Int(0);
      resultItems := [];
    }
  }

  /** "Make everything a multifield": an array is kept, anything else becomes a one-element list. */
  function MultiValue(v: Value): (r: Value)
    ensures r.Arr?
    ensures v.Arr? ==> r == v
    ensures !v.Arr? ==> r == List([v])
  {
    if v.Arr? then v else List([v])
  }

  /** A multi-valued field stays as it is. */
  lemma MultiValueIdempotent(v: Value)
    ensures MultiValue(MultiValue(v)) == MultiValue(v)
  {
  }

  /** The field a `_source` entry becomes. */
  function SourceField(id: Key, values: Value): ResultField {
    ResultField(id, id, MultiValue(values))
  }

  /** The fields after the first `n` entries of `_source`, each set by its id. */
  function SourceFields(source: seq<(Key, Value)>, n: nat): seq<(Key, ResultField)>
    requires n <= |source|
  {
    if n == 0 then []
    else Put(SourceFields(source, n - 1), source[n - 1].0, SourceField(source[n - 1].0, source[n - 1].1))
  }

  /** The `_source` entries of a hit; a hit without them has none. */
  function SourceOf(hit: Value): seq<(Key, Value)> {
    var source := Prop(hit, "_source");
    if source.Arr? then source.entries else []
  }

  /** The result item a hit becomes. */
  function ItemOf(hit: Value): ResultItem {
    var source := SourceOf(hit);
    ResultItem(Prop(hit, "_id"), Prop(hit, "_score"), SourceFields(source, |source|))
  }

  /** The hits of a response: `hits.hits` when it is a non-empty array, else none. */
  function Hits(response: Value): seq<(Key, Value)> {
    var hits := Prop(Prop(response, "hits"), "hits");
    if !Empty(hits) && hits.Arr? then hits.entries else []
  }

  /** The result items after adding those of the first `n` hits. */
  function AddedItems(items: seq<(Value, ResultItem)>, hits: seq<(Key, Value)>, n: nat): seq<(Value, ResultItem)>
    requires n <= |hits|
  {
    if n == 0 then items
    else
      var item := ItemOf(hits[n - 1].1);
      Put(AddedItems(items, hits, n - 1), item.id, item)
  }

  /** The extra data after parsing: the raw response, then the facets when there are aggregations. */
  function ParsedExtraData(extraData: seq<(string, Value)>, facets: seq<(string, Facet)>, response: Value): seq<(string, Value)>
    requires Parsable(facets, response)
  {
    var withResponse := Put(extraData, "elasticsearch_response", response);
    var aggregations := Prop(response, "aggregations");
    if !Empty(aggregations) then
      Put(withResponse, "search_api_facets", Arr(FacetResultParser.FacetData(facets, aggregations, |facets|)))
    else withResponse
  }

  /** The facets can be read whenever the response has aggregations. */
  predicate Parsable(facets: seq<(string, Facet)>, response: Value) {
    !Empty(Prop(response, "aggregations")) ==> FacetResultParser.Readable(facets, Prop(response, "aggregations"))
  }

  /** The result item of one hit, its `_source` entries set as fields one by one. */
  method BuildItem(hit: Value) returns (item: ResultItem)
    ensures item == ItemOf(hit)
  {
    var source := SourceOf(hit);
    var fields: seq<(Key, ResultField)> := [];
    for i := 0 to |source|
      invariant fields == SourceFields(source, i)
    {
      var id := source[i].0;
      var values := source[i].1;
      if !values.Arr? {
        values := List([values]);
      }
      fields := Put(fields, id, ResultField(id, id, values));
    }
    item := ResultItem(Prop(hit, "_id"), Prop(hit, "_score"), fields);
  }

  /** `parseResult`: fills the result set from the response. */
  method ParseResult(results: ResultSet, facets: seq<(string, Facet)>, response: Value)
    requires Parsable(facets, response)
    modifies results
    ensures results.extraData == ParsedExtraData(old(results.extraData), facets, response)
    ensures results.resultCount == Prop(Prop(Prop(response, "hits"), "total"), "value")
    ensures results.resultItems == AddedItems(old(results.resultItems), Hits(response), |Hits(response)|)
  {
    var extraData := Put(results.extraData, "elasticsearch_response", response);
    var count := Prop(Prop(Prop(response, "hits"), "total"), "value");
    results.extraData, results.resultCount := extraData, count;
    var hits := Hits(response);
    ghost var items := results.resultItems;
    for i := 0 to |hits|
      invariant results.resultItems == AddedItems(items, hits, i)
      invariant results.extraData == extraData && results.resultCount == count
    {
      var item := BuildItem(hits[i].1);
      results.resultItems := Put(results.resultItems, item.id, item);
    }
    if !Empty(Prop(response, "aggregations")) {
      var facetData := FacetResultParser.ParseFacetResult(facets, response);
      results.extraData := Put(extraData, "search_api_facets", Arr(facetData));
    }
  }

  // ---------------------------------------------------------------------------
  // Properties

  /** The raw response is kept unchanged as `elasticsearch_response`; facets are stored exactly when there are aggregations. */
  lemma ExtraDataRead(extraData: seq<(string, Value)>, facets: seq<(string, Facet)>, response: Value)
    requires Parsable(facets, response)
    ensures Get(ParsedExtraData(extraData, facets, response), "elasticsearch_response") == Some(response)
    ensures HasKey(ParsedExtraData(extraData, facets, response), "search_api_facets") <==>
      HasKey(extraData, "search_api_facets") || !Empty(Prop(response, "aggregations"))
  {
    var withResponse := Put(extraData, "elasticsearch_response", response);
    PutGet(extraData, "elasticsearch_response", response, "elasticsearch_response");
    PutGet(extraData, "elasticsearch_response", response, "search_api_facets");
    var aggregations := Prop(response, "aggregations");
    if !Empty(aggregations) {
      var facetData := Arr(FacetResultParser.FacetData(facets, aggregations, |facets|));
      PutGet(withResponse, "search_api_facets", facetData, "elasticsearch_response");
      PutGet(withResponse, "search_api_facets", facetData, "search_api_facets");
    }
  }

  /** The fields of `_source` entries with distinct ids: one per entry, in `_source` order. */
  lemma {:induction false} SourceFieldsInOrder(source: seq<(Key, Value)>, n: nat)
    requires n <= |source| && UniqueKeys(source)
    ensures SourceFields(source, n) == MapValues(source[..n], SourceField)
  {
    if n > 0 {
      SourceFieldsInOrder(source, n - 1);
      PrefixMissing(source, n);
      GetMapValues(source[..n - 1], SourceField, source[n - 1].0);
      MapValuesPrefix(source, SourceField, n);
    }
  }

  /**
   * Every `_source` entry of a hit becomes a field under the same id, with
   * that id as its property path; a scalar is wrapped in a one-element list
   * and an array is kept.
   */
  lemma ItemField(hit: Value, k: Key)
    requires UniqueKeys(SourceOf(hit))
    ensures Get(ItemOf(hit).fields, k) ==
      match Get(SourceOf(hit), k)
      case None => None
      case Some(v) => Some(ResultField(k, k, if v.Arr? then v else List([v])))
  {
    var source := SourceOf(hit);
    SourceFieldsInOrder(source, |source|);
    assert source[..|source|] == source;
    GetMapValues(source, SourceField, k);
  }

  /** The items the first `n` hits add, in hit order. */
  function HitItems(hits: seq<(Key, Value)>, n: nat): (r: seq<(Value, ResultItem)>)
    requires n <= |hits|
    ensures |r| == n && forall j :: 0 <= j < n ==> r[j] == (Prop(hits[j].1, "_id"), ItemOf(hits[j].1))
  {
    seq(n, j requires 0 <= j < n => (Prop(hits[j].1, "_id"), ItemOf(hits[j].1)))
  }

  /** None of the items already in the set has the id of a hit. */
  predicate FreshIds(items: seq<(Value, ResultItem)>, hits: seq<(Key, Value)>) {
    forall i, j :: 0 <= i < |items| && 0 <= j < |hits| ==> Prop(hits[j].1, "_id") != items[i].0
  }

  /** No two hits share an id. */
  predicate DistinctIds(hits: seq<(Key, Value)>) {
    forall i, j :: 0 <= i < j < |hits| ==> Prop(hits[i].1, "_id") != Prop(hits[j].1, "_id")
  }

  lemma NextHitFresh(items: seq<(Value, ResultItem)>, hits: seq<(Key, Value)>, n: nat)
    requires n < |hits| && FreshIds(items, hits) && DistinctIds(hits)
    ensures !HasKey(items + HitItems(hits, n), Prop(hits[n].1, "_id"))
  {
    var es := items + HitItems(hits, n);
    forall j | 0 <= j < |es|
      ensures es[j].0 != Prop(hits[n].1, "_id")
    {
      if j >= |items| {
        assert es[j] == HitItems(hits, n)[j - |items|];
      }
    }
  }

  /** Result items with distinct ids: one per hit, in hit order, after those already in the set. */
  lemma {:induction false} ItemsInHitOrder(items: seq<(Value, ResultItem)>, hits: seq<(Key, Value)>, n: nat)
    requires n <= |hits| && FreshIds(items, hits) && DistinctIds(hits)
    ensures AddedItems(items, hits, n) == items + HitItems(hits, n)
  {
    if n == 0 {
      assert items + HitItems(hits, 0) == items;
    } else {
      ItemsInHitOrder(items, hits, n - 1);
      NextHitFresh(items, hits, n - 1);
      AddedItemsStep(items, hits, n);
    }
  }

  lemma AddedItemsStep(items: seq<(Value, ResultItem)>, hits: seq<(Key, Value)>, n: nat)
    requires 0 < n <= |hits|
    requires AddedItems(items, hits, n - 1) == items + HitItems(hits, n - 1)
    requires !HasKey(items + HitItems(hits, n - 1), Prop(hits[n - 1].1, "_id"))
    ensures AddedItems(items, hits, n) == items + HitItems(hits, n)
  {
    var before := HitItems(hits, n - 1);
    var item := ItemOf(hits[n - 1].1);
    assert AddedItems(items, hits, n) == Put(items + before, item.id, item);
    HitItemsSnoc(hits, n);
    SnocAssoc(items, before, (item.id, item));
  }

  lemma HitItemsSnoc(hits: seq<(Key, Value)>, n: nat)
    requires 0 < n <= |hits|
    ensures HitItems(hits, n) == HitItems(hits, n - 1) + [(Prop(hits[n - 1].1, "_id"), ItemOf(hits[n - 1].1))]
  {
    var a, b := HitItems(hits, n), HitItems(hits, n - 1);
    forall j | 0 <= j < n - 1
      ensures a[j] == b[j]
    {
    }
    SnocOfPrefix(a, b);
  }

  lemma SnocOfPrefix<T>(a: seq<T>, b: seq<T>)
    requires |a| == |b| + 1
    requires forall j :: 0 <= j < |b| ==> a[j] == b[j]
    ensures a == b + [a[|b|]]
  {
  }

  lemma SnocAssoc<T>(a: seq<T>, b: seq<T>, x: T)
    ensures (a + b) + [x] == a + (b + [x])
  {
  }

  /** An empty or missing `hits.hits` adds no result items. */
  lemma NoHitsNoItems(items: seq<(Value, ResultItem)>, response: Value)
    requires Empty(Prop(Prop(response, "hits"), "hits"))
    ensures AddedItems(items, Hits(response), |Hits(response)|) == items
  {
  }

  /** The response of the unit test: two hits with one string field each. */
  function ExampleResponse(item1: string, item2: string, field1: string, field2: string): Value {
    Assoc([("hits", Assoc([
      ("total", Assoc([("value", Int(2))])),
      ("hits", List([
        Assoc([("_id", Str(item1)), ("_score", Float("1.333")), ("_source", Assoc([(field1, Str("foo"))]))]),
        Assoc([("_id", Str(item2)), ("_score", Float("1.0")), ("_source", Assoc([(field2, Str("bar"))]))])]))]))])
  }

  /**
   * The unit test: the count is 2, there are two items keyed by their ids,
   * and the first has the one field `field1` whose values are `["foo"]`.
   */
  lemma ExampleResult(item1: string, item2: string, field1: string, field2: string)
    requires item1 != item2
    ensures
      var response := ExampleResponse(item1, item2, field1, field2);
      var items := AddedItems([], Hits(response), |Hits(response)|);
      && Prop(Prop(Prop(response, "hits"), "total"), "value") == Int(2)
      && |items| == 2
      && items[0].0 == Str(item1) && items[1].0 == Str(item2)
      && items[0].1.fields == [(StrKey(field1), ResultField(StrKey(field1), StrKey(field1), List([Str("foo")])))]
  {
    var response := ExampleResponse(item1, item2, field1, field2);
    var hit1 := Assoc([("_id", Str(item1)), ("_score", Float("1.333")), ("_source", Assoc([(field1, Str("foo"))]))]);
    var hit2 := Assoc([("_id", Str(item2)), ("_score", Float("1.0")), ("_source", Assoc([(field2, Str("bar"))]))]);
    var total := Assoc([("value", Int(2))]);
    var inner := [("total", total), ("hits", List([hit1, hit2]))];
    PropAssoc([("hits", Assoc(inner))], 0);
    PropAssoc(inner, 0);
    PropAssoc(inner, 1);
    PropAssoc([("value", Int(2))], 0);
    var hits := Hits(response);
    assert hits == List([hit1, hit2]).entries;
    assert hits[0].1 == hit1 && hits[1].1 == hit2;
    HitRead(item1, Float("1.333"), field1, Str("foo"));
    HitRead(item2, Float("1.0"), field2, Str("bar"));
    assert DistinctIds(hits) by {
      forall i, j | 0 <= i < j < |hits| ensures Prop(hits[i].1, "_id") != Prop(hits[j].1, "_id") {
        assert i == 0 && j == 1;
      }
    }
    ItemsInHitOrder([], hits, 2);
  }

  /** A hit of the unit test, read back. */
  lemma HitRead(id: string, score: Value, field: string, value: Value)
    ensures
      var hit := Assoc([("_id", Str(id)), ("_score", score), ("_source", Assoc([(field, value)]))]);
      && Prop(hit, "_id") == Str(id)
      && SourceOf(hit) == [(StrKey(field), value)]
      && ItemOf(hit).fields == [(StrKey(field), SourceField(StrKey(field), value))]
  {
    var es := [("_id", Str(id)), ("_score", score), ("_source", Assoc([(field, value)]))];
    PropAssoc(es, 0);
    PropAssoc(es, 2);
    AssocOne(field, value);
    var source := [(StrKey(field), value)];
    assert SourceOf(Assoc(es)) == source;
    assert SourceFields(source, 1) == Put([], StrKey(field), SourceField(StrKey(field), value));
  }
}
