/**
 * The facet compiler: every facet on a known field becomes a `terms` bucket
 * aggregation, wrapped in a `global` aggregation named `<id>_global` when the
 * facet's operator is `or`, and the aggregations are merged with PHP's `+`.
 */
module FacetParamBuilder {
  import opened Wrappers
  import opened Dict
  import opened Php
  import opened SearchApi

  /**
   * A facet of the `search_api_facets` option.  `limit` is None when it is
   * missing or null; `operator` is None when it is missing or null.
   */
  datatype Facet = Facet(field: string, limit: Option<int>, operator: Option<string>)

  /** The size used when a facet has no limit (a string in the source). */
  const DefaultFacetSize: string := "10"

  /** The name of the aggregation a facet compiles to. */
  function AggName(id: string, facet: Facet): string {
    if facet.operator == Some("or") then id + "_global" else id
  }

  /** The size a facet's limit gives: the limit, or "10" without one; none unless it is positive. */
  function FacetSize(limit: Option<int>): Option<Value> {
    match limit
    case None => Some(Str(DefaultFacetSize))
    case Some(n) => if n > 0 then Some(Int(n)) else None
  }

  /** `{terms: {field, size?}}`. */
  function TermsAgg(facet: Facet): Value {
    var size := FacetSize(facet.limit);
    Assoc([("terms", Assoc([("field", Str(facet.field))] + (if size.Some? then [("size", size.value)] else [])))])
  }

  /** The terms aggregation names the facet's field, and its size is the limit, "10" by default, when positive. */
  lemma TermsAggShape(facet: Facet)
    ensures Prop(Prop(TermsAgg(facet), "terms"), "field") == Str(facet.field)
    ensures Isset(Prop(TermsAgg(facet), "terms"), StrKey("size")) <==> facet.limit.None? || facet.limit.value > 0
    ensures facet.limit.None? ==> Prop(Prop(TermsAgg(facet), "terms"), "size") == Str(DefaultFacetSize)
    ensures facet.limit.Some? && facet.limit.value > 0 ==> Prop(Prop(TermsAgg(facet), "terms"), "size") == Int(facet.limit.value)
  {
    var size := FacetSize(facet.limit);
    var es := [("field", Str(facet.field))] + (if size.Some? then [("size", size.value)] else []);
    PropAssoc([("terms", Assoc(es))], 0);
    PropAssoc(es, 0);
    if size.Some? {
      PropAssoc(es, 1);
    } else {
      PropAssocMissing(es, "size");
    }
  }

  /** The aggregation a facet compiles to: `{global: {}, aggs: {id: terms}}` for `or`, else the terms aggregation. */
  function AggBody(id: string, facet: Facet): Value {
    if facet.operator == Some("or") then Assoc([("global", EmptyObject), ("aggs", Arr([(StrKey(id), TermsAgg(facet))]))])
    else TermsAgg(facet)
  }

  /** `buildTermBucketAgg`: the one aggregation named by `AggName`. */
  function BuildTermBucketAgg(id: string, facet: Facet): (agg: seq<(Key, Value)>)
    ensures agg == [(StrKey(AggName(id, facet)), AggBody(id, facet))]
  {
    var plain := [(StrKey(id), TermsAgg(facet))];
    if facet.operator == Some("or") then
      [(StrKey(id + "_global"), Assoc([("global", EmptyObject), ("aggs", Arr(plain))]))]
    else plain
  }

  /** An `or` facet's aggregation is global and nests the terms aggregation under the facet's own id. */
  lemma OrFacetIsGlobal(id: string, facet: Facet)
    requires facet.operator == Some("or")
    ensures AggName(id, facet) == id + "_global"
    ensures Prop(AggBody(id, facet), "global") == EmptyObject
    ensures Prop(Prop(AggBody(id, facet), "aggs"), id) == TermsAgg(facet)
  {
    var es := [("global", EmptyObject), ("aggs", Arr([(StrKey(id), TermsAgg(facet))]))];
    PropAssoc(es, 0);
    PropAssoc(es, 1);
    assert Get([(StrKey(id), TermsAgg(facet))], StrKey(id)) == Some(TermsAgg(facet));
  }

  /** A facet is compiled only when its field is an index field. */
  predicate Known(facet: Facet, indexFields: seq<(string, Field)>) {
    HasKey(indexFields, facet.field)
  }

  /** `buildFacetParams` after the first `n` facets. */
  function FacetParams(facets: seq<(string, Facet)>, indexFields: seq<(string, Field)>, n: nat): seq<(Key, Value)>
    requires n <= |facets|
  {
    if n == 0 then []
    else
      var aggs := FacetParams(facets, indexFields, n - 1);
      var (id, facet) := facets[n - 1];
      if Known(facet, indexFields) then Union(aggs, BuildTermBucketAgg(id, facet)) else aggs
  }

  method BuildFacetParams(facets: seq<(string, Facet)>, indexFields: seq<(string, Field)>) returns (aggs: seq<(Key, Value)>)
    ensures aggs == FacetParams(facets, indexFields, |facets|)
  {
    aggs := [];
    if facets == [] {
      return;
    }
    for i := 0 to |facets|
      invariant aggs == FacetParams(facets, indexFields, i)
    {
      var (id, facet) := facets[i];
      if !HasKey(indexFields, facet.field) {
        continue;
      }
      aggs := Union(aggs, BuildTermBucketAgg(id, facet));
    }
  }

  /** Facet `i` compiles to an aggregation named `k`. */
  predicate Names(facets: seq<(string, Facet)>, indexFields: seq<(string, Field)>, i: nat, k: Key)
    requires i < |facets|
  {
    Known(facets[i].1, indexFields) && StrKey(AggName(facets[i].0, facets[i].1)) == k
  }

  /** The aggregations name exactly the known facets. */
  lemma {:induction false} FacetParamsKeys(facets: seq<(string, Facet)>, indexFields: seq<(string, Field)>, n: nat, k: Key)
    requires n <= |facets|
    ensures HasKey(FacetParams(facets, indexFields, n), k) <==> exists i :: 0 <= i < n && Names(facets, indexFields, i, k)
  {
    if n > 0 {
      FacetParamsKeys(facets, indexFields, n - 1, k);
      var (id, facet) := facets[n - 1];
      var prev := FacetParams(facets, indexFields, n - 1);
      if Known(facet, indexFields) {
        var agg := BuildTermBucketAgg(id, facet);
        assert HasKey(agg, k) <==> agg[0].0 == k;
        assert Get(Union(prev, agg), k).Some? <==> HasKey(prev, k) || HasKey(agg, k);
      }
      if Names(facets, indexFields, n - 1, k) {
        assert exists i :: 0 <= i < n && Names(facets, indexFields, i, k);
      }
    }
  }

  /** `+` never overwrites: the aggregation named `k` is that of the first known facet of that name. */
  lemma {:induction false} FirstFacetWins(facets: seq<(string, Facet)>, indexFields: seq<(string, Field)>, n: nat, i: nat, k: Key)
    requires i < n <= |facets|
    requires Names(facets, indexFields, i, k) && forall j :: 0 <= j < i ==> !Names(facets, indexFields, j, k)
    ensures Get(FacetParams(facets, indexFields, n), k) == Some(AggBody(facets[i].0, facets[i].1))
  {
    var prev := FacetParams(facets, indexFields, n - 1);
    var (id, facet) := facets[n - 1];
    if i < n - 1 {
      FirstFacetWins(facets, indexFields, n - 1, i, k);
    } else {
      FacetParamsKeys(facets, indexFields, n - 1, k);
      assert Get(BuildTermBucketAgg(id, facet), k) == Some(AggBody(id, facet));
    }
  }

  /** No facets give no aggregations. */
  lemma NoFacetsNoAggs(indexFields: seq<(string, Field)>)
    ensures FacetParams([], indexFields, 0) == []
  {
  }

  /** The unit test: an `and` facet and an `or` facet on `field1`, both with the default size. */
  lemma AndAndOrFacets(fields: seq<(string, Field)>)
    requires HasKey(fields, "field1")
    ensures
      var facets := [("facet1", Facet("field1", None, Some("and"))), ("facet2", Facet("field1", None, Some("or")))];
      var terms := Assoc([("terms", Assoc([("field", Str("field1")), ("size", Str("10"))]))]);
      FacetParams(facets, fields, 2) ==
        [(StrKey("facet1"), terms),
         (StrKey("facet2_global"), Assoc([("global", EmptyObject), ("aggs", Arr([(StrKey("facet2"), terms)]))]))]
  {
    var facets := [("facet1", Facet("field1", None, Some("and"))), ("facet2", Facet("field1", None, Some("or")))];
    var terms := Assoc([("terms", Assoc([("field", Str("field1")), ("size", Str("10"))]))]);
    assert [("field", Str("field1"))] + [("size", Str(DefaultFacetSize))] == [("field", Str("field1")), ("size", Str("10"))];
    assert TermsAgg(facets[0].1) == terms;
    assert TermsAgg(facets[1].1) == terms;
    assert AggName("facet2", facets[1].1) == "facet2_global";
    var first := [(StrKey("facet1"), terms)];
    assert FacetParams(facets, fields, 1) == first;
    assert FacetParams(facets, fields, 1) == first;
    var second := (StrKey("facet2_global"), Assoc([("global", EmptyObject), ("aggs", Arr([(StrKey("facet2"), terms)]))]));
    assert BuildTermBucketAgg("facet2", facets[1].1) == [second];
    assert !HasKey(first, StrKey("facet2_global"));
    assert Union(first, [second]) == Union(first + [second], []);
  }
}
