/**
 * The facet result parser: the buckets of each facet's aggregation are read
 * back from the search response as `{count, filter}` records, and a round trip
 * through the facet compiler and Elasticsearch's answer recovers every bucket.
 */
module FacetResultParser {
  import opened Wrappers
  import opened Dict
  import opened Php
  import opened SearchApi
  import opened FacetParamBuilder

  /** A bucket as the facets module expects it: the document count and the quoted key. */
  function BucketTerm(bucket: Value): Value {
    Assoc([("count", Prop(bucket, "doc_count")), ("filter", Str("\"" + ToStr(Prop(bucket, "key")) + "\""))])
  }

  /** The terms of a facet: one per bucket, in bucket order. */
  function BucketTerms(buckets: Value): Value
    requires buckets.Arr?
  {
    List(seq(|buckets.entries|, i requires 0 <= i < |buckets.entries| => BucketTerm(buckets.entries[i].1)))
  }

  /**
   * The buckets a facet is read from, or None when it is skipped: `and` reads
   * `aggregations[id].buckets`; `or` reads `aggregations[id_global][id].buckets`
   * and is skipped without `id_global`; any other operator is skipped.
   */
  function FacetBuckets(id: string, facet: Facet, aggregations: Value): Option<Value> {
    if facet.operator == Some("and") then Some(Prop(Prop(aggregations, id), "buckets"))
    else if facet.operator == Some("or") then
      if Isset(aggregations, StrKey(id + "_global")) then Some(Prop(Prop(Prop(aggregations, id + "_global"), id), "buckets"))
      else None
    else None
  }

  /** Every bucket list the parser walks is an array (`array_walk` raises a TypeError otherwise). */
  predicate Readable(facets: seq<(string, Facet)>, aggregations: Value) {
    forall i :: 0 <= i < |facets| ==> ReadableAt(facets[i], aggregations)
  }

  predicate ReadableAt(facet: (string, Facet), aggregations: Value) {
    var b := FacetBuckets(facet.0, facet.1, aggregations);
    b.Some? ==> b.value.Arr?
  }

  /** `parseFacetResult` after the first `n` facets. */
  function FacetData(facets: seq<(string, Facet)>, aggregations: Value, n: nat): seq<(Key, Value)>
    requires n <= |facets| && Readable(facets, aggregations)
  {
    if n == 0 then []
    else
      var data := FacetData(facets, aggregations, n - 1);
      var (id, facet) := facets[n - 1];
      assert ReadableAt(facets[n - 1], aggregations);
      match FacetBuckets(id, facet, aggregations)
      case None => data
      case Some(buckets) => Put(data, StrKey(id), BucketTerms(buckets))
  }

  /** The `array_walk` that appends one term per bucket. */
  method CollectTerms(buckets: Value) returns (terms: Value)
    requires buckets.Arr?
    ensures terms == BucketTerms(buckets)
  {
    var collected: seq<Value> := [];
    for i := 0 to |buckets.entries|
      invariant collected == seq(i, j requires 0 <= j < i => BucketTerm(buckets.entries[j].1))
    {
      var value := buckets.entries[i].1;
      collected := collected + [Assoc([("count", Prop(value, "doc_count")), ("filter", Str("\"" + ToStr(Prop(value, "key")) + "\""))])];
    }
    terms := List(collected);
  }

  method ParseFacetResult(facets: seq<(string, Facet)>, response: Value) returns (facetData: seq<(Key, Value)>)
    requires Readable(facets, Prop(response, "aggregations"))
    ensures facetData == FacetData(facets, Prop(response, "aggregations"), |facets|)
  {
    facetData := [];
    var aggregations := Prop(response, "aggregations");
    for i := 0 to |facets|
      invariant facetData == FacetData(facets, aggregations, i)
    {
      var (id, facet) := facets[i];
      assert ReadableAt(facets[i], aggregations);
      var buckets;
      if facet.operator == Some("and") {
        buckets := Prop(Prop(aggregations, id), "buckets");
      } else if facet.operator == Some("or") {
        if !Isset(aggregations, StrKey(id + "_global")) {
          continue;
        }
        buckets := Prop(Prop(Prop(aggregations, id + "_global"), id), "buckets");
      } else {
        continue;
      }
      var terms := CollectTerms(buckets);
      facetData := Put(facetData, StrKey(id), terms);
    }
  }

  /** With distinct facet ids, a facet's entry holds its buckets' terms, and a skipped facet has none. */
  lemma {:induction false} FacetDataGet(facets: seq<(string, Facet)>, aggregations: Value, n: nat, i: nat)
    requires i < n <= |facets| && Readable(facets, aggregations) && UniqueKeys(facets)
    ensures assert ReadableAt(facets[i], aggregations);
      Get(FacetData(facets, aggregations, n), StrKey(facets[i].0)) ==
        match FacetBuckets(facets[i].0, facets[i].1, aggregations)
        case None => None
        case Some(buckets) => Some(BucketTerms(buckets))
  {
    var data := FacetData(facets, aggregations, n - 1);
    var (id, facet) := facets[n - 1];
    assert ReadableAt(facets[n - 1], aggregations);
    if FacetBuckets(id, facet, aggregations).Some? {
      PutGet(data, StrKey(id), BucketTerms(FacetBuckets(id, facet, aggregations).value), StrKey(facets[i].0));
    }
    if i < n - 1 {
      FacetDataGet(facets, aggregations, n - 1, i);
    } else {
      FacetDataAbsent(facets, aggregations, n - 1, id);
    }
  }

  /** No entry is made for an id no facet among the first `n` has. */
  lemma {:induction false} FacetDataAbsent(facets: seq<(string, Facet)>, aggregations: Value, n: nat, id: string)
    requires n <= |facets| && Readable(facets, aggregations)
    requires forall j :: 0 <= j < n ==> facets[j].0 != id
    ensures Get(FacetData(facets, aggregations, n), StrKey(id)) == None
  {
    if n > 0 {
      FacetDataAbsent(facets, aggregations, n - 1, id);
      var (id', facet) := facets[n - 1];
      assert ReadableAt(facets[n - 1], aggregations);
      if FacetBuckets(id', facet, aggregations).Some? {
        PutGet(FacetData(facets, aggregations, n - 1), StrKey(id'), BucketTerms(FacetBuckets(id', facet, aggregations).value), StrKey(id));
      }
    }
  }

  // ---------------------------------------------------------------------------
  // Elasticsearch's answer to the compiled aggregations

  /** A bucket of a terms aggregation's answer. */
  datatype Bucket = Bucket(key: string, docCount: int)

  function BucketValue(b: Bucket): Value {
    Assoc([("key", Str(b.key)), ("doc_count", Int(b.docCount))])
  }

  function BucketsBody(bs: seq<Bucket>): Value {
    Assoc([("buckets", List(seq(|bs|, i requires 0 <= i < |bs| => BucketValue(bs[i]))))])
  }

  /** The name of an aggregation, as a string. */
  function KeyName(k: Key): string {
    if k.StrKey? then k.s else IntToString(k.i)
  }

  /**
   * The answer to the aggregation `name` with request `body`: a `global`
   * aggregation answers each of its sub-aggregations under its own name; a terms
   * aggregation answers with the buckets `buckets` gives for its name.
   */
  function Answer(name: Key, body: Value, buckets: string -> seq<Bucket>): Value {
    if Isset(body, StrKey("global")) && Prop(body, "aggs").Arr? then
      Arr(MapValues(Prop(body, "aggs").entries, (k: Key, _: Value) => BucketsBody(buckets(KeyName(k)))))
    else BucketsBody(buckets(KeyName(name)))
  }

  /** A search response whose `aggregations` answer every compiled aggregation. */
  function Respond(aggs: seq<(Key, Value)>, buckets: string -> seq<Bucket>): Value {
    Assoc([("aggregations", Arr(MapValues(aggs, (k: Key, v: Value) => Answer(k, v, buckets))))])
  }

  /** What the parser makes of the buckets `bs`: each count, and each key quoted. */
  function ParsedBuckets(bs: seq<Bucket>): Value {
    List(seq(|bs|, i requires 0 <= i < |bs| => Assoc([("count", Int(bs[i].docCount)), ("filter", Str("\"" + bs[i].key + "\""))])))
  }

  lemma BucketsRead(bs: seq<Bucket>)
    ensures Prop(BucketsBody(bs), "buckets").Arr?
    ensures BucketTerms(Prop(BucketsBody(bs), "buckets")) == ParsedBuckets(bs)
  {
    var items := seq(|bs|, i requires 0 <= i < |bs| => BucketValue(bs[i]));
    PropAssoc([("buckets", List(items))], 0);
    forall i | 0 <= i < |bs|
      ensures BucketTerm(BucketValue(bs[i])) == Assoc([("count", Int(bs[i].docCount)), ("filter", Str("\"" + bs[i].key + "\""))])
    {
      PropAssoc([("key", Str(bs[i].key)), ("doc_count", Int(bs[i].docCount))], 0);
      PropAssoc([("key", Str(bs[i].key)), ("doc_count", Int(bs[i].docCount))], 1);
    }
  }

  /** Facets every one of which is compiled, is parsed, and names its own aggregation. */
  predicate RoundTrippable(facets: seq<(string, Facet)>, indexFields: seq<(string, Field)>) {
    && UniqueKeys(facets)
    && (forall i :: 0 <= i < |facets| ==> Known(facets[i].1, indexFields))
    && (forall i :: 0 <= i < |facets| ==> facets[i].1.operator == Some("and") || facets[i].1.operator == Some("or"))
    && (forall i, j :: 0 <= i < j < |facets| ==> AggName(facets[i].0, facets[i].1) != AggName(facets[j].0, facets[j].1))
  }

  /** The response answers each facet's aggregation under the name the compiler gave it. */
  lemma AnsweredAggregation(facets: seq<(string, Facet)>, indexFields: seq<(string, Field)>, buckets: string -> seq<Bucket>, i: nat)
    requires RoundTrippable(facets, indexFields) && i < |facets|
    ensures
      var (id, facet) := facets[i];
      Prop(Prop(Respond(FacetParams(facets, indexFields, |facets|), buckets), "aggregations"), AggName(id, facet))
        == Answer(StrKey(AggName(id, facet)), AggBody(id, facet), buckets)
  {
    var (id, facet) := facets[i];
    var aggs := FacetParams(facets, indexFields, |facets|);
    var name := StrKey(AggName(id, facet));
    FirstFacetWins(facets, indexFields, |facets|, i, name);
    var f := (k: Key, v: Value) => Answer(k, v, buckets);
    PropAssoc([("aggregations", Arr(MapValues(aggs, f)))], 0);
    GetMapValues(aggs, f, name);
  }

  /** An `or` facet's buckets are found under `id_global`, then `id`. */
  lemma OrAnswerRead(id: string, facet: Facet, buckets: string -> seq<Bucket>, aggregations: Value)
    requires facet.operator == Some("or")
    requires Prop(aggregations, AggName(id, facet)) == Answer(StrKey(AggName(id, facet)), AggBody(id, facet), buckets)
    ensures FacetBuckets(id, facet, aggregations) == Some(Prop(BucketsBody(buckets(id)), "buckets"))
  {
    OrFacetIsGlobal(id, facet);
    var sub := MapValues([(StrKey(id), TermsAgg(facet))], (k: Key, _: Value) => BucketsBody(buckets(KeyName(k))));
    assert Answer(StrKey(AggName(id, facet)), AggBody(id, facet), buckets) == Arr(sub);
    assert sub == [(StrKey(id), BucketsBody(buckets(KeyName(StrKey(id)))))];
    assert Get(sub, StrKey(id)) == Some(BucketsBody(buckets(id)));
  }

  /** An `and` facet's buckets are found under `id`. */
  lemma AndAnswerRead(id: string, facet: Facet, buckets: string -> seq<Bucket>, aggregations: Value)
    requires facet.operator == Some("and")
    requires Prop(aggregations, AggName(id, facet)) == Answer(StrKey(AggName(id, facet)), AggBody(id, facet), buckets)
    ensures FacetBuckets(id, facet, aggregations) == Some(Prop(BucketsBody(buckets(id)), "buckets"))
  {
    var terms := Prop(TermsAgg(facet), "terms");
    PropAssocMissing([("terms", terms)], "global");
    assert TermsAgg(facet) == Assoc([("terms", terms)]) by {
      PropAssoc([("terms", terms)], 0);
    }
  }

  /** The parser finds each facet's buckets where the compiler asked for them. */
  lemma AnsweredBuckets(facets: seq<(string, Facet)>, indexFields: seq<(string, Field)>, buckets: string -> seq<Bucket>, i: nat)
    requires RoundTrippable(facets, indexFields) && i < |facets|
    ensures FacetBuckets(facets[i].0, facets[i].1, Prop(Respond(FacetParams(facets, indexFields, |facets|), buckets), "aggregations"))
      == Some(Prop(BucketsBody(buckets(facets[i].0)), "buckets"))
  {
    AnsweredAggregation(facets, indexFields, buckets, i);
    var aggregations := Prop(Respond(FacetParams(facets, indexFields, |facets|), buckets), "aggregations");
    if facets[i].1.operator == Some("or") {
      OrAnswerRead(facets[i].0, facets[i].1, buckets, aggregations);
    } else {
      AndAnswerRead(facets[i].0, facets[i].1, buckets, aggregations);
    }
  }

  /**
   * Round trip: compile the facets, answer every aggregation with buckets, and
   * parse the answer; every facet gets back its buckets' counts and quoted keys,
   * in bucket order.
   */
  lemma FacetRoundTrip(facets: seq<(string, Facet)>, indexFields: seq<(string, Field)>, buckets: string -> seq<Bucket>)
    requires RoundTrippable(facets, indexFields)
    ensures
      var aggregations := Prop(Respond(FacetParams(facets, indexFields, |facets|), buckets), "aggregations");
      && Readable(facets, aggregations)
      && forall i :: 0 <= i < |facets| ==>
           Get(FacetData(facets, aggregations, |facets|), StrKey(facets[i].0)) == Some(ParsedBuckets(buckets(facets[i].0)))
  {
    var aggregations := Prop(Respond(FacetParams(facets, indexFields, |facets|), buckets), "aggregations");
    forall i | 0 <= i < |facets|
      ensures FacetBuckets(facets[i].0, facets[i].1, aggregations) == Some(Prop(BucketsBody(buckets(facets[i].0)), "buckets"))
    {
      AnsweredBuckets(facets, indexFields, buckets, i);
    }
    forall i | 0 <= i < |facets|
      ensures ReadableAt(facets[i], aggregations)
    {
      BucketsRead(buckets(facets[i].0));
    }
    forall i | 0 <= i < |facets|
      ensures Get(FacetData(facets, aggregations, |facets|), StrKey(facets[i].0)) == Some(ParsedBuckets(buckets(facets[i].0)))
    {
      FacetDataGet(facets, aggregations, |facets|, i);
      BucketsRead(buckets(facets[i].0));
    }
  }
  // ---------------------------------------------------------------------------
  // The unit test

  /** The test's facets: `facet1` an `and` facet and `facet2` an `or` facet, both on `field1`. */
  const ExampleFacets: seq<(string, Facet)> :=
    [("facet1", Facet("field1", None, Some("and"))), ("facet2", Facet("field1", None, Some("or")))]

  /** The test's `facet1` answer, with the two counters Elasticsearch adds before the buckets. */
  function ExampleAndAnswer(b1: Bucket, b2: Bucket): Value {
    Assoc([("doc_count_error_upper_bound", Int(0)), ("sum_other_doc_count", Int(0)),
           ("buckets", List([BucketValue(b1), BucketValue(b2)]))])
  }

  /** The test's `facet2_global` answer. */
  function ExampleOrAnswer(b3: Bucket): Value {
    Assoc([("facet2", BucketsBody([b3]))])
  }

  /** The aggregations of a response shaped like the test's, with answers `a` and `o`. */
  function ExampleAggregations(a: Value, o: Value): Value {
    Prop(Assoc([("aggregations", Assoc([("facet1", a), ("facet2_global", o)]))]), "aggregations")
  }

  /** The two answers read back. */
  lemma ExampleAggregationsRead(a: Value, o: Value)
    ensures Prop(ExampleAggregations(a, o), "facet1") == a
    ensures Prop(ExampleAggregations(a, o), "facet2_global") == o
  {
    var es := [("facet1", a), ("facet2_global", o)];
    PropAssoc([("aggregations", Assoc(es))], 0);
    PropAssoc(es, 0);
    PropAssoc(es, 1);
  }

  /** Where the parser finds the buckets of a response shaped like the test's. */
  lemma ExampleFacetBuckets(a: Value, o: Value)
    requires o != Null
    ensures FacetBuckets("facet1", ExampleFacets[0].1, ExampleAggregations(a, o)) == Some(Prop(a, "buckets"))
    ensures FacetBuckets("facet2", ExampleFacets[1].1, ExampleAggregations(a, o)) == Some(Prop(Prop(o, "facet2"), "buckets"))
  {
    ExampleAggregationsRead(a, o);
    assert "facet2" + "_global" == "facet2_global";
  }

  /** The buckets the test's answers hold. */
  lemma ExampleAnswersRead(b1: Bucket, b2: Bucket, b3: Bucket)
    ensures Prop(ExampleAndAnswer(b1, b2), "buckets") == Prop(BucketsBody([b1, b2]), "buckets")
    ensures Prop(Prop(ExampleOrAnswer(b3), "facet2"), "buckets") == Prop(BucketsBody([b3]), "buckets")
  {
    var es := [("doc_count_error_upper_bound", Int(0)), ("sum_other_doc_count", Int(0)),
               ("buckets", List([BucketValue(b1), BucketValue(b2)]))];
    PropAssoc(es, 2);
    var bs := [b1, b2];
    PropAssoc([("buckets", List(seq(|bs|, i requires 0 <= i < |bs| => BucketValue(bs[i]))))], 0);
    assert seq(|bs|, i requires 0 <= i < |bs| => BucketValue(bs[i])) == [BucketValue(b1), BucketValue(b2)];
    PropAssoc([("facet2", BucketsBody([b3]))], 0);
  }

  /** The parser on two facets whose buckets are `b1` and `b2`. */
  lemma ExampleFacetData(aggregations: Value, b1: Value, b2: Value)
    requires FacetBuckets("facet1", ExampleFacets[0].1, aggregations) == Some(b1) && b1.Arr?
    requires FacetBuckets("facet2", ExampleFacets[1].1, aggregations) == Some(b2) && b2.Arr?
    ensures Readable(ExampleFacets, aggregations)
    ensures FacetData(ExampleFacets, aggregations, 2) == [(StrKey("facet1"), BucketTerms(b1)), (StrKey("facet2"), BucketTerms(b2))]
  {
    assert ReadableAt(ExampleFacets[0], aggregations) && ReadableAt(ExampleFacets[1], aggregations);
    assert FacetData(ExampleFacets, aggregations, 1) == [(StrKey("facet1"), BucketTerms(b1))];
  }

  /** A parsed bucket: its count, and its key quoted. */
  function ParsedBucket(b: Bucket): Value {
    Assoc([("count", Int(b.docCount)), ("filter", Str("\"" + b.key + "\""))])
  }

  /**
   * `testParseFacetResult`, for every choice of bucket keys and counts: with the
   * test's `foo` (100) and `bar` (200) answering `facet1` and `whizz` (400)
   * answering `facet2`, `facet1` gets the filters `"foo"` and `"bar"` with their
   * counts, and `facet2` the filter `"whizz"`, in that order.
   */
  lemma ParseFacetResultExample(b1: Bucket, b2: Bucket, b3: Bucket)
    ensures
      var aggregations := ExampleAggregations(ExampleAndAnswer(b1, b2), ExampleOrAnswer(b3));
      && Readable(ExampleFacets, aggregations)
      && FacetData(ExampleFacets, aggregations, 2) ==
           [(StrKey("facet1"), List([ParsedBucket(b1), ParsedBucket(b2)])),
            (StrKey("facet2"), List([ParsedBucket(b3)]))]
  {
    var a := ExampleAndAnswer(b1, b2);
    var o := ExampleOrAnswer(b3);
    ExampleFacetBuckets(a, o);
    ExampleAnswersRead(b1, b2, b3);
    BucketsRead([b1, b2]);
    BucketsRead([b3]);
    ExampleFacetData(ExampleAggregations(a, o), Prop(BucketsBody([b1, b2]), "buckets"), Prop(BucketsBody([b3]), "buckets"));
    ParsedTwoAndOne(b1, b2, b3);
  }

  lemma ParsedTwoAndOne(b1: Bucket, b2: Bucket, b3: Bucket)
    ensures ParsedBuckets([b1, b2]) == List([ParsedBucket(b1), ParsedBucket(b2)])
    ensures ParsedBuckets([b3]) == List([ParsedBucket(b3)])
  {
    var bs := [b1, b2];
    assert seq(|bs|, i requires 0 <= i < |bs| => Assoc([("count", Int(bs[i].docCount)), ("filter", Str("\"" + bs[i].key + "\""))]))
      == [ParsedBucket(b1), ParsedBucket(b2)];
    assert seq(1, i requires 0 <= i < 1 => Assoc([("count", Int([b3][i].docCount)), ("filter", Str("\"" + [b3][i].key + "\""))]))
      == [ParsedBucket(b3)];
  }
}
