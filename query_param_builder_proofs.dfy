/**
 * What the request body holds, key by key: paging and sort, the query clause
 * with and without the More-Like-This clause, `_source` and `aggs`, and the
 * request of an empty query.
 */
module QueryParamBuilderProofs {
  import opened Wrappers
  import opened Dict
  import opened Php
  import opened SearchApi
  import FilterBuilder
  import opened QueryParamBuilder

  /** The entries up to the query clause, read key by key. */
  lemma QueryBodyRead(offset: Value, limit: Value, sort: seq<(Key, Value)>, text: Value, filters: Value, k: Key)
    ensures Get(QueryBody(offset, limit, sort, text, filters), k) ==
      if k == StrKey("from") then Some(offset)
      else if k == StrKey("size") then Some(limit)
      else if k == StrKey("sort") then (if sort != [] then Some(Arr(sort)) else None)
      else if k == StrKey("query") then QueryClause(text, filters)
      else None
  {
    var paging := [(StrKey("from"), offset), (StrKey("size"), limit)];
    var sorted := Part("sort", sort != [], Arr(sort));
    var clause := match QueryClause(text, filters) case Some(q) => [(StrKey("query"), q)] case None => [];
    assert QueryBody(offset, limit, sort, text, filters) == paging + (sorted + clause);
    GetConcat(paging, sorted + clause, k);
    GetConcat(sorted, clause, k);
    assert HasKey(paging, k) <==> k == StrKey("from") || k == StrKey("size") by {
      assert paging[0].0 == StrKey("from") && paging[1].0 == StrKey("size");
    }
    assert HasKey(sorted, k) <==> sort != [] && k == StrKey("sort") by {
      if sort != [] { assert sorted[0].0 == StrKey("sort"); }
    }
  }

  /** The entries before the More-Like-This clause, read key by key. */
  lemma BaseBodyRead(offset: Value, limit: Value, sort: seq<(Key, Value)>, text: Value, filters: Value,
                     excludes: Value, k: Key)
    ensures Get(BaseBody(offset, limit, sort, text, filters, excludes), k) ==
      if k == StrKey("_source") then (if !Empty(excludes) then Some(Assoc([("excludes", excludes)])) else None)
      else Get(QueryBody(offset, limit, sort, text, filters), k)
  {
    var front := QueryBody(offset, limit, sort, text, filters);
    var source := Part("_source", !Empty(excludes), Assoc([("excludes", excludes)]));
    QueryBodyFresh(offset, limit, sort, text, filters);
    GetConcat(front, source, k);
    if !Empty(excludes) {
      assert source[0].0 == StrKey("_source");
    }
  }

  /** The request body, read key by key. */
  lemma RequestBodyRead(offset: Value, limit: Value, sort: seq<(Key, Value)>, text: Value, filters: Value,
                        excludes: Value, mlt: Option<Value>, aggs: seq<(Key, Value)>, k: Key)
    ensures
      var base := BaseBody(offset, limit, sort, text, filters, excludes);
      Get(RequestBody(offset, limit, sort, text, filters, excludes, mlt, aggs), k) ==
        if k == StrKey("aggs") then (if aggs != [] then Some(Arr(aggs)) else None)
        else if k == StrKey("query") && mlt.Some? then Some(AppendMust(At(Arr(base), StrKey("query")), mlt.value))
        else Get(base, k)
  {
    var base := BaseBody(offset, limit, sort, text, filters, excludes);
    var withMlt := match mlt
      case None => base
      case Some(clause) => Put(base, StrKey("query"), AppendMust(At(Arr(base), StrKey("query")), clause));
    var tail := Part("aggs", aggs != [], Arr(aggs));
    assert RequestBody(offset, limit, sort, text, filters, excludes, mlt, aggs) == withMlt + tail;
    MltBodyFresh(offset, limit, sort, text, filters, excludes, mlt);
    GetConcat(withMlt, tail, k);
    if aggs != [] {
      assert tail[0].0 == StrKey("aggs");
    }
    if mlt.Some? {
      PutGet(base, StrKey("query"), AppendMust(At(Arr(base), StrKey("query")), mlt.value), k);
    }
  }

  /** Keys other than `query`, `_source` and `aggs` read as in the body up to the query clause. */
  lemma FrontRead(offset: Value, limit: Value, sort: seq<(Key, Value)>, text: Value, filters: Value,
                  excludes: Value, mlt: Option<Value>, aggs: seq<(Key, Value)>, k: Key)
    requires k != StrKey("query") && k != StrKey("_source") && k != StrKey("aggs")
    ensures Get(RequestBody(offset, limit, sort, text, filters, excludes, mlt, aggs), k) ==
      Get(QueryBody(offset, limit, sort, text, filters), k)
  {
    RequestBodyRead(offset, limit, sort, text, filters, excludes, mlt, aggs, k);
    BaseBodyRead(offset, limit, sort, text, filters, excludes, k);
  }

  /**
   * `from` and `size` are always set, so the body is never empty and the
   * `match_all` fallback is never taken.
   */
  lemma Paging(offset: Value, limit: Value, sort: seq<(Key, Value)>, text: Value, filters: Value,
               excludes: Value, mlt: Option<Value>, aggs: seq<(Key, Value)>)
    ensures Get(RequestBody(offset, limit, sort, text, filters, excludes, mlt, aggs), StrKey("from")) == Some(offset)
    ensures Get(RequestBody(offset, limit, sort, text, filters, excludes, mlt, aggs), StrKey("size")) == Some(limit)
    ensures RequestBody(offset, limit, sort, text, filters, excludes, mlt, aggs) != []
  {
    FrontRead(offset, limit, sort, text, filters, excludes, mlt, aggs, StrKey("from"));
    FrontRead(offset, limit, sort, text, filters, excludes, mlt, aggs, StrKey("size"));
    QueryBodyRead(offset, limit, sort, text, filters, StrKey("from"));
    QueryBodyRead(offset, limit, sort, text, filters, StrKey("size"));
  }

  /** `sort` is set exactly when some sort was kept. */
  lemma SortSet(offset: Value, limit: Value, sort: seq<(Key, Value)>, text: Value, filters: Value,
                excludes: Value, mlt: Option<Value>, aggs: seq<(Key, Value)>)
    ensures Get(RequestBody(offset, limit, sort, text, filters, excludes, mlt, aggs), StrKey("sort")) ==
      if sort != [] then Some(Arr(sort)) else None
  {
    FrontRead(offset, limit, sort, text, filters, excludes, mlt, aggs, StrKey("sort"));
    QueryBodyRead(offset, limit, sort, text, filters, StrKey("sort"));
  }

  /** `_source.excludes` is set exactly when the excluded fields are not empty. */
  lemma SourceExcludes(offset: Value, limit: Value, sort: seq<(Key, Value)>, text: Value, filters: Value,
                       excludes: Value, mlt: Option<Value>, aggs: seq<(Key, Value)>)
    ensures Get(RequestBody(offset, limit, sort, text, filters, excludes, mlt, aggs), StrKey("_source")) ==
      if !Empty(excludes) then Some(Assoc([("excludes", excludes)])) else None
  {
    RequestBodyRead(offset, limit, sort, text, filters, excludes, mlt, aggs, StrKey("_source"));
    BaseBodyRead(offset, limit, sort, text, filters, excludes, StrKey("_source"));
  }

  /** `aggs` is set exactly when the compiled aggregations are not empty. */
  lemma Aggregations(offset: Value, limit: Value, sort: seq<(Key, Value)>, text: Value, filters: Value,
                     excludes: Value, mlt: Option<Value>, aggs: seq<(Key, Value)>)
    ensures Get(RequestBody(offset, limit, sort, text, filters, excludes, mlt, aggs), StrKey("aggs")) ==
      if aggs != [] then Some(Arr(aggs)) else None
  {
    RequestBodyRead(offset, limit, sort, text, filters, excludes, mlt, aggs, StrKey("aggs"));
  }

  /** The body has no keys besides `from`, `size`, `sort`, `query`, `_source` and `aggs`. */
  lemma BodyKeys(offset: Value, limit: Value, sort: seq<(Key, Value)>, text: Value, filters: Value,
                 excludes: Value, mlt: Option<Value>, aggs: seq<(Key, Value)>, k: Key)
    requires HasKey(RequestBody(offset, limit, sort, text, filters, excludes, mlt, aggs), k)
    ensures k in [StrKey("from"), StrKey("size"), StrKey("sort"), StrKey("query"), StrKey("_source"), StrKey("aggs")]
  {
    RequestBodyRead(offset, limit, sort, text, filters, excludes, mlt, aggs, k);
    BaseBodyRead(offset, limit, sort, text, filters, excludes, k);
    QueryBodyRead(offset, limit, sort, text, filters, k);
  }

  /**
   * Without More-Like-This, the query clause is that of the full-text clause
   * and the filters: `bool.must` and `bool.filter` for both, the full-text
   * clause alone, `bool.filter` alone, and no `query` key for neither.
   */
  lemma QueryWithoutMlt(offset: Value, limit: Value, sort: seq<(Key, Value)>, text: Value, filters: Value,
                        excludes: Value, aggs: seq<(Key, Value)>)
    ensures Get(RequestBody(offset, limit, sort, text, filters, excludes, None, aggs), StrKey("query")) ==
      QueryClause(text, filters)
    ensures !Empty(text) && !Empty(filters) ==>
      QueryClause(text, filters) == Some(Assoc([("bool", Assoc([("must", text), ("filter", filters)]))]))
    ensures !Empty(text) && Empty(filters) ==> QueryClause(text, filters) == Some(text)
    ensures Empty(text) && !Empty(filters) ==> QueryClause(text, filters) == Some(Assoc([("bool", Assoc([("filter", filters)]))]))
    ensures Empty(text) && Empty(filters) ==> QueryClause(text, filters) == None
  {
    RequestBodyRead(offset, limit, sort, text, filters, excludes, None, aggs, StrKey("query"));
    BaseBodyRead(offset, limit, sort, text, filters, excludes, StrKey("query"));
    QueryBodyRead(offset, limit, sort, text, filters, StrKey("query"));
  }

  /** The query clause More-Like-This writes to: the one the full-text clause and the filters give, or null. */
  lemma MltBase(offset: Value, limit: Value, sort: seq<(Key, Value)>, text: Value, filters: Value,
                excludes: Value, clause: Value, aggs: seq<(Key, Value)>)
    ensures Get(RequestBody(offset, limit, sort, text, filters, excludes, Some(clause), aggs), StrKey("query")) ==
      Some(AppendMust(match QueryClause(text, filters) case Some(q) => q case None => Null, clause))
  {
    var base := BaseBody(offset, limit, sort, text, filters, excludes);
    assert Get(RequestBody(offset, limit, sort, text, filters, excludes, Some(clause), aggs), StrKey("query")) ==
      Some(AppendMust(At(Arr(base), StrKey("query")), clause)) by {
      RequestBodyRead(offset, limit, sort, text, filters, excludes, Some(clause), aggs, StrKey("query"));
    }
    assert Get(base, StrKey("query")) == QueryClause(text, filters) by {
      BaseBodyRead(offset, limit, sort, text, filters, excludes, StrKey("query"));
      QueryBodyRead(offset, limit, sort, text, filters, StrKey("query"));
    }
  }

  /** With no other query clause, More-Like-This gives `{bool: {must: [clause]}}`. */
  lemma MltAlone(clause: Value)
    ensures AppendMust(Null, clause) == Assoc([("bool", Assoc([("must", List([clause]))]))])
  {
    assert Push(Null, clause) == List([clause]);
    MustWritten(List([clause]));
    AssocOne("must", List([clause]));
    AssocOne("bool", Arr([(StrKey("must"), List([clause]))]));
  }

  /**
   * With both a full-text clause and filters, More-Like-This is pushed onto
   * `bool.must`, which holds the full-text clause itself: the clause lands at
   * key 0 beside `query_string`, not in a list of clauses.
   */
  lemma MltAfterBoth(text: Value, filters: Value, clause: Value)
    ensures
      AppendMust(Assoc([("bool", Assoc([("must", text), ("filter", filters)]))]), clause)
        == Assoc([("bool", Assoc([("must", Push(text, clause)), ("filter", filters)]))])
  {
    var both := [(StrKey("must"), text), (StrKey("filter"), filters)];
    var q := Arr([(StrKey("bool"), Arr(both))]);
    AssocTwo("must", text, "filter", filters);
    AssocOne("bool", Arr(both));
    assert Prop(Prop(q, "bool"), "must") == text by {
      assert Get([(StrKey("bool"), Arr(both))], StrKey("bool")) == Some(Arr(both));
      assert Get(both, StrKey("must")) == Some(text);
    }
    var pushed := Push(text, clause);
    SetPath2(q, StrKey("bool"), StrKey("must"), pushed);
    assert At(q, StrKey("bool")) == Arr(both) by {
      assert Get([(StrKey("bool"), Arr(both))], StrKey("bool")) == Some(Arr(both));
    }
    assert Put(both, StrKey("must"), pushed) == [(StrKey("must"), pushed), (StrKey("filter"), filters)];
    assert Put([(StrKey("bool"), Arr(both))], StrKey("bool"), Arr([(StrKey("must"), pushed), (StrKey("filter"), filters)]))
      == [(StrKey("bool"), Arr([(StrKey("must"), pushed), (StrKey("filter"), filters)]))];
    AssocTwo("must", pushed, "filter", filters);
    AssocOne("bool", Arr([(StrKey("must"), pushed), (StrKey("filter"), filters)]));
  }

  /**
   * With a full-text clause alone, More-Like-This adds a `bool` entry beside
   * the full-text clause's own entries.
   */
  lemma MltAfterText(text: Value, clause: Value)
    requires text.Arr? && !HasKey(text.entries, StrKey("bool"))
    ensures AppendMust(text, clause) == Arr(text.entries + [(StrKey("bool"), Assoc([("must", List([clause]))]))])
  {
    assert Prop(text, "bool") == Null;
    assert Push(Null, clause) == List([clause]);
    SetPath2(text, StrKey("bool"), StrKey("must"), List([clause]));
    SetAtNull(StrKey("must"), List([clause]));
    AssocOne("must", List([clause]));
    SetAtNew(text.entries, StrKey("bool"), Arr([(StrKey("must"), List([clause]))]));
  }

  /** With filters alone, More-Like-This adds `must: [clause]` after `bool.filter`. */
  lemma MltAfterFilters(filters: Value, clause: Value)
    ensures
      AppendMust(Assoc([("bool", Assoc([("filter", filters)]))]), clause)
        == Assoc([("bool", Assoc([("filter", filters), ("must", List([clause]))]))])
  {
    var filter := [(StrKey("filter"), filters)];
    var q := Arr([(StrKey("bool"), Arr(filter))]);
    AssocOne("filter", filters);
    AssocOne("bool", Arr(filter));
    assert At(q, StrKey("bool")) == Arr(filter) by {
      assert Get([(StrKey("bool"), Arr(filter))], StrKey("bool")) == Some(Arr(filter));
    }
    assert Prop(Arr(filter), "must") == Null;
    assert Push(Null, clause) == List([clause]);
    SetPath2(q, StrKey("bool"), StrKey("must"), List([clause]));
    SetAtNew(filter, StrKey("must"), List([clause]));
    var both := filter + [(StrKey("must"), List([clause]))];
    assert both == [(StrKey("filter"), filters), (StrKey("must"), List([clause]))];
    assert AppendMust(q, clause) == SetPath(q, [StrKey("bool"), StrKey("must")], List([clause]));
    assert Put([(StrKey("bool"), Arr(filter))], StrKey("bool"), Arr(both)) == [(StrKey("bool"), Arr(both))];
    AssocTwo("filter", filters, "must", List([clause]));
    AssocOne("bool", Arr(both));
  }

  /**
   * The unit test: a query with no keys, sorts, languages, facets,
   * More-Like-This or excluded fields, paged at 0 and 10, over a blank
   * condition group, compiles to exactly `{index: 'foo', body: {from: 0, size: 10}}`.
   */
  lemma EmptyQueryParams(index: Index, fuzziness: Option<string>)
    requires ValidIndex(index)
    ensures
      var options := [("offset", Int(0)), ("limit", Int(10)), ("elasticsearch_exclude_source_fields", Arr([]))];
      && Buildable(index, Null, options)
      && Compiled("foo", index, Null, [], [], ConditionGroup("AND", false, []), [], options, fuzziness)
        == Success(Assoc([("index", Str("foo")), ("body", Assoc([("from", Int(0)), ("size", Int(10))]))]))
  {
    var options := [("offset", Int(0)), ("limit", Int(10)), ("elasticsearch_exclude_source_fields", Arr([]))];
    PagingOptions(Int(0), Int(10));
    assert FilterBuilder.BuildFilters(ConditionGroup("AND", false, []), GetIndexFields(index.fields)) == Success(Arr([]));
    PagingOnly(Int(0), Int(10));
    AssocTwo("from", Int(0), "size", Int(10));
  }

  /** Options holding only the paging and no excluded fields read back as written, with no More-Like-This. */
  lemma PagingOptions(offset: Value, limit: Value)
    ensures
      var options := [("offset", offset), ("limit", limit), ("elasticsearch_exclude_source_fields", Arr([]))];
      && GetOption(options, "offset", Int(DefaultOffset)) == offset
      && GetOption(options, "limit", Int(DefaultLimit)) == limit
      && GetOption(options, "elasticsearch_exclude_source_fields", Arr([])) == Arr([])
      && GetOption(options, "search_api_mlt", Null) == Null
  {
    var options := [("offset", offset), ("limit", limit), ("elasticsearch_exclude_source_fields", Arr([]))];
    assert Get(options[2..], "search_api_mlt") == None by {
      assert options[2..][1..] == [];
    }
    assert Get(options[1..], "limit") == Some(limit);
  }

  /** With no sort, query, filters, excluded fields, More-Like-This clause or aggregations, the body is the paging alone. */
  lemma PagingOnly(offset: Value, limit: Value)
    ensures RequestBody(offset, limit, [], Arr([]), Arr([]), Arr([]), None, []) == [(StrKey("from"), offset), (StrKey("size"), limit)]
  {
    var paging := [(StrKey("from"), offset), (StrKey("size"), limit)];
    assert QueryBody(offset, limit, [], Arr([]), Arr([])) == paging + [] + [];
    assert BaseBody(offset, limit, [], Arr([]), Arr([]), Arr([])) == paging + [] + [] + [];
  }
}
