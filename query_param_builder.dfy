/**
 * The request compiler: a Search API query becomes the `{index, body}`
 * parameters of an Elasticsearch `_search` request.  The body holds, in this
 * order, `from`, `size`, `sort`, `query`, `_source` and `aggs`; the query
 * combines the full-text clause, the filters and the More-Like-This clause.
 */
module QueryParamBuilder {
  import opened Wrappers
  import opened Dict
  import opened Php
  import opened SearchApi
  import FilterBuilder
  import SearchParamBuilder
  import QuerySortBuilder
  import FacetParamBuilder
  import MoreLikeThisParamBuilder

  const DefaultOffset: int := 0
  const DefaultLimit: int := 10

  /**
   * The Search API query a request is built from.  Building the request adds
   * the language condition to its condition group and stores the request
   * among its options; nothing else of it changes.
   */
  class Query {
    var index: Index
    /** `getKeys()`: null, a string, or the parsed keys. */
    var keys: Value
    /** `getFulltextFields()`: the fields the search is restricted to; none means all. */
    var fulltextFields: seq<string>
    /** `getSorts()`: (field, direction) pairs in order. */
    var sorts: seq<(string, string)>
    /** `getLanguages()`: null, or the language codes. */
    var languages: Option<seq<string>>
    var conditionGroup: ConditionGroup
    /** The `search_api_facets` option, as the facet compiler reads it; empty when unset. */
    var facets: seq<(string, FacetParamBuilder.Facet)>
    /** The other options, by name. */
    var options: seq<(string, Value)>

    constructor(index: Index, keys: Value, fulltextFields: seq<string>, sorts: seq<(string, string)>,
                languages: Option<seq<string>>, conditionGroup: ConditionGroup,
                facets: seq<(string, FacetParamBuilder.Facet)>, options: seq<(string, Value)>)
      ensures this.index == index && this.keys == keys && this.fulltextFields == fulltextFields
      ensures this.sorts == sorts && this.languages == languages && this.conditionGroup == conditionGroup
      ensures this.facets == facets && this.options == options
    {
      this.index := index;
      this.keys := keys;
      this.fulltextFields := fulltextFields;
      this.sorts := sorts;
      this.languages := languages;
      this.conditionGroup := conditionGroup;
      this.facets := facets;
      this.options := options;
    }
  }

  /** `getOption($name, $default)`. */
  function GetOption(options: seq<(string, Value)>, name: string, default: Value): Value {
    match Get(options, name)
    case Some(v) => v
    case None => default
  }

  // ---------------------------------------------------------------------------
  // Index fields and languages

  /**
   * `getIndexFields`: the index's fields, with a string field for the
   * datasource and for the item id added when the index has none.
   */
  function GetIndexFields(fields: seq<(string, Field)>): (r: seq<(string, Field)>)
    ensures forall f :: HasKey(fields, f) ==> HasKey(r, f)
  {
    var withDatasource :=
      if HasKey(fields, "search_api_datasource") then fields
      else Put(fields, "search_api_datasource", CreateField("search_api_datasource", "string"));
    var r :=
      if HasKey(withDatasource, "search_api_id") then withDatasource
      else Put(withDatasource, "search_api_id", CreateField("search_api_id", "string"));
    forall f | HasKey(fields, f) ensures HasKey(r, f) {
      PutGet(fields, "search_api_datasource", CreateField("search_api_datasource", "string"), f);
      PutGet(withDatasource, "search_api_id", CreateField("search_api_id", "string"), f);
    }
    r
  }

  /**
   * The index's own fields read as before; the datasource and item id fields
   * are there, as string fields unless the index defines them; no other field
   * is added, and keys stay unique.
   */
  lemma IndexFieldsAugmented(fields: seq<(string, Field)>, f: string)
    ensures HasKey(fields, f) ==> Get(GetIndexFields(fields), f) == Get(fields, f)
    ensures !HasKey(fields, f) && f in ["search_api_datasource", "search_api_id"] ==>
      Get(GetIndexFields(fields), f) == Some(CreateField(f, "string"))
    ensures HasKey(GetIndexFields(fields), f) <==> HasKey(fields, f) || f in ["search_api_datasource", "search_api_id"]
    ensures UniqueKeys(fields) ==> UniqueKeys(GetIndexFields(fields))
  {
    var datasource := CreateField("search_api_datasource", "string");
    var withDatasource := if HasKey(fields, "search_api_datasource") then fields else Put(fields, "search_api_datasource", datasource);
    PutGet(fields, "search_api_datasource", datasource, f);
    PutGet(withDatasource, "search_api_id", CreateField("search_api_id", "string"), f);
    if UniqueKeys(fields) {
      PutUnique(fields, "search_api_datasource", datasource);
      PutUnique(withDatasource, "search_api_id", CreateField("search_api_id", "string"));
    }
  }

  /** The languages as the list value of the condition. */
  function LanguageList(langs: seq<string>): Value {
    List(seq(|langs|, i requires 0 <= i < |langs| => Str(langs[i])))
  }

  /** The condition group after the language restriction: `search_api_language IN languages`, appended. */
  function WithLanguages(g: ConditionGroup, languages: Option<seq<string>>): ConditionGroup {
    match languages
    case None => g
    case Some(langs) => AddCondition(g, "search_api_language", LanguageList(langs), "IN")
  }

  /** A query with languages gains exactly one condition, last, on the language; without, the group is kept. */
  lemma LanguageRestriction(g: ConditionGroup, languages: Option<seq<string>>)
    ensures languages.None? ==> WithLanguages(g, languages) == g
    ensures languages.Some? ==>
      && WithLanguages(g, languages).conjunction == g.conjunction
      && WithLanguages(g, languages).negated == g.negated
      && WithLanguages(g, languages).members[..|g.members|] == g.members
      && WithLanguages(g, languages).members[|g.members|..] ==
           [Leaf(Condition("search_api_language", LanguageList(languages.value), "IN"))]
  {
  }

  // ---------------------------------------------------------------------------
  // The request body

  /** An entry present only when `present` holds. */
  function Part(name: string, present: bool, v: Value): seq<(Key, Value)> {
    if present then [(StrKey(name), v)] else []
  }

  /**
   * The `query` clause the full-text clause and the filters give: both under
   * `bool` as `must` and `filter`; the full-text clause alone as it is; the
   * filters alone as `bool.filter`; neither gives no clause.
   */
  function QueryClause(text: Value, filters: Value): Option<Value> {
    if !Empty(text) && !Empty(filters) then Some(Assoc([("bool", Assoc([("must", text), ("filter", filters)]))]))
    else if !Empty(text) then Some(text)
    else if !Empty(filters) then Some(Assoc([("bool", Assoc([("filter", filters)]))]))
    else None
  }

  /** `$query['bool']['must'][] = $clause`, on the query clause so far (null when there is none). */
  function AppendMust(query: Value, clause: Value): Value {
    SetPath(query, [StrKey("bool"), StrKey("must")], Push(Prop(Prop(query, "bool"), "must"), clause))
  }

  /** The body up to the query clause. */
  function QueryBody(offset: Value, limit: Value, sort: seq<(Key, Value)>, text: Value, filters: Value): seq<(Key, Value)> {
    [(StrKey("from"), offset), (StrKey("size"), limit)]
    + Part("sort", sort != [], Arr(sort))
    + (match QueryClause(text, filters) case Some(q) => [(StrKey("query"), q)] case None => [])
  }

  /** The body before the More-Like-This clause and the aggregations. */
  function BaseBody(offset: Value, limit: Value, sort: seq<(Key, Value)>, text: Value, filters: Value,
                    excludes: Value): seq<(Key, Value)> {
    QueryBody(offset, limit, sort, text, filters) + Part("_source", !Empty(excludes), Assoc([("excludes", excludes)]))
  }

  /**
   * The request body.  The More-Like-This clause is appended to
   * `query.bool.must` of whatever query clause there is; when there is none,
   * the `query` entry it creates comes after `_source`.
   */
  function RequestBody(offset: Value, limit: Value, sort: seq<(Key, Value)>, text: Value, filters: Value,
                       excludes: Value, mlt: Option<Value>, aggs: seq<(Key, Value)>): seq<(Key, Value)> {
    var base := BaseBody(offset, limit, sort, text, filters, excludes);
    var withMlt := match mlt
      case None => base
      case Some(clause) => Put(base, StrKey("query"), AppendMust(At(Arr(base), StrKey("query")), clause));
    withMlt + Part("aggs", aggs != [], Arr(aggs))
  }

  /** The More-Like-This option can be compiled: it is empty, or its `fields` is an array. */
  predicate MltReady(mlt: Value) {
    Empty(mlt) || Prop(mlt, "fields").Arr?
  }

  /** The More-Like-This clause, for a non-empty option. */
  function MltClause(mlt: Value): Option<Value>
    requires MltReady(mlt)
  {
    if Empty(mlt) then None else Some(MoreLikeThisParamBuilder.BuildMoreLikeThisQuery(mlt))
  }

  /** What the query must satisfy for its request to be built. */
  predicate Buildable(index: Index, keys: Value, options: seq<(string, Value)>) {
    && ValidIndex(index)
    && (keys.Null? || keys.Str? || keys.Arr?)
    && MltReady(GetOption(options, "search_api_mlt", Null))
  }

  /** The full-text clause of the query, over the augmented index fields. */
  function Text(index: Index, keys: Value, fulltextFields: seq<string>, fuzziness: Option<string>): Value
    requires ValidIndex(index) && (keys.Null? || keys.Str? || keys.Arr?)
  {
    SearchParamBuilder.SearchParams(keys, fulltextFields, index, GetIndexFields(index.fields), fuzziness)
  }

  /** The parameters `buildQueryParams` stores on the query and hands to the event, once the filters compiled. */
  function Params(indexId: string, index: Index, keys: Value, fulltextFields: seq<string>, sorts: seq<(string, string)>,
                  facets: seq<(string, FacetParamBuilder.Facet)>, options: seq<(string, Value)>, filters: Value,
                  fuzziness: Option<string>): Value
    requires Buildable(index, keys, options)
  {
    var indexFields := GetIndexFields(index.fields);
    Assoc([("index", Str(indexId)), ("body", Arr(RequestBody(
      GetOption(options, "offset", Int(DefaultOffset)),
      GetOption(options, "limit", Int(DefaultLimit)),
      QuerySortBuilder.SortFold(sorts, keys, index, |sorts|),
      Text(index, keys, fulltextFields, fuzziness),
      filters,
      GetOption(options, "elasticsearch_exclude_source_fields", Arr([])),
      MltClause(GetOption(options, "search_api_mlt", Null)),
      FacetParamBuilder.FacetParams(facets, indexFields, |facets|))))])
  }

  /** The outcome of compiling the request: the filter error, or the parameters. */
  function Compiled(indexId: string, index: Index, keys: Value, fulltextFields: seq<string>, sorts: seq<(string, string)>,
                    group: ConditionGroup, facets: seq<(string, FacetParamBuilder.Facet)>, options: seq<(string, Value)>,
                    fuzziness: Option<string>): Result<Value, FilterBuilder.FilterError>
    requires Buildable(index, keys, options)
  {
    match FilterBuilder.BuildFilters(group, GetIndexFields(index.fields))
    case Failure(e) => Failure(e)
    case Success(filters) => Success(Params(indexId, index, keys, fulltextFields, sorts, facets, options, filters, fuzziness))
  }

  // ---------------------------------------------------------------------------
  // The writes `buildQueryParams` makes, one lemma per shape

  /** `$query['bool']['must'] = $text` on no query. */
  lemma MustWritten(text: Value)
    ensures SetPath(Null, [StrKey("bool"), StrKey("must")], text) == Arr([(StrKey("bool"), Arr([(StrKey("must"), text)]))])
  {
    SetPath2(Null, StrKey("bool"), StrKey("must"), text);
    SetAtNull(StrKey("must"), text);
    SetAtNull(StrKey("bool"), Arr([(StrKey("must"), text)]));
  }

  /** `$query['bool']['filter'] = $filters` after `must`. */
  lemma FilterAfterMust(text: Value, filters: Value)
    ensures
      var must := Arr([(StrKey("must"), text)]);
      SetPath(Arr([(StrKey("bool"), must)]), [StrKey("bool"), StrKey("filter")], filters)
        == Arr([(StrKey("bool"), Arr([(StrKey("must"), text), (StrKey("filter"), filters)]))])
  {
    var must := Arr([(StrKey("must"), text)]);
    var first := Arr([(StrKey("bool"), must)]);
    var both := Arr([(StrKey("must"), text), (StrKey("filter"), filters)]);
    SetPath2(first, StrKey("bool"), StrKey("filter"), filters);
    assert At(first, StrKey("bool")) == must;
    SetAtNew([(StrKey("must"), text)], StrKey("filter"), filters);
    assert [(StrKey("must"), text)] + [(StrKey("filter"), filters)] == both.entries;
    SetAtLast([], StrKey("bool"), must, both);
    assert [] + [(StrKey("bool"), must)] == first.entries;
    assert [] + [(StrKey("bool"), both)] == [(StrKey("bool"), both)];
  }

  /** `$body['query']['bool']['must'] = $text; $body['query']['bool']['filter'] = $filters;` on a body without a query. */
  lemma BothWritten(es: seq<(Key, Value)>, text: Value, filters: Value)
    requires !HasKey(es, StrKey("query"))
    ensures
      var q := SetPath(Arr(es), [StrKey("query"), StrKey("bool"), StrKey("must")], text);
      SetPath(q, [StrKey("query"), StrKey("bool"), StrKey("filter")], filters)
        == Arr(es + [(StrKey("query"), Assoc([("bool", Assoc([("must", text), ("filter", filters)]))]))])
  {
    var first := Arr([(StrKey("bool"), Arr([(StrKey("must"), text)]))]);
    var both := Arr([(StrKey("must"), text), (StrKey("filter"), filters)]);
    MustWritten(text);
    var q := SetPath(Arr(es), [StrKey("query"), StrKey("bool"), StrKey("must")], text);
    assert q == Arr(es + [(StrKey("query"), first)]) by {
      SetPath3(Arr(es), StrKey("query"), StrKey("bool"), StrKey("must"), text);
      SetAtNew(es, StrKey("query"), first);
    }
    FilterAfterMust(text, filters);
    SetPath3(q, StrKey("query"), StrKey("bool"), StrKey("filter"), filters);
    SetAtLast(es, StrKey("query"), first, Arr([(StrKey("bool"), both)]));
    AssocTwo("must", text, "filter", filters);
    AssocOne("bool", both);
  }

  /** `$body['query'] = []; $body['query'] += $text;` on a body without a query. */
  lemma TextWritten(es: seq<(Key, Value)>, text: Value)
    requires !HasKey(es, StrKey("query")) && text.Arr? && |text.entries| <= 1
    ensures
      var q := SetAt(Arr(es), StrKey("query"), Arr([]));
      At(q, StrKey("query")).Arr? &&
      SetAt(q, StrKey("query"), Arr(Union(At(q, StrKey("query")).entries, text.entries))) == Arr(es + [(StrKey("query"), text)])
  {
    var q := SetAt(Arr(es), StrKey("query"), Arr([]));
    SetAtNew(es, StrKey("query"), Arr([]));
    SetAtRead(Arr(es), StrKey("query"), Arr([]), StrKey("query"));
    assert Union([], text.entries) == text.entries by {
      if text.entries != [] {
        assert text.entries == [text.entries[0]];
        assert Union([], text.entries) == Union([text.entries[0]], []);
      }
    }
    SetAtLast(es, StrKey("query"), Arr([]), text);
  }

  /** `$body['query']['bool']['filter'] = $filters;` on a body without a query. */
  lemma FiltersWritten(es: seq<(Key, Value)>, filters: Value)
    requires !HasKey(es, StrKey("query"))
    ensures SetPath(Arr(es), [StrKey("query"), StrKey("bool"), StrKey("filter")], filters)
      == Arr(es + [(StrKey("query"), Assoc([("bool", Assoc([("filter", filters)]))]))])
  {
    var filter := Arr([(StrKey("filter"), filters)]);
    assert SetPath(Null, [StrKey("bool"), StrKey("filter")], filters) == Arr([(StrKey("bool"), filter)]) by {
      SetPath2(Null, StrKey("bool"), StrKey("filter"), filters);
      SetAtNull(StrKey("filter"), filters);
      SetAtNull(StrKey("bool"), filter);
    }
    SetPath3(Arr(es), StrKey("query"), StrKey("bool"), StrKey("filter"), filters);
    SetAtNew(es, StrKey("query"), Arr([(StrKey("bool"), filter)]));
    AssocOne("filter", filters);
    AssocOne("bool", filter);
  }

  /** `$body['query']['bool']['must'][] = $clause;` */
  lemma MltWritten(es: seq<(Key, Value)>, clause: Value)
    ensures
      var query := At(Arr(es), StrKey("query"));
      SetPath(Arr(es), [StrKey("query"), StrKey("bool"), StrKey("must")], Push(At(At(query, StrKey("bool")), StrKey("must")), clause))
        == Arr(Put(es, StrKey("query"), AppendMust(query, clause)))
  {
    SetPath3(Arr(es), StrKey("query"), StrKey("bool"), StrKey("must"), Push(At(At(At(Arr(es), StrKey("query")), StrKey("bool")), StrKey("must")), clause));
  }

  lemma FrontHasNoQuery(offset: Value, limit: Value, sort: seq<(Key, Value)>)
    ensures !HasKey([(StrKey("from"), offset), (StrKey("size"), limit)] + Part("sort", sort != [], Arr(sort)), StrKey("query"))
  {
    var front := [(StrKey("from"), offset), (StrKey("size"), limit)] + Part("sort", sort != [], Arr(sort));
    forall i | 0 <= i < |front| ensures front[i].0 != StrKey("query") {
      assert front[i].0 in [StrKey("from"), StrKey("size"), StrKey("sort")];
    }
  }

  /** The body up to the query clause starts with `from`, and has none of the keys written or unset after it. */
  lemma QueryBodyFresh(offset: Value, limit: Value, sort: seq<(Key, Value)>, text: Value, filters: Value)
    ensures
      var es := QueryBody(offset, limit, sort, text, filters);
      && es != [] && es[0] == (StrKey("from"), offset)
      && !HasKey(es, StrKey("fields")) && !HasKey(es, StrKey("post_filter")) && !HasKey(es, StrKey("_source"))
  {
    var es := QueryBody(offset, limit, sort, text, filters);
    if HasKey(es, StrKey("fields")) { QueryBodyKeys(offset, limit, sort, text, filters, StrKey("fields")); }
    if HasKey(es, StrKey("post_filter")) { QueryBodyKeys(offset, limit, sort, text, filters, StrKey("post_filter")); }
    if HasKey(es, StrKey("_source")) { QueryBodyKeys(offset, limit, sort, text, filters, StrKey("_source")); }
  }

  /** The body before the aggregations has no `aggs`. */
  lemma MltBodyFresh(offset: Value, limit: Value, sort: seq<(Key, Value)>, text: Value, filters: Value, excludes: Value,
                     mlt: Option<Value>)
    ensures
      var base := BaseBody(offset, limit, sort, text, filters, excludes);
      var withMlt := match mlt
        case None => base
        case Some(clause) => Put(base, StrKey("query"), AppendMust(At(Arr(base), StrKey("query")), clause));
      !HasKey(withMlt, StrKey("aggs"))
  {
    var base := BaseBody(offset, limit, sort, text, filters, excludes);
    if HasKey(base, StrKey("aggs")) { BaseBodyKeys(offset, limit, sort, text, filters, excludes, StrKey("aggs")); }
    if mlt.Some? { PutGet(base, StrKey("query"), AppendMust(At(Arr(base), StrKey("query")), mlt.value), StrKey("aggs")); }
  }

  /** The keys of the body up to the query clause. */
  lemma QueryBodyKeys(offset: Value, limit: Value, sort: seq<(Key, Value)>, text: Value, filters: Value, k: Key)
    requires HasKey(QueryBody(offset, limit, sort, text, filters), k)
    ensures k in [StrKey("from"), StrKey("size"), StrKey("sort"), StrKey("query")]
  {
    var es := QueryBody(offset, limit, sort, text, filters);
    var i :| 0 <= i < |es| && es[i].0 == k;
  }

  /** The keys of the body before the More-Like-This clause. */
  lemma BaseBodyKeys(offset: Value, limit: Value, sort: seq<(Key, Value)>, text: Value, filters: Value, excludes: Value, k: Key)
    requires HasKey(BaseBody(offset, limit, sort, text, filters, excludes), k)
    ensures k in [StrKey("from"), StrKey("size"), StrKey("sort"), StrKey("query"), StrKey("_source")]
  {
    var front := QueryBody(offset, limit, sort, text, filters);
    HasKeyConcat(front, Part("_source", !Empty(excludes), Assoc([("excludes", excludes)])), k);
    if HasKey(front, k) {
      QueryBodyKeys(offset, limit, sort, text, filters, k);
    }
  }

  /** `$params['body'] = $body` on `['index' => $indexId]`. */
  lemma ParamsWritten(indexId: string, body: Value)
    ensures SetAt(Assoc([("index", Str(indexId))]), StrKey("body"), body) == Assoc([("index", Str(indexId)), ("body", body)])
  {
    AssocOne("index", Str(indexId));
    AssocTwo("index", Str(indexId), "body", body);
    SetAtNew([(StrKey("index"), Str(indexId))], StrKey("body"), body);
  }

  /** The full-text clause is `[]` or a single `query_string` entry. */
  lemma TextShape(keys: Value, requested: seq<string>, index: Index, indexFields: seq<(string, Field)>, fuzziness: Option<string>)
    requires keys.Null? || keys.Str? || keys.Arr?
    requires forall f :: f in SearchParamBuilder.SelectedFields(index.fulltextFields, requested) ==> HasKey(indexFields, f)
    ensures
      var text := SearchParamBuilder.SearchParams(keys, requested, index, indexFields, fuzziness);
      text.Arr? && |text.entries| <= 1
  {
  }

  // ---------------------------------------------------------------------------
  // buildQueryParams

  /**
   * The query clause: `bool.must` and `bool.filter` when there are both a
   * full-text clause and filters, the full-text clause merged into an empty
   * query when there is only the former, `bool.filter` when there are only
   * filters.
   */
  method WriteQuery(body: Value, ghost front: seq<(Key, Value)>, text: Value, filters: Value) returns (body': Value)
    requires body == Arr(front) && !HasKey(front, StrKey("query"))
    requires text.Arr? && |text.entries| <= 1
    ensures body' == Arr(front + match QueryClause(text, filters) case Some(q) => [(StrKey("query"), q)] case None => [])
  {
    body' := body;
    if !Empty(text) && !Empty(filters) {
      body' := SetPath(body', [StrKey("query"), StrKey("bool"), StrKey("must")], text);
      body' := SetPath(body', [StrKey("query"), StrKey("bool"), StrKey("filter")], filters);
      BothWritten(front, text, filters);
    } else if !Empty(text) {
      if Empty(At(body', StrKey("query"))) {
        body' := SetAt(body', StrKey("query"), Arr([]));
      }
      TextWritten(front, text);
      body' := SetAt(body', StrKey("query"), Arr(Union(At(body', StrKey("query")).entries, text.entries)));
    } else if !Empty(filters) {
      body' := SetPath(body', [StrKey("query"), StrKey("bool"), StrKey("filter")], filters);
      FiltersWritten(front, filters);
    } else {
      assert front + [] == front;
    }
  }

  /** `from`, `size` and, when there is one, `sort`, on an empty body. */
  method WriteFront(offset: Value, limit: Value, sort: seq<(Key, Value)>) returns (body: Value)
    ensures body == Arr([(StrKey("from"), offset), (StrKey("size"), limit)] + Part("sort", sort != [], Arr(sort)))
  {
    body := Arr([]);
    body := SetAt(body, StrKey("from"), offset);
    body := SetAt(body, StrKey("size"), limit);
    if sort != [] {
      body := SetAt(body, StrKey("sort"), Arr(sort));
    }
    SetAtNew([], StrKey("from"), offset);
    SetAtNew([(StrKey("from"), offset)], StrKey("size"), limit);
    SetAtNew([(StrKey("from"), offset), (StrKey("size"), limit)], StrKey("sort"), Arr(sort));
  }

  /**
   * The unsets of `fields` and `post_filter` and the `match_all` fallback for
   * an empty body: none of them changes a non-empty body without those keys.
   */
  method Tidy(body: Value, ghost es: seq<(Key, Value)>) returns (body': Value)
    requires body == Arr(es) && es != []
    requires !HasKey(es, StrKey("fields")) && !HasKey(es, StrKey("post_filter"))
    ensures body' == body
  {
    body' := Unset(body, StrKey("fields"));
    body' := Unset(body', StrKey("post_filter"));
    assert es == [es[0]] + es[1..];
    if Empty(body') {
      body' := SetAt(body', StrKey("match_all"), Arr([]));
    }
  }

  /** `_source.excludes`, when there are excluded fields. */
  method WriteSource(body: Value, ghost es: seq<(Key, Value)>, excludes: Value) returns (body': Value)
    requires body == Arr(es) && !HasKey(es, StrKey("_source"))
    ensures body' == Arr(es + Part("_source", !Empty(excludes), Assoc([("excludes", excludes)])))
  {
    body' := body;
    if !Empty(excludes) {
      body' := SetAt(body', StrKey("_source"), Assoc([("excludes", excludes)]));
      SetAtNew(es, StrKey("_source"), Assoc([("excludes", excludes)]));
    } else {
      assert es + [] == es;
    }
  }

  /** The More-Like-This clause, appended to `query.bool.must`. */
  method WriteMlt(body: Value, ghost es: seq<(Key, Value)>, mlt: Option<Value>) returns (body': Value)
    requires body == Arr(es)
    ensures body' == Arr(match mlt
      case None => es
      case Some(clause) => Put(es, StrKey("query"), AppendMust(At(Arr(es), StrKey("query")), clause)))
  {
    body' := body;
    if mlt.Some? {
      var must := At(At(At(body', StrKey("query")), StrKey("bool")), StrKey("must"));
      body' := SetPath(body', [StrKey("query"), StrKey("bool"), StrKey("must")], Push(must, mlt.value));
      MltWritten(es, mlt.value);
    }
  }

  /** The aggregations, when there are any. */
  method WriteAggs(body: Value, ghost es: seq<(Key, Value)>, aggs: seq<(Key, Value)>) returns (body': Value)
    requires body == Arr(es) && !HasKey(es, StrKey("aggs"))
    ensures body' == Arr(es + Part("aggs", aggs != [], Arr(aggs)))
  {
    body' := body;
    if aggs != [] {
      body' := SetAt(body', StrKey("aggs"), Arr(aggs));
      SetAtNew(es, StrKey("aggs"), Arr(aggs));
    } else {
      assert es + [] == es;
    }
  }

  /**
   * The writes `buildQueryParams` makes to `$body`, in its order, given the
   * sort, the full-text clause, the filters, the excluded source fields, the
   * More-Like-This clause (for a non-empty option) and the aggregations (for a
   * non-empty facets option).  The body is local to the call, so gathering
   * its writes after the builders have run changes nothing.
   */
  method AssembleBody(offset: Value, limit: Value, sort: seq<(Key, Value)>, text: Value, filters: Value,
                      excludes: Value, mlt: Option<Value>, aggs: seq<(Key, Value)>) returns (body: Value)
    requires text.Arr? && |text.entries| <= 1
    ensures body == Arr(RequestBody(offset, limit, sort, text, filters, excludes, mlt, aggs))
  {
    body := WriteFront(offset, limit, sort);
    FrontHasNoQuery(offset, limit, sort);
    body := WriteQuery(body, [(StrKey("from"), offset), (StrKey("size"), limit)] + Part("sort", sort != [], Arr(sort)), text, filters);
    ghost var withQuery := QueryBody(offset, limit, sort, text, filters);
    QueryBodyFresh(offset, limit, sort, text, filters);
    body := Tidy(body, withQuery);
    body := WriteSource(body, withQuery, excludes);
    ghost var base := BaseBody(offset, limit, sort, text, filters, excludes);
    body := WriteMlt(body, base, mlt);
    ghost var withMlt := match mlt
      case None => base
      case Some(clause) => Put(base, StrKey("query"), AppendMust(At(Arr(base), StrKey("query")), clause));
    MltBodyFresh(offset, limit, sort, text, filters, excludes, mlt);
    body := WriteAggs(body, withMlt, aggs);
  }

  /**
   * The request `buildQueryParams` compiles from the query once the language
   * condition is in its condition group: an error when the filters do not
   * compile, else the `{index, body}` parameters.  (The sort, compiled first
   * in the source, does not read the condition group.)
   */
  method CompileRequest(indexId: string, index: Index, keys: Value, fulltextFields: seq<string>,
                        sorts: seq<(string, string)>, group: ConditionGroup,
                        facets: seq<(string, FacetParamBuilder.Facet)>, options: seq<(string, Value)>,
                        fuzziness: Option<string>)
    returns (r: Result<Value, FilterBuilder.FilterError>)
    requires Buildable(index, keys, options)
    ensures r == Compiled(indexId, index, keys, fulltextFields, sorts, group, facets, options, fuzziness)
  {
    var params := Assoc([("index", Str(indexId))]);
    var offset := GetOption(options, "offset", Int(DefaultOffset));
    var limit := GetOption(options, "limit", Int(DefaultLimit));
    var sort := QuerySortBuilder.GetSortSearchQuery(sorts, keys, index);

    var indexFields := GetIndexFields(index.fields);
    var built := FilterBuilder.BuildFilters(group, indexFields);
    if built.Failure? {
      return Failure(built.error);
    }
    var filters := built.value;

    var text := SearchParamBuilder.BuildSearchParams(keys, fulltextFields, index, indexFields, fuzziness);
    TextShape(keys, fulltextFields, index, indexFields, fuzziness);

    var excludes := GetOption(options, "elasticsearch_exclude_source_fields", Arr([]));
    var mltOption := GetOption(options, "search_api_mlt", Null);
    var mlt: Option<Value> := None;
    if !Empty(mltOption) {
      mlt := Some(MoreLikeThisParamBuilder.BuildMoreLikeThisQuery(mltOption));
    }
    var aggs: seq<(Key, Value)> := [];
    if facets != [] {
      aggs := FacetParamBuilder.BuildFacetParams(facets, indexFields);
    }

    var body := AssembleBody(offset, limit, sort, text, filters, excludes, mlt, aggs);
    params := SetAt(params, StrKey("body"), body);
    ParamsWritten(indexId, body);
    r := Success(params);
  }

  /**
   * `buildQueryParams`: the language condition is added to the query's own
   * condition group; when the filters compile, the parameters are stored as
   * the `ElasticSearchParams` option and what the event makes of them is
   * returned.
   */
  method BuildQueryParams(indexId: string, query: Query, fuzziness: Option<string>, event: (string, Value) -> Value)
    returns (r: Result<Value, FilterBuilder.FilterError>)
    requires Buildable(query.index, query.keys, query.options)
    modifies query
    ensures query.index == old(query.index) && query.keys == old(query.keys)
    ensures query.fulltextFields == old(query.fulltextFields) && query.sorts == old(query.sorts)
    ensures query.languages == old(query.languages) && query.facets == old(query.facets)
    ensures query.conditionGroup == WithLanguages(old(query.conditionGroup), query.languages)
    ensures
      match Compiled(indexId, query.index, query.keys, query.fulltextFields, query.sorts, query.conditionGroup,
                     query.facets, old(query.options), fuzziness)
      case Failure(e) => r == Failure(e) && query.options == old(query.options)
      case Success(params) =>
        && query.options == Put(old(query.options), "ElasticSearchParams", params)
        && r == Success(event(indexId, params))
  {
    if query.languages.Some? {
      query.conditionGroup := AddCondition(query.conditionGroup, "search_api_language", LanguageList(query.languages.value), "IN");
    }
    var compiled := CompileRequest(indexId, query.index, query.keys, query.fulltextFields, query.sorts,
                                   query.conditionGroup, query.facets, query.options, fuzziness);
    if compiled.Failure? {
      return Failure(compiled.error);
    }
    var params := compiled.value;
    query.options := Put(query.options, "ElasticSearchParams", params);
    r := Success(event(indexId, params));
  }
}
