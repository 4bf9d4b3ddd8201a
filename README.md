# search_api_elastic: the query compiler and response parser, in Dafny

This project models the part of the Drupal module `search_api_elastic` that
sits between Search API and Elasticsearch:

- the **filter compiler** turns a condition tree into `bool`/`term`/`terms`/`range`/`exists` clauses;
- the **full-text compiler** folds the parsed search keys into a Lucene query tree and a boosted `field^boost` list;
- the **facet compiler** builds `terms` aggregations (wrapped in a `global` aggregation for `or` facets), and the **facet result parser** reads their buckets back;
- the **sort compiler** builds the ordered sort dictionary;
- the **More-Like-This compiler** normalises the `search_api_mlt` option;
- the **request compiler** (`buildQueryParams`) assembles the `_search` request body from all of the above;
- the **result parser** fills a result set from a search response;
- the **mapping compiler** (`FieldMapper`) builds the property mappings of an index;
- the **bulk index compiler** (`IndexParamBuilder`) builds the action/record body of a bulk request.

PHP arrays are ordered dictionaries, and the unit tests compare exact shapes,
so a PHP value is the datatype `Php.Value`. It has scalars, an opaque `Float`
(its PHP rendering), a `TextValue`, an `EmptyObject` for `(object) NULL`, and
`Arr(entries)`, an ordered list of `(Key, Value)` entries. The module `Dict`
gives PHP's array operations on such entry lists: `Get`, `Put` (`$a[$k] = $v`,
in place when the key exists), `Union` (`+`, earlier keys win) and `HasKey`.
`Php` adds `empty()`, `isset`, `$a[] = $x` (`Push`), nested writes (`SetPath`)
and the list and literal constructors `List` and `Assoc`. The Search API
objects the core reads (fields, indexes, conditions, condition groups) are the
datatypes of `SearchApi`. Thrown `SearchApiException`s are the `Failure`
branch of `Wrappers.Result`.

The form follows the source file by file:

- The pure `match` builders (`buildFilterTerm`, `wrapWithConjunction`, `buildTermBucketAgg`, `mapFieldProperty`, `buildSearchString`) are functions.
- The loops (`buildSearchParams`, `buildFacetParams`, `parseFacetResult`, `getSortSearchQuery`, `getSpecialFields`, `mapFieldParams`, the body of `buildIndexParams`) are methods. Each is proved equal to a fold function, and the lemmas about that function state what the source promises. The loop of `buildFieldValues` is proved pointwise instead: value `i` of its result is the cast of the field's value `i`.
- The objects the source updates in place are classes with `modifies` clauses:
  - the query whose condition group and options `buildQueryParams` changes (`QueryParamBuilder.Query`);
  - the result set `parseResult` fills (`QueryResultParser.ResultSet`);
  - the items `addSpecialFields` changes (`IndexParamBuilder.Item`).

Each compiler is checked against an independent partner, proved for all inputs:

- Filters: every canonical condition compiles to a clause that an independent decoder reads back as that condition, and every decodable clause is what its condition compiles to.
- Full text: the terms of the compiled tree are exactly the strings of the keys tree, in depth-first order.
- Facets: compiling the facets, answering every aggregation and parsing the answer returns every facet's buckets.
- Results: the result items are one per hit, in hit order.
- Index records: a fresh record lists exactly the fields that have values, in field order.

The unit tests' expected outputs are proved as lemmas, most of them over all
inputs of the tested shape (any words, keys, ids or bucket counts in the places
the test fills).

## Model

| member | source | states |
|---|---|---|
| FilterBuilder.BuildFilterTerm | src/SearchAPI/Query/FilterBuilder.php:133-224 | A condition compiles exactly when the operator table accepts it (`Compilable`): null with `=`/`<>`, or a non-null value with a known operator. A compiled clause is never empty. A null value with another operator fails with the invalid-condition error. An unknown operator fails with the undefined-operator error. BETWEEN bounds are read through the corrected `BetweenBound`, not the `!empty` test of lines 200-201 (see Findings). |
| FilterBuilder.WrapWithConjunction | src/SearchAPI/Query/FilterBuilder.php:242-249 | It succeeds exactly for `AND` and `OR`, with a non-empty clause. Any other conjunction fails with the unknown-conjunction error. |
| FilterBuilder.CompileCondition | src/SearchAPI/Query/FilterBuilder.php:63-94 | A field that is neither an index field nor `search_api_id`/`search_api_language` fails with the invalid-field error. A known field with an empty operator fails with the unspecified-operator error. A compiled clause is never empty. |
| FilterBuilder.CompileFrom | src/SearchAPI/Query/FilterBuilder.php:59-107 | The member clauses collected from a group are never empty: empty nested results are dropped, not appended. |
| FilterBuilder.BetweenBound | src/SearchAPI/Query/FilterBuilder.php:200-201 | The intended BETWEEN bound: the value at the offset is kept unless it is missing, null or `""`, which leave the range open. |
| FilterBuilder.BetweenZeroBoundDropped | src/SearchAPI/Query/FilterBuilder.php:200-201 | For `BETWEEN [0, 10]`, the bound as written (`!empty`) is null, while the intended bound is 0. |
| FilterBuilderProofs.DecodeBuildFilterTerm | src/SearchAPI/Query/FilterBuilder.php:133-224 | Every canonical condition compiles, and the independent decoder `DecodeClause` reads the clause back as that very condition. This holds for the corrected BETWEEN bound; the code as written turns a 0 bound into null (see Findings). |
| FilterBuilderProofs.BuildFilterTermDecoded | src/SearchAPI/Query/FilterBuilder.php:133-224 | Conversely, every clause that decodes to a condition is exactly what that condition compiles to. BETWEEN clauses are those of the corrected bound (see Findings). |
| FilterBuilderProofs.BuildPositiveDecoded | src/SearchAPI/Query/FilterBuilder.php:135-206 | The converse for the positive forms `exists`, `term`, `terms` and `range`. |
| FilterBuilderProofs.BuildRangeDecoded | src/SearchAPI/Query/FilterBuilder.php:157-206 | A `range` clause that decodes is exactly the clause of its comparison or BETWEEN condition. |
| FilterBuilderProofs.DecodeRangeBody | src/SearchAPI/Query/FilterBuilder.php:157-206 | The bounds and inclusion flags of a range body decode to the condition they came from. |
| FilterBuilderProofs.BuildNullTerm | src/SearchAPI/Query/FilterBuilder.php:135-141 | Null with `<>` gives `{exists: {field}}`, and null with `=` gives the `must_not` of that clause. |
| FilterBuilderProofs.BuildListTerm | src/SearchAPI/Query/FilterBuilder.php:148-153 | `IN` gives `terms` with the list reindexed, and `NOT IN` gives the `must_not` of that clause. |
| FilterBuilderProofs.BuildScalarTerm | src/SearchAPI/Query/FilterBuilder.php:145-147 | `=` gives `term`, and `<>` gives the `must_not` of that clause. |
| FilterBuilderProofs.BuildComparison | src/SearchAPI/Query/FilterBuilder.php:157-196 | `>`/`>=` set only `from` and `<`/`<=` only `to`. `include_lower` holds only for `>=`, and `include_upper` only for `<=`. |
| FilterBuilderProofs.BuildBetween | src/SearchAPI/Query/FilterBuilder.php:197-220 | BETWEEN gives an exclusive range over the two bounds, and NOT BETWEEN gives its `must_not`. The bounds are those of the corrected `BetweenBound`, which keeps a 0 bound (see Findings). |
| FilterBuilderProofs.NoConditionsNoFilter | src/SearchAPI/Query/FilterBuilder.php:50-56 | A group with no conditions at any depth compiles to `[]` when it is blank, and to null (`array_pop` of `[]`) otherwise. |
| FilterBuilderProofs.FilterIffConditions | src/SearchAPI/Query/FilterBuilder.php:56-119 | A successfully compiled group is a non-empty clause exactly when its tree holds some condition. |
| FilterBuilderProofs.SuccessCompilesEveryCondition | src/SearchAPI/Query/FilterBuilder.php:59-107 | If a group compiles, every condition anywhere in its tree compiles on its own. |
| FilterBuilderProofs.InadmissibleConditionFails | src/SearchAPI/Query/FilterBuilder.php:72-79 | One condition on an unknown field, or without an operator, at any depth makes the whole compile fail. |
| FilterBuilderProofs.NegationIgnored | src/SearchAPI/Query/FilterBuilder.php:48-120 | Group negation is never read: clearing every negation flag leaves the compiled filter unchanged. |
| FilterBuilderProofs.LeavesCompileInOrder | src/SearchAPI/Query/FilterBuilder.php:59-95 | The clauses of a group of leaves are the leaves' clauses, in member order. |
| FilterBuilderProofs.LeafGroup | src/SearchAPI/Query/FilterBuilder.php:110-116 | One clause is returned as it is, with no `bool` wrapper. Two or more are wrapped with the group's conjunction, in member order. |
| FilterBuilderProofs.BooleanFieldCast | src/SearchAPI/Query/FilterBuilder.php:82-87 | On a boolean index field the value is cast before the term is built: null tested with `=` becomes the term `false`, not a must-not-exist. |
| FilterBuilderProofs.TwoConditionsWrappedInMust | tests/src/Unit/SearchAPI/Query/FilterBuilderTest.php:24-56 | The unit test: two `=` conditions under AND give `{bool: {must: [term foo, term whiz]}}`. |
| FilterBuilderProofs.EqualityExamples | tests/src/Unit/SearchAPI/Query/FilterBuilderTest.php:77-116 | The provider rows for null values, `=` and `<>`. |
| FilterBuilderProofs.ListExamples | tests/src/Unit/SearchAPI/Query/FilterBuilderTest.php:92-208 | The provider rows for `IN`, `NOT IN`, `BETWEEN` and `NOT BETWEEN`. |
| FilterBuilderProofs.ComparisonExamples | tests/src/Unit/SearchAPI/Query/FilterBuilderTest.php:117-172 | The provider rows for the four comparisons. An unknown operator fails, and so does a null compared with `>`. |
| FilterBuilderProofs.BetweenKeepsBounds | src/SearchAPI/Query/FilterBuilder.php:197-206 | With the corrected bound, both BETWEEN bounds are kept whatever they are, and a missing second bound leaves the range open. |
| SearchParamBuilder.TermFuzziness | src/SearchAPI/Query/SearchParamBuilder.php:112-114 | A fuzziness is attached exactly when the setting is PHP-non-empty (not null, `""` or `"0"`), and it is the setting itself. |
| SearchParamBuilder.BuildSearchString | src/SearchAPI/Query/SearchParamBuilder.php:88-122 | The result is a collection with the group's `#conjunction` (OR by default). It is prohibited exactly when `#negation` is non-empty. |
| SearchParamBuilder.ElementsFrom | src/SearchAPI/Query/SearchParamBuilder.php:104-120 | A group has at most one element per remaining child: option keys and non-string scalars add none. |
| SearchParamBuilder.SelectedFields | src/SearchAPI/Query/SearchParamBuilder.php:47-55 | A field is searched exactly when it is a full-text field of the index and either no fields were requested or it was requested. |
| SearchParamBuilder.KeysArray | src/SearchAPI/Query/SearchParamBuilder.php:42-44 | A string key becomes an array; an array is kept. |
| SearchParamBuilder.BuildSearchParams | src/SearchAPI/Query/SearchParamBuilder.php:32-74 | The loop that builds the field list is proved equal to `SearchParams`. That function gives `[]` for empty keys or an empty query, and otherwise `query_string` with the rendered query and one `id^boost` per selected field, in order. |
| SearchParamBuilderProofs.TermsAreStringLeaves | src/SearchAPI/Query/SearchParamBuilder.php:88-122 | The terms of the compiled tree are exactly the string children of the keys tree, in depth-first order, with option keys left out. |
| SearchParamBuilderProofs.ElementsTerms | src/SearchAPI/Query/SearchParamBuilder.php:104-120 | The elements built from children `i..` hold exactly those children's strings, in order. |
| SearchParamBuilderProofs.EveryTermFuzzy | src/SearchAPI/Query/SearchParamBuilder.php:107-114 | Every term, at every depth, carries the configured fuzziness when it is non-empty, and none otherwise. |
| SearchParamBuilderProofs.ElementsFuzzy | src/SearchAPI/Query/SearchParamBuilder.php:104-120 | The same fuzziness property for the elements built from children `i..`. |
| SearchParamBuilderProofs.NoKeysNoParams | src/SearchAPI/Query/SearchParamBuilder.php:37-39 | Null, `""` and `[]` keys give no text clause. |
| SearchParamBuilderProofs.StringKeyIsOneTerm | src/SearchAPI/Query/SearchParamBuilder.php:42-44 | A string key is searched as exactly that one term. |
| SearchStringExamples.SingleWord | tests/src/Unit/SearchAPI/Query/SearchParamBuilderTest.php:116-122 | `[w]` with fuzziness "auto" renders `w~`, for every word `w`. |
| SearchStringExamples.QuotedPhrase | tests/src/Unit/SearchAPI/Query/SearchParamBuilderTest.php:109-115 | `[p]` with fuzziness "auto" renders `"p"~`, for every phrase `p`. |
| SearchStringExamples.StandAloneDash | tests/src/Unit/SearchAPI/Query/SearchParamBuilderTest.php:143-149 | `['a - b']` renders `"a \- b"`: the dash is escaped inside the phrase. |
| SearchStringExamples.TwoWords | tests/src/Unit/SearchAPI/Query/SearchParamBuilderTest.php:100-108 | `[a, b]` under AND renders `(a~ AND b~)` with fuzziness and `(a AND b)` without; multi-byte words (lines 167-175) are words like any other. |
| SearchStringExamples.NegatedKeyword | tests/src/Unit/SearchAPI/Query/SearchParamBuilderTest.php:123-132 | `[['#negation' => TRUE, w]]` renders `-w`. |
| SearchStringExamples.NegatedPhrase | tests/src/Unit/SearchAPI/Query/SearchParamBuilderTest.php:133-142 | `[['#negation' => TRUE, p]]` renders `-"p"`. |
| SearchStringExamples.ComplicatedTree | tests/src/Unit/SearchAPI/Query/SearchParamBuilderTest.php:150-166 | The complicated keys compile to an AND collection of four elements, in key order. |
| SearchStringExamples.ComplicatedSearch | tests/src/Unit/SearchAPI/Query/SearchParamBuilderTest.php:150-166 | The complicated keys render `(pos AND -neg AND "quoted pos with \-minus" AND -"quoted neg")`. |
| SearchStringExamples.NestedTree | tests/src/Unit/SearchAPI/Query/SearchParamBuilderTest.php:176-192 | A named child group compiles as a nested collection, in key order. |
| SearchStringExamples.NestedSearch | tests/src/Unit/SearchAPI/Query/SearchParamBuilderTest.php:176-192 | The nested keys render `(foo AND (whiz OR -bang))`: the one-child group `whizbang` collapses to its child. |
| SearchStringExamples.TrailingNegationTree | tests/src/Unit/SearchAPI/Query/SearchParamBuilderTest.php:176-192 | An option key after the term still negates the group. |
| SearchStringExamples.BuildSearchParamsExample | tests/src/Unit/SearchAPI/Query/SearchParamBuilderTest.php:25-77 | The unit test: keys `['bar']`, the requested field `foo` among the full-text fields `foo`, `bar` and `baz`, a null boost and fuzziness "auto" give `{query_string: {query: "bar~", fields: ["foo^"]}}`. |
| FacetParamBuilder.TermsAggShape | src/SearchAPI/Query/FacetParamBuilder.php:78-84 | The terms aggregation names the facet's field. `size` is set exactly when there is no limit or a positive one: the limit, or `"10"` without one. |
| FacetParamBuilder.BuildTermBucketAgg | src/SearchAPI/Query/FacetParamBuilder.php:77-97 | A facet gives exactly one aggregation, named `id`, or `id_global` for an `or` facet. |
| FacetParamBuilder.OrFacetIsGlobal | src/SearchAPI/Query/FacetParamBuilder.php:87-94 | An `or` facet's aggregation is named `id_global`. It holds `global: {}` and nests the terms aggregation under the facet's own id. |
| FacetParamBuilder.BuildFacetParams | src/SearchAPI/Query/FacetParamBuilder.php:46-64 | The loop is proved equal to the fold `FacetParams`, whose properties are the three lemmas below. |
| FacetParamBuilder.FacetParamsKeys | src/SearchAPI/Query/FacetParamBuilder.php:53-61 | The aggregations name exactly the facets whose field is an index field; a facet on an unknown field contributes no key. |
| FacetParamBuilder.FirstFacetWins | src/SearchAPI/Query/FacetParamBuilder.php:60 | `+=` never overwrites: an aggregation name holds the aggregation of the first known facet of that name. |
| FacetParamBuilder.AndAndOrFacets | tests/src/Unit/SearchAPI/Query/FacetParamBuilderTest.php:21-57 | The unit test: an `and` facet gives a plain terms aggregation, and an `or` facet gives its `_global` wrapper, both with size "10". |
| FacetResultParser.CollectTerms | src/SearchAPI/Query/FacetResultParser.php:51-56 | The `array_walk` is proved to give one `{count, filter}` term per bucket, in bucket order. |
| FacetResultParser.ParseFacetResult | src/SearchAPI/Query/FacetResultParser.php:41-79 | The loop over the facets is proved equal to the fold `FacetData`. |
| FacetResultParser.FacetDataGet | src/SearchAPI/Query/FacetResultParser.php:45-77 | With distinct facet ids, each facet's entry holds its buckets' terms: `and` from `aggregations[id]`, `or` from `aggregations[id_global][id]`. A skipped facet has no entry: an `or` facet without `id_global`, or any other operator. |
| FacetResultParser.FacetDataAbsent | src/SearchAPI/Query/FacetResultParser.php:45-77 | No entry is made for an id no facet has. |
| FacetResultParser.BucketsRead | src/SearchAPI/Query/FacetResultParser.php:51-56 | Buckets read back as their counts and their keys wrapped in double quotes, in order. |
| FacetResultParser.AnsweredAggregation | src/SearchAPI/Query/FacetParamBuilder.php:53-61 | A response that answers the compiled aggregations answers each facet under the name the compiler gave it. |
| FacetResultParser.OrAnswerRead | src/SearchAPI/Query/FacetResultParser.php:60-65 | An `or` facet's buckets are found under `id_global`, then under `id`. |
| FacetResultParser.AndAnswerRead | src/SearchAPI/Query/FacetResultParser.php:49-50 | An `and` facet's buckets are found under `id`. |
| FacetResultParser.AnsweredBuckets | src/SearchAPI/Query/FacetResultParser.php:49-65 | The parser finds each facet's buckets exactly where the compiler asked for them. |
| FacetResultParser.FacetRoundTrip | src/SearchAPI/Query/FacetParamBuilder.php:87-94 | Round trip: compile the facets, answer every aggregation and parse the answer. The answer is readable, and every facet gets back its buckets' counts and quoted keys, in bucket order. |
| FacetResultParser.ParseFacetResultExample | tests/src/Unit/SearchAPI/Query/FacetResultParserTest.php:21-90 | The unit test, for every choice of bucket keys and counts: an `and` facet answered under `facet1` with two buckets and an `or` facet answered under `facet2_global.facet2` with one bucket give `facet1` its two `{count, filter: "\"key\""}` records and `facet2` its one, in bucket order. |
| QuerySortBuilder.ToLower | src/SearchAPI/Query/QuerySortBuilder.php:42 | The lower-cased direction has the same length and no upper-case letter, and every character that is not an ASCII capital is kept. |
| QuerySortBuilder.SortTarget | src/SearchAPI/Query/QuerySortBuilder.php:44-68 | Case by case: `search_api_relevance` sorts on `_score` exactly when the keys are non-empty, and is dropped otherwise; `search_api_id` sorts on `id` and `_id` on `_id`; any other index field sorts on its `.keyword` sub-field exactly when it is a full-text field, and on itself otherwise; every other field, the datasource and language included when the index lacks them, is dropped. |
| QuerySortBuilder.GetSortSearchQuery | src/SearchAPI/Query/QuerySortBuilder.php:36-72 | The loop is proved equal to the fold `SortFold`. |
| QuerySortBuilder.SortIsKeptSorts | src/SearchAPI/Query/QuerySortBuilder.php:41-71 | When no two kept sorts share a sort field, the sort dictionary is the kept sorts in query order, each under its sort field. |
| QuerySortBuilder.KeptSortsKeys | src/SearchAPI/Query/QuerySortBuilder.php:44-65 | The dictionary names exactly the sort fields of the kept sorts. |
| QuerySortBuilder.DirectionsLowerCase | src/SearchAPI/Query/QuerySortBuilder.php:42 | Every direction in the dictionary is a lower-case string. |
| QuerySortBuilder.MagicSortsWithoutKeys | tests/src/Kernel/ElasticSearchBackendTest.php:277-286 | Without keys, and with no datasource or language index field, the magic sorts leave only `id: desc`. |
| MoreLikeThisParamBuilder.LikeIds | src/SearchAPI/MoreLikeThisParamBuilder.php:28-36 | A set `id` replaces `ids`: a list is kept and a scalar is wrapped in a list. Without `id`, `ids` is used. |
| MoreLikeThisParamBuilder.FixedEntries | src/SearchAPI/MoreLikeThisParamBuilder.php:49-55 | `fields` is reindexed as a list of its values. `max_query_terms`, `min_doc_freq` and `min_term_freq` are 1. |
| MoreLikeThisParamBuilder.OptionalEntries | src/SearchAPI/MoreLikeThisParamBuilder.php:34-46 | `ids`, `like` and `unlike` read back as given when set, and are absent when not set. |
| MoreLikeThisParamBuilder.OptionalKeys | src/SearchAPI/MoreLikeThisParamBuilder.php:34-46 | The optional entries name only `ids`, `like` and `unlike`. |
| MoreLikeThisParamBuilder.ItemIdExample | tests/src/Unit/SearchAPI/MoreLikeThisParamBuilderTest.php:19-44 | The unit test: an item id, `like`, `unlike` and the fields `["*"]` give exactly the seven entries expected, in order. |
| QueryParamBuilder.GetIndexFields | src/SearchAPI/Query/QueryParamBuilder.php:229-242 | Every field of the index is kept. |
| QueryParamBuilder.IndexFieldsAugmented | src/SearchAPI/Query/QueryParamBuilder.php:229-242 | The index's own fields read as before. `search_api_datasource` and `search_api_id` are added as string fields only when absent. No other field is added, and keys stay unique. |
| QueryParamBuilder.LanguageRestriction | src/SearchAPI/Query/QueryParamBuilder.php:149-152 | With languages, the group gains exactly one condition, last: `search_api_language IN languages`. Without, the group is unchanged. |
| QueryParamBuilder.WriteFront | src/SearchAPI/Query/QueryParamBuilder.php:137-147 | The body starts `from`, `size`, then `sort` only when some sort was kept. |
| QueryParamBuilder.WriteQuery | src/SearchAPI/Query/QueryParamBuilder.php:161-173 | The nested writes are proved to add the one `query` entry `QueryClause` gives: `bool.must` + `bool.filter`, the text clause, `bool.filter`, or nothing. |
| QueryParamBuilder.Tidy | src/SearchAPI/Query/QueryParamBuilder.php:175-187 | The unsets and the `match_all` fallback leave a non-empty body without those keys unchanged. |
| QueryParamBuilder.WriteSource | src/SearchAPI/Query/QueryParamBuilder.php:189-194 | `_source.excludes` is appended exactly when the excluded fields are non-empty. |
| QueryParamBuilder.WriteMlt | src/SearchAPI/Query/QueryParamBuilder.php:196-199 | The More-Like-This clause is pushed onto `query.bool.must` of whatever query clause there is. |
| QueryParamBuilder.WriteAggs | src/SearchAPI/Query/QueryParamBuilder.php:201-206 | `aggs` is appended exactly when the compiled aggregations are non-empty. |
| QueryParamBuilder.AssembleBody | src/SearchAPI/Query/QueryParamBuilder.php:137-206 | The sequence of writes to `$body` is proved equal to `RequestBody`. |
| QueryParamBuilder.CompileRequest | src/SearchAPI/Query/QueryParamBuilder.php:131-208 | A filter error is returned as it is. Otherwise the result is `{index, body}`, with the body built from the paging, sort, text, filters, excludes, More-Like-This and facet options. |
| QueryParamBuilder.BuildQueryParams | src/SearchAPI/Query/QueryParamBuilder.php:131-218 | The query's condition group gains the language condition, and nothing else of the query changes. On a filter error that error is returned and the options are unchanged. Otherwise the parameters are stored as the `ElasticSearchParams` option, and what the event makes of them is returned. |
| QueryParamBuilder.BothWritten | src/SearchAPI/Query/QueryParamBuilder.php:161-164 | `$body['query']['bool']['must']`, then `filter`, create one `query` entry holding both. |
| QueryParamBuilder.TextWritten | src/SearchAPI/Query/QueryParamBuilder.php:165-170 | `$body['query'] = []; $body['query'] += $text` makes the query the text clause. |
| QueryParamBuilder.FiltersWritten | src/SearchAPI/Query/QueryParamBuilder.php:171-173 | The filters alone give `query.bool.filter`. |
| QueryParamBuilder.TextShape | src/SearchAPI/Query/QueryParamBuilder.php:160 | The text clause is `[]` or a single `query_string` entry. |
| QueryParamBuilderProofs.Paging | src/SearchAPI/Query/QueryParamBuilder.php:140-141 | `from` and `size` are always set, so the body is never empty and the `match_all` fallback is unreachable. |
| QueryParamBuilderProofs.PagingOptions | src/SearchAPI/Query/QueryParamBuilder.php:140-141 | The `offset` and `limit` options are read as given, as are the excluded fields; a missing `search_api_mlt` reads as null. |
| QueryParamBuilderProofs.SortSet | src/SearchAPI/Query/QueryParamBuilder.php:144-147 | `sort` is set exactly when some sort was kept. |
| QueryParamBuilderProofs.SourceExcludes | src/SearchAPI/Query/QueryParamBuilder.php:189-194 | `_source` is `{excludes}` exactly when the excluded fields are non-empty. |
| QueryParamBuilderProofs.Aggregations | src/SearchAPI/Query/QueryParamBuilder.php:201-206 | `aggs` is set exactly when the compiled aggregations are non-empty. |
| QueryParamBuilderProofs.BodyKeys | src/SearchAPI/Query/QueryParamBuilder.php:137-206 | The body has no keys besides `from`, `size`, `sort`, `query`, `_source` and `aggs`. |
| QueryParamBuilderProofs.FrontRead | src/SearchAPI/Query/QueryParamBuilder.php:137-206 | Later writes leave every key other than `query`, `_source` and `aggs` as the front of the body set it. |
| QueryParamBuilderProofs.QueryWithoutMlt | src/SearchAPI/Query/QueryParamBuilder.php:161-173 | Without More-Like-This the query is: `bool.must` + `bool.filter` for both text and filters; the text clause for text alone; `bool.filter` for filters alone; absent for neither. |
| QueryParamBuilderProofs.MltBase | src/SearchAPI/Query/QueryParamBuilder.php:196-199 | With More-Like-This, the query is the clause appended to the query the text and filters give, or to null. |
| QueryParamBuilderProofs.MltAlone | src/SearchAPI/Query/QueryParamBuilder.php:198 | With no other query, More-Like-This gives `{bool: {must: [clause]}}`. |
| QueryParamBuilderProofs.MltAfterBoth | src/SearchAPI/Query/QueryParamBuilder.php:161-164 | With text and filters, the clause is pushed onto `bool.must`, which holds the text clause itself, so it lands beside `query_string` rather than in a list of clauses; `bool.filter` is kept. |
| QueryParamBuilderProofs.MltAfterText | src/SearchAPI/Query/QueryParamBuilder.php:165-170 | With text alone, More-Like-This adds a `bool` entry beside the text clause's own entries. |
| QueryParamBuilderProofs.MltAfterFilters | src/SearchAPI/Query/QueryParamBuilder.php:171-173 | With filters alone, `must: [clause]` is added after `bool.filter`. |
| QueryParamBuilderProofs.EmptyQueryParams | tests/src/Unit/SearchAPI/Query/QueryParamBuilderTest.php:32-95 | The unit test: a query with nothing but paging at 0 and 10 compiles to exactly `{index: 'foo', body: {from: 0, size: 10}}`. |
| QueryParamBuilderProofs.PagingOnly | src/SearchAPI/Query/QueryParamBuilder.php:185-187 | With nothing but paging, the body is `from` and `size` alone, with no `query` and no `match_all`. |
| QueryResultParser.MultiValue | src/SearchAPI/Query/QueryResultParser.php:70-72 | An array is kept, and anything else becomes a one-element list. |
| QueryResultParser.BuildItem | src/SearchAPI/Query/QueryResultParser.php:64-76 | The inner loop is proved to build `ItemOf(hit)`: the `_id`, the `_score`, and the `_source` entries set as fields one by one. |
| QueryResultParser.ParseResult | src/SearchAPI/Query/QueryResultParser.php:54-88 | The extra data gains the response and, when there are aggregations, the facets. The count is `hits.total.value`. Each hit's item is added under its id. |
| QueryResultParser.ExtraDataRead | src/SearchAPI/Query/QueryResultParser.php:59-85 | The raw response reads back unchanged as `elasticsearch_response`. `search_api_facets` is stored exactly when `aggregations` is non-empty. |
| QueryResultParser.SourceFieldsInOrder | src/SearchAPI/Query/QueryResultParser.php:68-76 | `_source` entries with distinct ids give one field each, in `_source` order. |
| QueryResultParser.ItemField | src/SearchAPI/Query/QueryResultParser.php:68-76 | Every `_source` entry becomes a field under the same id, with that id as its property path and its values made multi-valued. No other field exists. |
| QueryResultParser.HitItems | src/SearchAPI/Query/QueryResultParser.php:62-79 | The items of the first `n` hits: entry `j` is hit `j`'s id and item. |
| QueryResultParser.ItemsInHitOrder | src/SearchAPI/Query/QueryResultParser.php:62-79 | With distinct new ids, the result items are those already there followed by one item per hit, in hit order. |
| QueryResultParser.NoHitsNoItems | src/SearchAPI/Query/QueryResultParser.php:62 | An empty or missing `hits.hits` adds no items. |
| QueryResultParser.ExampleResult | tests/src/Unit/SearchAPI/Query/QueryResultParserTest.php:27-107 | The unit test: the count is 2 and there are two items keyed by their ids. The first has the one field `field1`, whose values are `["foo"]`. |
| QueryResultParser.HitRead | tests/src/Unit/SearchAPI/Query/QueryResultParserTest.php:27-85 | A hit of the unit test reads back its id, score and one-field `_source`. |
| FieldMapper.MapFieldProperty | src/SearchAPI/FieldMapper.php:125-159 | With a listener that changes nothing, the mapping is the type's own mapping. |
| FieldMapper.TypeMappingSet | src/SearchAPI/FieldMapper.php:128-151 | A mapping has a `type` exactly when the field type is one of the mapped types. Any other type maps to `[]`. |
| FieldMapper.TextMapping | src/SearchAPI/FieldMapper.php:129-138 | A text field maps to analysed `text` that keeps its boost, with a `keyword` sub-field capped at 256. |
| FieldMapper.KeywordTypes | src/SearchAPI/FieldMapper.php:139 | `uri`, `string` and `token` map to a plain `keyword`. |
| FieldMapper.ScalarTypes | src/SearchAPI/FieldMapper.php:140-142 | `integer`/`duration` map to `integer`, `boolean` to `boolean` and `decimal` to `float`. |
| FieldMapper.DateType | src/SearchAPI/FieldMapper.php:143-146 | `date` maps to `date` with the format `strict_date_optional_time\|\|epoch_second`. |
| FieldMapper.StructuredTypes | src/SearchAPI/FieldMapper.php:147-149 | `attachment` maps to `attachment`, `object` to `nested` and `location` to `geo_point`. |
| FieldMapper.GetSpecialFields | src/SearchAPI/FieldMapper.php:108-114 | The loop is proved to give one string field per special name, keyed by the name, in order. |
| FieldMapper.SpecialFieldsShape | src/SearchAPI/FieldMapper.php:88-114 | The special fields have distinct names and are string fields, so they map to `keyword`. |
| FieldMapper.SpecialFieldGet | src/SearchAPI/FieldMapper.php:108-114 | Each special name reads back its string field. |
| FieldMapper.SpecialFieldsListed | src/SearchAPI/FieldMapper.php:88-94 | The special fields are `search_api_id`, `search_api_datasource` and `search_api_language`, in that order. |
| FieldMapper.MapFieldParams | src/SearchAPI/FieldMapper.php:59-80 | The loop is proved equal to `MappingParams`: `{index, body: {properties}}`, with properties filled field by field after `id`. |
| FieldMapper.BodyWritten | src/SearchAPI/FieldMapper.php:77 | `$params['body']['properties'] = ...` on `{index}` gives `{index, body: {properties}}`. |
| FieldMapper.PropertiesRead | src/SearchAPI/FieldMapper.php:64-75 | With distinct field ids, a field's property is its mapping under its id, and `id` reads the id mapping unless a field is named `id`. |
| FieldMapper.IndexFieldsWin | src/SearchAPI/FieldMapper.php:72 | An index field's property is its own mapping, even when it has a special field's name. A special field the index lacks maps as a string field. |
| FieldMapper.PropertiesInOrder | src/SearchAPI/FieldMapper.php:64-75 | With distinct ids and no field named `id`, the properties are the id property followed by one property per field, in field order. |
| FieldMapper.ExampleFields | tests/src/Unit/SearchAPI/FieldMapperTest.php:27-60 | The unit test's index fields come first, then the three special fields. |
| FieldMapper.ExampleMapping | tests/src/Unit/SearchAPI/FieldMapperTest.php:27-92 | The unit test: a text field with boost 1.1 and a string field map to `id`, the text mapping, a keyword, then the three special keyword fields. |
| IndexParamBuilder.Item.SetField | src/SearchAPI/IndexParamBuilder.php:91-99 | `setField` stores the field under its name: in place when the name is taken, appended otherwise. |
| IndexParamBuilder.AddSpecialFields | src/SearchAPI/IndexParamBuilder.php:90-100 | The item's fields become `WithSpecialFields`, that is, the id, datasource and language fields set in that order. |
| IndexParamBuilder.SpecialFieldsRead | src/SearchAPI/IndexParamBuilder.php:90-100 | The special fields read back as one-value string fields holding the item's id, datasource and language. Every other field reads as before. |
| IndexParamBuilder.SpecialFieldsAppended | src/SearchAPI/IndexParamBuilder.php:90-100 | An item without special fields keeps its own fields first, then gains the three, in order. |
| IndexParamBuilder.SpecialFieldsIdempotent | src/SearchAPI/IndexParamBuilder.php:90-100 | Adding the special fields twice is adding them once. |
| IndexParamBuilder.SpecialFieldsCastable | src/SearchAPI/IndexParamBuilder.php:90-100 | The special fields are string fields, so every value can still be cast. |
| IndexParamBuilder.BuildFieldValues | src/SearchAPI/IndexParamBuilder.php:113-124 | There is one value per value of the field, in order, each cast by the field type. |
| IndexParamBuilder.BuildRecord | src/SearchAPI/IndexParamBuilder.php:63-69 | The inner loop is proved equal to the fold `Record` from an empty record. Each record starts from an empty record: the corrected behaviour, not the carried-over `$data` of the code as written (see Findings). |
| IndexParamBuilder.WriteField | src/SearchAPI/IndexParamBuilder.php:64-68 | A field with values is cast and stored under its identifier; a field without is skipped. |
| IndexParamBuilder.Body | src/SearchAPI/IndexParamBuilder.php:60-72 | The body holds two entries per document. Each record starts from an empty record: the corrected behaviour, not the carried-over `$data` of the code as written (see Findings). |
| IndexParamBuilder.BuildIndexParams | src/SearchAPI/IndexParamBuilder.php:57-80 | Every item's fields gain its special fields. The result is the event applied to the parameters whose body holds each item's action and record. Each record starts from an empty record: the corrected behaviour, not the carried-over `$data` of the code as written (see Findings). |
| IndexParamBuilder.AppendPair | src/SearchAPI/IndexParamBuilder.php:70-71 | Two `$params['body'][] = ...` writes append the action and then the record to the body. |
| IndexParamBuilder.BodyAsWritten | src/SearchAPI/IndexParamBuilder.php:60-71 | The body as written: two entries per document, each record starting from the one before. |
| IndexParamBuilderProofs.CastPreserves | src/SearchAPI/IndexParamBuilder.php:116-121 | String and text values keep their string form, booleans their truthiness, and other types are unchanged. Outside text, casting twice is casting once. |
| IndexParamBuilderProofs.EntryGet | src/SearchAPI/IndexParamBuilder.php:65-68 | Writing a field changes only the lookup of its own identifier, and only when it has values. |
| IndexParamBuilderProofs.RecordKeys | src/SearchAPI/IndexParamBuilder.php:63-69 | A record holds a key exactly when it held it already or a field with values is stored under it. |
| IndexParamBuilderProofs.RecordUntouched | src/SearchAPI/IndexParamBuilder.php:63-69 | A key no field is stored under reads as before. |
| IndexParamBuilderProofs.RecordValue | src/SearchAPI/IndexParamBuilder.php:65-68 | With distinct identifiers, a field with values reads back its cast values. A field without values leaves its key as it was. |
| IndexParamBuilderProofs.RecordInOrder | src/SearchAPI/IndexParamBuilder.php:63-69 | With distinct identifiers, a fresh record lists the fields that have values, cast, in field order. |
| IndexParamBuilderProofs.BodyShape | src/SearchAPI/IndexParamBuilder.php:60-72 | Entry `2i` of the body is document `i`'s action `{index: {_id, _index}}`, and entry `2i+1` is its own record. |
| IndexParamBuilderProofs.IndexParamsEmpty | src/SearchAPI/IndexParamBuilder.php:58-77 | The parameters are `[]` exactly when there are no items; otherwise they hold the body. |
| IndexParamBuilderProofs.DataCarriedOver | src/SearchAPI/IndexParamBuilder.php:60-71 | A field the first item stores and the second lacks still appears in the second record as written, but not in the corrected record. |
| IndexParamBuilderProofs.DataCarriedOverExample | src/SearchAPI/IndexParamBuilder.php:60-71 | Concrete instance: `f = ["x"]` on the first item and nothing on the second. |
| IndexParamBuilderProofs.TestRecord | tests/src/Unit/SearchAPI/IndexParamBuilderTest.php:74-95 | A test item's record is its one string field, then its three special fields. |
| IndexParamBuilderProofs.TwoDocuments | src/SearchAPI/IndexParamBuilder.php:60-72 | Two documents give `{body: [action1, record1, action2, record2]}`. |
| IndexParamBuilderProofs.TestBuildIndexParams | tests/src/Unit/SearchAPI/IndexParamBuilderTest.php:33-99 | The unit test: two items, each with `field1` holding one value, compile to the expected two actions and records. |

## Left out

- Logger warnings (invalid condition, unknown facet field, missing `or` global aggregation, invalid operator, invalid sort field) are not modelled; the paths that log carry on exactly as the model does.
- The string form of `MakinaCorpus\Lucene\Query` comes from a library that is not part of this model. `Lucene.Render` reconstructs it from the strings the unit tests expect: quoting, escaping, `~`, `-`, and parentheses for two or more elements. Its unit tests are the only evidence for it.
- The Search API objects (`QueryInterface`, `Condition`, `ConditionGroup`, `Field`, `Item`, `ResultSet`, `FieldsHelper`) are not part of this model. They are plain datatypes, plus the three classes named above. A group's emptiness (`ConditionGroup::__toString()`) is modelled as `IsBlank`: a group with no members, or with a single member that is itself such a blank group, since a nested blank group prints as the empty string too.
- Event dispatch (query params, index params, field mapping) is a function parameter that the caller supplies.
- Floats (`boost`, `_score`) are opaque values carried through and never computed on.
- `mb_strtolower` is modelled on ASCII letters only (`QuerySortBuilder.ToLower`). Other letters are kept as they are.
- PHP's numeric-string keys (`"1"` becoming key `1`) are not modelled: a key is a string or an integer as written.
- PHP's string forms of floats and other objects are not modelled beyond `ToStr` on strings, integers, booleans and null.
- `FilterBuilder.CompileCondition`: the boolean cast of line 85 is applied to a copy of the condition. The caller's condition object, which the source changes in place, is not updated.
- `MoreLikeThisParamBuilder.BuildMoreLikeThisQuery` is a function over the option array. The `unset($mltOptions['id'])` on a local copy affects nothing and is not modelled.
- `QueryParamBuilder.BuildQueryParams` requires `Buildable`: the More-Like-This option, when non-empty, has an array `fields` (otherwise `array_values` raises a TypeError), and the keys are null, a string or an array.
- `FacetResultParser.ParseFacetResult` requires `Readable`: every bucket list it walks is an array. An `and` facet's aggregation is read without a presence check, and `array_walk` on a missing one raises a TypeError.
- `FacetParamBuilder.BuildFacetParams`: `$facet['field']` and `$facet['limit']` are read as typed fields of `Facet`. A missing `field` key, a PHP notice, is not modelled.
- `FilterBuilder.BuildFilterTerm` reads BETWEEN and NOT BETWEEN bounds through the corrected `BetweenBound`: a bound of `0` or `"0"` is kept, where lines 200-201 as written turn it into null. `FilterBuilder.BetweenBoundAsWritten` models the code as written (see Findings). The same goes for every lemma about `BuildFilterTerm`.
- `IndexParamBuilder.BuildIndexParams` builds each record from an empty record, the corrected behaviour. Lines 60-71 as written carry `$data` over from the item before; `IndexParamBuilder.BodyAsWritten` models that (see Findings). `BuildRecord` and `Body` start from the empty record in the same way.
- `IndexParamBuilder.BuildIndexParams` (and `Cast`, `BuildFieldValues`) require every value of a `text` field to be a `TextValue`. Search API's text data type supplies `TextValue` objects for such fields. On any other value, `$value->toText()` at line 119 raises an Error; that error path is not modelled.
- `MoreLikeThisParamBuilder.BuildMoreLikeThisQuery` requires the option's `fields` to be an array. On anything else `array_values` raises a TypeError; that error path is not modelled. `QueryParamBuilder.BuildQueryParams` passes this on as part of `Buildable`.
- `QuerySortBuilder.SortIsKeptSorts` states the dictionary as a list of the kept sorts only when no two kept sorts share a sort field. When two sorts do share one, `Put` keeps the first position with the last direction, as `SortFold` defines.
- `SearchParamBuilder.SelectedFields` models `array_intersect` by value; the keys PHP preserves in the intersection are not used by the source, which only iterates the values.
- The network client, the connector plugins, the backend plugin's configuration and the kernel test's live cluster are outside the core and are not part of this model.

## Findings

| source | as written | input that shows it | evidently intended | confidence | as-written member | corrected member |
|---|---|---|---|---|---|---|
| src/SearchAPI/IndexParamBuilder.php:60-71 | `$data` is never reset between items, so each record starts from the record of the item before | two items, the first with `f = ["x"]`, the second without values for `f`: the second record still holds `f` | each item's record holds only that item's fields | high (not executed) | IndexParamBuilder.BodyAsWritten, with IndexParamBuilderProofs.DataCarriedOver and IndexParamBuilderProofs.DataCarriedOverExample | IndexParamBuilder.BuildIndexParams, with IndexParamBuilderProofs.RecordKeys and IndexParamBuilderProofs.RecordInOrder |
| src/SearchAPI/Query/FilterBuilder.php:200-201 | a BETWEEN / NOT BETWEEN bound is kept only when `!empty`, so a bound of `0` or `"0"` becomes null | `BETWEEN [0, 10]` gives the range `from: null, to: 10` | only a missing, null or `""` bound leaves the range open | medium (not executed) | FilterBuilder.BetweenBoundAsWritten, with FilterBuilder.BetweenZeroBoundDropped | FilterBuilder.BetweenBound, with FilterBuilderProofs.BetweenKeepsBounds |
