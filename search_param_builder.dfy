/**
 * The full-text compiler: the parsed search keys become a Lucene query tree,
 * and the query's full-text fields become the boosted `field^boost` list of a
 * `query_string` clause.
 */
module SearchParamBuilder {
  import opened Wrappers
  import opened Dict
  import opened Php
  import opened SearchApi
  import opened Lucene

  /** Keys beginning with '#' carry the group's options rather than terms. */
  predicate IsOptionKey(k: Key) {
    k.StrKey? && |k.s| > 0 && k.s[0] == '#'
  }

  /** The fuzziness setting is used only when PHP finds it non-empty. */
  function TermFuzziness(fuzziness: Option<string>): (r: Option<string>)
    ensures r.Some? <==> fuzziness.Some? && fuzziness.value != "" && fuzziness.value != "0"
    ensures r.Some? ==> r == fuzziness
  {
    if fuzziness.Some? && !Empty(Str(fuzziness.value)) then fuzziness else None
  }

  /** `#conjunction`, or OR when it is missing or null. */
  function Conjunction(keys: Value): string {
    if Isset(keys, StrKey("#conjunction")) then ToStr(Prop(keys, "#conjunction")) else "OR"
  }

  /**
   * `buildSearchString`: a collection with the group's conjunction, excluded
   * when `#negation` is non-empty, whose elements are the non-option children:
   * arrays recurse, strings become terms, any other value is skipped.
   */
  function BuildSearchString(keys: Value, fuzziness: Option<string>): (q: Query)
    requires keys.Arr?
    ensures q.Collection? && q.operator == Conjunction(keys)
    ensures q.prohibited <==> !Empty(Prop(keys, "#negation"))
    decreases keys, 1
  {
    Collection(Conjunction(keys), !Empty(Prop(keys, "#negation")), ElementsFrom(keys, 0, fuzziness))
  }

  function ElementsFrom(keys: Value, i: nat, fuzziness: Option<string>): (qs: seq<Query>)
    requires keys.Arr? && i <= |keys.entries|
    ensures |qs| <= |keys.entries| - i
    decreases keys, 0, |keys.entries| - i
  {
    if i == |keys.entries| then []
    else
      var (k, v) := keys.entries[i];
      var rest := ElementsFrom(keys, i + 1, fuzziness);
      if IsOptionKey(k) then rest
      else match v
        case Arr(_) => [BuildSearchString(v, fuzziness)] + rest
        case Str(s) => [Term(s, TermFuzziness(fuzziness))] + rest
        case _ => rest
  }

  // ---------------------------------------------------------------------------
  // Independent descriptions of the tree

  /** The string children of a keys tree, depth first, option keys left out. */
  function StringLeaves(keys: Value): seq<string>
    requires keys.Arr?
    decreases keys, 1
  {
    StringLeavesFrom(keys, 0)
  }

  function StringLeavesFrom(keys: Value, i: nat): seq<string>
    requires keys.Arr? && i <= |keys.entries|
    decreases keys, 0, |keys.entries| - i
  {
    if i == |keys.entries| then []
    else
      var (k, v) := keys.entries[i];
      (if IsOptionKey(k) then [] else if v.Arr? then StringLeaves(v) else if v.Str? then [v.s] else [])
      + StringLeavesFrom(keys, i + 1)
  }

  /** The term values of a query, depth first. */
  function Terms(q: Query): seq<string>
    decreases q, 1
  {
    match q
    case Term(v, _) => [v]
    case Collection(_, _, _) => TermsFrom(q, 0)
  }

  function TermsFrom(q: Query, i: nat): seq<string>
    requires q.Collection? && i <= |q.elements|
    decreases q, 0, |q.elements| - i
  {
    if i == |q.elements| then [] else Terms(q.elements[i]) + TermsFrom(q, i + 1)
  }

  /** Every term of the tree carries fuzziness `f`. */
  predicate AllTermsFuzzy(q: Query, f: Option<string>) {
    match q
    case Term(_, g) => g == f
    case Collection(_, _, es) => forall i :: 0 <= i < |es| ==> AllTermsFuzzy(es[i], f)
  }

  // ---------------------------------------------------------------------------
  // The search params

  /** The full-text fields searched: the requested ones the index has, else all of the index's. */
  function SelectedFields(indexFulltext: seq<string>, requested: seq<string>): (r: seq<string>)
    ensures forall f :: f in r <==> f in indexFulltext && (requested == [] || f in requested)
    ensures |r| <= |indexFulltext|
  {
    if requested == [] then indexFulltext
    else if indexFulltext == [] then []
    else
      var rest := SelectedFields(indexFulltext[1..], requested);
      assert forall f :: f in indexFulltext <==> f == indexFulltext[0] || f in indexFulltext[1..];
      if indexFulltext[0] in requested then [indexFulltext[0]] + rest else rest
  }

  /** `id^boost`, PHP's concatenation (a null boost gives `id^`). */
  function BoostedField(f: Field): string {
    f.id + "^" + ToStr(f.boost)
  }

  /** `$keys` as `buildSearchString` receives it: a string becomes a one-element list. */
  function KeysArray(keys: Value): (r: Value)
    requires keys.Str? || keys.Arr?
    ensures r.Arr?
  {
    if keys.Str? then List([keys]) else keys
  }

  /** `buildSearchParams`: `{query_string: {query, fields}}`, or `[]` without keys or terms. */
  function SearchParams(keys: Value, requested: seq<string>, index: Index,
                        indexFields: seq<(string, Field)>, fuzziness: Option<string>): Value
    requires keys.Null? || keys.Str? || keys.Arr?
    requires forall f :: f in SelectedFields(index.fulltextFields, requested) ==> HasKey(indexFields, f)
  {
    if Empty(keys) then Arr([])
    else
      var q := BuildSearchString(KeysArray(keys), fuzziness);
      var selected := SelectedFields(index.fulltextFields, requested);
      if IsEmpty(q) then Arr([])
      else Assoc([("query_string", Assoc([
        ("query", Str(Render(q))),
        ("fields", List(seq(|selected|, i requires 0 <= i < |selected| =>
          Str(BoostedField(Get(indexFields, selected[i]).value)))))]))])
  }

  method BuildSearchParams(keys: Value, requested: seq<string>, index: Index,
                           indexFields: seq<(string, Field)>, fuzziness: Option<string>) returns (params: Value)
    requires keys.Null? || keys.Str? || keys.Arr?
    requires forall f :: f in SelectedFields(index.fulltextFields, requested) ==> HasKey(indexFields, f)
    ensures params == SearchParams(keys, requested, index, indexFields, fuzziness)
  {
    if Empty(keys) {
      return Arr([]);
    }
    var keyArray := KeysArray(keys);
    var fieldIds := SelectedFields(index.fulltextFields, requested);
    var queryFields: seq<Value> := [];
    for i := 0 to |fieldIds|
      invariant |queryFields| == i
      invariant forall j :: 0 <= j < i ==> queryFields[j] == Str(BoostedField(Get(indexFields, fieldIds[j]).value))
    {
      var field := Get(indexFields, fieldIds[i]).value;
      queryFields := queryFields + [Str(field.id + "^" + ToStr(field.boost))];
    }
    assert queryFields == seq(|fieldIds|, i requires 0 <= i < |fieldIds| =>
      Str(BoostedField(Get(indexFields, fieldIds[i]).value)));
    var luceneQuery := BuildSearchString(keyArray, fuzziness);
    params := Arr([]);
    if !IsEmpty(luceneQuery) {
      params := Assoc([("query_string", Assoc([("query", Str(Render(luceneQuery))), ("fields", List(queryFields))]))]);
    }
  }
}
