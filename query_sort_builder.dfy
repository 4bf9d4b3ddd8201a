/**
 * The sort compiler: the query's `(field, direction)` sorts become an ordered
 * dictionary from Elasticsearch sort fields to lower-cased directions.
 */
module QuerySortBuilder {
  import opened Wrappers
  import opened Dict
  import opened Php
  import opened SearchApi

  function LowerChar(c: char): char {
    if 'A' <= c <= 'Z' then (c as int + 32) as char else c
  }

  /** No ASCII upper-case letter. */
  predicate LowerCase(s: string) {
    forall i :: 0 <= i < |s| ==> !('A' <= s[i] <= 'Z')
  }

  /** `mb_strtolower`, on the ASCII letters. */
  function ToLower(s: string): (r: string)
    ensures |r| == |s| && LowerCase(r)
    ensures forall i :: 0 <= i < |s| && !('A' <= s[i] <= 'Z') ==> r[i] == s[i]
  {
    seq(|s|, i requires 0 <= i < |s| => LowerChar(s[i]))
  }

  /**
   * The sort field for a query field, or None when the sort is dropped:
   * relevance sorts on `_score` only for a query with keys; the item id sorts on
   * `id`; `_id` on itself; an index field on its `.keyword` sub-field when it is
   * a full-text field, else on itself; any other field is dropped.
   */
  function SortName(field: string, keys: Value, index: Index): Option<string> {
    if field == "search_api_relevance" then (if !Empty(keys) then Some("_score") else None)
    else if field == "search_api_id" then Some("id")
    else if field == "_id" then Some("_id")
    else if HasKey(index.fields, field) then
      if field in index.fulltextFields then Some(field + ".keyword") else Some(field)
    else None
  }

  /** `getSortSearchQuery` after the first `n` sorts. */
  function SortFold(sorts: seq<(string, string)>, keys: Value, index: Index, n: nat): seq<(Key, Value)>
    requires n <= |sorts|
  {
    if n == 0 then []
    else
      var sort := SortFold(sorts, keys, index, n - 1);
      match SortName(sorts[n - 1].0, keys, index)
      case None => sort
      case Some(name) => Put(sort, StrKey(name), Str(ToLower(sorts[n - 1].1)))
  }

  method GetSortSearchQuery(sorts: seq<(string, string)>, keys: Value, index: Index) returns (sort: seq<(Key, Value)>)
    ensures sort == SortFold(sorts, keys, index, |sorts|)
  {
    sort := [];
    for i := 0 to |sorts|
      invariant sort == SortFold(sorts, keys, index, i)
    {
      var direction := ToLower(sorts[i].1);
      var target := SortTarget(sorts[i].0, keys, index);
      assert target == SortName(sorts[i].0, keys, index);
      if target.Some? {
        sort := Put(sort, StrKey(target.value), Str(direction));
      }
      SortFoldStep(sorts, keys, index, i);
    }
  }

  lemma SortFoldStep(sorts: seq<(string, string)>, keys: Value, index: Index, i: nat)
    requires i < |sorts|
    ensures SortFold(sorts, keys, index, i + 1) ==
      match SortName(sorts[i].0, keys, index)
      case None => SortFold(sorts, keys, index, i)
      case Some(name) => Put(SortFold(sorts, keys, index, i), StrKey(name), Str(ToLower(sorts[i].1)))
  {
  }

  /** A field name the if/elseif chain answers before it looks at the index. */
  predicate Magic(fieldId: string) {
    fieldId == "search_api_relevance" || fieldId == "search_api_id" || fieldId == "_id"
  }

  /**
   * The sort field the if/elseif chain of one sort writes to, if any: relevance
   * sorts on `_score` exactly when the query has keys, the item id on `id`, `_id`
   * on itself, an index field on its `.keyword` sub-field exactly when it is a
   * full-text field, and every other field (the datasource and language
   * included, when the index does not have them) is dropped.
   */
  method SortTarget(fieldId: string, keys: Value, index: Index) returns (target: Option<string>)
    ensures fieldId == "search_api_relevance" ==>
      (target.Some? <==> !Empty(keys)) && (target.Some? ==> target.value == "_score")
    ensures fieldId == "search_api_id" ==> target == Some("id")
    ensures fieldId == "_id" ==> target == Some("_id")
    ensures !Magic(fieldId) && HasKey(index.fields, fieldId) ==>
      target.Some? && (target.value == fieldId + ".keyword" <==> fieldId in index.fulltextFields)
        && (fieldId !in index.fulltextFields ==> target.value == fieldId)
    ensures !Magic(fieldId) && !HasKey(index.fields, fieldId) ==> target == None
  {
    target := None;
    if fieldId == "search_api_relevance" {
      if !Empty(keys) {
        target := Some("_score");
      }
    } else if fieldId == "search_api_id" {
      target := Some("id");
    } else if fieldId == "_id" {
      target := Some("_id");
    } else if HasKey(index.fields, fieldId) {
      if fieldId in index.fulltextFields {
        target := Some(fieldId + ".keyword");
      } else {
        target := Some(fieldId);
      }
    }
  }

  /** The entries the kept sorts give, in the order of the sorts. */
  function KeptSorts(sorts: seq<(string, string)>, keys: Value, index: Index): seq<(Key, Value)> {
    if sorts == [] then []
    else
      (match SortName(sorts[0].0, keys, index)
       case None => []
       case Some(name) => [(StrKey(name), Str(ToLower(sorts[0].1)))])
      + KeptSorts(sorts[1..], keys, index)
  }

  lemma {:induction false} KeptSortsAppend(sorts: seq<(string, string)>, s: (string, string), keys: Value, index: Index)
    ensures KeptSorts(sorts + [s], keys, index) == KeptSorts(sorts, keys, index) + KeptSorts([s], keys, index)
  {
    if sorts == [] {
      assert sorts + [s] == [s];
    } else {
      assert (sorts + [s])[1..] == sorts[1..] + [s];
      KeptSortsAppend(sorts[1..], s, keys, index);
    }
  }

  /** Sort `s` is kept, under the sort field `k`. */
  predicate Kept(s: (string, string), keys: Value, index: Index, k: Key) {
    SortName(s.0, keys, index).Some? && StrKey(SortName(s.0, keys, index).value) == k
  }

  /** The kept sorts name exactly the sort fields of the kept sorts. */
  lemma {:induction false} KeptSortsKeys(sorts: seq<(string, string)>, keys: Value, index: Index, k: Key)
    ensures HasKey(KeptSorts(sorts, keys, index), k) <==>
      exists i :: 0 <= i < |sorts| && Kept(sorts[i], keys, index, k)
  {
    if sorts != [] {
      KeptSortsKeys(sorts[1..], keys, index, k);
      var head := match SortName(sorts[0].0, keys, index)
        case None => []
        case Some(name) => [(StrKey(name), Str(ToLower(sorts[0].1)))];
      assert KeptSorts(sorts, keys, index) == head + KeptSorts(sorts[1..], keys, index);
      HasKeyConcat(head, KeptSorts(sorts[1..], keys, index), k);
      forall i | 1 <= i < |sorts| ensures sorts[i] == sorts[1..][i - 1] { }
      if HasKey(KeptSorts(sorts[1..], keys, index), k) {
        var i :| 0 <= i < |sorts[1..]| && Kept(sorts[1..][i], keys, index, k);
        assert sorts[i + 1] == sorts[1..][i];
      }
      if exists i :: 0 <= i < |sorts| && Kept(sorts[i], keys, index, k) {
        var i :| 0 <= i < |sorts| && Kept(sorts[i], keys, index, k);
        if i == 0 {
          assert head[0].0 == k;
        } else {
          assert sorts[1..][i - 1] == sorts[i];
        }
      }
    }
  }

  /** No two kept sorts share a sort field. */
  predicate DistinctSortNames(sorts: seq<(string, string)>, keys: Value, index: Index) {
    forall i, j :: 0 <= i < j < |sorts| && SortName(sorts[i].0, keys, index).Some? ==>
      SortName(sorts[i].0, keys, index) != SortName(sorts[j].0, keys, index)
  }

  /**
   * When no two kept sorts share a sort field, the sort dictionary is the kept
   * sorts in query order: unknown fields (and relevance without keys) dropped,
   * every direction lower-cased.
   */
  lemma {:induction false} SortIsKeptSorts(sorts: seq<(string, string)>, keys: Value, index: Index, n: nat)
    requires n <= |sorts| && DistinctSortNames(sorts, keys, index)
    ensures SortFold(sorts, keys, index, n) == KeptSorts(sorts[..n], keys, index)
  {
    if n > 0 {
      SortIsKeptSorts(sorts, keys, index, n - 1);
      TakeLast(sorts, n);
      KeptSortsAppend(sorts[..n - 1], sorts[n - 1], keys, index);
      assert [sorts[n - 1]][1..] == [];
      var name := SortName(sorts[n - 1].0, keys, index);
      if name.Some? {
        KeptSortsKeys(sorts[..n - 1], keys, index, StrKey(name.value));
        var before := sorts[..n - 1];
        forall i | 0 <= i < |before|
          ensures !Kept(before[i], keys, index, StrKey(name.value))
        {
          assert before[i] == sorts[i];
        }
      }
    }
  }

  /** Every value is a lower-case string. */
  predicate AllLowerCase(d: seq<(Key, Value)>) {
    forall i :: 0 <= i < |d| ==> d[i].1.Str? && LowerCase(d[i].1.s)
  }

  lemma {:induction false} PutLowerCase(d: seq<(Key, Value)>, k: Key, v: Value)
    requires AllLowerCase(d) && v.Str? && LowerCase(v.s)
    ensures AllLowerCase(Put(d, k, v))
  {
    if d != [] && d[0].0 != k {
      PutLowerCase(d[1..], k, v);
      assert Put(d, k, v) == [d[0]] + Put(d[1..], k, v);
    }
  }

  /** Every direction in the sort dictionary is lower-case. */
  lemma {:induction false} DirectionsLowerCase(sorts: seq<(string, string)>, keys: Value, index: Index, n: nat)
    requires n <= |sorts|
    ensures AllLowerCase(SortFold(sorts, keys, index, n))
  {
    if n > 0 {
      DirectionsLowerCase(sorts, keys, index, n - 1);
      var name := SortName(sorts[n - 1].0, keys, index);
      if name.Some? {
        PutLowerCase(SortFold(sorts, keys, index, n - 1), StrKey(name.value), Str(ToLower(sorts[n - 1].1)));
      }
    }
  }

  /**
   * The magic sorts of a query without keys: relevance is dropped, and so are
   * the datasource and language when the index has no such fields; only the
   * item id sort is left.
   */
  lemma MagicSortsWithoutKeys(index: Index)
    requires !HasKey(index.fields, "search_api_datasource") && !HasKey(index.fields, "search_api_language")
    ensures
      var sorts := [("search_api_relevance", "ASC"), ("search_api_datasource", "DESC"),
                    ("search_api_language", "ASC"), ("search_api_id", "DESC")];
      SortFold(sorts, Null, index, 4) == [(StrKey("id"), Str("desc"))]
  {
    var sorts := [("search_api_relevance", "ASC"), ("search_api_datasource", "DESC"),
                  ("search_api_language", "ASC"), ("search_api_id", "DESC")];
    assert SortFold(sorts, Null, index, 1) == [];
    assert SortFold(sorts, Null, index, 2) == [];
    assert SortFold(sorts, Null, index, 3) == [];
    assert ToLower("DESC") == "desc";
  }
}
