/**
 * The More-Like-This compiler: the query's `search_api_mlt` option becomes a
 * `more_like_this` query with its documents, its fields and fixed term limits.
 */
module MoreLikeThisParamBuilder {
  import opened Wrappers
  import opened Dict
  import opened Php

  /** The documents to match: `id` (a list, or wrapped in one) in place of `ids`, else `ids`. */
  function LikeIds(options: Value): (ids: Value)
    ensures Isset(options, StrKey("id")) ==> ids.Arr? && ids != Null
    ensures Isset(options, StrKey("id")) && Prop(options, "id").Arr? ==> ids == Prop(options, "id")
    ensures Isset(options, StrKey("id")) && !Prop(options, "id").Arr? ==> ids == List([Prop(options, "id")])
    ensures !Isset(options, StrKey("id")) ==> ids == Prop(options, "ids")
  {
    if Isset(options, StrKey("id")) then
      var id := Prop(options, "id");
      if id.Arr? then id else List([id])
    else Prop(options, "ids")
  }

  /** An entry present only when its value is not null (`isset`). */
  function IfSet(name: string, v: Value): seq<(Key, Value)> {
    if v != Null then [(StrKey(name), v)] else []
  }

  /** The entries of the `more_like_this` clause, in the order the source writes them. */
  function MoreLikeThisEntries(options: Value): seq<(Key, Value)>
    requires Prop(options, "fields").Arr?
  {
    IfSet("ids", LikeIds(options)) + IfSet("like", Prop(options, "like")) + IfSet("unlike", Prop(options, "unlike"))
    + [(StrKey("fields"), List(Values(Prop(options, "fields").entries))),
       (StrKey("max_query_terms"), Int(1)), (StrKey("min_doc_freq"), Int(1)), (StrKey("min_term_freq"), Int(1))]
  }

  /**
   * `buildMoreLikeThisQuery`, a straight-line build of one clause; `fields`
   * must be an array (`array_values` raises a TypeError otherwise).
   */
  function BuildMoreLikeThisQuery(options: Value): (query: Value)
    requires Prop(options, "fields").Arr?
  {
    Assoc([("more_like_this", Arr(MoreLikeThisEntries(options)))])
  }

  /** The optional entries name only `ids`, `like` and `unlike`. */
  lemma OptionalKeys(options: Value, k: Key)
    requires k != StrKey("ids") && k != StrKey("like") && k != StrKey("unlike")
    ensures !HasKey(IfSet("ids", LikeIds(options)) + IfSet("like", Prop(options, "like")) + IfSet("unlike", Prop(options, "unlike")), k)
  {
  }

  /** The fields are reindexed as a list, and the term limits are 1. */
  lemma FixedEntries(options: Value)
    requires Prop(options, "fields").Arr?
    ensures
      var mlt := Prop(BuildMoreLikeThisQuery(options), "more_like_this");
      && Prop(mlt, "fields") == List(Values(Prop(options, "fields").entries))
      && Prop(mlt, "max_query_terms") == Int(1)
      && Prop(mlt, "min_doc_freq") == Int(1)
      && Prop(mlt, "min_term_freq") == Int(1)
  {
    var es := MoreLikeThisEntries(options);
    PropAssoc([("more_like_this", Arr(es))], 0);
    FixedEntry(options, 0);
    FixedEntry(options, 1);
    FixedEntry(options, 2);
    FixedEntry(options, 3);
  }

  /** The entries every clause ends with. */
  function FixedTail(options: Value): seq<(Key, Value)>
    requires Prop(options, "fields").Arr?
  {
    [(StrKey("fields"), List(Values(Prop(options, "fields").entries))),
     (StrKey("max_query_terms"), Int(1)), (StrKey("min_doc_freq"), Int(1)), (StrKey("min_term_freq"), Int(1))]
  }

  lemma FixedEntry(options: Value, i: nat)
    requires Prop(options, "fields").Arr? && i < 4
    ensures Get(MoreLikeThisEntries(options), FixedTail(options)[i].0) == Some(FixedTail(options)[i].1)
  {
    var front := IfSet("ids", LikeIds(options)) + IfSet("like", Prop(options, "like")) + IfSet("unlike", Prop(options, "unlike"));
    var tail := FixedTail(options);
    assert MoreLikeThisEntries(options) == front + tail;
    OptionalKeys(options, tail[i].0);
    GetAfter(front, tail, i);
  }

  /** Entry `i` of `tail` is what its key reads after `front`, when no earlier entry has the key. */
  lemma GetAfter(front: seq<(Key, Value)>, tail: seq<(Key, Value)>, i: nat)
    requires i < |tail| && !HasKey(front, tail[i].0)
    requires forall j :: 0 <= j < i ==> tail[j].0 != tail[i].0
    ensures Get(front + tail, tail[i].0) == Some(tail[i].1)
  {
    GetConcat(front, tail, tail[i].0);
    GetAt(tail, i);
  }

  /** The documents, `like` and `unlike` are read back as given; a missing one stays missing. */
  lemma OptionalEntries(options: Value)
    requires Prop(options, "fields").Arr?
    ensures
      var mlt := Prop(BuildMoreLikeThisQuery(options), "more_like_this");
      && Prop(mlt, "ids") == LikeIds(options)
      && Prop(mlt, "like") == Prop(options, "like")
      && Prop(mlt, "unlike") == Prop(options, "unlike")
  {
    PropAssoc([("more_like_this", Arr(MoreLikeThisEntries(options)))], 0);
    IdsEntry(options);
    LikeEntry(options);
    UnlikeEntry(options);
  }

  lemma IdsEntry(options: Value)
    requires Prop(options, "fields").Arr?
    ensures Get(MoreLikeThisEntries(options), StrKey("ids")) == if LikeIds(options) == Null then None else Some(LikeIds(options))
  {
    var a := IfSet("ids", LikeIds(options));
    var rest := IfSet("like", Prop(options, "like")) + IfSet("unlike", Prop(options, "unlike")) + FixedTail(options);
    assert MoreLikeThisEntries(options) == a + rest;
    assert !HasKey(rest, StrKey("ids"));
    OptionalEntry(a, rest, "ids", LikeIds(options));
  }

  lemma LikeEntry(options: Value)
    requires Prop(options, "fields").Arr?
    ensures Get(MoreLikeThisEntries(options), StrKey("like")) == if Prop(options, "like") == Null then None else Some(Prop(options, "like"))
  {
    var a := IfSet("ids", LikeIds(options));
    var b := IfSet("like", Prop(options, "like"));
    var rest := IfSet("unlike", Prop(options, "unlike")) + FixedTail(options);
    assert MoreLikeThisEntries(options) == a + (b + rest);
    assert !HasKey(rest, StrKey("like"));
    GetConcat(a, b + rest, StrKey("like"));
    OptionalEntry(b, rest, "like", Prop(options, "like"));
  }

  lemma UnlikeEntry(options: Value)
    requires Prop(options, "fields").Arr?
    ensures Get(MoreLikeThisEntries(options), StrKey("unlike")) == if Prop(options, "unlike") == Null then None else Some(Prop(options, "unlike"))
  {
    var ab := IfSet("ids", LikeIds(options)) + IfSet("like", Prop(options, "like"));
    var c := IfSet("unlike", Prop(options, "unlike"));
    var rest := FixedTail(options);
    assert MoreLikeThisEntries(options) == ab + (c + rest);
    assert !HasKey(rest, StrKey("unlike"));
    GetConcat(ab, c + rest, StrKey("unlike"));
    OptionalEntry(c, rest, "unlike", Prop(options, "unlike"));
  }

  /** An optional entry reads as its value, or as missing when it was not set. */
  lemma OptionalEntry(entry: seq<(Key, Value)>, rest: seq<(Key, Value)>, name: string, v: Value)
    requires entry == IfSet(name, v) && !HasKey(rest, StrKey(name))
    ensures v != Null ==> Get(entry + rest, StrKey(name)) == Some(v)
    ensures v == Null ==> Get(entry + rest, StrKey(name)) == None
  {
    if v == Null {
      GetConcat(entry, rest, StrKey(name));
    }
  }

  /** The options of the unit test. */
  function ExampleOptions(itemId: string): Value {
    Assoc([("id", Str(itemId)), ("like", Str("foo")), ("unlike", Str("bar")), ("fields", List([Str("*")]))])
  }

  lemma ExampleOptionsRead(itemId: string)
    ensures Prop(ExampleOptions(itemId), "id") == Str(itemId)
    ensures Prop(ExampleOptions(itemId), "like") == Str("foo")
    ensures Prop(ExampleOptions(itemId), "unlike") == Str("bar")
    ensures Prop(ExampleOptions(itemId), "fields") == List([Str("*")])
  {
    var es := [("id", Str(itemId)), ("like", Str("foo")), ("unlike", Str("bar")), ("fields", List([Str("*")]))];
    PropAssoc(es, 0);
    PropAssoc(es, 1);
    PropAssoc(es, 2);
    PropAssoc(es, 3);
  }

  /** The unit test: an item id, `like`, `unlike` and the fields `["*"]`. */
  lemma ItemIdExample(itemId: string)
    ensures Prop(ExampleOptions(itemId), "fields").Arr?
    ensures MoreLikeThisEntries(ExampleOptions(itemId)) ==
      [(StrKey("ids"), List([Str(itemId)])), (StrKey("like"), Str("foo")), (StrKey("unlike"), Str("bar")),
       (StrKey("fields"), List([Str("*")])), (StrKey("max_query_terms"), Int(1)),
       (StrKey("min_doc_freq"), Int(1)), (StrKey("min_term_freq"), Int(1))]
  {
    var options := ExampleOptions(itemId);
    ExampleOptionsRead(itemId);
    assert LikeIds(options) == List([Str(itemId)]);
    var fields := List([Str("*")]);
    assert Values(fields.entries) == [Str("*")];
    var tail := [(StrKey("fields"), List([Str("*")])), (StrKey("max_query_terms"), Int(1)),
                 (StrKey("min_doc_freq"), Int(1)), (StrKey("min_term_freq"), Int(1))];
    assert FixedTail(options) == tail;
    assert MoreLikeThisEntries(options) ==
      [(StrKey("ids"), List([Str(itemId)]))] + [(StrKey("like"), Str("foo"))] + [(StrKey("unlike"), Str("bar"))] + tail;
    ThreeThenFour((StrKey("ids"), List([Str(itemId)])), (StrKey("like"), Str("foo")), (StrKey("unlike"), Str("bar")),
      tail[0], tail[1], tail[2], tail[3]);
  }

  lemma ThreeThenFour<T>(a: T, b: T, c: T, d: T, e: T, f: T, g: T)
    ensures [a] + [b] + [c] + [d, e, f, g] == [a, b, c, d, e, f, g]
  {
  }
}
