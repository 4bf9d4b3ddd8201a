/**
 * The query strings the full-text compiler's unit tests expect, stated for
 * every choice of words and phrases of the shape each test uses: the tree
 * `buildSearchString` builds from the keys and the string that tree renders.
 * `t` is `~` when the fuzziness setting is in force and empty otherwise.
 */
module SearchStringExamples {
  import opened Wrappers
  import opened Dict
  import opened Php
  import opened Lucene
  import opened SearchApi
  import opened SearchParamBuilder

  /** What a term carries after it when the fuzziness setting is in force. */
  function Tilde(fuzziness: Option<string>): string {
    if TermFuzziness(fuzziness).Some? then "~" else ""
  }

  /** A word: non-empty, no whitespace, no special character. */
  predicate Word(s: string) {
    s != "" && Plain(s, true)
  }

  /** A phrase: whitespace inside, no special character. */
  predicate Phrase(s: string) {
    HasSpace(s) && Plain(s, false)
  }

  lemma WordTerm(s: string, fuzziness: Option<string>)
    requires Word(s)
    ensures Render(Term(s, TermFuzziness(fuzziness))) == s + Tilde(fuzziness)
  {
    RenderWord(s, TermFuzziness(fuzziness));
  }

  lemma PhraseTerm(s: string, fuzziness: Option<string>)
    requires Phrase(s)
    ensures Render(Term(s, TermFuzziness(fuzziness))) == "\"" + s + "\"" + Tilde(fuzziness)
  {
    RenderPhrase(s, TermFuzziness(fuzziness));
    EscapePlain(s, false);
  }

  /** A phrase followed by a dash and more text: the dash is escaped. */
  lemma DashTerm(a: string, b: string, fuzziness: Option<string>)
    requires Phrase(a) && Plain(b, false)
    ensures Render(Term(a + "-" + b, TermFuzziness(fuzziness))) == "\"" + a + "\\-" + b + "\"" + Tilde(fuzziness)
  {
    SpaceKept(a, "-" + b);
    assert a + "-" + b == a + ("-" + b);
    RenderPhrase(a + "-" + b, TermFuzziness(fuzziness));
    EscapeDash(a, b);
    Regroup("\"", a, "\\-", b);
  }

  lemma Regroup<T>(p: seq<T>, a: seq<T>, m: seq<T>, b: seq<T>)
    ensures p + (a + m + b) == p + a + m + b
  {
  }

  /** Text after a phrase keeps it a phrase. */
  lemma SpaceKept(a: string, b: string)
    requires HasSpace(a)
    ensures HasSpace(a + b)
  {
    var i :| 0 <= i < |a| && IsSpace(a[i]);
    assert (a + b)[i] == a[i];
  }

  // ---------------------------------------------------------------------------
  // Keys of one string

  /** The keys `[s]` give a collection of the one term `s`. */
  lemma OneStringTree(k: Value, s: string, fuzziness: Option<string>)
    requires k == Arr([(IntKey(0), Str(s))])
    ensures BuildSearchString(k, fuzziness) == Collection("OR", false, [Term(s, TermFuzziness(fuzziness))])
  {
    assert ElementsFrom(k, 1, fuzziness) == [];
  }

  /** The keys `[s]` render as the term `s` alone. */
  lemma OneString(k: Value, s: string, fuzziness: Option<string>)
    requires k == Arr([(IntKey(0), Str(s))]) && s != ""
    ensures Render(BuildSearchString(k, fuzziness)) == Render(Term(s, TermFuzziness(fuzziness)))
  {
    OneStringTree(k, s, fuzziness);
    TermNotBlank(s, TermFuzziness(fuzziness));
    SingleElementCollapses("OR", Term(s, TermFuzziness(fuzziness)));
  }

  /** `['foo']`, fuzziness "auto": `foo~`. */
  lemma SingleWord(k: Value, s: string, fuzziness: Option<string>)
    requires k == Arr([(IntKey(0), Str(s))]) && Word(s)
    ensures Render(BuildSearchString(k, fuzziness)) == s + Tilde(fuzziness)
  {
    OneString(k, s, fuzziness);
    WordTerm(s, fuzziness);
  }

  /** `['cogito ergo sum']`, fuzziness "auto": `"cogito ergo sum"~`. */
  lemma QuotedPhrase(k: Value, s: string, fuzziness: Option<string>)
    requires k == Arr([(IntKey(0), Str(s))]) && Phrase(s)
    ensures Render(BuildSearchString(k, fuzziness)) == "\"" + s + "\"" + Tilde(fuzziness)
  {
    OneString(k, s, fuzziness);
    PhraseTerm(s, fuzziness);
  }

  /** `['foo - bar']`, no fuzziness: `"foo \- bar"`. */
  lemma StandAloneDash(k: Value, a: string, b: string, fuzziness: Option<string>)
    requires k == Arr([(IntKey(0), Str(a + "-" + b))])
    requires Phrase(a) && Plain(b, false)
    ensures Render(BuildSearchString(k, fuzziness)) == "\"" + a + "\\-" + b + "\"" + Tilde(fuzziness)
  {
    OneString(k, a + "-" + b, fuzziness);
    DashTerm(a, b, fuzziness);
  }

  // ---------------------------------------------------------------------------
  // Two words joined by AND

  lemma TwoWordsTree(k: Value, a: string, b: string, fuzziness: Option<string>)
    requires k == Arr([(IntKey(0), Str(a)), (IntKey(1), Str(b)), (StrKey("#conjunction"), Str("AND"))])
    ensures BuildSearchString(k, fuzziness)
         == Collection("AND", false, [Term(a, TermFuzziness(fuzziness)), Term(b, TermFuzziness(fuzziness))])
  {
    GetAt(k.entries, 2);
    assert ElementsFrom(k, 2, fuzziness) == [];
    assert ElementsFrom(k, 1, fuzziness) == [Term(b, TermFuzziness(fuzziness))];
  }

  lemma TwoWordsRender(a: string, b: string, fuzziness: Option<string>)
    requires Word(a) && Word(b)
    ensures var f := TermFuzziness(fuzziness); var t := Tilde(fuzziness);
      Render(Collection("AND", false, [Term(a, f), Term(b, f)])) == Group([a + t, b + t], "AND")
  {
    WordTerm(a, fuzziness);
    WordTerm(b, fuzziness);
    var f := TermFuzziness(fuzziness);
    RenderPair(Collection("AND", false, [Term(a, f), Term(b, f)]), a + Tilde(fuzziness), b + Tilde(fuzziness));
  }

  /**
   * `['foo', 'bar', '#conjunction' => 'AND']`, fuzziness "auto": `(foo~ AND bar~)`;
   * and `['#conjunction' => 'AND', '神奈川県', '連携']` without fuzziness, whose
   * multi-byte words are words like any other: `(神奈川県 AND 連携)`.
   */
  lemma TwoWords(k: Value, a: string, b: string, fuzziness: Option<string>)
    requires k == Arr([(IntKey(0), Str(a)), (IntKey(1), Str(b)), (StrKey("#conjunction"), Str("AND"))])
    requires Word(a) && Word(b)
    ensures var t := Tilde(fuzziness);
      Render(BuildSearchString(k, fuzziness)) == Group([a + t, b + t], "AND")
  {
    TwoWordsTree(k, a, b, fuzziness);
    TwoWordsRender(a, b, fuzziness);
  }

  // ---------------------------------------------------------------------------
  // Negated groups

  /** `['#negation' => TRUE, s]` is an excluded OR collection of the one term `s`. */
  lemma NegatedGroupTree(inner: Value, s: string, fuzziness: Option<string>)
    requires inner == Arr([(StrKey("#negation"), Bool(true)), (IntKey(0), Str(s))])
    ensures BuildSearchString(inner, fuzziness) == Collection("OR", true, [Term(s, TermFuzziness(fuzziness))])
  {
    GetAt(inner.entries, 0);
    assert ElementsFrom(inner, 2, fuzziness) == [];
    assert ElementsFrom(inner, 1, fuzziness) == [Term(s, TermFuzziness(fuzziness))];
    assert ElementsFrom(inner, 0, fuzziness) == [Term(s, TermFuzziness(fuzziness))];
  }

  /** `['#negation' => TRUE, s]` renders as `-` and the term. */
  lemma NegatedGroup(inner: Value, s: string, fuzziness: Option<string>)
    requires inner == Arr([(StrKey("#negation"), Bool(true)), (IntKey(0), Str(s))]) && s != ""
    ensures Render(BuildSearchString(inner, fuzziness)) == "-" + Render(Term(s, TermFuzziness(fuzziness)))
  {
    NegatedGroupTree(inner, s, fuzziness);
    TermNotBlank(s, TermFuzziness(fuzziness));
    SingleElementCollapses("OR", Term(s, TermFuzziness(fuzziness)));
  }

  /** The keys `[group]` render as the group does. */
  lemma OnlyGroup(k: Value, inner: Value, fuzziness: Option<string>)
    requires k == Arr([(IntKey(0), inner)]) && inner.Arr?
    requires Render(BuildSearchString(inner, fuzziness)) != ""
    ensures Render(BuildSearchString(k, fuzziness)) == Render(BuildSearchString(inner, fuzziness))
  {
    assert ElementsFrom(k, 1, fuzziness) == [];
    assert BuildSearchString(k, fuzziness).elements == [BuildSearchString(inner, fuzziness)];
    SingleElementCollapses("OR", BuildSearchString(inner, fuzziness));
  }

  /** `[['#negation' => TRUE, 'foo']]`, no fuzziness: `-foo`. */
  lemma NegatedKeyword(k: Value, s: string, fuzziness: Option<string>)
    requires k == Arr([(IntKey(0), Arr([(StrKey("#negation"), Bool(true)), (IntKey(0), Str(s))]))])
    requires Word(s)
    ensures Render(BuildSearchString(k, fuzziness)) == "-" + s + Tilde(fuzziness)
  {
    var inner := k.entries[0].1;
    NegatedGroup(inner, s, fuzziness);
    WordTerm(s, fuzziness);
    OnlyGroup(k, inner, fuzziness);
  }

  /** `[['#negation' => TRUE, 'cogito ergo sum']]`, no fuzziness: `-"cogito ergo sum"`. */
  lemma NegatedPhrase(k: Value, s: string, fuzziness: Option<string>)
    requires k == Arr([(IntKey(0), Arr([(StrKey("#negation"), Bool(true)), (IntKey(0), Str(s))]))])
    requires Phrase(s)
    ensures Render(BuildSearchString(k, fuzziness)) == "-\"" + s + "\"" + Tilde(fuzziness)
  {
    var inner := k.entries[0].1;
    var term := Render(Term(s, TermFuzziness(fuzziness)));
    assert term == "\"" + s + "\"" + Tilde(fuzziness) by { PhraseTerm(s, fuzziness); }
    assert Render(BuildSearchString(inner, fuzziness)) == "-" + term by { NegatedGroup(inner, s, fuzziness); }
    assert Render(BuildSearchString(k, fuzziness)) == "-" + term by { OnlyGroup(k, inner, fuzziness); }
    assert "-" + "\"" == "-\"";
    Prepend("-", "\"", s, "\"", Tilde(fuzziness));
  }

  lemma Prepend<T>(p: seq<T>, q: seq<T>, a: seq<T>, b: seq<T>, c: seq<T>)
    ensures p + (q + a + b + c) == (p + q) + a + b + c
  {
  }

  // ---------------------------------------------------------------------------
  // The complicated search

  /** The keys of the complicated search: the conjunction, then a word, a group, a phrase and a group under 0 to 3. */
  predicate ComplicatedShape(k: Value) {
    && k.Arr? && |k.entries| == 5
    && k.entries[0] == (StrKey("#conjunction"), Str("AND"))
    && k.entries[1].0 == IntKey(0) && k.entries[1].1.Str?
    && k.entries[2].0 == IntKey(1) && k.entries[2].1.Arr?
    && k.entries[3].0 == IntKey(2) && k.entries[3].1.Str?
    && k.entries[4].0 == IntKey(3) && k.entries[4].1.Arr?
  }

  /** Such keys give a collection of four elements, in key order. */
  lemma ComplicatedTree(k: Value, fuzziness: Option<string>)
    requires ComplicatedShape(k)
    ensures BuildSearchString(k, fuzziness) == Collection("AND", false, [
      Term(k.entries[1].1.s, TermFuzziness(fuzziness)), BuildSearchString(k.entries[2].1, fuzziness),
      Term(k.entries[3].1.s, TermFuzziness(fuzziness)), BuildSearchString(k.entries[4].1, fuzziness)])
  {
    ComplicatedElements(k, fuzziness);
    ComplicatedOptions(k);
  }

  /** Such keys select AND and are not negated. */
  lemma ComplicatedOptions(k: Value)
    requires ComplicatedShape(k)
    ensures Conjunction(k) == "AND" && Prop(k, "#negation") == Null
  {
    assert Conjunction(k) == "AND" by { GetAt(k.entries, 0); }
    assert !HasKey(k.entries, StrKey("#negation")) by {
      assert StrKey("#conjunction") != StrKey("#negation") by { assert "#conjunction"[1] != "#negation"[1]; }
      forall i | 0 <= i < |k.entries|
        ensures k.entries[i].0 != StrKey("#negation")
      {
      }
    }
  }

  lemma ComplicatedElements(k: Value, f: Option<string>)
    requires ComplicatedShape(k)
    ensures ElementsFrom(k, 0, f) == [
      Term(k.entries[1].1.s, TermFuzziness(f)), BuildSearchString(k.entries[2].1, f),
      Term(k.entries[3].1.s, TermFuzziness(f)), BuildSearchString(k.entries[4].1, f)]
  {
    var t1, q2 := Term(k.entries[1].1.s, TermFuzziness(f)), BuildSearchString(k.entries[2].1, f);
    var t3, q4 := Term(k.entries[3].1.s, TermFuzziness(f)), BuildSearchString(k.entries[4].1, f);
    var e := k.entries;
    assert ElementsFrom(k, 4, f) == [q4] by { GroupCons(k, 4, f); assert ElementsFrom(k, 5, f) == []; }
    assert ElementsFrom(k, 3, f) == [t3, q4] by { TermCons(k, 3, f); }
    assert ElementsFrom(k, 2, f) == [q2, t3, q4] by { GroupCons(k, 2, f); }
    assert ElementsFrom(k, 1, f) == [t1, q2, t3, q4] by { TermCons(k, 1, f); }
    assert ElementsFrom(k, 0, f) == ElementsFrom(k, 1, f) by { assert IsOptionKey(e[0].0); }
  }

  /** A string under an integer key is the next term of its group. */
  lemma TermCons(k: Value, i: nat, f: Option<string>)
    requires k.Arr? && i < |k.entries| && k.entries[i].0.IntKey? && k.entries[i].1.Str?
    ensures ElementsFrom(k, i, f) == [Term(k.entries[i].1.s, TermFuzziness(f))] + ElementsFrom(k, i + 1, f)
  {
  }

  /** An array under an integer key is the next group of its group. */
  lemma GroupCons(k: Value, i: nat, f: Option<string>)
    requires k.Arr? && i < |k.entries| && k.entries[i].0.IntKey? && k.entries[i].1.Arr?
    ensures ElementsFrom(k, i, f) == [BuildSearchString(k.entries[i].1, f)] + ElementsFrom(k, i + 1, f)
  {
  }

  /** The complicated search's tree renders its four parts joined by AND. */
  lemma ComplicatedRender(pos: string, neg: string, a: string, b: string, quoted: string, fuzziness: Option<string>)
    requires Word(pos) && Word(neg) && Phrase(quoted)
    requires Phrase(a) && Plain(b, false)
    ensures var f := TermFuzziness(fuzziness); var t := Tilde(fuzziness);
      Render(Collection("AND", false, [
        Term(pos, f), Collection("OR", true, [Term(neg, f)]), Term(a + "-" + b, f), Collection("OR", true, [Term(quoted, f)])]))
      == Group([pos + t, "-" + (neg + t), "\"" + a + "\\-" + b + "\"" + t, "-" + ("\"" + quoted + "\"" + t)], "AND")
  {
    var f := TermFuzziness(fuzziness);
    var t := Tilde(fuzziness);
    WordTerm(pos, fuzziness);
    WordTerm(neg, fuzziness);
    SingleElementCollapses("OR", Term(neg, f));
    DashTerm(a, b, fuzziness);
    PhraseTerm(quoted, fuzziness);
    SingleElementCollapses("OR", Term(quoted, f));
    var c := Collection("AND", false, [
      Term(pos, f), Collection("OR", true, [Term(neg, f)]), Term(a + "-" + b, f), Collection("OR", true, [Term(quoted, f)])]);
    var parts := [pos + t, "-" + (neg + t), "\"" + a + "\\-" + b + "\"" + t, "-" + ("\"" + quoted + "\"" + t)];
    RenderParts(c, parts);
  }

  /**
   * `['#conjunction' => 'AND', 'pos', ['#negation' => TRUE, 'neg'], 'quoted pos with -minus',
   * ['#negation' => TRUE, 'quoted neg']]`, no fuzziness:
   * `(pos AND -neg AND "quoted pos with \-minus" AND -"quoted neg")`.
   */
  lemma ComplicatedSearch(k: Value, pos: string, neg: string, a: string, b: string, quoted: string,
                          fuzziness: Option<string>)
    requires k == Arr([
      (StrKey("#conjunction"), Str("AND")),
      (IntKey(0), Str(pos)),
      (IntKey(1), Arr([(StrKey("#negation"), Bool(true)), (IntKey(0), Str(neg))])),
      (IntKey(2), Str(a + "-" + b)),
      (IntKey(3), Arr([(StrKey("#negation"), Bool(true)), (IntKey(0), Str(quoted))]))])
    requires Word(pos) && Word(neg) && Phrase(quoted)
    requires Phrase(a) && Plain(b, false)
    ensures var t := Tilde(fuzziness);
      Render(BuildSearchString(k, fuzziness))
      == Group([pos + t, "-" + (neg + t), "\"" + a + "\\-" + b + "\"" + t, "-" + ("\"" + quoted + "\"" + t)], "AND")
  {
    ComplicatedTree(k, fuzziness);
    NegatedGroupTree(k.entries[2].1, neg, fuzziness);
    NegatedGroupTree(k.entries[4].1, quoted, fuzziness);
    ComplicatedRender(pos, neg, a, b, quoted, fuzziness);
  }

  // ---------------------------------------------------------------------------
  // The nested search

  /** `['bang', '#negation' => TRUE]`: the option key may follow the term. */
  lemma TrailingNegationTree(bang: Value, b: string, fuzziness: Option<string>)
    requires bang == Arr([(IntKey(0), Str(b)), (StrKey("#negation"), Bool(true))])
    ensures BuildSearchString(bang, fuzziness) == Collection("OR", true, [Term(b, TermFuzziness(fuzziness))])
  {
    GetAt(bang.entries, 1);
    assert ElementsFrom(bang, 1, fuzziness) == [];
  }

  /** `['whiz', bang]`: an OR collection of the term and the group. */
  lemma WhizBangTree(keys: Value, w: string, bang: Value, fuzziness: Option<string>)
    requires keys == Arr([(IntKey(0), Str(w)), (IntKey(1), bang)]) && bang.Arr?
    ensures BuildSearchString(keys, fuzziness)
         == Collection("OR", false, [Term(w, TermFuzziness(fuzziness)), BuildSearchString(bang, fuzziness)])
  {
    assert ElementsFrom(keys, 1, fuzziness) == [BuildSearchString(bang, fuzziness)];
  }

  /** A group `['keys' => inner]` is a collection of the one group `inner`. */
  lemma OnlyChildTree(group: Value, inner: Value, fuzziness: Option<string>)
    requires group == Arr([(StrKey("keys"), inner)]) && inner.Arr?
    ensures BuildSearchString(group, fuzziness) == Collection("OR", false, [BuildSearchString(inner, fuzziness)])
  {
    assert !IsOptionKey(StrKey("keys"));
    assert ElementsFrom(group, 1, fuzziness) == [];
  }

  /** `['#conjunction' => 'AND', a, 'whizbang' => group]`: an AND collection of the term and the group. */
  lemma NestedTree(k: Value, a: string, group: Value, fuzziness: Option<string>)
    requires k == Arr([(StrKey("#conjunction"), Str("AND")), (IntKey(0), Str(a)), (StrKey("whizbang"), group)])
    requires group.Arr?
    ensures BuildSearchString(k, fuzziness)
         == Collection("AND", false, [Term(a, TermFuzziness(fuzziness)), BuildSearchString(group, fuzziness)])
  {
    GetAt(k.entries, 0);
    assert !HasKey(k.entries, StrKey("#negation"));
    assert !IsOptionKey(StrKey("whizbang"));
    assert ElementsFrom(k, 3, fuzziness) == [];
    assert ElementsFrom(k, 2, fuzziness) == [BuildSearchString(group, fuzziness)];
    assert ElementsFrom(k, 1, fuzziness) == [Term(a, TermFuzziness(fuzziness)), BuildSearchString(group, fuzziness)];
  }

  /** The nested search's tree: the one-child group collapses into the inner OR group. */
  lemma NestedRender(a: string, w: string, b: string, fuzziness: Option<string>)
    requires Word(a) && Word(w) && Word(b)
    ensures var f := TermFuzziness(fuzziness); var t := Tilde(fuzziness);
      Render(Collection("AND", false, [Term(a, f),
        Collection("OR", false, [Collection("OR", false, [Term(w, f), Collection("OR", true, [Term(b, f)])])])]))
      == Group([a + t, Group([w + t, "-" + (b + t)], "OR")], "AND")
  {
    var f := TermFuzziness(fuzziness);
    var t := Tilde(fuzziness);
    WordTerm(b, fuzziness);
    SingleElementCollapses("OR", Term(b, f));
    WordTerm(w, fuzziness);
    var whizBang := Collection("OR", false, [Term(w, f), Collection("OR", true, [Term(b, f)])]);
    RenderPair(whizBang, w + t, "-" + (b + t));
    SingleElementCollapses("OR", whizBang);
    WordTerm(a, fuzziness);
    RenderPair(Collection("AND", false, [Term(a, f), Collection("OR", false, [whizBang])]), a + t, Render(whizBang));
  }

  /**
   * `['#conjunction' => 'AND', 'foo', 'whizbang' => ['keys' => ['whiz', ['bang', '#negation' => TRUE]]]]`,
   * no fuzziness: `(foo AND (whiz OR -bang))`; the group `whizbang` of one child collapses.
   */
  lemma NestedSearch(k: Value, a: string, whizbang: Value, w: string, b: string, fuzziness: Option<string>)
    requires whizbang == Arr([(StrKey("keys"), Arr([
        (IntKey(0), Str(w)),
        (IntKey(1), Arr([(IntKey(0), Str(b)), (StrKey("#negation"), Bool(true))]))]))])
    requires k == Arr([(StrKey("#conjunction"), Str("AND")), (IntKey(0), Str(a)), (StrKey("whizbang"), whizbang)])
    requires Word(a) && Word(w) && Word(b)
    ensures var t := Tilde(fuzziness);
      Render(BuildSearchString(k, fuzziness)) == Group([a + t, Group([w + t, "-" + (b + t)], "OR")], "AND")
  {
    var keys := whizbang.entries[0].1;
    var bang := keys.entries[1].1;
    TrailingNegationTree(bang, b, fuzziness);
    WhizBangTree(keys, w, bang, fuzziness);
    OnlyChildTree(whizbang, keys, fuzziness);
    NestedTree(k, a, whizbang, fuzziness);
    NestedRender(a, w, b, fuzziness);
  }

  // ---------------------------------------------------------------------------
  // The tests' own strings meet the lemmas' premises

  lemma TestWords()
    ensures Word("foo") && Word("bar") && Word("whiz") && Word("bang") && Word("pos") && Word("neg")
  {
    LowerCasePlain("foo", true);
    LowerCasePlain("bar", true);
    LowerCasePlain("whiz", true);
    LowerCasePlain("bang", true);
    LowerCasePlain("pos", true);
    LowerCasePlain("neg", true);
  }

  lemma TestMultibyteWords()
    ensures Word("神奈川県") && Word("連携")
  {
  }

  /** Lower-case letters, with spaces when `words` is false, are plain text. */
  lemma {:induction false} LowerCasePlain(s: string, words: bool)
    requires forall i :: 0 <= i < |s| ==> 'a' <= s[i] <= 'z' || (!words && s[i] == ' ')
    ensures Plain(s, words)
  {
    if s != [] {
      LowerCasePlain(s[1..], words);
    }
  }

  lemma PhraseOf(s: string, space: nat)
    requires forall i :: 0 <= i < |s| ==> 'a' <= s[i] <= 'z' || s[i] == ' '
    requires space < |s| && s[space] == ' '
    ensures Phrase(s)
  {
    LowerCasePlain(s, false);
    assert IsSpace(s[space]);
  }

  lemma TestPhraseCogito()
    ensures Phrase("cogito ergo sum")
  {
    PhraseOf("cogito ergo sum", 6);
  }

  lemma TestPhraseQuotedNeg()
    ensures Phrase("quoted neg")
  {
    PhraseOf("quoted neg", 6);
  }

  lemma TestDashFooBar()
    ensures Phrase("foo ") && Plain(" bar", false)
  {
    PhraseOf("foo ", 3);
    LowerCasePlain(" bar", false);
  }

  lemma TestDashMinus()
    ensures Phrase("quoted pos with ")
  {
    PhraseOf("quoted pos with ", 6);
  }

  lemma TestMinus()
    ensures Plain("minus", false)
  {
    LowerCasePlain("minus", false);
  }
  /**
   * `testBuildSearchParams`: keys `['bar']`, the requested field `foo` among the
   * index's full-text fields `foo`, `bar` and `baz`, a null boost and fuzziness
   * "auto" give `{query_string: {query: "bar~", fields: ["foo^"]}}`.
   */
  lemma BuildSearchParamsExample(fieldType: string)
    ensures
      var index := Index("foo", [], ["foo", "bar", "baz"]);
      var indexFields := [("foo", Field("foo", fieldType, Null, []))];
      && SelectedFields(index.fulltextFields, ["foo"]) == ["foo"]
      && HasKey(indexFields, "foo")
      && SearchParams(List([Str("bar")]), ["foo"], index, indexFields, Some("auto")) ==
        Assoc([("query_string", Assoc([("query", Str("bar~")), ("fields", List([Str("foo^")]))]))])
  {
    var index := Index("foo", [], ["foo", "bar", "baz"]);
    var indexFields := [("foo", Field("foo", fieldType, Null, []))];
    var keys := List([Str("bar")]);
    ExampleKeys(keys);
    ExampleSelected();
    assert indexFields[0].0 == "foo";
    ExampleFieldList(indexFields, fieldType);
  }

  lemma ExampleKeys(keys: Value)
    requires keys == List([Str("bar")])
    ensures KeysArray(keys) == keys && !Empty(keys)
    ensures !IsEmpty(BuildSearchString(keys, Some("auto")))
    ensures Render(BuildSearchString(keys, Some("auto"))) == "bar~"
  {
    assert keys == Arr([(IntKey(0), Str("bar"))]);
    assert Plain("bar", true);
    SingleWord(keys, "bar", Some("auto"));
    OneStringTree(keys, "bar", Some("auto"));
  }

  lemma ExampleSelected()
    ensures SelectedFields(["foo", "bar", "baz"], ["foo"]) == ["foo"]
  {
    assert SelectedFields(["baz"], ["foo"]) == [];
    assert ["foo", "bar", "baz"][1..] == ["bar", "baz"];
    assert ["bar", "baz"][1..] == ["baz"];
  }

  lemma ExampleFieldList(indexFields: seq<(string, Field)>, fieldType: string)
    requires indexFields == [("foo", Field("foo", fieldType, Null, []))]
    ensures
      var selected := ["foo"];
      seq(|selected|, i requires 0 <= i < |selected| => Str(BoostedField(Get(indexFields, selected[i]).value)))
        == [Str("foo^")]
  {
    assert Get(indexFields, "foo") == Some(Field("foo", fieldType, Null, []));
    assert "foo" + "^" + "" == "foo^";
    var selected := ["foo"];
    var fields := seq(|selected|, i requires 0 <= i < |selected| => Str(BoostedField(Get(indexFields, selected[i]).value)));
    assert fields[0] == Str("foo^");
  }
}
