/**
 * What the filter compiler guarantees: a decoder that reads every clause back
 * into its condition, the group tie-breaks, error propagation through the
 * tree, and the irrelevance of group negation.
 */
module FilterBuilderProofs {
  import opened Wrappers
  import opened Dict
  import opened Php
  import opened SearchApi
  import opened FilterBuilder

  // ---------------------------------------------------------------------------
  // Reading a clause back

  /** The single string-keyed entry of a one-entry array. */
  function Only(v: Value): (r: Option<(string, Value)>)
    ensures r.Some? ==> v == Assoc([r.value])
  {
    if v.Arr? && |v.entries| == 1 && v.entries[0].0.StrKey? then
      assert v.entries == Assoc([(v.entries[0].0.s, v.entries[0].1)]).entries;
      Some((v.entries[0].0.s, v.entries[0].1))
    else None
  }

  lemma OnlyAssoc(k: string, x: Value)
    ensures Only(Assoc([(k, x)])) == Some((k, x))
  {
  }

  /** A `range` body read back into the condition it came from. */
  function DecodeRange(field: string, body: Value): Option<Condition> {
    var a := Prop(body, "from");
    var b := Prop(body, "to");
    var l := Prop(body, "include_lower");
    var u := Prop(body, "include_upper");
    if !(l.Bool? && u.Bool?) || body != RangeBody(a, b, l.b, u.b) then None
    else if a != Null && b == Null && !u.b then Some(Condition(field, a, if l.b then ">=" else ">"))
    else if a == Null && b != Null && !l.b then Some(Condition(field, b, if u.b then "<=" else "<"))
    else if a !in {Null, Str("")} && b !in {Null, Str("")} && !l.b && !u.b then
      Some(Condition(field, List([a, b]), "BETWEEN"))
    else None
  }

  /** `exists`, `term`, `terms` and `range` clauses read back. */
  function DecodePositive(t: Value): Option<Condition> {
    match Only(t)
    case None => None
    case Some(p) =>
      match Only(p.1)
      case None => None
      case Some(q) =>
        if p.0 == "exists" then (if q.0 == "field" && q.1.Str? then Some(Condition(q.1.s, Null, "<>")) else None)
        else if p.0 == "term" then (if q.1 != Null then Some(Condition(q.0, q.1, "=")) else None)
        else if p.0 == "terms" then (if IsList(q.1) then Some(Condition(q.0, q.1, "IN")) else None)
        else if p.0 == "range" then DecodeRange(q.0, q.1)
        else None
  }

  /** The operator a `must_not` wrapper turns a positive condition into. */
  function Negate(c: Condition): Option<Condition> {
    if c.operator == "<>" && c.value == Null then Some(c.(operator := "="))
    else if c.operator == "=" then Some(c.(operator := "<>"))
    else if c.operator == "IN" then Some(c.(operator := "NOT IN"))
    else if c.operator == "BETWEEN" then Some(c.(operator := "NOT BETWEEN"))
    else None
  }

  /** An independent reading of a compiled clause: which condition does it test? */
  function DecodeClause(t: Value): Option<Condition> {
    match Only(t)
    case None => None
    case Some(p) =>
      if p.0 == "bool" then
        match Only(p.1)
        case None => None
        case Some(q) =>
          if q.0 == "must_not" then
            match DecodePositive(q.1)
            case None => None
            case Some(c) => Negate(c)
          else None
      else DecodePositive(t)
  }

  /** A condition in the one form each clause has: lists for IN, two set bounds for BETWEEN. */
  predicate Canonical(c: Condition) {
    if c.value == Null then c.operator == "=" || c.operator == "<>"
    else if c.operator in {"=", "<>", ">", ">=", "<", "<="} then true
    else if c.operator in {"IN", "NOT IN"} then IsList(c.value)
    else if c.operator in {"BETWEEN", "NOT BETWEEN"} then
      && IsList(c.value) && |c.value.entries| == 2
      && c.value.entries[0].1 !in {Null, Str("")} && c.value.entries[1].1 !in {Null, Str("")}
    else false
  }

  lemma ValuesOfList(v: Value)
    requires IsList(v)
    ensures List(Values(v.entries)) == v
  {
    assert List(Values(v.entries)).entries == v.entries;
  }

  lemma ListOffsets(a: Value, b: Value)
    ensures Offset(List([a, b]), 0) == a && Offset(List([a, b]), 1) == b
  {
    var es := List([a, b]).entries;
    assert es[0] == (IntKey(0), a) && es[1] == (IntKey(1), b);
    assert Get(es, IntKey(0)) == Some(a);
    assert Get(es[1..], IntKey(1)) == Some(b);
  }

  lemma DecodeRangeBody(f: string, a: Value, b: Value, l: bool, u: bool)
    ensures DecodeRange(f, RangeBody(a, b, l, u)) ==
      if a != Null && b == Null && !u then Some(Condition(f, a, if l then ">=" else ">"))
      else if a == Null && b != Null && !l then Some(Condition(f, b, if u then "<=" else "<"))
      else if a !in {Null, Str("")} && b !in {Null, Str("")} && !l && !u then Some(Condition(f, List([a, b]), "BETWEEN"))
      else None
  {
    RangeBodyProps(a, b, l, u);
  }

  /** Each of the four keys of a range body reads back as written. */
  lemma RangeBodyProps(a: Value, b: Value, l: bool, u: bool)
    ensures Prop(RangeBody(a, b, l, u), "from") == a
    ensures Prop(RangeBody(a, b, l, u), "to") == b
    ensures Prop(RangeBody(a, b, l, u), "include_lower") == Bool(l)
    ensures Prop(RangeBody(a, b, l, u), "include_upper") == Bool(u)
  {
    var es := [("from", a), ("to", b), ("include_lower", Bool(l)), ("include_upper", Bool(u))];
    assert RangeBody(a, b, l, u) == Assoc(es);
    assert Prop(Assoc(es), "from") == a by { PropAssoc(es, 0); }
    assert Prop(Assoc(es), "to") == b by { PropAssoc(es, 1); }
    assert Prop(Assoc(es), "include_lower") == Bool(l) by { PropAssoc(es, 2); }
    assert Prop(Assoc(es), "include_upper") == Bool(u) by { PropAssoc(es, 3); }
  }

  lemma DecodeFieldClause(kind: string, f: string, arg: Value)
    requires kind != "bool"
    ensures DecodeClause(FieldClause(kind, f, arg)) == DecodePositive(FieldClause(kind, f, arg))
    ensures DecodePositive(FieldClause(kind, f, arg)) ==
      if kind == "exists" then (if f == "field" && arg.Str? then Some(Condition(arg.s, Null, "<>")) else None)
      else if kind == "term" then (if arg != Null then Some(Condition(f, arg, "=")) else None)
      else if kind == "terms" then (if IsList(arg) then Some(Condition(f, arg, "IN")) else None)
      else if kind == "range" then DecodeRange(f, arg)
      else None
  {
    OnlyAssoc(kind, Assoc([(f, arg)]));
    OnlyAssoc(f, arg);
  }

  lemma DecodeMustNot(x: Value)
    ensures DecodeClause(MustNot(x)) == if DecodePositive(x).Some? then Negate(DecodePositive(x).value) else None
  {
    OnlyAssoc("bool", Assoc([("must_not", x)]));
    OnlyAssoc("must_not", x);
  }

  /** The clause of a canonical condition, case by case. */
  lemma BuildNullTerm(c: Condition)
    requires c.value == Null && (c.operator == "=" || c.operator == "<>")
    ensures BuildFilterTerm(c) == Success(if c.operator == "<>" then ExistsClause(c.field) else MustNot(ExistsClause(c.field)))
  {
  }

  lemma BuildListTerm(c: Condition)
    requires c.value != Null && IsList(c.value) && (c.operator == "IN" || c.operator == "NOT IN")
    ensures var terms := FieldClause("terms", c.field, c.value);
      BuildFilterTerm(c) == Success(if c.operator == "IN" then terms else MustNot(terms))
  {
    ValuesOfList(c.value);
  }

  lemma BuildScalarTerm(c: Condition)
    requires c.value != Null && (c.operator == "=" || c.operator == "<>")
    ensures var term := FieldClause("term", c.field, c.value);
      BuildFilterTerm(c) == Success(if c.operator == "=" then term else MustNot(term))
  {
  }

  lemma BuildComparison(c: Condition)
    requires c.value != Null && c.operator in {">", ">=", "<", "<="}
    ensures var lower := c.operator in {">", ">="};
      BuildFilterTerm(c) == Success(RangeClause(c.field, if lower then c.value else Null,
        if lower then Null else c.value, c.operator == ">=", c.operator == "<="))
  {
  }

  lemma BuildBetween(c: Condition, a: Value, b: Value)
    requires c.value == List([a, b]) && a !in {Null, Str("")} && b !in {Null, Str("")}
    requires c.operator == "BETWEEN" || c.operator == "NOT BETWEEN"
    ensures var range := RangeClause(c.field, a, b, false, false);
      BuildFilterTerm(c) == Success(if c.operator == "BETWEEN" then range else MustNot(range))
  {
    ListOffsets(a, b);
  }

  /** Every canonical condition compiles, and the clause reads back as that very condition. */
  lemma DecodeBuildFilterTerm(c: Condition)
    requires Canonical(c)
    ensures BuildFilterTerm(c).Success?
    ensures DecodeClause(BuildFilterTerm(c).value) == Some(c)
  {
    var f := c.field;
    if c.value == Null {
      BuildNullTerm(c);
      DecodeFieldClause("exists", "field", Str(f));
      DecodeMustNot(ExistsClause(f));
    } else if c.operator in {"IN", "NOT IN"} {
      BuildListTerm(c);
      DecodeFieldClause("terms", f, c.value);
      DecodeMustNot(FieldClause("terms", f, c.value));
    } else if c.operator in {"=", "<>"} {
      BuildScalarTerm(c);
      DecodeFieldClause("term", f, c.value);
      DecodeMustNot(FieldClause("term", f, c.value));
    } else if c.operator in {">", ">=", "<", "<="} {
      BuildComparison(c);
      var lower := c.operator in {">", ">="};
      var from, to := if lower then c.value else Null, if lower then Null else c.value;
      DecodeFieldClause("range", f, RangeBody(from, to, c.operator == ">=", c.operator == "<="));
      DecodeRangeBody(f, from, to, c.operator == ">=", c.operator == "<=");
    } else {
      var a, b := c.value.entries[0].1, c.value.entries[1].1;
      assert c.value.entries == List([a, b]).entries;
      BuildBetween(c, a, b);
      var body := RangeBody(a, b, false, false);
      DecodeFieldClause("range", f, body);
      DecodeRangeBody(f, a, b, false, false);
      DecodeMustNot(FieldClause("range", f, body));
    }
  }

  /** A positive clause that decodes is what its condition compiles to. */
  lemma BuildPositiveDecoded(t: Value)
    requires DecodePositive(t).Some?
    ensures Canonical(DecodePositive(t).value)
    ensures BuildFilterTerm(DecodePositive(t).value) == Success(t)
  {
    var c := DecodePositive(t).value;
    var p := Only(t).value;
    var q := Only(p.1).value;
    assert t == FieldClause(p.0, q.0, q.1);
    if p.0 == "exists" {
      BuildNullTerm(c);
    } else if p.0 == "term" {
      BuildScalarTerm(c);
    } else if p.0 == "terms" {
      BuildListTerm(c);
    } else {
      assert c == DecodeRange(q.0, q.1).value;
      BuildRangeDecoded(q.0, q.1);
    }
  }

  /** A range clause that decodes is what its comparison or BETWEEN condition compiles to. */
  lemma BuildRangeDecoded(f: string, body: Value)
    requires DecodeRange(f, body).Some?
    ensures Canonical(DecodeRange(f, body).value)
    ensures BuildFilterTerm(DecodeRange(f, body).value) == Success(FieldClause("range", f, body))
  {
    var c := DecodeRange(f, body).value;
    var a, b := Prop(body, "from"), Prop(body, "to");
    var l, u := Prop(body, "include_lower"), Prop(body, "include_upper");
    assert body == RangeBody(a, b, l.b, u.b);
    DecodeRangeBody(f, a, b, l.b, u.b);
    if c.operator == "BETWEEN" {
      assert c.value.entries[0].1 == a && c.value.entries[1].1 == b;
      BuildBetween(c, a, b);
    } else {
      BuildComparison(c);
    }
  }

  /** Conversely, whatever clause decodes to a condition is exactly what that condition compiles to. */
  lemma BuildFilterTermDecoded(t: Value)
    requires DecodeClause(t).Some?
    ensures Canonical(DecodeClause(t).value)
    ensures BuildFilterTerm(DecodeClause(t).value) == Success(t)
  {
    var p := Only(t).value;
    if p.0 == "bool" {
      var q := Only(p.1).value;
      assert t == MustNot(q.1);
      BuildPositiveDecoded(q.1);
      var c := DecodePositive(q.1).value;
      var n := Negate(c).value;
      if c.value == Null {
        BuildNullTerm(n);
      } else if c.operator == "=" {
        BuildScalarTerm(n);
      } else if c.operator == "IN" {
        BuildListTerm(n);
      } else {
        var a, b := c.value.entries[0].1, c.value.entries[1].1;
        assert c.value.entries == List([a, b]).entries;
        BuildBetween(c, a, b);
        BuildBetween(n, a, b);
      }
    } else {
      BuildPositiveDecoded(t);
    }
  }

  // ---------------------------------------------------------------------------
  // Groups

  /** A group with no conditions anywhere compiles to no filter: `[]` when blank, otherwise null. */
  lemma {:induction false} NoConditionsNoFilter(g: ConditionGroup, fields: seq<(string, Field)>)
    requires Conditions(g) == []
    ensures BuildFilters(g, fields) == Success(if IsBlank(g) then Arr([]) else Null)
    decreases g, 1
  {
    if !IsBlank(g) {
      NoConditionsFromNoClauses(g, 0, fields);
    }
  }

  lemma {:induction false} NoConditionsFromNoClauses(g: ConditionGroup, i: nat, fields: seq<(string, Field)>)
    requires i <= |g.members| && ConditionsFrom(g, i) == []
    ensures CompileFrom(g, i, fields) == Success([])
    decreases g, 0, |g.members| - i
  {
    if i < |g.members| {
      match g.members[i]
      case Leaf(c) =>
        assert false;
      case Nested(h) =>
        NoConditionsNoFilter(h, fields);
      NoConditionsFromNoClauses(g, i + 1, fields);
    }
  }

  lemma {:induction false} BlankHasNoConditions(g: ConditionGroup)
    requires IsBlank(g)
    ensures Conditions(g) == []
  {
    if g.members != [] {
      BlankHasNoConditions(g.members[0].group);
      assert ConditionsFrom(g, 1) == [];
    }
  }

  /** A compiled group is a real clause exactly when the tree holds a condition. */
  lemma {:induction false} FilterIffConditions(g: ConditionGroup, fields: seq<(string, Field)>)
    requires BuildFilters(g, fields).Success?
    ensures Empty(BuildFilters(g, fields).value) <==> Conditions(g) == []
    decreases g, 1
  {
    if IsBlank(g) {
      BlankHasNoConditions(g);
    } else {
      ClausesIffConditions(g, 0, fields);
    }
  }

  lemma {:induction false} ClausesIffConditions(g: ConditionGroup, i: nat, fields: seq<(string, Field)>)
    requires i <= |g.members| && CompileFrom(g, i, fields).Success?
    ensures CompileFrom(g, i, fields).value == [] <==> ConditionsFrom(g, i) == []
    decreases g, 0, |g.members| - i
  {
    if i < |g.members| {
      ClausesIffConditions(g, i + 1, fields);
      match g.members[i]
      case Leaf(c) =>
      case Nested(h) =>
        FilterIffConditions(h, fields);
    }
  }

  /** A successful compile means every condition of the tree compiled on its own. */
  lemma {:induction false} SuccessCompilesEveryCondition(g: ConditionGroup, fields: seq<(string, Field)>, c: Condition)
    requires BuildFilters(g, fields).Success? && c in Conditions(g)
    ensures CompileCondition(c, fields).Success?
    decreases g, 1
  {
    if IsBlank(g) {
      BlankHasNoConditions(g);
    } else {
      SuccessFromCompilesEveryCondition(g, 0, fields, c);
    }
  }

  lemma {:induction false} SuccessFromCompilesEveryCondition(g: ConditionGroup, i: nat, fields: seq<(string, Field)>, c: Condition)
    requires i <= |g.members| && CompileFrom(g, i, fields).Success? && c in ConditionsFrom(g, i)
    ensures CompileCondition(c, fields).Success?
    decreases g, 0, |g.members| - i
  {
    match g.members[i]
    case Leaf(d) =>
      if c != d {
        SuccessFromCompilesEveryCondition(g, i + 1, fields, c);
      }
    case Nested(h) =>
      if c in Conditions(h) {
        SuccessCompilesEveryCondition(h, fields, c);
      } else {
        SuccessFromCompilesEveryCondition(g, i + 1, fields, c);
      }
  }

  /** One condition on an unknown field, or without operator, anywhere in the tree fails the compile. */
  lemma InadmissibleConditionFails(g: ConditionGroup, fields: seq<(string, Field)>, c: Condition)
    requires c in Conditions(g) && !Admissible(c, fields)
    ensures BuildFilters(g, fields).Failure?
  {
    if BuildFilters(g, fields).Success? {
      SuccessCompilesEveryCondition(g, fields, c);
    }
  }

  /** The group with every negation flag cleared, at every depth. */
  function ClearNegation(g: ConditionGroup): (r: ConditionGroup)
    ensures !r.negated && r.conjunction == g.conjunction && |r.members| == |g.members|
    ensures forall i :: 0 <= i < |g.members| ==> r.members[i].Leaf? == g.members[i].Leaf?
    decreases g
  {
    ConditionGroup(g.conjunction, false, seq(|g.members|, i requires 0 <= i < |g.members| =>
      match g.members[i]
      case Leaf(c) => Leaf(c)
      case Nested(h) => Nested(ClearNegation(h))))
  }

  lemma {:induction false} ClearNegationBlank(g: ConditionGroup)
    ensures IsBlank(ClearNegation(g)) == IsBlank(g)
  {
    if |g.members| == 1 && g.members[0].Nested? {
      ClearNegationBlank(g.members[0].group);
    }
  }

  /** Negation is never read: a negated group compiles exactly like its un-negated copy. */
  lemma {:induction false} NegationIgnored(g: ConditionGroup, fields: seq<(string, Field)>)
    ensures BuildFilters(ClearNegation(g), fields) == BuildFilters(g, fields)
    decreases g, 1
  {
    ClearNegationBlank(g);
    NegationIgnoredFrom(g, 0, fields);
  }

  lemma {:induction false} NegationIgnoredFrom(g: ConditionGroup, i: nat, fields: seq<(string, Field)>)
    requires i <= |g.members|
    ensures CompileFrom(ClearNegation(g), i, fields) == CompileFrom(g, i, fields)
    decreases g, 0, |g.members| - i
  {
    if i < |g.members| {
      NegationIgnoredFrom(g, i + 1, fields);
      match g.members[i]
      case Leaf(c) =>
      case Nested(h) =>
        NegationIgnored(h, fields);
    }
  }

  /** The clauses of a group of leaves are the leaves' clauses, in member order. */
  lemma {:induction false} LeavesCompileInOrder(g: ConditionGroup, i: nat, fields: seq<(string, Field)>, ts: seq<Value>)
    requires i <= |g.members| == |ts|
    requires forall j :: 0 <= j < |g.members| ==> g.members[j].Leaf? && CompileCondition(g.members[j].condition, fields) == Success(ts[j])
    ensures CompileFrom(g, i, fields) == Success(ts[i..])
    decreases |g.members| - i
  {
    if i < |g.members| {
      LeavesCompileInOrder(g, i + 1, fields, ts);
      assert ts[i..] == [ts[i]] + ts[i + 1..];
    }
  }

  /**
   * A group of compiling leaves: one leaf is returned verbatim whatever the
   * conjunction; two or more are wrapped, in order, by the conjunction.
   */
  lemma LeafGroup(g: ConditionGroup, fields: seq<(string, Field)>, ts: seq<Value>)
    requires |g.members| == |ts| >= 1
    requires forall j :: 0 <= j < |g.members| ==> g.members[j].Leaf? && CompileCondition(g.members[j].condition, fields) == Success(ts[j])
    ensures |ts| == 1 ==> BuildFilters(g, fields) == Success(ts[0])
    ensures |ts| > 1 ==> BuildFilters(g, fields) == WrapWithConjunction(ts, g.conjunction)
  {
    LeavesCompileInOrder(g, 0, fields, ts);
    assert ts[0..] == ts;
  }

  /** A boolean field casts: null tested with `=` becomes the term `false`, not a must-not-exist. */
  lemma BooleanFieldCast(fields: seq<(string, Field)>, f: string)
    requires IsBooleanField(fields, f)
    ensures CompileCondition(Condition(f, Null, "="), fields) == Success(FieldClause("term", f, Bool(false)))
    ensures CompileCondition(Condition(f, Str("0"), "="), fields) == Success(FieldClause("term", f, Bool(false)))
    ensures CompileCondition(Condition(f, Str("yes"), "="), fields) == Success(FieldClause("term", f, Bool(true)))
  {
  }

  // ---------------------------------------------------------------------------
  // The unit-test examples

  lemma TwoConditionsWrappedInMust()
    ensures
      var g := AddCondition(AddCondition(ConditionGroup("AND", false, []), "foo", Str("bar"), "="), "whiz", Str("bang"), "=");
      var fields := [("foo", Field("foo", "", Null, [])), ("whiz", Field("whiz", "", Null, []))];
      BuildFilters(g, fields) == Success(Assoc([("bool", Assoc([("must", List([
        FieldClause("term", "foo", Str("bar")), FieldClause("term", "whiz", Str("bang"))]))]))]))
  {
    var g := AddCondition(AddCondition(ConditionGroup("AND", false, []), "foo", Str("bar"), "="), "whiz", Str("bang"), "=");
    var fields := [("foo", Field("foo", "", Null, [])), ("whiz", Field("whiz", "", Null, []))];
    assert HasKey(fields, "foo") by { assert fields[0].0 == "foo"; }
    assert HasKey(fields, "whiz") by { assert fields[1].0 == "whiz"; }
    LeafGroup(g, fields, [FieldClause("term", "foo", Str("bar")), FieldClause("term", "whiz", Str("bang"))]);
  }

  /** The provider's rows for null values, `=` and `<>`. */
  lemma EqualityExamples()
    ensures BuildFilterTerm(Condition("foo", Null, "<>")) == Success(Assoc([("exists", Assoc([("field", Str("foo"))]))]))
    ensures BuildFilterTerm(Condition("foo", Null, "=")) ==
      Success(Assoc([("bool", Assoc([("must_not", Assoc([("exists", Assoc([("field", Str("foo"))]))]))]))]))
    ensures BuildFilterTerm(Condition("foo", Str("bar"), "=")) == Success(FieldClause("term", "foo", Str("bar")))
    ensures BuildFilterTerm(Condition("foo", Str("bar"), "<>")) == Success(MustNot(FieldClause("term", "foo", Str("bar"))))
  {
    BuildNullTerm(Condition("foo", Null, "<>"));
    BuildNullTerm(Condition("foo", Null, "="));
    BuildScalarTerm(Condition("foo", Str("bar"), "="));
    BuildScalarTerm(Condition("foo", Str("bar"), "<>"));
  }

  /** The provider's rows for `IN`, `NOT IN`, `BETWEEN` and `NOT BETWEEN`. */
  lemma ListExamples()
    ensures BuildFilterTerm(Condition("foo", List([Str("bar"), Str("whiz")]), "IN")) ==
      Success(FieldClause("terms", "foo", List([Str("bar"), Str("whiz")])))
    ensures BuildFilterTerm(Condition("foo", List([Str("bar"), Str("whiz")]), "NOT IN")) ==
      Success(MustNot(FieldClause("terms", "foo", List([Str("bar"), Str("whiz")]))))
    ensures BuildFilterTerm(Condition("foo", List([Int(1), Int(10)]), "BETWEEN")) ==
      Success(RangeClause("foo", Int(1), Int(10), false, false))
    ensures BuildFilterTerm(Condition("foo", List([Int(1), Int(10)]), "NOT BETWEEN")) ==
      Success(MustNot(RangeClause("foo", Int(1), Int(10), false, false)))
  {
    var list := List([Str("bar"), Str("whiz")]);
    BuildListTerm(Condition("foo", list, "IN"));
    BuildListTerm(Condition("foo", list, "NOT IN"));
    BuildBetween(Condition("foo", List([Int(1), Int(10)]), "BETWEEN"), Int(1), Int(10));
    BuildBetween(Condition("foo", List([Int(1), Int(10)]), "NOT BETWEEN"), Int(1), Int(10));
  }

  /** The provider's rows for the comparisons, an unknown operator and a null compared. */
  lemma ComparisonExamples()
    ensures BuildFilterTerm(Condition("foo", Str("bar"), ">")) == Success(RangeClause("foo", Str("bar"), Null, false, false))
    ensures BuildFilterTerm(Condition("foo", Str("bar"), ">=")) == Success(RangeClause("foo", Str("bar"), Null, true, false))
    ensures BuildFilterTerm(Condition("foo", Str("bar"), "<")) == Success(RangeClause("foo", Null, Str("bar"), false, false))
    ensures BuildFilterTerm(Condition("foo", Str("bar"), "<=")) == Success(RangeClause("foo", Null, Str("bar"), false, true))
    ensures BuildFilterTerm(Condition("foo", Str("bar"), "LIKE")) == Failure(UndefinedOperator("LIKE", "foo"))
    ensures BuildFilterTerm(Condition("foo", Null, ">")) == Failure(InvalidNullCondition("foo"))
  {
    BuildComparison(Condition("foo", Str("bar"), ">"));
    BuildComparison(Condition("foo", Str("bar"), ">="));
    BuildComparison(Condition("foo", Str("bar"), "<"));
    BuildComparison(Condition("foo", Str("bar"), "<="));
  }

  /** Both BETWEEN bounds are kept, whatever they are, unless missing, null or "". */
  lemma BetweenKeepsBounds(f: string, a: Value, b: Value)
    requires a !in {Null, Str("")} && b !in {Null, Str("")}
    ensures BuildFilterTerm(Condition(f, List([a, b]), "BETWEEN")) == Success(RangeClause(f, a, b, false, false))
    ensures BuildFilterTerm(Condition(f, List([a]), "BETWEEN")) == Success(RangeClause(f, a, Null, false, false))
  {
    ListOffsets(a, b);
    var one := List([a]).entries;
    assert one[0] == (IntKey(0), a);
    assert Get(one, IntKey(0)) == Some(a);
    assert !HasKey(one, IntKey(1));
  }
}
