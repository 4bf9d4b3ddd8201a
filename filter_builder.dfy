/**
 * The filter compiler: a Search API condition tree becomes one Elasticsearch
 * clause built from `bool`, `term`, `terms`, `range` and `exists`.
 */
module FilterBuilder {
  import opened Wrappers
  import opened Dict
  import opened Php
  import opened SearchApi

  /** The exceptions the compiler throws (the `array_values` TypeError included). */
  datatype FilterError =
    | InvalidField(field: string)
    | UnspecifiedOperator(field: string)
    | InvalidNullCondition(field: string)
    | UndefinedOperator(operator: string, field: string)
    | NotAnArray(field: string)
    | UnknownConjunction(conjunction: string)

  /** Fields the backend answers for although they need not be index fields. */
  const BackendFields: set<string> := {"search_api_id", "search_api_language"}

  const Operators: set<string> := {"=", "IN", "NOT IN", "<>", ">", ">=", "<", "<=", "BETWEEN", "NOT BETWEEN"}

  function ExistsClause(field: string): Value {
    Assoc([("exists", Assoc([("field", Str(field))]))])
  }

  function MustNot(clause: Value): Value {
    Assoc([("bool", Assoc([("must_not", clause)]))])
  }

  /** `{kind: {field: arg}}`, the shape of `term`, `terms` and `range`. */
  function FieldClause(kind: string, field: string, arg: Value): Value {
    Assoc([(kind, Assoc([(field, arg)]))])
  }

  function RangeBody(from: Value, to: Value, lower: bool, upper: bool): Value {
    Assoc([("from", from), ("to", to), ("include_lower", Bool(lower)), ("include_upper", Bool(upper))])
  }

  function RangeClause(field: string, from: Value, to: Value, lower: bool, upper: bool): Value {
    FieldClause("range", field, RangeBody(from, to, lower, upper))
  }

  /** A BETWEEN bound as the source reads it: any PHP-empty bound (0 and "0" too) is dropped. */
  function BetweenBoundAsWritten(v: Value, i: int): Value {
    if !Empty(Offset(v, i)) then Offset(v, i) else Null
  }

  /** A BETWEEN bound read as intended: only a missing, null or "" bound is left open. */
  function BetweenBound(v: Value, i: int): (r: Value)
    ensures Offset(v, i) !in {Null, Str("")} ==> r == Offset(v, i)
    ensures Offset(v, i) in {Null, Str("")} ==> r == Null
  {
    var b := Offset(v, i);
    if b == Str("") then Null else b
  }

  /** The bound 0 of `BETWEEN [0, 10]` is lost as written, so the range admits negative values. */
  lemma BetweenZeroBoundDropped()
    ensures BetweenBoundAsWritten(List([Int(0), Int(10)]), 0) == Null
    ensures BetweenBound(List([Int(0), Int(10)]), 0) == Int(0)
  {
    var v := List([Int(0), Int(10)]);
    assert v.entries[0] == (IntKey(0), Int(0));
    assert Get(v.entries, IntKey(0)) == Some(Int(0));
  }

  /** The conditions the operator table accepts. */
  predicate Compilable(c: Condition) {
    if c.value == Null then c.operator == "=" || c.operator == "<>"
    else c.operator in Operators && (c.operator == "IN" || c.operator == "NOT IN" ==> c.value.Arr?)
  }

  /** `buildFilterTerm`: the clause for one condition. */
  function BuildFilterTerm(c: Condition): (r: Result<Value, FilterError>)
    ensures r.Success? <==> Compilable(c)
    ensures r.Success? ==> !Empty(r.value)
    ensures r.Failure? && c.value == Null ==> r.error == InvalidNullCondition(c.field)
    ensures r.Failure? && c.value != Null && c.operator !in Operators ==> r.error == UndefinedOperator(c.operator, c.field)
  {
    var f := c.field;
    var v := c.value;
    if v == Null then
      if c.operator == "<>" then Success(ExistsClause(f))
      else if c.operator == "=" then Success(MustNot(ExistsClause(f)))
      else Failure(InvalidNullCondition(f))
    else if c.operator == "=" then Success(FieldClause("term", f, v))
    else if c.operator == "IN" || c.operator == "NOT IN" then
      if !v.Arr? then Failure(NotAnArray(f))
      else
        var terms := FieldClause("terms", f, List(Values(v.entries)));
        Success(if c.operator == "IN" then terms else MustNot(terms))
    else if c.operator == "<>" then Success(MustNot(FieldClause("term", f, v)))
    else if c.operator == ">" then Success(RangeClause(f, v, Null, false, false))
    else if c.operator == ">=" then Success(RangeClause(f, v, Null, true, false))
    else if c.operator == "<" then Success(RangeClause(f, Null, v, false, false))
    else if c.operator == "<=" then Success(RangeClause(f, Null, v, false, true))
    else if c.operator == "BETWEEN" then
      Success(RangeClause(f, BetweenBound(v, 0), BetweenBound(v, 1), false, false))
    else if c.operator == "NOT BETWEEN" then
      Success(MustNot(RangeClause(f, BetweenBound(v, 0), BetweenBound(v, 1), false, false)))
    else Failure(UndefinedOperator(c.operator, f))
  }

  /** `wrapWithConjunction`: `{bool: {must: filters}}` for AND, `{bool: {should: filters}}` for OR. */
  function WrapWithConjunction(filters: seq<Value>, conjunction: string): (r: Result<Value, FilterError>)
    ensures r.Success? <==> conjunction == "AND" || conjunction == "OR"
    ensures r.Failure? ==> r.error == UnknownConjunction(conjunction)
    ensures r.Success? ==> !Empty(r.value)
  {
    if conjunction == "OR" then Success(Assoc([("bool", Assoc([("should", List(filters))]))]))
    else if conjunction == "AND" then Success(Assoc([("bool", Assoc([("must", List(filters))]))]))
    else Failure(UnknownConjunction(conjunction))
  }

  /** A condition on an index or backend field with a non-empty operator. */
  predicate Admissible(c: Condition, fields: seq<(string, Field)>) {
    (HasKey(fields, c.field) || c.field in BackendFields) && !Empty(Str(c.operator))
  }

  /** A boolean-typed index field has its value cast to bool before the term is built. */
  predicate IsBooleanField(fields: seq<(string, Field)>, id: string) {
    var f := Get(fields, id);
    f.Some? && f.value.fieldType == "boolean"
  }

  /** One `Condition` member of `buildFilters`: the field and operator checks, the cast, the term. */
  function CompileCondition(c: Condition, fields: seq<(string, Field)>): (r: Result<Value, FilterError>)
    ensures !Admissible(c, fields) ==> r.Failure?
    ensures !HasKey(fields, c.field) && c.field !in BackendFields ==> r == Failure(InvalidField(c.field))
    ensures (HasKey(fields, c.field) || c.field in BackendFields) && Empty(Str(c.operator)) ==> r == Failure(UnspecifiedOperator(c.field))
    ensures r.Success? ==> !Empty(r.value)
  {
    if !HasKey(fields, c.field) && c.field !in BackendFields then Failure(InvalidField(c.field))
    else if Empty(Str(c.operator)) then Failure(UnspecifiedOperator(c.field))
    else if IsBooleanField(fields, c.field) then BuildFilterTerm(c.(value := ToBool(c.value)))
    else BuildFilterTerm(c)
  }

  /**
   * `buildFilters`: a blank group gives `[]`; otherwise the members' non-empty
   * clauses are collected, and none gives null, one is returned as it is, and
   * two or more are wrapped with the group's conjunction.
   */
  function BuildFilters(g: ConditionGroup, fields: seq<(string, Field)>): (r: Result<Value, FilterError>)
    decreases g, 1
  {
    if IsBlank(g) then Success(Arr([]))
    else
      match CompileFrom(g, 0, fields)
      case Failure(e) => Failure(e)
      case Success(fs) =>
        if |fs| > 1 then WrapWithConjunction(fs, g.conjunction)
        else if |fs| == 1 then Success(fs[0])
        else Success(Null)
  }

  /** The clauses of members `i..` of `g`, empty nested results left out; the first error wins. */
  function CompileFrom(g: ConditionGroup, i: nat, fields: seq<(string, Field)>): (r: Result<seq<Value>, FilterError>)
    requires i <= |g.members|
    ensures r.Success? ==> forall f :: f in r.value ==> !Empty(f)
    decreases g, 0, |g.members| - i
  {
    if i == |g.members| then Success([])
    else
      var head := match g.members[i]
        case Leaf(c) => CompileCondition(c, fields)
        case Nested(h) => BuildFilters(h, fields);
      match head
      case Failure(e) => Failure(e)
      case Success(f) =>
        match CompileFrom(g, i + 1, fields)
        case Failure(e) => Failure(e)
        case Success(rest) => Success(if Empty(f) then rest else [f] + rest)
  }
}
