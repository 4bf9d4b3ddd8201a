/**
 * The Search API objects the compilers read, as plain values: fields, the
 * index, and the condition tree of a query.
 */
module SearchApi {
  import opened Wrappers
  import opened Dict
  import opened Php

  /**
   * A Search API field.  Index fields are read for their type and boost, item
   * fields for their values.  `boost` is a float (or null) carried through.
   */
  datatype Field = Field(id: string, fieldType: string, boost: Value, values: seq<Value>)

  /** An index: its fields keyed by identifier, and the identifiers of its full-text fields. */
  datatype Index = Index(id: string, fields: seq<(string, Field)>, fulltextFields: seq<string>)

  /** What Search API guarantees of an index: unique keys, full-text fields among the fields. */
  predicate ValidIndex(index: Index) {
    && UniqueKeys(index.fields)
    && forall f :: f in index.fulltextFields ==> HasKey(index.fields, f)
  }

  /** The field `createField($index, $id, ['type' => $type])` returns: boost 1.0, no values. */
  function CreateField(id: string, fieldType: string): (f: Field)
    ensures f.id == id && f.fieldType == fieldType && f.values == []
  {
    Field(id, fieldType, Float("1"), [])
  }

  /** The "magic" fields every index has. */
  const SpecialFieldNames: seq<string> := ["search_api_id", "search_api_datasource", "search_api_language"]

  /** A condition `field operator value`; an operator that PHP finds empty counts as missing. */
  datatype Condition = Condition(field: string, value: Value, operator: string)

  /** A condition group: a conjunction ('AND' or 'OR'), a negation flag and ordered members. */
  datatype ConditionGroup = ConditionGroup(conjunction: string, negated: bool, members: seq<Member>)

  datatype Member = Leaf(condition: Condition) | Nested(group: ConditionGroup)

  /** `ConditionGroup::addCondition()`: append a condition. */
  function AddCondition(g: ConditionGroup, field: string, value: Value, operator: string): (g': ConditionGroup)
    ensures g'.conjunction == g.conjunction && g'.negated == g.negated
    ensures g'.members == g.members + [Leaf(Condition(field, value, operator))]
  {
    g.(members := g.members + [Leaf(Condition(field, value, operator))])
  }

  /**
   * A group whose Search API string form is empty: no members, or a single
   * member that is itself such a group.  (A condition always prints as a
   * non-empty string.)
   */
  predicate IsBlank(g: ConditionGroup) {
    || g.members == []
    || (|g.members| == 1 && g.members[0].Nested? && IsBlank(g.members[0].group))
  }

  /** The conditions of a group, depth first, in member order. */
  function Conditions(g: ConditionGroup): seq<Condition>
    decreases g, 1
  {
    ConditionsFrom(g, 0)
  }

  function ConditionsFrom(g: ConditionGroup, i: nat): seq<Condition>
    requires i <= |g.members|
    decreases g, 0, |g.members| - i
  {
    if i == |g.members| then []
    else
      (match g.members[i]
       case Leaf(c) => [c]
       case Nested(h) => Conditions(h))
      + ConditionsFrom(g, i + 1)
  }
}
