/**
 * The has-child clause in its two views: the plain `HasChildQuery` object and the
 * fluent `HasChildQueryDescriptor`, whose chained setters each overwrite one field.
 */
module HasChildQueries {
  import opened Wrappers
  import opened QueryContainers

  /**
   * One call of the descriptor's fluent interface. The selectors are the caller's
   * lambdas; each may return null (`None`).
   */
  datatype Setter =
    | SetQuery(querySelector: ContainedQuery -> Option<ContainedQuery>)
    | SetType(name: string)
    | SetScore(scoreType: Option<ChildScoreType>)
    | SetMinChildren(minChildren: Int32)
    | SetMaxChildren(maxChildren: Int32)
    | SetDefaultInnerHits
    | SetInnerHits(innerHitsSelector: InnerHitsRequest -> Option<InnerHitsRequest>)

  /** The value of one field, whichever field it is. */
  datatype FieldValue =
    | TypeValue(typeName: Option<TypeName>)
    | ScoreTypeValue(scoreType: Option<ChildScoreType>)
    | MinChildrenValue(minChildren: Option<Int32>)
    | MaxChildrenValue(maxChildren: Option<Int32>)
    | QueryValue(query: Option<ContainedQuery>)
    | InnerHitsValue(innerHits: Option<InnerHitsRequest>)

  function Get(v: HasChildClause, f: Field): FieldValue
  {
    match f
    case TypeField => TypeValue(v.typeName)
    case ScoreTypeField => ScoreTypeValue(v.scoreType)
    case MinChildrenField => MinChildrenValue(v.minChildren)
    case MaxChildrenField => MaxChildrenValue(v.maxChildren)
    case QueryField => QueryValue(v.query)
    case InnerHitsField => InnerHitsValue(v.innerHits)
  }

  /** The one field a setter writes. */
  function Touches(op: Setter): Field
  {
    match op
    case SetQuery(_) => QueryField
    case SetType(_) => TypeField
    case SetScore(_) => ScoreTypeField
    case SetMinChildren(_) => MinChildrenField
    case SetMaxChildren(_) => MaxChildrenField
    case SetDefaultInnerHits => InnerHitsField
    case SetInnerHits(_) => InnerHitsField
  }

  /**
   * The value a setter stores. It never depends on the clause's current state: a
   * query selector is applied to a fresh, empty sub-container and an inner-hits
   * selector to a fresh inner-hits builder, whatever the clause held before.
   */
  function Written(op: Setter): FieldValue
  {
    match op
    case SetQuery(sel) => QueryValue(sel(Empty))
    case SetType(name) => TypeValue(Some(TypeName(name)))
    case SetScore(s) => ScoreTypeValue(s)
    case SetMinChildren(n) => MinChildrenValue(Some(n))
    case SetMaxChildren(n) => MaxChildrenValue(Some(n))
    case SetDefaultInnerHits => InnerHitsValue(Some(DefaultInnerHits))
    case SetInnerHits(sel) => InnerHitsValue(sel(DefaultInnerHits))
  }

  /**
   * The effect of one setter on the clause: the touched field holds what the setter
   * writes, and every other field is unchanged. No cross-field check is made, so a
   * minimum above the maximum is stored as given.
   */
  function Apply(v: HasChildClause, op: Setter): (r: HasChildClause)
    ensures Get(r, Touches(op)) == Written(op)
    ensures forall f :: f != Touches(op) ==> Get(r, f) == Get(v, f)
  {
    match op
    case SetQuery(sel) => v.(query := sel(Empty))
    case SetType(name) => v.(typeName := Some(TypeName(name)))
    case SetScore(s) => v.(scoreType := s)
    case SetMinChildren(n) => v.(minChildren := Some(n))
    case SetMaxChildren(n) => v.(maxChildren := Some(n))
    case SetDefaultInnerHits => v.(innerHits := Some(DefaultInnerHits))
    case SetInnerHits(sel) => v.(innerHits := sel(DefaultInnerHits))
  }

  /**
   * A fluent chain of setters, applied left to right. The last call of a non-empty
   * chain always takes effect on the field it writes.
   */
  function ApplyAll(v: HasChildClause, ops: seq<Setter>): (r: HasChildClause)
    ensures ops != [] ==> Get(r, Touches(ops[|ops| - 1])) == Written(ops[|ops| - 1])
    decreases |ops|
  {
    if ops == [] then v else ApplyAll(Apply(v, ops[0]), ops[1..])
  }

  /** A field that no setter of the chain touches keeps its value. */
  lemma {:induction false} ChainKeepsUntouchedField(v: HasChildClause, ops: seq<Setter>, f: Field)
    requires forall j :: 0 <= j < |ops| ==> Touches(ops[j]) != f
    ensures Get(ApplyAll(v, ops), f) == Get(v, f)
    decreases |ops|
  {
    if ops != [] {
      ChainKeepsUntouchedField(Apply(v, ops[0]), ops[1..], f);
    }
  }

  /**
   * The last call wins: a setter that no later call on the same field follows
   * decides that field's final value, overwriting every earlier call outright.
   */
  lemma {:induction false} LastCallWins(v: HasChildClause, ops: seq<Setter>, i: int)
    requires 0 <= i < |ops|
    requires forall j :: i < j < |ops| ==> Touches(ops[j]) != Touches(ops[i])
    ensures Get(ApplyAll(v, ops), Touches(ops[i])) == Written(ops[i])
    decreases |ops|
  {
    if i == 0 {
      ChainKeepsUntouchedField(Apply(v, ops[0]), ops[1..], Touches(ops[0]));
    } else {
      LastCallWins(Apply(v, ops[0]), ops[1..], i - 1);
    }
  }

  /** Only a `Query` call can change whether the clause is conditionless. */
  lemma {:induction false} ChainWithoutQueryKeepsConditionless(v: HasChildClause, ops: seq<Setter>)
    requires forall j :: 0 <= j < |ops| ==> Touches(ops[j]) != QueryField
    ensures IsConditionless(ApplyAll(v, ops)) == IsConditionless(v)
  {
    ChainKeepsUntouchedField(v, ops, QueryField);
  }

  /** The plain has-child query object; its six properties are freely settable. */
  class HasChildQuery {
    var typeName: Option<TypeName>
    var scoreType: Option<ChildScoreType>
    var minChildren: Option<Int32>
    var maxChildren: Option<Int32>
    var query: Option<ContainedQuery>
    var innerHits: Option<InnerHitsRequest>

    constructor ()
      ensures Value() == HasChildClause(None, None, None, None, None, None)
    {
      typeName, scoreType, minChildren, maxChildren, query, innerHits := None, None, None, None, None, None;
    }

    function Value(): HasChildClause
      reads this
    {
      HasChildClause(typeName, scoreType, minChildren, maxChildren, query, innerHits)
    }

    /**
     * `IQuery.Conditionless`: the shared has-child rule on this object's fields, so
     * only the embedded query and the bottom of its chain of has-child clauses matter.
     */
    predicate Conditionless()
      reads this
      ensures Conditionless() <==> query.None? || LeafIsConditionless(Innermost(query.value))
    {
      IsConditionless(Value())
    }

    /** Puts this clause in the container's has-child slot, replacing what it held. */
    method WrapInContainer(c: QueryContainer)
      modifies c
      ensures c.contained == HasChild(Value())
      ensures c.IsConditionless() == Conditionless()
    {
      c.SetHasChild(Value());
    }
  }

  /**
   * The fluent view of the same clause. The type marker `T` of the source is
   * represented by the name derived from it, which the constructor receives.
   */
  class HasChildQueryDescriptor {
    var typeName: Option<TypeName>
    var scoreType: Option<ChildScoreType>
    var minChildren: Option<Int32>
    var maxChildren: Option<Int32>
    var query: Option<ContainedQuery>
    var innerHits: Option<InnerHitsRequest>

    /** The type defaults to the name derived from `T`; every other field is unset. */
    constructor (inferred: TypeName)
      ensures Value() == HasChildClause(Some(inferred), None, None, None, None, None)
      ensures Conditionless()
    {
      typeName := Some(inferred);
      scoreType, minChildren, maxChildren, query, innerHits := None, None, None, None, None;
    }

    function Value(): HasChildClause
      reads this
    {
      HasChildClause(typeName, scoreType, minChildren, maxChildren, query, innerHits)
    }

    /** `IQuery.Conditionless`: the same rule as the plain object's. */
    predicate Conditionless()
      reads this
      ensures Conditionless() <==> query.None? || LeafIsConditionless(Innermost(query.value))
    {
      IsConditionless(Value())
    }

    /**
     * `Assign` of the descriptor base class, which is not part of this model: it is
     * assumed to apply the update to this object in place and to return this object.
     */
    method Assign(update: HasChildClause -> HasChildClause) returns (self: HasChildQueryDescriptor)
      modifies this
      ensures self == this
      ensures Value() == update(old(Value()))
    {
      var v := update(Value());
      typeName, scoreType, minChildren, maxChildren, query, innerHits :=
        v.typeName, v.scoreType, v.minChildren, v.maxChildren, v.query, v.innerHits;
      self := this;
    }

    method Query(selector: ContainedQuery -> Option<ContainedQuery>) returns (self: HasChildQueryDescriptor)
      modifies this
      ensures self == this
      ensures Value() == Apply(old(Value()), SetQuery(selector))
      ensures query == selector(Empty)
    {
      self := Assign(v => Apply(v, SetQuery(selector)));
    }

    method Type(name: string) returns (self: HasChildQueryDescriptor)
      modifies this
      ensures self == this
      ensures Value() == Apply(old(Value()), SetType(name))
      ensures typeName == Some(TypeName(name))
    {
      self := Assign(v => Apply(v, SetType(name)));
    }

    method Score(scoreType: Option<ChildScoreType>) returns (self: HasChildQueryDescriptor)
      modifies this
      ensures self == this
      ensures Value() == Apply(old(Value()), SetScore(scoreType))
      ensures this.scoreType == scoreType
    {
      self := Assign(v => Apply(v, SetScore(scoreType)));
    }

    method MinChildren(n: Int32) returns (self: HasChildQueryDescriptor)
      modifies this
      ensures self == this
      ensures Value() == Apply(old(Value()), SetMinChildren(n))
      ensures minChildren == Some(n)
    {
      self := Assign(v => Apply(v, SetMinChildren(n)));
    }

    method MaxChildren(n: Int32) returns (self: HasChildQueryDescriptor)
      modifies this
      ensures self == this
      ensures Value() == Apply(old(Value()), SetMaxChildren(n))
      ensures maxChildren == Some(n)
    {
      self := Assign(v => Apply(v, SetMaxChildren(n)));
    }

    method InnerHits() returns (self: HasChildQueryDescriptor)
      modifies this
      ensures self == this
      ensures Value() == Apply(old(Value()), SetDefaultInnerHits)
      ensures innerHits == Some(DefaultInnerHits)
    {
      self := Assign(v => Apply(v, SetDefaultInnerHits));
    }

    method InnerHitsFrom(selector: InnerHitsRequest -> Option<InnerHitsRequest>) returns (self: HasChildQueryDescriptor)
      modifies this
      ensures self == this
      ensures Value() == Apply(old(Value()), SetInnerHits(selector))
      ensures innerHits == selector(DefaultInnerHits)
    {
      self := Assign(v => Apply(v, SetInnerHits(selector)));
    }
  }

  /** Equal field values give equal answers, whichever view holds them. */
  lemma SameRuleForBothViews(q: HasChildQuery, d: HasChildQueryDescriptor)
    requires q.Value() == d.Value()
    ensures q.Conditionless() == d.Conditionless()
  {
  }

  /**
   * A chain of fluent calls on one descriptor object produces the clause that the
   * fold `ApplyAll` describes. The second `Type` call overrides the first and the
   * constructor's default, and a minimum above the maximum is stored as given.
   */
  method DescriptorChain(inferred: TypeName, selector: ContainedQuery -> Option<ContainedQuery>)
    returns (v: HasChildClause)
    ensures v == ApplyAll(HasChildClause(Some(inferred), None, None, None, None, None),
                          [SetType("a"), SetMinChildren(5), SetMaxChildren(2), SetType("b"), SetQuery(selector)])
    ensures v.typeName == Some(TypeName("b"))
    ensures v.minChildren == Some(5) && v.maxChildren == Some(2)
    ensures v.query == selector(Empty)
  {
    var d := new HasChildQueryDescriptor(inferred);
    ghost var ops := [SetType("a"), SetMinChildren(5), SetMaxChildren(2), SetType("b"), SetQuery(selector)];
    ghost var v0 := d.Value();
    var self := d.Type("a");
    assert ApplyAll(v0, ops) == ApplyAll(d.Value(), ops[1..]);
    self := self.MinChildren(5);
    assert ApplyAll(v0, ops) == ApplyAll(d.Value(), ops[2..]) by { assert ops[1..][1..] == ops[2..]; }
    self := self.MaxChildren(2);
    assert ApplyAll(v0, ops) == ApplyAll(d.Value(), ops[3..]) by { assert ops[2..][1..] == ops[3..]; }
    self := self.Type("b");
    assert ApplyAll(v0, ops) == ApplyAll(d.Value(), ops[4..]) by { assert ops[3..][1..] == ops[4..]; }
    self := self.Query(selector);
    assert ApplyAll(v0, ops) == ApplyAll(d.Value(), ops[5..]) by { assert ops[4..][1..] == ops[5..]; }
    v := d.Value();
  }
}
