/**
 * The values a has-child clause is built from, the query container that holds one
 * clause variant at a time, and the "conditionless" rule of the has-child clause.
 */
module QueryContainers {
  import opened Wrappers

  /** A document type name; equality is equality of the underlying string. */
  datatype TypeName = TypeName(name: string)

  /** How the scores of matching children are folded into the parent's score. */
  datatype ChildScoreType = NoScore | Average | Sum | Max | Min

  /** A C# `int`: the setters accept any 32-bit value, negative ones included. */
  newtype Int32 = x: int | -0x8000_0000 <= x < 0x8000_0000

  /**
   * An inner-hits request, kept opaque: it is identified only by the settings its
   * builder recorded.
   */
  datatype InnerHitsRequest = InnerHitsRequest(settings: map<string, string>)

  /** What `new InnerHits()` produces: a request with no settings of its own. */
  const DefaultInnerHits: InnerHitsRequest := InnerHitsRequest(map[])

  /**
   * The content of a query container: nothing, a has-child clause, or a clause of
   * another kind whose own conditionless rule is abstracted to a flag.
   */
  datatype ContainedQuery =
    | Empty
    | HasChild(clause: HasChildClause)
    | Other(kind: string, conditionless: bool)

  /** The six optional fields of `IHasChildQuery`; `None` is an unset (null) field. */
  datatype HasChildClause = HasChildClause(
    typeName: Option<TypeName>,
    scoreType: Option<ChildScoreType>,
    minChildren: Option<Int32>,
    maxChildren: Option<Int32>,
    query: Option<ContainedQuery>,
    innerHits: Option<InnerHitsRequest>)

  /** The JSON property names of the six fields in the search engine's query DSL. */
  datatype Field = TypeField | ScoreTypeField | MinChildrenField | MaxChildrenField | QueryField | InnerHitsField

  function WireName(f: Field): string
  {
    match f
    case TypeField => "type"
    case ScoreTypeField => "score_type"
    case MinChildrenField => "min_children"
    case MaxChildrenField => "max_children"
    case QueryField => "query"
    case InnerHitsField => "inner_hits"
  }

  /**
   * `HasChildQuery.IsConditionless`: the clause has no filtering effect when its
   * embedded query is null or is itself conditionless. Unfolded down a chain of
   * nested has-child clauses, this is the reference rule at the chain's bottom.
   */
  predicate IsConditionless(q: HasChildClause)
    ensures IsConditionless(q) <==> q.query.None? || LeafIsConditionless(Innermost(q.query.value))
    decreases q, 1
  {
    q.query.None? || ContainerIsConditionless(q.query.value)
  }

  /**
   * A container's own conditionless flag: an empty container is conditionless, a
   * has-child clause follows the rule above, any other kind carries its own flag.
   * The recursive rule agrees with the reference: a chain of nested has-child
   * clauses is conditionless exactly when the container at its bottom is.
   */
  predicate ContainerIsConditionless(c: ContainedQuery)
    ensures ContainerIsConditionless(c) <==> LeafIsConditionless(Innermost(c))
    decreases c, 0
  {
    match c
    case Empty => true
    case HasChild(h) => IsConditionless(h)
    case Other(_, b) => b
  }

  /** Only the embedded query decides; the other five fields never affect the rule. */
  lemma ConditionlessIgnoresOtherFields(a: HasChildClause, b: HasChildClause)
    requires a.query == b.query
    ensures IsConditionless(a) == IsConditionless(b)
  {
  }

  /**
   * Follows a chain of has-child clauses through their embedded queries down to the
   * first container that is not a has-child clause with an embedded query.
   */
  function Innermost(c: ContainedQuery): (leaf: ContainedQuery)
    ensures !(leaf.HasChild? && leaf.clause.query.Some?)
  {
    match c
    case HasChild(h) => if h.query.Some? then Innermost(h.query.value) else c
    case _ => c
  }

  /** Reference rule for the bottom of a chain: only another kind can carry a condition. */
  predicate LeafIsConditionless(leaf: ContainedQuery)
  {
    match leaf
    case Other(_, b) => b
    case _ => true
  }

  /**
   * Wraps `inner` in one has-child clause per element of `wrappers`, outermost first;
   * each wrapper keeps its own type, score, bounds and inner hits.
   */
  function Nest(wrappers: seq<HasChildClause>, inner: ContainedQuery): ContainedQuery
  {
    if wrappers == [] then inner
    else HasChild(wrappers[0].(query := Some(Nest(wrappers[1..], inner))))
  }

  /**
   * A wrapper is conditionless exactly when what it wraps is, at any depth and
   * whatever the wrappers' other fields hold.
   */
  lemma {:induction false} NestedConditionless(wrappers: seq<HasChildClause>, inner: ContainedQuery)
    ensures ContainerIsConditionless(Nest(wrappers, inner)) == ContainerIsConditionless(inner)
  {
    if wrappers != [] {
      NestedConditionless(wrappers[1..], inner);
    }
  }

  /**
   * A query container: holds at most one clause variant; assigning a variant
   * replaces whatever it held before.
   */
  class QueryContainer {
    var contained: ContainedQuery

    constructor ()
      ensures contained == Empty
      ensures IsConditionless()
    {
      contained := Empty;
    }

    predicate IsConditionless()
      reads this
    {
      ContainerIsConditionless(contained)
    }

    /** Installs a has-child clause in the container's has-child slot. */
    method SetHasChild(clause: HasChildClause)
      modifies this
      ensures contained == HasChild(clause)
    {
      contained := HasChild(clause);
    }
  }
}
