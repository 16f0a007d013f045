# Has-child query clause of the NEST query DSL, in Dafny

This project models the has-child clause of the Elasticsearch .NET client's query DSL
(`src/Nest/QueryDsl/Joining/HasChild/HasChildQuery.cs`). A has-child clause matches parent
documents through a query on their children. It has six optional fields: the child type,
the score type, the minimum and maximum number of matching children, the embedded child
query and an inner-hits request.

- `wrappers.dfy` (module `Wrappers`): `Option`, which stands for a null reference or an
  unset nullable value.
- `query_container.dfy` (module `QueryContainers`): the field types; `ContainedQuery`, the
  content of a query container (empty, a has-child clause, or another clause kind with its
  own conditionless flag); the record `HasChildClause`; the conditionless rule
  `IsConditionless` / `ContainerIsConditionless`; and a `QueryContainer` class whose slot
  `WrapInContainer` overwrites.
- `has_child_query.dfy` (module `HasChildQueries`): the plain `HasChildQuery` class, the
  fluent `HasChildQueryDescriptor` class, and `Setter` / `Apply` / `ApplyAll`. These three
  specify what each fluent call does and what a chain of calls produces. Each setter
  method of the descriptor is proved against `Apply`.

`Assign` of the descriptor base class is not part of this model. It is assumed to apply
the update to the receiver in place and to return the receiver. `HasChildQueryDescriptor.Assign`
states that assumption as its contract.

No setter checks min ≤ max; any pair of bounds is stored as given. `Type(name)` does not
validate its argument.

## Model

| member | source | states |
|---|---|---|
| QueryContainers.ConditionlessIgnoresOtherFields | src/Nest/QueryDsl/Joining/HasChild/HasChildQuery.cs:46 | two clauses with the same embedded query are both conditionless or both not; type, score type, bounds and inner hits never matter |
| QueryContainers.Innermost | src/Nest/QueryDsl/Joining/HasChild/HasChildQuery.cs:46 | following a chain of has-child clauses through their embedded queries ends at a container that is not a has-child clause with an embedded query |
| QueryContainers.IsConditionless | src/Nest/QueryDsl/Joining/HasChild/HasChildQuery.cs:46 | a clause is conditionless exactly when its embedded query is null or the container at the bottom of its chain of nested has-child clauses is conditionless (empty, a has-child clause without a query, or a conditionless clause of another kind) |
| QueryContainers.ContainerIsConditionless | src/Nest/QueryDsl/Joining/HasChild/HasChildQuery.cs:46 | the container's recursive flag (empty is conditionless, a has-child clause follows line 46) agrees in both directions with the reference rule at the bottom of its chain |
| QueryContainers.NestedConditionless | src/Nest/QueryDsl/Joining/HasChild/HasChildQuery.cs:46 | wrapping a container in any number of has-child clauses, with any other field values, leaves it conditionless exactly when the wrapped container is |
| QueryContainers.QueryContainer.SetHasChild | src/Nest/QueryDsl/Joining/HasChild/HasChildQuery.cs:45 | assigning the has-child slot replaces whatever the container held before |
| HasChildQueries.Apply | src/Nest/QueryDsl/Joining/HasChild/HasChildQuery.cs:66-80 | each fluent call writes exactly one field with a value that does not depend on the current state, and leaves the other five fields unchanged |
| HasChildQueries.ApplyAll | src/Nest/QueryDsl/Joining/HasChild/HasChildQuery.cs:66-80 | in a fluent chain applied left to right, the last call always takes effect on the field it writes |
| HasChildQueries.ChainKeepsUntouchedField | src/Nest/QueryDsl/Joining/HasChild/HasChildQuery.cs:66-80 | across a whole chain of fluent calls, a field that no call targets keeps its initial value |
| HasChildQueries.LastCallWins | src/Nest/QueryDsl/Joining/HasChild/HasChildQuery.cs:63-80 | in a chain of fluent calls, the last call on a field decides its final value and fully overwrites earlier calls and the constructor's default type |
| HasChildQueries.ChainWithoutQueryKeepsConditionless | src/Nest/QueryDsl/Joining/HasChild/HasChildQuery.cs:46-80 | a chain of fluent calls without `Query` never changes whether the clause is conditionless |
| HasChildQueries.HasChildQuery.constructor | src/Nest/QueryDsl/Joining/HasChild/HasChildQuery.cs:35-43 | a new plain clause has all six fields unset |
| HasChildQueries.HasChildQuery.Conditionless | src/Nest/QueryDsl/Joining/HasChild/HasChildQuery.cs:37 | the plain object is conditionless exactly when its `Query` is null or the bottom of its chain of has-child clauses is conditionless |
| HasChildQueries.HasChildQuery.WrapInContainer | src/Nest/QueryDsl/Joining/HasChild/HasChildQuery.cs:45 | after wrapping, the container's has-child slot holds this clause's fields, and the container is conditionless exactly when the clause is |
| HasChildQueries.HasChildQueryDescriptor.constructor | src/Nest/QueryDsl/Joining/HasChild/HasChildQuery.cs:61-64 | a new descriptor's type is the name derived from `T`, every other field is unset, and the descriptor is conditionless |
| HasChildQueries.HasChildQueryDescriptor.Conditionless | src/Nest/QueryDsl/Joining/HasChild/HasChildQuery.cs:53 | the descriptor is conditionless by the same rule as the plain object: `Query` null or the bottom of its chain conditionless |
| HasChildQueries.HasChildQueryDescriptor.Assign | src/Nest/QueryDsl/Joining/HasChild/HasChildQuery.cs:66-80 | the base-class `Assign` every setter calls, as assumed: the update is applied to all six fields of the receiver in place, and the receiver is returned |
| HasChildQueries.HasChildQueryDescriptor.Query | src/Nest/QueryDsl/Joining/HasChild/HasChildQuery.cs:66-67 | the embedded query becomes the selector's result on a fresh empty sub-container, replacing any earlier query; other fields unchanged; returns the descriptor |
| HasChildQueries.HasChildQueryDescriptor.Type | src/Nest/QueryDsl/Joining/HasChild/HasChildQuery.cs:69 | the type becomes the given name, overriding the constructor's default; other fields unchanged; returns the descriptor |
| HasChildQueries.HasChildQueryDescriptor.Score | src/Nest/QueryDsl/Joining/HasChild/HasChildQuery.cs:71 | the score type becomes the argument verbatim, so null clears it; other fields unchanged; returns the descriptor |
| HasChildQueries.HasChildQueryDescriptor.MinChildren | src/Nest/QueryDsl/Joining/HasChild/HasChildQuery.cs:73 | the minimum becomes `n` with no check against the maximum; other fields unchanged; returns the descriptor |
| HasChildQueries.HasChildQueryDescriptor.MaxChildren | src/Nest/QueryDsl/Joining/HasChild/HasChildQuery.cs:75 | the maximum becomes `n` with no check against the minimum; other fields unchanged; returns the descriptor |
| HasChildQueries.HasChildQueryDescriptor.InnerHits | src/Nest/QueryDsl/Joining/HasChild/HasChildQuery.cs:77 | inner hits become a default request; other fields unchanged; returns the descriptor |
| HasChildQueries.HasChildQueryDescriptor.InnerHitsFrom | src/Nest/QueryDsl/Joining/HasChild/HasChildQuery.cs:79-80 | inner hits become the selector's result on a fresh inner-hits builder; other fields unchanged; returns the descriptor |
| HasChildQueries.DescriptorChain | src/Nest/QueryDsl/Joining/HasChild/HasChildQuery.cs:61-75 | the calls `Type("a")`, `MinChildren(5)`, `MaxChildren(2)`, `Type("b")`, `Query(sel)` on one new descriptor give the clause the fold `ApplyAll` describes: type "b", min 5 above max 2 stored as given, query `sel` applied to an empty container |
| HasChildQueries.SameRuleForBothViews | src/Nest/QueryDsl/Joining/HasChild/HasChildQuery.cs:37-53 | a plain clause and a descriptor with equal field values give the same conditionless answer |

## Left out

- JSON serialization and deserialization (Newtonsoft.Json attributes and converters): only the wire names are recorded, as `WireName`. Parsing, omission of null fields and round trips are not modelled.
- `TypeName.Create<T>()` derives a name from the type `T` by reflection. It is not modelled; the descriptor's constructor receives the derived name as a parameter.
- HasChildQueries.HasChildQueryDescriptor.Type: the implicit string-to-`TypeName` conversion is declared outside `HasChildQuery.cs`. The model assumes it wraps any string, the empty string included, as `TypeName(name)`. A null string cannot be expressed, because the model's strings are never null.
- `ChildScoreType` is declared outside `HasChildQuery.cs`; the model assumes the members none, avg, sum, max, min.
- The internals of `QueryContainer`, `QueryContainerDescriptor<T>`, `InnerHits` and `InnerHitsDescriptor<T>` are not part of this model. A container is reduced to empty, a has-child clause, or another clause kind carrying its own conditionless flag. An inner-hits request is an opaque settings map; `new InnerHits()` and a fresh inner-hits builder are the empty one.
- HasChildQueries.HasChildQuery.WrapInContainer: the source stores a reference to the clause object in the container, so later changes to the object show through the container. The model stores a copy of the field values at wrapping time and does not capture that aliasing. Likewise, `Query` and `InnerHitsFrom` store the selector's result as a value.
- `QueryBase` and the implicit conversion of a query into a container are not part of this model.
- HasChildQueries.HasChildQueryDescriptor.Query and HasChildQueries.HasChildQueryDescriptor.InnerHitsFrom: the selectors are pure, total functions. A C# selector can throw, and then the field keeps its old value and the exception propagates. It can also change the descriptor through a captured reference, in which case more than one field changes. Neither is modelled.
- QueryContainers.IsConditionless: containers and clauses are values, so they cannot form a cycle, and the rule ends on every input. In `HasChildQuery.cs`, line 45 stores a reference, so a clause's `Query` container can end up holding the clause itself. Line 46 then recurses without end. That case is not modelled.
- QueryContainers.QueryContainer.SetHasChild: line 45 of `HasChildQuery.cs` only assigns the container's `HasChild` slot, and the container's setter is declared outside `HasChildQuery.cs`. The model assumes that setting the slot replaces whatever clause the container held before.
