# WHERE and UPDATE assembly of a typed SQL-fragment builder

This project models, in Dafny, the layer of a MyBatis SQL-fragment builder that puts rendered pieces together into statements. It has four parts.

- **Where-clause builder** (`QbeWhere`, `where_support_builder.dfy`). A `WhereBuilder` holds an ordered list of criteria. The first criterion has no connector. Every `And`/`Or` call appends one criterion tagged `"and"`/`"or"`.
  - Building creates one parameter sequence at 1 and one empty parameter map.
  - It then maps every criterion (identity, or alias stripping) and renders it with the shared sequence.
  - Each rendered fragment is appended to a buffer that starts with `"where"`, and its parameters are put into the map.
  - The loop of `RenderCriteria` is proved against the fold `RenderAll`. Lemmas about `RenderAll` state ordering, counter threading and the parameter merge.
- **IN-list condition** (`QbeWhereCondition`, `is_in.dfy`). `IsIn.Render` joins the rendered placeholders with `","` between `"in ("` and `")"`. The lemmas read the list back by splitting at the commas, and count the separators.
- **Query-by-example update object** (`QbeUpdate`, `qbe_update_support.dfy`). This is an immutable value holding a set clause, a where clause and a copy of the parameters.
- **Dynamic-SQL update statement** (`DynamicUpdateRender`, `dynamic_update_support.dfy`).
  - A `Builder` collects the table name, set clause, optional where support and parameters.
  - `Build` yields an `UpdateSupport`. Its full statement is `"update " + table + " " + set`, followed by `" " + where` only when a where clause is present.
  - The builder's parameter map is a `ParameterMap` object. `Build` puts the where parameters into that map and hands the same object to the result. The result shares the map and does not copy it, exactly as in the source.

Some collaborators are not part of this model. Each one enters as a function-valued parameter:
- the criterion renderer, which renders one criterion against the current value of the shared sequence;
- alias stripping, the `ignoringAlias` mapping of a criterion;
- the rendering of each placeholder renderer that `IsIn` receives.

About the renderer, only one thing is assumed, in `NeverRewinds`: it never moves the sequence backwards. Only the ordinal lemma needs that assumption. `Parameters.Merge` puts all entries of one map into another: an entry of the right-hand map replaces one with the same key.

The model follows the code in two places where an error might be expected:
- an empty IN list renders `"in ()"` and is not rejected;
- merging parameter maps overwrites on a key clash and raises no collision error.

## Model

| member | source | states |
|---|---|---|
| `QbeWhere.WhereBuilder.constructor` | src/main/java/org/mybatis/qbe/sql/where/WhereSupportBuilder.java:46-48 | the new builder holds exactly one criterion, without a connector, and satisfies the builder invariant |
| `QbeWhere.WhereBuilder.And` | src/main/java/org/mybatis/qbe/sql/where/WhereSupportBuilder.java:50-53 | appends exactly one criterion tagged "and" at the end, leaves earlier criteria unchanged, keeps the invariant (first untagged, rest "and"/"or") and returns the same builder |
| `QbeWhere.WhereBuilder.Or` | src/main/java/org/mybatis/qbe/sql/where/WhereSupportBuilder.java:55-58 | appends exactly one criterion tagged "or" at the end, leaves earlier criteria unchanged, keeps the invariant and returns the same builder |
| `QbeWhere.WhereBuilder.RenderCriteria` | src/main/java/org/mybatis/qbe/sql/where/WhereSupportBuilder.java:60-69 | the loop produces "where" followed by the fold's text over the mapped criteria; the sequence ends where the fold ends; the given map receives the fold's parameters by putAll |
| `QbeWhere.WhereBuilder.BuildWith` | src/main/java/org/mybatis/qbe/sql/where/WhereSupportBuilder.java:87-92 | starts a fresh sequence at 1 and a fresh map, and returns exactly RenderWhere of the criteria; the criteria are not modified, so two builds with the same renderer are equal |
| `QbeWhere.WhereBuilder.Build` | src/main/java/org/mybatis/qbe/sql/where/WhereSupportBuilder.java:79-81 | renders with the identity mapping |
| `QbeWhere.WhereBuilder.BuildIgnoringAlias` | src/main/java/org/mybatis/qbe/sql/where/WhereSupportBuilder.java:83-85 | renders with ignoringAlias applied to each criterion, and changes no other state |
| `QbeWhere.OrdinalsThreaded` | src/main/java/org/mybatis/qbe/sql/where/WhereSupportBuilder.java:63-64 | one counter is threaded and never reset: criterion 0 is rendered with the start value, each later criterion with exactly the value the previous render left, and the fold ends on the last value |
| `QbeWhere.OrdinalsNonDecreasing` | src/main/java/org/mybatis/qbe/sql/where/WhereSupportBuilder.java:63-64 | for a renderer that never rewinds, the ordinals seen by the criteria never decrease along the list and never fall below the start value |
| `QbeWhere.ClauseInOrder` | src/main/java/org/mybatis/qbe/sql/where/WhereSupportBuilder.java:61-68 | the fold's text is the concatenation of the criteria fragments in list order, with no separator added |
| `QbeWhere.ParameterKeys` | src/main/java/org/mybatis/qbe/sql/where/WhereSupportBuilder.java:66 | a key is in the merged map if and only if some criterion's fragment binds it |
| `QbeWhere.LastWriterWins` | src/main/java/org/mybatis/qbe/sql/where/WhereSupportBuilder.java:66 | a key takes the value from the last fragment that binds it; a later criterion overwrites an earlier one, with no collision error |
| `QbeWhere.DisjointParameterCount` | src/main/java/org/mybatis/qbe/sql/where/WhereSupportBuilder.java:66 | when the fragments bind pairwise-disjoint keys, the map's size is the sum of the fragment sizes |
| `QbeWhere.BuildRendersUnmapped` | src/main/java/org/mybatis/qbe/sql/where/WhereSupportBuilder.java:79-81 | with the identity mapping, the clause is "where" plus the fold over the criteria exactly as they were added |
| `QbeWhere.RenderedWhereLayout` | src/main/java/org/mybatis/qbe/sql/where/WhereSupportBuilder.java:83-92 | a build yields "where" followed by the fragments in order; there is one fragment per criterion; fragment i is the render of mapper(criterion i) at its ordinal; the map's keys are exactly those the fragments bind |
| `Parameters.Merge` | src/main/java/org/mybatis/qbe/sql/where/WhereSupportBuilder.java:66 | putAll: the keys are the union of both maps, and on a shared key the right-hand value wins |
| `Parameters.ParameterMap.PutAll` | src/main/java/org/mybatis/dynamic/sql/update/render/UpdateSupport.java:86 | the map's new entries are its old entries merged with the argument's |
| `QbeWhereCondition.IsIn.Render` | src/main/java/org/mybatis/qbe/sql/where/condition/IsIn.java:31-35 | the output starts with "in (" and ends with ")"; with no renderers it is exactly "in ()"; otherwise the text between the brackets is the rendered tokens, whatever they contain, each at its offset in input order with a single "," between neighbours and nothing else (Interleaved) |
| `QbeWhereCondition.JoinLayout` | src/main/java/org/mybatis/qbe/sql/where/condition/IsIn.java:34 | for any one or more tokens, commas inside them included, the joined text is as long as all tokens plus n − 1 separators; token i starts right after the earlier tokens and one separator per earlier token (Offset); a "," follows every token but the last |
| `QbeWhereCondition.RenderEach` | src/main/java/org/mybatis/qbe/sql/where/condition/IsIn.java:32-33 | one token per renderer, each renderer rendered once, in input order |
| `QbeWhereCondition.SplitJoin` | src/main/java/org/mybatis/qbe/sql/where/condition/IsIn.java:34 | for one or more tokens none of which contains a comma, splitting the joined text at commas gives back exactly the tokens in order (a token holding a comma is covered by JoinLayout instead) |
| `QbeWhereCondition.JoinSeparators` | src/main/java/org/mybatis/qbe/sql/where/condition/IsIn.java:34 | joining n ≥ 1 comma-free tokens inserts exactly n − 1 commas |
| `QbeWhereCondition.RenderedList` | src/main/java/org/mybatis/qbe/sql/where/condition/IsIn.java:31-35 | for n ≥ 1 renderers whose tokens contain no comma, the text between "in (" and ")" splits at the commas back into the rendered tokens in input order, and holds exactly n − 1 commas |
| `QbeWhereCondition.RenderIgnoresValues` | src/main/java/org/mybatis/qbe/sql/where/condition/IsIn.java:31-35 | two IN conditions with different stored values render the same renderers identically |
| `QbeWhereCondition.Of` | src/main/java/org/mybatis/qbe/sql/where/condition/IsIn.java:37-39 | the condition holds the given values in their order |
| `QbeUpdate.Of` | src/main/java/org/mybatis/qbe/sql/update/UpdateSupport.java:34-54 | the getters return exactly the set clause, the where clause and the map entries passed in |
| `QbeUpdate.CallerMutationDoesNotReach` | src/main/java/org/mybatis/qbe/sql/update/UpdateSupport.java:37 | the parameters are a copy: after the caller puts more entries into its own map, the object still has the entries from the time of the call |
| `DynamicUpdateRender.WhereText` | src/main/java/org/mybatis/dynamic/sql/update/render/UpdateSupport.java:93 | the where clause is present iff a where support is, and then it equals that support's where clause |
| `DynamicUpdateRender.MergedParameters` | src/main/java/org/mybatis/dynamic/sql/update/render/UpdateSupport.java:94 | with no where support the entries are unchanged; otherwise the keys are the union and a where entry wins on a clash |
| `DynamicUpdateRender.UpdateSupport.constructor` | src/main/java/org/mybatis/dynamic/sql/update/render/UpdateSupport.java:37-39 | stores the table name, set clause, where clause and parameter map as given |
| `DynamicUpdateRender.Concatenated` | src/main/java/org/mybatis/dynamic/sql/update/render/UpdateSupport.java:61 | a set clause never given (null) reads as "null" in the statement; a given one reads as itself |
| `DynamicUpdateRender.UpdateSupport.GetSetClause` | src/main/java/org/mybatis/dynamic/sql/update/render/UpdateSupport.java:41-43 | returns the stored set clause, None when it was never given |
| `DynamicUpdateRender.UpdateSupport.WhereClause` | src/main/java/org/mybatis/dynamic/sql/update/render/UpdateSupport.java:49-51 | returns the stored optional where clause |
| `DynamicUpdateRender.UpdateSupport.GetParameters` | src/main/java/org/mybatis/dynamic/sql/update/render/UpdateSupport.java:53-55 | returns the current entries of the shared map object, so entries the builder puts in later show up here too |
| `DynamicUpdateRender.UpdateSupport.GetWhereClause` | src/main/java/org/mybatis/dynamic/sql/update/render/UpdateSupport.java:45-47 | the empty string when there is no where clause, otherwise the where clause itself |
| `DynamicUpdateRender.UpdateSupport.EmptyWhereClauseMeansNone` | src/main/java/org/mybatis/dynamic/sql/update/render/UpdateSupport.java:45-47 | when a present where clause is never empty, GetWhereClause is "" exactly when there is no where clause |
| `DynamicUpdateRender.UpdateSupport.GetFullUpdateStatement` | src/main/java/org/mybatis/dynamic/sql/update/render/UpdateSupport.java:57-63 | the statement starts with "update ", the table, a space and the set clause (null renders as "null"); it ends there when there is no where clause, and otherwise continues with a space and GetWhereClause |
| `DynamicUpdateRender.Builder.constructor` | src/main/java/org/mybatis/dynamic/sql/update/render/UpdateSupport.java:66-73 | a fresh builder has the table name, no set clause, no where support and a fresh empty map |
| `DynamicUpdateRender.Builder.WithSetClause` | src/main/java/org/mybatis/dynamic/sql/update/render/UpdateSupport.java:75-78 | sets the set clause, leaves the where support alone and returns the same builder |
| `DynamicUpdateRender.Builder.WithWhereSupport` | src/main/java/org/mybatis/dynamic/sql/update/render/UpdateSupport.java:80-83 | replaces the where support, leaves the set clause alone and returns the same builder |
| `DynamicUpdateRender.Builder.WithParameters` | src/main/java/org/mybatis/dynamic/sql/update/render/UpdateSupport.java:85-88 | accumulates: the builder's same map gets the new entries put over the old ones |
| `DynamicUpdateRender.Builder.Build` | src/main/java/org/mybatis/dynamic/sql/update/render/UpdateSupport.java:90-97 | the table name and set clause pass through; the where clause is present iff a where support is; the where parameters are put over the builder's map; the result shares that map; the full statement is "update " + table + " " + set [+ " " + where] |

## Left out

- `UpdateRenderer` (src/main/java/org/mybatis/dynamic/sql/update/render/UpdateRenderer.java) is wiring over the set-phrase visitor, the fragment collector and the where renderer, none of which is part of this model. Its one decision, rendering a where part only when a where model exists, is the optional where support of `DynamicUpdateRender.Builder`.
- The criterion renderer, `SqlCriterion.ignoringAlias`, `Renderer.render`, `BaseListValueCondition` and the rendering strategy are not part of this model. They are function-valued parameters, and no placeholder format is assumed.
- `SqlField`, `Condition` and the bound values are opaque types. Java's generic type arguments are dropped.
- `AtomicInteger` is a plain integer field (`AtomicCounter`); atomicity and thread safety are not modelled, since rendering is single-threaded.
- Streams are sequences. `HashMap` iteration order is not modelled: maps are Dafny maps.
- `AbstractWhereBuilder` and `WhereBuilder` are one class. `getThis` is the returned `self`. `whereSupport()` and `Builder.where` only call the `WhereBuilder` constructor, and the constructor is what is modelled.
- `AbstractSqlSupport` is not part of this model. Its `tableName()` is the stored table name, and `ONE_SPACE` and `EMPTY_STRING` are taken to be `" "` and `""`.
- Null arguments to `withSetClause`, `withWhereSupport` and `withParameters` are not modelled. A set clause never given is modelled, and renders as `"null"`.
- The database test `AnimalDataTest` runs statements against a database through a mapper session. It is I/O and is not modelled.
