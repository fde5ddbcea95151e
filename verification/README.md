# Query composition in the NCI search plugin, modelled in Dafny

This project models the query-composition layer of the Protégé Lucene search
plugin (package `org.protege.editor.search.nci`):

- **Leaf index queries.** `BasicQuery.Factory` and `UserQuery.Builder` turn a
  (property, query type, search string) triple into a small Lucene boolean
  query. It has a required identity term on the property's IRI and one value
  clause: a term, prefix, suffix or phrase match. In `UserQuery` the value
  clause is prohibited (MUST_NOT) instead of required when the filter is
  negated. The Lucene query language is the datatype `Index.IndexQuery`. The
  property's Java subtype becomes an explicit `Kind` tag. The index fields
  are chosen from that tag by fixed tables.
  `Index.ReadLeaf` reads a built query back into the triple it encodes. The
  builders' contracts are stated through it.
- **Evaluation.** `BasicQuery.evaluate` searches and then fetches every hit
  into a set. `FilteredQuery.evaluate` evaluates its children in order and
  folds their entity sets with intersect (match all) or union (match any).
  The searcher is a given `search`/`find` pair. Each child's evaluation is
  a given function (`evalChild`).
- **Universe caches.** `BasicQuery.Factory` fills `allEntities` and
  `allClasses` on first use. Each is the union of the signatures (or the
  class signatures) of the ontologies in scope. The test for "not yet filled"
  is emptiness. Each cache is a `HashSet` object of its own. An absence query
  receives that object itself, not a copy; if it keeps it, it sees a later
  refill (`BasicQueries.AbsentQuerySeesRefill`).
- **Builders.** `UserQuery.Builder` and `FilteredQuery.Builder` append to a
  list they own, an `ArrayList` object. `build` hands that same list to the
  query it creates. So a later add on the builder is visible through a query
  already built (`UserQueries.AddAfterBuild`).

Modules: `Wrappers` (Option, Result), `Lists` (the shared mutable list and set),
`Index` (entities, properties, fields, query language, query types, the
searcher port), `BasicQueries`, `UserQueries`, `FilteredQueries`.

## Assumptions

`NciSearchUtils` is not part of this model. `FilteredQueries.Intersect` and
`FilteredQueries.Union` state the semantics assumed for
`NciSearchUtils.intersect` and `NciSearchUtils.union`: each updates its first
argument in place, as `retainAll` and `addAll` would. `FilteredQuery.evaluate`
starts from an empty set (FilteredQuery.java:41). So under this assumption
match-all evaluation is always empty (`FilteredQueries.MatchAllIsEmpty`). The
model keeps the code as written. It does not switch to the reading where the
first child seeds the result. That reading is `FilteredQueries.SeededMatchAll`.
`FilteredQueries.MatchAllLosesSharedElements` shows the two differ whenever
every child contains a common entity. If `NciSearchUtils.intersect` treats an
empty target specially, that lemma does not describe the plugin.

The `PropertyValueAbsent` and `PropertyRestrictionAbsent` classes are not part
of this model. `BasicQuery.Factory.createQuery` hands each the factory's cache
object (BasicQuery.java:84, :91). Their constructors are assumed to keep the
set they are given, not a copy, as `UserQuery` and `FilteredQuery` keep their
lists. `BasicQueries.AbsentQuerySeesRefill` describes the plugin only under
that assumption.

## Model

| member | source | states |
|---|---|---|
| `BasicQueries.Evaluate` | src/main/java/org/protege/editor/search/nci/BasicQuery.java:34-48 | A failed search gives a QueryEvaluationException wrapping its IOException, and nothing is fetched. Otherwise the result is a success exactly when every hit can be fetched. On success the set holds exactly the documents fetched for the hits, and the hits were fetched once each, in order. On failure the first failing hit's IOException is wrapped and no later hit is fetched. |
| `BasicQueries.KeywordBooleanQuery` | src/main/java/org/protege/editor/search/nci/BasicQuery.java:117-143 | Reads back as two MUST clauses: `Term(ANNOTATION_IRI, iri)` and the operator's match on `ANNOTATION_TEXT` with the search string. The property kind plays no part. |
| `BasicQueries.KeywordFilter` | src/main/java/org/protege/editor/search/nci/BasicQuery.java:97-111 | A keyword query over the builder of the same operator. |
| `BasicQueries.PropertyValueQuery` | src/main/java/org/protege/editor/search/nci/BasicQuery.java:145-147 | The bare term `ANNOTATION_IRI = iri`, with no value clause. |
| `BasicQueries.PropertyRestrictionQuery` | src/main/java/org/protege/editor/search/nci/BasicQuery.java:149-151 | The bare term `OBJECT_PROPERTY_IRI = iri`, with no value clause. |
| `BasicQueries.Factory.constructor` | src/main/java/org/protege/editor/search/nci/BasicQuery.java:55-61 | Both caches start as fresh, distinct, empty sets. The factory keeps the search context it was given. |
| `BasicQueries.Factory.CreateQuery` | src/main/java/org/protege/editor/search/nci/BasicQuery.java:63-95 | Fails with the unsupported type exactly when the type is in neither group. Value types give the keyword filter. PRESENT types give the bare existence query. ABSENT types fill their cache first, then give the bare existence query together with the cache object itself, not a copy. Only PROPERTY_VALUE_ABSENT changes `allEntities` and only PROPERTY_RESTRICTION_ABSENT changes `allClasses`. Every other type leaves both caches unchanged. |
| `BasicQueries.Factory.PopulateAllEntities` | src/main/java/org/protege/editor/search/nci/BasicQuery.java:153-159 | An empty cache becomes the union of the signatures of the ontologies in scope. A non-empty cache is left unchanged. |
| `BasicQueries.Factory.PopulateAllClasses` | src/main/java/org/protege/editor/search/nci/BasicQuery.java:161-167 | An empty cache becomes the union of the class signatures of the ontologies in scope. A non-empty cache is left unchanged. |
| `BasicQueries.UnionOf` | src/main/java/org/protege/editor/search/nci/BasicQuery.java:155-157 | The left-to-right accumulation of `addAll` holds exactly the entities that are in some set of the sequence. |
| `BasicQueries.PopulateTwice` | src/main/java/org/protege/editor/search/nci/BasicQuery.java:153-159 | Two fills in a row leave the cache as one fill does, so the second call is a no-op. |
| `BasicQueries.PopulateClassesTwice` | src/main/java/org/protege/editor/search/nci/BasicQuery.java:161-167 | Two class-cache fills in a row leave the cache as one fill does, so the second call is a no-op. |
| `BasicQueries.AbsentQuerySeesRefill` | src/main/java/org/protege/editor/search/nci/BasicQuery.java:82-84 | Take an absence query created while the cache is left empty. If the ontologies in scope then change and a second absence query refills the cache, the first query received the same cache object and (if it keeps it, as assumed) sees the refilled set. |
| `Index.MatchQuery` | src/main/java/org/protege/editor/search/nci/UserQuery.java:108-150 | The LuceneUtils factory chosen for an operator builds a single-field query that reads back as that operator, on the given field and text. |
| `UserQueries.PropertyIriIndexField` | src/main/java/org/protege/editor/search/nci/UserQuery.java:152-162 | The identity field identifies the kind. DATA gives `DATA_PROPERTY_IRI`, OBJECT gives `OBJECT_PROPERTY_IRI` and ANNOTATION gives `ANNOTATION_IRI`, so distinct kinds get distinct fields. |
| `UserQueries.PropertyValueIndexField` | src/main/java/org/protege/editor/search/nci/UserQuery.java:164-171 | `FILLER_DISPLAY_NAME` exactly for DATA and OBJECT properties, and `ANNOTATION_TEXT` exactly for annotation properties. |
| `UserQueries.SearchCategoryOf` | src/main/java/org/protege/editor/search/nci/UserQuery.java:173-180 | `LOGICAL_AXIOM` exactly when the value field is `FILLER_DISPLAY_NAME`, and `ANNOTATION_VALUE` otherwise. |
| `UserQueries.NegatableQuery` | src/main/java/org/protege/editor/search/nci/UserQuery.java:108-150 | Reads back as a MUST identity term on the kind's IRI field, plus the operator's match on the kind's value field. That match is MUST, or MUST_NOT when negated. |
| `UserQueries.CreateFilterQuery` | src/main/java/org/protege/editor/search/nci/UserQuery.java:93-106 | Always a two-clause leaf filter with the kind's fields, the IRI, the search string, and MUST_NOT exactly when negated. CONTAINS, STARTS_WITH and ENDS_WITH keep their operator. Every other type, the non-value types included, becomes an exact (phrase) match. |
| `UserQueries.NegationFlipsOnlyValueOccur` | src/main/java/org/protege/editor/search/nci/UserQuery.java:108-150 | The negated filter and the plain filter share the MUST identity clause and the value query. Only the value clause's occurrence differs: MUST against MUST_NOT. |
| `UserQueries.UserQuery.CreateInstance` | src/main/java/org/protege/editor/search/nci/UserQuery.java:32-39 | Keeps the given list itself, not a copy, and the given flag. |
| `UserQueries.UserQuery.IsMatchAll` | src/main/java/org/protege/editor/search/nci/UserQuery.java:41-43 | Returns the flag the query was created with. |
| `UserQueries.UserQuery.Size` | src/main/java/org/protege/editor/search/nci/UserQuery.java:49-51 | The number of queries currently in the shared list. |
| `UserQueries.UserQuery.IsEmpty` | src/main/java/org/protege/editor/search/nci/UserQuery.java:45-51 | `isEmpty()` holds exactly when `size()` is 0. |
| `UserQueries.UserQuery.Queries` | src/main/java/org/protege/editor/search/nci/UserQuery.java:53-56 | The iterated queries number exactly `size()`, and each one is the list's element at the same position, in insertion order. |
| `UserQueries.Builder.constructor` | src/main/java/org/protege/editor/search/nci/UserQuery.java:60-66 | A new builder owns a fresh, empty list. |
| `UserQueries.Builder.AddBasicQuery` | src/main/java/org/protege/editor/search/nci/UserQuery.java:68-73 | Appends exactly one basic search query at the end. It carries `createFilterQuery`'s filter and the property's search category. Earlier elements are unchanged. |
| `UserQueries.Builder.AddNegatedQuery` | src/main/java/org/protege/editor/search/nci/UserQuery.java:75-78 | Appends exactly one negated query at the end. Earlier elements are unchanged. |
| `UserQueries.Builder.AddNestedQuery` | src/main/java/org/protege/editor/search/nci/UserQuery.java:80-83 | Appends exactly one nested query, with its property name, at the end. Earlier elements are unchanged. |
| `UserQueries.Builder.Build` | src/main/java/org/protege/editor/search/nci/UserQuery.java:85-87 | A new query over the builder's own list, with `isMatchAll() == m` and `size()` equal to the number of adds so far. |
| `UserQueries.AddAfterBuild` | src/main/java/org/protege/editor/search/nci/UserQuery.java:85-87 | A query added after `build` appears at the end of the already-built query's list. |
| `FilteredQueries.Intersect` | src/main/java/org/protege/editor/search/nci/FilteredQuery.java:44-46 | Assumed in-place intersect: the result is within both arguments and keeps every common element. |
| `FilteredQueries.Union` | src/main/java/org/protege/editor/search/nci/FilteredQuery.java:47-49 | Assumed in-place union: the result contains both arguments and nothing else. |
| `FilteredQueries.Fold` | src/main/java/org/protege/editor/search/nci/FilteredQuery.java:41-51 | The left-to-right fold from the empty set never holds an entity that no child result contains. |
| `FilteredQueries.MatchAnyIsUnion` | src/main/java/org/protege/editor/search/nci/FilteredQuery.java:40-52 | In match-any mode the fold holds exactly the entities found in some child result. |
| `FilteredQueries.MatchAllIsEmpty` | src/main/java/org/protege/editor/search/nci/FilteredQuery.java:40-52 | In match-all mode, the fold from the empty set under the assumed intersect is empty for every list of child results. |
| `FilteredQueries.SeededMatchAll` | src/main/java/org/protege/editor/search/nci/FilteredQuery.java:41-46 | The seeded reading of match-all holds exactly the entities common to all children. It is empty when there are no children. |
| `FilteredQueries.MatchAllLosesSharedElements` | src/main/java/org/protege/editor/search/nci/FilteredQuery.java:41-46 | Take an entity that every child contains. It is in the seeded result and not in the fold as written. |
| `FilteredQueries.MatchAllAgreesOnlyWhenNothingShared` | src/main/java/org/protege/editor/search/nci/FilteredQuery.java:41-46 | The fold as written equals the seeded result exactly when the seeded result is empty, that is, when the children share no entity. |
| `FilteredQueries.FilteredQuery.constructor` | src/main/java/org/protege/editor/search/nci/FilteredQuery.java:25-28 | Keeps the given list itself and the given flag. |
| `FilteredQueries.FilteredQuery.IsMatchAll` | src/main/java/org/protege/editor/search/nci/FilteredQuery.java:30-33 | Returns the flag the query was built with. |
| `FilteredQueries.FilteredQuery.GetFilters` | src/main/java/org/protege/editor/search/nci/FilteredQuery.java:35-37 | The same elements as the list, in the same order. |
| `FilteredQueries.FilteredQuery.Evaluate` | src/main/java/org/protege/editor/search/nci/FilteredQuery.java:40-52 | Succeeds exactly when every child succeeds. The children are evaluated once each, in list order. On success the result is the fold of their results: the union of all of them in match-any mode, and empty in match-all mode. An empty list gives the empty set. The first failing child's exception is returned, and no later child is evaluated. |
| `FilteredQueries.FilteredQuery.Equals` | src/main/java/org/protege/editor/search/nci/FilteredQuery.java:83-95 | False for null and for non-FilteredQuery arguments. For a FilteredQuery argument it holds exactly when the match-all flags agree. The filter lists play no part. |
| `FilteredQueries.EqualsIgnoresFilters` | src/main/java/org/protege/editor/search/nci/FilteredQuery.java:83-95 | Two filtered queries with the same flag are equal both ways, whatever their children. |
| `FilteredQueries.Builder.constructor` | src/main/java/org/protege/editor/search/nci/FilteredQuery.java:56-60 | A new builder owns a fresh, empty list. |
| `FilteredQueries.Builder.Add` | src/main/java/org/protege/editor/search/nci/FilteredQuery.java:62-65 | Appends exactly one child at the end. |
| `FilteredQueries.Builder.Build` | src/main/java/org/protege/editor/search/nci/FilteredQuery.java:67-69 | A new query over the builder's own list, in insertion order, with `isMatchAll() == m`. |

## Left out

- Evaluation of `NegatedQuery`, `NestedQuery`, `KeywordQuery`, `BasicSearchQuery` and the `PropertyValue*`/`PropertyRestriction*` subclasses: these classes are not part of this model, so only their construction is modelled. A FilteredQuery child is evaluated through the given function `evalChild`.
- `NciSearchUtils` is not part of this model. Its intersect and union are assumed, as described under Assumptions.
- The `LuceneSearcher` is a parameter of `BasicQueries.Evaluate` rather than a field of each query. The builders do not store it, because it plays no part in query construction.
- `BasicQueries.Evaluate` returns documents as values. Lucene's `Document` uses identity equality, so in Java two fetches never collapse. In the model, equal documents do collapse.
- Scoring and `TopDocs` ranking: only the document ids of the hits are modelled.
- `SearchProgressListener`: it is only passed through. Each child is evaluated by the same `evalChild`, which stands for `evaluate(listener)` with that one listener.
- `hashCode` (Java `String.hashCode` and int overflow) and `toString`. `hashCode` depends on `filters` while `equals` does not, so equal queries can have different hash codes. This is not modelled.
- The builders' `return this` chaining is not modelled. Each add method returns nothing.
- The QueryType constants beyond the eight named ones are not part of this model. `Index.QueryType.Unlisted` stands for any non-null value in neither group.
- A null query type is not modelled. In `createFilterQuery` it would throw a NullPointerException at the first `type.equals` call. In `createQuery` the outcome depends on how `QueryType.ValueQueryTypes.contains(null)` behaves, and `QueryType` is not part of this model.
- FilteredQueries.FilteredQuery.GetFilters: Java returns a live unmodifiable view of the list, which later adds on the builder show through. The model's function returns the list's contents at the time of the call. The aliasing itself is modelled: the query and the builder share one `ArrayList` object.
- The Swing panels (`NegatedQueryPanel`, `CombinedLuceneQueryPanel`): UI only.
