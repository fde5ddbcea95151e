/**
 * UserQuery: an ordered list of search queries with a match-all flag, and
 * its Builder, which turns (property, query type, search string, negated)
 * into a two-clause boolean filter whose fields depend on the property's kind.
 */
module UserQueries {
  import opened Wrappers
  import opened Index
  import opened Lists

  /**
   * The SearchQuery elements a user query holds: a basic search query (its
   * filter and search category), a negated user query, or a user query nested
   * under a property name.
   */
  datatype SearchQuery =
    | BasicSearchQuery(filter: IndexQuery, category: SearchCategory)
    | NegatedQuery(filterQuery: UserQuery)
    | NestedQuery(fillerFilters: UserQuery, propertyName: string)

  /** The kind an identity field belongs to, if it is one. */
  function IdentityFieldKind(field: IndexField): Option<Kind> {
    match field
    case DataPropertyIri => Some(DataProperty)
    case ObjectPropertyIri => Some(ObjectProperty)
    case AnnotationIri => Some(AnnotationProperty)
    case _ => None
  }

  /** `getPropertyIriIndexField`: the field holding the IRI of a property of this kind. */
  function PropertyIriIndexField(property: Property): (field: IndexField)
    ensures IdentityFieldKind(field) == Some(property.kind)
  {
    match property.kind
    case DataProperty => DataPropertyIri
    case ObjectProperty => ObjectPropertyIri
    case AnnotationProperty => AnnotationIri
  }

  /** `getPropertyValueIndexField`: the field holding the values of a property of this kind. */
  function PropertyValueIndexField(property: Property): (field: IndexField)
    ensures field == FillerDisplayName <==> !property.kind.AnnotationProperty?
    ensures field == AnnotationText <==> property.kind.AnnotationProperty?
  {
    if property.kind.DataProperty? || property.kind.ObjectProperty? then FillerDisplayName
    else AnnotationText
  }

  /** `getSearchCategory`: logical axioms for data and object properties, annotation values otherwise. */
  function SearchCategoryOf(property: Property): (category: SearchCategory)
    ensures category == LogicalAxiom <==> PropertyValueIndexField(property) == FillerDisplayName
  {
    if property.kind.DataProperty? || property.kind.ObjectProperty? then LogicalAxiom
    else AnnotationValue
  }

  /**
   * The four private builders createContainsQuery, createStartsWithQuery,
   * createEndsWithMatchQuery and createExactMatchQuery, selected by `op`: a
   * required identity term on the kind's IRI field, and a match of `op` on
   * the kind's value field that is required, or prohibited when negated.
   */
  function NegatableQuery(property: Property, op: QueryType, searchString: string, isNegated: bool)
      : (q: IndexQuery)
    requires IsValueType(op)
    ensures ReadLeaf(q) ==
      Some(LeafFilter(PropertyIriIndexField(property), property.iri,
                      if isNegated then MustNot else Must,
                      op, PropertyValueIndexField(property), searchString))
  {
    var identity := Term(PropertyIriIndexField(property), property.iri);
    var value := MatchQuery(op, PropertyValueIndexField(property), searchString);
    Bool([Clause(Must, identity), if isNegated then Clause(MustNot, value) else Clause(Must, value)])
  }

  /**
   * `createFilterQuery`: CONTAINS, STARTS_WITH and ENDS_WITH select their own
   * builder; every other type, the non-value types included, falls through
   * to the exact-match builder.
   */
  function CreateFilterQuery(property: Property, queryType: QueryType, searchString: string, isNegated: bool)
      : (q: IndexQuery)
    ensures ReadLeaf(q).Some?
    ensures ReadLeaf(q).value.identityField == PropertyIriIndexField(property)
    ensures ReadLeaf(q).value.iri == property.iri
    ensures ReadLeaf(q).value.valueOccur == if isNegated then MustNot else Must
    ensures ReadLeaf(q).value.valueField == PropertyValueIndexField(property)
    ensures ReadLeaf(q).value.text == searchString
    ensures IsValueType(queryType) ==> ReadLeaf(q).value.operator == queryType
    ensures !IsValueType(queryType) ==> ReadLeaf(q).value.operator == ExactMatch
  {
    if queryType == Contains then NegatableQuery(property, Contains, searchString, isNegated)
    else if queryType == StartsWith then NegatableQuery(property, StartsWith, searchString, isNegated)
    else if queryType == EndsWith then NegatableQuery(property, EndsWith, searchString, isNegated)
    else NegatableQuery(property, ExactMatch, searchString, isNegated)
  }

  /**
   * Negation changes only the occurrence of the value clause: the negated and
   * the plain filter have the same identity clause and the same value query.
   */
  lemma NegationFlipsOnlyValueOccur(property: Property, queryType: QueryType, searchString: string)
    ensures var plain := CreateFilterQuery(property, queryType, searchString, false);
            var negated := CreateFilterQuery(property, queryType, searchString, true);
            plain.Bool? && negated.Bool? && |plain.clauses| == |negated.clauses| == 2 &&
            plain.clauses[0] == negated.clauses[0] == Clause(Must, Term(PropertyIriIndexField(property), property.iri)) &&
            plain.clauses[1].query == negated.clauses[1].query &&
            plain.clauses[1].occur == Must && negated.clauses[1].occur == MustNot
  {
  }

  /**
   * UserQuery: the list of search queries it was built over (shared with the
   * builder, not copied) and whether all of them or any of them must match.
   */
  class UserQuery {
    const queries: ArrayList<SearchQuery>
    const isMatchAll: bool

    /** `createInstance`, and the private constructor behind it. */
    constructor CreateInstance(queries: ArrayList<SearchQuery>, isMatchAll: bool)
      ensures this.queries == queries && this.isMatchAll == isMatchAll
    {
      this.queries := queries;
      this.isMatchAll := isMatchAll;
    }

    /** `isMatchAll`: the flag the query was built with. */
    function IsMatchAll(): (matchAll: bool)
      ensures matchAll == isMatchAll
    {
      isMatchAll
    }

    /** `size`: the number of queries currently in the list. */
    function Size(): (n: nat)
      reads queries
      ensures n == |queries.elements|
    {
      |queries.elements|
    }

    /** `isEmpty`: there is no query in the list. */
    function IsEmpty(): (empty: bool)
      reads queries
      ensures empty <==> Size() == 0
    {
      queries.elements == []
    }

    /** What `iterator` walks through: the queries, in the order they were added. */
    function Queries(): (qs: seq<SearchQuery>)
      reads queries
      ensures |qs| == Size()
      ensures forall i :: 0 <= i < |qs| ==> qs[i] == queries.elements[i]
    {
      queries.elements
    }
  }

  /** `UserQuery.Builder`: appends search queries to a list it owns and builds over it. */
  class Builder {
    const queries: ArrayList<SearchQuery>

    constructor ()
      ensures fresh(queries) && queries.elements == []
    {
      queries := new ArrayList();
    }

    /** `addBasicQuery`: appends one basic search query built from the triple and the flag. */
    method AddBasicQuery(property: Property, queryType: QueryType, searchString: string, isNegated: bool)
      modifies queries
      ensures queries.elements == old(queries.elements) +
        [BasicSearchQuery(CreateFilterQuery(property, queryType, searchString, isNegated),
                          SearchCategoryOf(property))]
    {
      queries.Add(BasicSearchQuery(CreateFilterQuery(property, queryType, searchString, isNegated),
                                   SearchCategoryOf(property)));
    }

    /** `addNegatedQuery`: appends the negation of a user query. */
    method AddNegatedQuery(filterQuery: UserQuery)
      modifies queries
      ensures queries.elements == old(queries.elements) + [NegatedQuery(filterQuery)]
    {
      queries.Add(NegatedQuery(filterQuery));
    }

    /** `addNestedQuery`: appends a user query nested under a property name. */
    method AddNestedQuery(fillerFilters: UserQuery, propertyName: string)
      modifies queries
      ensures queries.elements == old(queries.elements) + [NestedQuery(fillerFilters, propertyName)]
    {
      queries.Add(NestedQuery(fillerFilters, propertyName));
    }

    /** `build`: a new user query over this builder's own list, with the given flag. */
    method Build(isMatchAll: bool) returns (query: UserQuery)
      ensures fresh(query)
      ensures query.queries == queries && query.IsMatchAll() == isMatchAll
      ensures query.Size() == |queries.elements| && query.Queries() == queries.elements
    {
      query := new UserQuery.CreateInstance(queries, isMatchAll);
    }
  }

  /**
   * Because `build` shares the builder's list, a query added after `build`
   * is visible through the query already built, at the end of its list.
   */
  method AddAfterBuild(builder: Builder, filterQuery: UserQuery, isMatchAll: bool)
      returns (query: UserQuery)
    modifies builder.queries
    ensures query.IsMatchAll() == isMatchAll
    ensures query.Queries() == old(builder.queries.elements) + [NegatedQuery(filterQuery)]
    ensures query.Size() == |old(builder.queries.elements)| + 1
  {
    query := builder.Build(isMatchAll);
    builder.AddNegatedQuery(filterQuery);
  }
}
