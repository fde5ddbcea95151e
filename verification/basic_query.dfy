/**
 * BasicQuery: a query over the index that evaluates to the set of documents
 * its hits resolve to, and the Factory that builds the basic queries from a
 * (property, query type, search string) triple and caches the universes the
 * absence queries complement against.
 */
module BasicQueries {
  import opened Wrappers
  import opened Index
  import opened Lists

  /**
   * The BasicQuery subclasses the factory creates, each holding its Lucene
   * query; the absence queries also hold the universe set they were given,
   * the factory's own cache object (their constructors are assumed to keep
   * that object rather than copy it).
   */
  datatype BasicQuery =
    | Keyword(query: IndexQuery)
    | ValuePresent(query: IndexQuery)
    | ValueAbsent(query: IndexQuery, allEntities: HashSet<Entity>)
    | RestrictionPresent(query: IndexQuery)
    | RestrictionAbsent(query: IndexQuery, allClasses: HashSet<Entity>)

  /** Every hit of `hits` can be fetched. */
  ghost predicate AllFound(searcher: Searcher, hits: seq<ScoreDoc>) {
    forall k :: 0 <= k < |hits| ==> searcher.find(hits[k].doc).Success?
  }

  /** `k` is the first hit of `hits` whose fetch fails. */
  ghost predicate FirstMiss(searcher: Searcher, hits: seq<ScoreDoc>, k: int) {
    0 <= k < |hits| && searcher.find(hits[k].doc).Failure? && AllFound(searcher, hits[..k])
  }

  /** The document ids of `hits`, in hit order. */
  function DocIds(hits: seq<ScoreDoc>): (ids: seq<DocId>)
    ensures |ids| == |hits| && forall k :: 0 <= k < |hits| ==> ids[k] == hits[k].doc
  {
    seq(|hits|, k requires 0 <= k < |hits| => hits[k].doc)
  }

  /**
   * `BasicQuery.evaluate`: searches the query, then fetches the document of
   * every hit in order, collecting them into a set. The first IOException,
   * from the search or from a fetch, aborts the evaluation and surfaces as a
   * QueryEvaluationException. `fetched` records the ids fetched, in order.
   */
  method Evaluate(q: BasicQuery, searcher: Searcher)
      returns (r: Result<set<Document>, QueryEvaluationException>, ghost fetched: seq<DocId>)
    ensures searcher.search(q.query).Failure? ==>
      r == Failure(QueryEvaluationException(searcher.search(q.query).error)) && fetched == []
    ensures var hits := searcher.search(q.query);
      hits.Success? ==> (r.Success? <==> AllFound(searcher, hits.value))
    ensures var hits := searcher.search(q.query);
      hits.Success? && r.Success? ==>
        fetched == DocIds(hits.value) &&
        forall d :: d in r.value <==>
          exists k :: 0 <= k < |hits.value| && searcher.find(hits.value[k].doc) == Success(d)
    ensures var hits := searcher.search(q.query);
      hits.Success? && r.Failure? ==>
        exists k :: FirstMiss(searcher, hits.value, k) &&
          fetched == DocIds(hits.value[..k + 1]) &&
          r.error == QueryEvaluationException(searcher.find(hits.value[k].doc).error)
  {
    match searcher.search(q.query)
    case Failure(e) =>
      r, fetched := Failure(QueryEvaluationException(e)), [];
    case Success(scoreDocs) =>
      var docs: set<Document> := {};
      var hitNumber := |scoreDocs|;
      fetched := [];
      var i := 1;
      while i <= hitNumber
        invariant 1 <= i <= hitNumber + 1
        invariant AllFound(searcher, scoreDocs[..i - 1])
        invariant fetched == DocIds(scoreDocs[..i - 1])
        invariant forall d :: d in docs <==>
          exists k :: 0 <= k < i - 1 && searcher.find(scoreDocs[k].doc) == Success(d)
      {
        var found := searcher.find(scoreDocs[i - 1].doc);
        fetched := fetched + [scoreDocs[i - 1].doc];
        assert DocIds(scoreDocs[..i]) == DocIds(scoreDocs[..i - 1]) + [scoreDocs[i - 1].doc];
        if found.Failure? {
          assert FirstMiss(searcher, scoreDocs, i - 1);
          r := Failure(QueryEvaluationException(found.error));
          return;
        }
        docs := docs + {found.value};
        i := i + 1;
      }
      assert scoreDocs[..hitNumber] == scoreDocs;
      r := Success(docs);
  }

  /** An OWLOntology: the entities of its signature and the classes among them. */
  datatype Ontology = Ontology(signature: set<Entity>, classesInSignature: set<Entity>)

  /** The union of a sequence of sets, accumulated from the left. */
  function UnionOf(sets: seq<set<Entity>>): (u: set<Entity>)
    ensures forall e :: e in u <==> exists i :: 0 <= i < |sets| && e in sets[i]
  {
    if sets == [] then {}
    else
      UnionOf(sets[..|sets| - 1]) + sets[|sets| - 1]
  }

  /** The signature of each ontology, in order. */
  function Signatures(ontologies: seq<Ontology>): (s: seq<set<Entity>>)
    ensures |s| == |ontologies| && forall i :: 0 <= i < |s| ==> s[i] == ontologies[i].signature
  {
    seq(|ontologies|, i requires 0 <= i < |ontologies| => ontologies[i].signature)
  }

  /** The classes in the signature of each ontology, in order. */
  function ClassSignatures(ontologies: seq<Ontology>): (s: seq<set<Entity>>)
    ensures |s| == |ontologies| && forall i :: 0 <= i < |s| ==> s[i] == ontologies[i].classesInSignature
  {
    seq(|ontologies|, i requires 0 <= i < |ontologies| => ontologies[i].classesInSignature)
  }

  /** A SearchContext: the ontologies currently in scope, which may change over time. */
  class SearchContext {
    var ontologies: seq<Ontology>

    constructor (ontologies: seq<Ontology>)
      ensures this.ontologies == ontologies
    {
      this.ontologies := ontologies;
    }
  }

  /**
   * The four private builders createContainsQuery, createStartsWithQuery,
   * createEndsWithQuery and createExactMatchQuery, selected by `op`: a
   * required annotation-IRI term and a required match on the annotation text,
   * whatever the property's kind.
   */
  function KeywordBooleanQuery(property: Property, op: QueryType, searchString: string): (q: IndexQuery)
    requires IsValueType(op)
    ensures ReadLeaf(q) ==
      Some(LeafFilter(AnnotationIri, property.iri, Must, op, AnnotationText, searchString))
  {
    Bool([Clause(Must, Term(AnnotationIri, property.iri)),
          Clause(Must, MatchQuery(op, AnnotationText, searchString))])
  }

  /**
   * The public createContainsFilter, createStartsWithFilter, createEndsWithFilter
   * and createExactMatchFilter, selected by `op`: a keyword query over the
   * builder of the same operator.
   */
  function KeywordFilter(property: Property, op: QueryType, searchString: string): (q: BasicQuery)
    requires IsValueType(op)
    ensures q.Keyword?
    ensures ReadLeaf(q.query) ==
      Some(LeafFilter(AnnotationIri, property.iri, Must, op, AnnotationText, searchString))
  {
    Keyword(KeywordBooleanQuery(property, op, searchString))
  }

  /** `createPropertyValueQuery`: the bare annotation-IRI term, with no value clause. */
  function PropertyValueQuery(property: Property): (q: IndexQuery)
    ensures ReadLeaf(q) == None
    ensures q.Term? && q.field == AnnotationIri && q.text == property.iri
  {
    Term(AnnotationIri, property.iri)
  }

  /** `createPropertyRestrictionQuery`: the bare object-property-IRI term, with no value clause. */
  function PropertyRestrictionQuery(property: Property): (q: IndexQuery)
    ensures ReadLeaf(q) == None
    ensures q.Term? && q.field == ObjectPropertyIri && q.text == property.iri
  {
    Term(ObjectPropertyIri, property.iri)
  }

  /** The IllegalArgumentException `createQuery` throws, naming the unsupported type. */
  datatype IllegalArgumentException = UnsupportedQueryType(queryType: QueryType)

  /**
   * `BasicQuery.Factory`: creates basic queries and owns the two universe
   * caches, each a HashSet object of its own that the absence queries share.
   * A cache counts as "not yet filled" exactly when it is empty.
   */
  class Factory {
    const searchContext: SearchContext
    const allEntities: HashSet<Entity>
    const allClasses: HashSet<Entity>

    /** The two caches are distinct objects. */
    ghost predicate Valid() {
      allEntities != allClasses
    }

    constructor (searchContext: SearchContext)
      ensures Valid()
      ensures this.searchContext == searchContext
      ensures fresh(allEntities) && fresh(allClasses)
      ensures allEntities.elements == {} && allClasses.elements == {}
    {
      this.searchContext := searchContext;
      allEntities := new HashSet();
      allClasses := new HashSet();
    }

    /**
     * `createQuery`: dispatches on the query type. Value types give a keyword
     * query; the presence and absence types give a bare existence query; the
     * two absence types first fill their cache and then receive the cache
     * object itself. Any other type is rejected. Only PROPERTY_VALUE_ABSENT
     * touches `allEntities`, and only PROPERTY_RESTRICTION_ABSENT touches
     * `allClasses`.
     */
    method CreateQuery(property: Property, queryType: QueryType, searchString: string)
        returns (r: Result<BasicQuery, IllegalArgumentException>)
      requires Valid()
      modifies allEntities, allClasses
      ensures r.Failure? <==> !IsValueType(queryType) && !IsNonValueType(queryType)
      ensures r.Failure? ==> r.error == UnsupportedQueryType(queryType)
      ensures IsValueType(queryType) ==>
        r == Success(KeywordFilter(property, queryType, searchString))
      ensures queryType == PropertyValuePresent ==>
        r == Success(ValuePresent(PropertyValueQuery(property)))
      ensures queryType == PropertyValueAbsent ==>
        r == Success(ValueAbsent(PropertyValueQuery(property), allEntities))
      ensures queryType == PropertyRestrictionPresent ==>
        r == Success(RestrictionPresent(PropertyRestrictionQuery(property)))
      ensures queryType == PropertyRestrictionAbsent ==>
        r == Success(RestrictionAbsent(PropertyRestrictionQuery(property), allClasses))
      ensures queryType == PropertyValueAbsent ==>
        allEntities.elements == if old(allEntities.elements) == {}
                                then UnionOf(Signatures(searchContext.ontologies))
                                else old(allEntities.elements)
      ensures queryType != PropertyValueAbsent ==> allEntities.elements == old(allEntities.elements)
      ensures queryType == PropertyRestrictionAbsent ==>
        allClasses.elements == if old(allClasses.elements) == {}
                               then UnionOf(ClassSignatures(searchContext.ontologies))
                               else old(allClasses.elements)
      ensures queryType != PropertyRestrictionAbsent ==> allClasses.elements == old(allClasses.elements)
    {
      if IsValueType(queryType) {
        r := Success(KeywordFilter(property, queryType, searchString));
      } else if IsNonValueType(queryType) {
        match queryType
        case PropertyValuePresent =>
          r := Success(ValuePresent(PropertyValueQuery(property)));
        case PropertyValueAbsent =>
          PopulateAllEntities();
          r := Success(ValueAbsent(PropertyValueQuery(property), allEntities));
        case PropertyRestrictionPresent =>
          r := Success(RestrictionPresent(PropertyRestrictionQuery(property)));
        case PropertyRestrictionAbsent =>
          PopulateAllClasses();
          r := Success(RestrictionAbsent(PropertyRestrictionQuery(property), allClasses));
      } else {
        r := Failure(UnsupportedQueryType(queryType));
      }
    }

    /**
     * `populateAllEntities`: when the cache is empty, unions the signature of
     * every ontology in scope into it; otherwise leaves it as it is.
     */
    method PopulateAllEntities()
      modifies allEntities
      ensures old(allEntities.elements) == {} ==>
        allEntities.elements == UnionOf(Signatures(searchContext.ontologies))
      ensures old(allEntities.elements) != {} ==> allEntities.elements == old(allEntities.elements)
    {
      if allEntities.IsEmpty() {
        var ontologies := searchContext.ontologies;
        for i := 0 to |ontologies|
          invariant allEntities.elements == UnionOf(Signatures(ontologies)[..i])
        {
          assert Signatures(ontologies)[..i + 1][..i] == Signatures(ontologies)[..i];
          allEntities.AddAll(ontologies[i].signature);
        }
        assert Signatures(ontologies)[..|ontologies|] == Signatures(ontologies);
      }
    }

    /**
     * `populateAllClasses`: when the cache is empty, unions the classes in the
     * signature of every ontology in scope into it; otherwise leaves it as it is.
     */
    method PopulateAllClasses()
      modifies allClasses
      ensures old(allClasses.elements) == {} ==>
        allClasses.elements == UnionOf(ClassSignatures(searchContext.ontologies))
      ensures old(allClasses.elements) != {} ==> allClasses.elements == old(allClasses.elements)
    {
      if allClasses.IsEmpty() {
        var ontologies := searchContext.ontologies;
        for i := 0 to |ontologies|
          invariant allClasses.elements == UnionOf(ClassSignatures(ontologies)[..i])
        {
          assert ClassSignatures(ontologies)[..i + 1][..i] == ClassSignatures(ontologies)[..i];
          allClasses.AddAll(ontologies[i].classesInSignature);
        }
        assert ClassSignatures(ontologies)[..|ontologies|] == ClassSignatures(ontologies);
      }
    }
  }

  /**
   * Filling is idempotent: a second PopulateAllEntities, with the ontologies
   * in scope unchanged, leaves the cache as the first one left it.
   */
  method PopulateTwice(f: Factory)
    modifies f.allEntities
    ensures f.allEntities.elements == if old(f.allEntities.elements) == {}
                                      then UnionOf(Signatures(f.searchContext.ontologies))
                                      else old(f.allEntities.elements)
  {
    f.PopulateAllEntities();
    ghost var first := f.allEntities.elements;
    f.PopulateAllEntities();
    assert f.allEntities.elements == first;
  }

  /**
   * Likewise for the class cache: a second PopulateAllClasses, with the
   * ontologies in scope unchanged, leaves it as the first one left it.
   */
  method PopulateClassesTwice(f: Factory)
    modifies f.allClasses
    ensures f.allClasses.elements == if old(f.allClasses.elements) == {}
                                     then UnionOf(ClassSignatures(f.searchContext.ontologies))
                                     else old(f.allClasses.elements)
  {
    f.PopulateAllClasses();
    ghost var first := f.allClasses.elements;
    f.PopulateAllClasses();
    assert f.allClasses.elements == first;
  }

  /**
   * An absence query receives the factory's cache object. If it keeps that
   * object (the assumption stated on BasicQuery above), then when a first
   * fill leaves the cache empty and the ontologies in scope then change, the
   * next absence query refills the cache and the query created first sees
   * the refill.
   */
  method AbsentQuerySeesRefill(f: Factory, property: Property, later: seq<Ontology>)
      returns (first: Result<BasicQuery, IllegalArgumentException>)
    requires f.Valid()
    requires f.allEntities.elements == {}
    requires UnionOf(Signatures(f.searchContext.ontologies)) == {}
    modifies f.allEntities, f.allClasses, f.searchContext
    ensures first.Success? && first.value.ValueAbsent?
    ensures first.value.allEntities == f.allEntities
    ensures first.value.allEntities.elements == UnionOf(Signatures(later))
  {
    first := f.CreateQuery(property, PropertyValueAbsent, "");
    f.searchContext.ontologies := later;
    var second := f.CreateQuery(property, PropertyValueAbsent, "");
  }
}
