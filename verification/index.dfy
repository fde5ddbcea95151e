/**
 * The index-side vocabulary the query layer is written against: OWL entities
 * and properties, the index fields, the small Lucene query language the
 * builders emit, the query types, and the searcher port (search and find).
 */
module Index {
  import opened Wrappers

  /** An OWL entity (class, property or individual), identified by its IRI. */
  datatype Entity = Entity(iri: string)

  /** The concrete subtype of an OWLProperty, as an explicit tag instead of `instanceof`. */
  datatype Kind = DataProperty | ObjectProperty | AnnotationProperty

  /** An OWLProperty: `iri` stands for `getIRI().toString()`. */
  datatype Property = Property(iri: string, kind: Kind)

  /** The IndexField constants the query layer uses. */
  datatype IndexField =
    | AnnotationIri
    | AnnotationText
    | DataPropertyIri
    | ObjectPropertyIri
    | FillerDisplayName

  /** The two BooleanClause.Occur values the builders use. */
  datatype Occur = Must | MustNot

  /**
   * A Lucene query as built by LuceneUtils: term, prefix, suffix and phrase
   * matches on one field, and a boolean query over occur-tagged clauses.
   */
  datatype IndexQuery =
    | Term(field: IndexField, text: string)
    | Prefix(field: IndexField, text: string)
    | Suffix(field: IndexField, text: string)
    | Phrase(field: IndexField, text: string)
    | Bool(clauses: seq<Clause>)

  datatype Clause = Clause(occur: Occur, query: IndexQuery)

  /**
   * QueryType. The eight named constants form two groups; `Unlisted` stands for
   * any non-null value in neither group, which the factory rejects.
   */
  datatype QueryType =
    | Contains
    | StartsWith
    | EndsWith
    | ExactMatch
    | PropertyValuePresent
    | PropertyValueAbsent
    | PropertyRestrictionPresent
    | PropertyRestrictionAbsent
    | Unlisted

  /** Membership in QueryType.ValueQueryTypes. */
  predicate IsValueType(t: QueryType) {
    t.Contains? || t.StartsWith? || t.EndsWith? || t.ExactMatch?
  }

  /** Membership in QueryType.NonValueQueryTypes. */
  predicate IsNonValueType(t: QueryType) {
    t.PropertyValuePresent? || t.PropertyValueAbsent? ||
    t.PropertyRestrictionPresent? || t.PropertyRestrictionAbsent?
  }

  /** The SearchCategory values a user query can be filed under. */
  datatype SearchCategory = LogicalAxiom | AnnotationValue

  /** Which value operator a single-field query implements, read back from its shape. */
  function Operator(q: IndexQuery): Option<QueryType> {
    match q
    case Term(_, _) => Some(Contains)
    case Prefix(_, _) => Some(StartsWith)
    case Suffix(_, _) => Some(EndsWith)
    case Phrase(_, _) => Some(ExactMatch)
    case Bool(_) => None
  }

  /**
   * The LuceneUtils factory a builder picks for a value operator:
   * createTermQuery, createPrefixQuery, createSuffixQuery or createPhraseQuery.
   */
  function MatchQuery(op: QueryType, field: IndexField, text: string): (q: IndexQuery)
    requires IsValueType(op)
    ensures Operator(q) == Some(op)
    ensures !q.Bool? && q.field == field && q.text == text
  {
    match op
    case Contains => Term(field, text)
    case StartsWith => Prefix(field, text)
    case EndsWith => Suffix(field, text)
    case ExactMatch => Phrase(field, text)
  }

  /**
   * What a two-clause leaf filter says: a required identity clause
   * `Term(identityField, iri)`, and a value clause that applies `operator` to
   * `text` on `valueField` with occurrence `valueOccur`.
   */
  datatype LeafFilter = LeafFilter(
    identityField: IndexField,
    iri: string,
    valueOccur: Occur,
    operator: QueryType,
    valueField: IndexField,
    text: string)

  /**
   * Reads a boolean query back as a leaf filter. Defined only for a boolean
   * query of exactly two clauses whose first is a MUST term and whose second
   * is a single-field match; every other query reads as None.
   */
  function ReadLeaf(q: IndexQuery): Option<LeafFilter> {
    if q.Bool? && |q.clauses| == 2
       && q.clauses[0].occur == Must && q.clauses[0].query.Term?
       && !q.clauses[1].query.Bool?
    then
      var identity, value := q.clauses[0].query, q.clauses[1].query;
      Some(LeafFilter(identity.field, identity.text, q.clauses[1].occur,
                      Operator(value).value, value.field, value.text))
    else
      None
  }

  /** A Lucene document id, as found in `ScoreDoc.doc`. */
  type DocId = int

  /** One entry of `TopDocs.scoreDocs`; the score is not modelled. */
  datatype ScoreDoc = ScoreDoc(doc: DocId)

  /** A stored Lucene document: field name to its values. */
  datatype Document = Document(fields: map<string, seq<string>>)

  /** The IOException either searcher operation may throw. */
  datatype IOException = IOException(message: string)

  /** The QueryEvaluationException an evaluation surfaces, wrapping its cause. */
  datatype QueryEvaluationException = QueryEvaluationException(cause: IOException)

  /**
   * The LuceneSearcher port: `search` gives the hit list of a query (or fails),
   * `find` fetches the document with a given id (or fails).
   */
  datatype Searcher = Searcher(
    search: IndexQuery -> Result<seq<ScoreDoc>, IOException>,
    find: DocId -> Result<Document, IOException>)
}
