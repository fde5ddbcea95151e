/**
 * FilteredQuery: an ordered list of child queries and a match-all flag.
 * Evaluation evaluates the children in order and folds their entity sets,
 * starting from the empty set, with NciSearchUtils.intersect (match all) or
 * NciSearchUtils.union (match any).
 *
 * NciSearchUtils is not part of this model. Intersect and Union below state
 * the semantics ASSUMED for it: each updates its first argument in place,
 * `intersect(a, b)` as `a.retainAll(b)` and `union(a, b)` as `a.addAll(b)`.
 */
module FilteredQueries {
  import opened Wrappers
  import opened Index
  import opened Lists

  /** Assumed `NciSearchUtils.intersect(target, other)`: keeps the elements of `target` also in `other`. */
  function Intersect(target: set<Entity>, other: set<Entity>): (r: set<Entity>)
    ensures r <= target && r <= other
    ensures forall e :: e in target && e in other ==> e in r
  {
    target * other
  }

  /** Assumed `NciSearchUtils.union(target, other)`: adds the elements of `other` to `target`. */
  function Union(target: set<Entity>, other: set<Entity>): (r: set<Entity>)
    ensures target <= r && other <= r
    ensures forall e :: e in r ==> e in target || e in other
  {
    target + other
  }

  /** One step of the fold: the operation the flag selects. */
  function Combine(isMatchAll: bool, target: set<Entity>, other: set<Entity>): set<Entity> {
    if isMatchAll then Intersect(target, other) else Union(target, other)
  }

  /** The fold `evaluate` performs over the child results, from the empty set, left to right. */
  function Fold(isMatchAll: bool, results: seq<set<Entity>>): (r: set<Entity>)
    ensures forall e :: e in r ==> exists i :: 0 <= i < |results| && e in results[i]
  {
    if results == [] then {}
    else Combine(isMatchAll, Fold(isMatchAll, results[..|results| - 1]), results[|results| - 1])
  }

  /** In match-any mode the fold is the union of all child results. */
  lemma {:induction false} MatchAnyIsUnion(results: seq<set<Entity>>)
    ensures forall e :: e in Fold(false, results) <==>
      exists i :: 0 <= i < |results| && e in results[i]
  {
    if results != [] {
      var init := results[..|results| - 1];
      MatchAnyIsUnion(init);
      forall e | e in Fold(false, results)
        ensures exists i :: 0 <= i < |results| && e in results[i]
      {
        if e !in results[|results| - 1] {
          assert e in Fold(false, init);
          var i :| 0 <= i < |init| && e in init[i];
          assert e in results[i];
        }
      }
      forall e, i | 0 <= i < |results| && e in results[i]
        ensures e in Fold(false, results)
      {
        if i < |init| {
          assert e in init[i];
        }
      }
    }
  }

  /**
   * In match-all mode the fold starts from the empty set and only ever
   * narrows it, so under the assumed in-place intersect it is always empty.
   */
  lemma {:induction false} MatchAllIsEmpty(results: seq<set<Entity>>)
    ensures Fold(true, results) == {}
  {
    if results != [] {
      MatchAllIsEmpty(results[..|results| - 1]);
    }
  }

  /**
   * The seeded reading of match-all: the first child's result seeds the
   * fold and every later one is intersected in, so the result is what all
   * children share; with no children it is empty.
   */
  function SeededMatchAll(results: seq<set<Entity>>): (r: set<Entity>)
    ensures forall e :: e in r <==>
      |results| > 0 && forall i :: 0 <= i < |results| ==> e in results[i]
  {
    if |results| <= 1 then (if results == [] then {} else results[0])
    else
      var init := results[..|results| - 1];
      assert forall i :: 0 <= i < |init| ==> init[i] == results[i];
      Intersect(SeededMatchAll(init), results[|results| - 1])
  }

  /**
   * When the children share an element, the fold as written loses it: the
   * element is in the seeded result and not in the fold.
   */
  lemma {:induction false} MatchAllLosesSharedElements(results: seq<set<Entity>>, e: Entity)
    requires |results| > 0 && forall i :: 0 <= i < |results| ==> e in results[i]
    ensures e in SeededMatchAll(results) && e !in Fold(true, results)
  {
    MatchAllIsEmpty(results);
  }

  /**
   * The fold as written and the seeded reading agree exactly when the
   * children share no element, and then both are empty.
   */
  lemma {:induction false} MatchAllAgreesOnlyWhenNothingShared(results: seq<set<Entity>>)
    ensures Fold(true, results) == SeededMatchAll(results) <==> SeededMatchAll(results) == {}
  {
    MatchAllIsEmpty(results);
  }

  /** The results of children that all evaluated successfully, in order. */
  function ChildResults<Q>(evalChild: Q -> Result<set<Entity>, QueryEvaluationException>, children: seq<Q>)
      : (rs: seq<set<Entity>>)
    requires forall i :: 0 <= i < |children| ==> evalChild(children[i]).Success?
    ensures |rs| == |children|
    ensures forall i :: 0 <= i < |children| ==> Success(rs[i]) == evalChild(children[i])
  {
    seq(|children|, i requires 0 <= i < |children| => evalChild(children[i]).value)
  }

  /**
   * FilteredQuery over child queries of type Q. The list is the builder's own
   * list, shared rather than copied.
   */
  class FilteredQuery<Q(==)> {
    const filters: ArrayList<Q>
    const isMatchAll: bool

    constructor (filters: ArrayList<Q>, isMatchAll: bool)
      ensures this.filters == filters && this.isMatchAll == isMatchAll
    {
      this.filters := filters;
      this.isMatchAll := isMatchAll;
    }

    /** `isMatchAll`: the flag the query was built with. */
    function IsMatchAll(): (matchAll: bool)
      ensures matchAll == isMatchAll
    {
      isMatchAll
    }

    /** `getFilters`: a read-only view of the children, in insertion order. */
    function GetFilters(): (fs: seq<Q>)
      reads filters
      ensures |fs| == |filters.elements|
      ensures forall i :: 0 <= i < |fs| ==> fs[i] == filters.elements[i]
    {
      filters.elements
    }

    /**
     * `evaluate(listener)`: evaluates every child once, in list order, through
     * `evalChild` (each child's own `evaluate` with the same listener), and
     * folds the results. The first failing child aborts the evaluation with
     * its exception; no later child is evaluated. `evaluated` records the
     * children evaluated, in order.
     */
    method Evaluate(evalChild: Q -> Result<set<Entity>, QueryEvaluationException>)
        returns (r: Result<set<Entity>, QueryEvaluationException>, ghost evaluated: seq<Q>)
      ensures r.Success? <==>
        forall i :: 0 <= i < |filters.elements| ==> evalChild(filters.elements[i]).Success?
      ensures r.Success? ==>
        evaluated == filters.elements &&
        r.value == Fold(isMatchAll, ChildResults(evalChild, filters.elements))
      ensures r.Success? && !isMatchAll ==>
        forall e :: e in r.value <==>
          exists i :: 0 <= i < |filters.elements| && e in evalChild(filters.elements[i]).value
      ensures r.Success? && isMatchAll ==> r.value == {}
      ensures filters.elements == [] ==> r == Success({}) && evaluated == []
      ensures r.Failure? ==>
        0 < |evaluated| <= |filters.elements| && evaluated == filters.elements[..|evaluated|] &&
        r == evalChild(evaluated[|evaluated| - 1]) &&
        forall i :: 0 <= i < |evaluated| - 1 ==> evalChild(evaluated[i]).Success?
    {
      var children := filters.elements;
      var toReturn: set<Entity> := {};
      evaluated := [];
      for i := 0 to |children|
        invariant evaluated == children[..i]
        invariant forall k :: 0 <= k < i ==> evalChild(children[k]).Success?
        invariant toReturn == Fold(isMatchAll, ChildResults(evalChild, children[..i]))
      {
        var evalResult := evalChild(children[i]);
        evaluated := evaluated + [children[i]];
        if evalResult.Failure? {
          r := evalResult;
          return;
        }
        assert ChildResults(evalChild, children[..i + 1])[..i] == ChildResults(evalChild, children[..i]);
        if isMatchAll {
          toReturn := Intersect(toReturn, evalResult.value);
        } else {
          toReturn := Union(toReturn, evalResult.value);
        }
      }
      assert children[..|children|] == children;
      r := Success(toReturn);
      MatchAnyIsUnion(ChildResults(evalChild, children));
      MatchAllIsEmpty(ChildResults(evalChild, children));
    }

    /**
     * `equals(obj)` as written: false for null, true for this very object,
     * false for anything that is not a FilteredQuery, and otherwise the list is
     * compared with itself, so only the two match-all flags decide.
     */
    function Equals(obj: EqualsArgument<Q>): (eq: bool)
      reads filters
      ensures obj.NullArgument? || obj.OtherObject? ==> !eq
      ensures obj.FilteredArgument? ==> (eq <==> obj.query.isMatchAll == isMatchAll)
    {
      match obj
      case NullArgument => false
      case FilteredArgument(other) =>
        if other == this then true
        else filters.elements == filters.elements && isMatchAll == other.isMatchAll
      case OtherObject => false
    }
  }

  /** The argument of `equals(Object)`: null, a FilteredQuery, or an object of any other class. */
  datatype EqualsArgument<Q(==)> = NullArgument | FilteredArgument(query: FilteredQuery<Q>) | OtherObject

  /** Two filtered queries with the same flag are equal, whatever their children. */
  lemma EqualsIgnoresFilters<Q>(a: FilteredQuery<Q>, b: FilteredQuery<Q>)
    requires a.isMatchAll == b.isMatchAll
    ensures a.Equals(FilteredArgument(b)) && b.Equals(FilteredArgument(a))
  {
  }

  /** `FilteredQuery.Builder`: appends children to a list it owns and builds over it. */
  class Builder<Q(==)> {
    const filters: ArrayList<Q>

    constructor ()
      ensures fresh(filters) && filters.elements == []
    {
      filters := new ArrayList();
    }

    /** `add`: appends one child at the end. */
    method Add(filter: Q)
      modifies filters
      ensures filters.elements == old(filters.elements) + [filter]
    {
      filters.Add(filter);
    }

    /** `build`: a new filtered query over this builder's own list, with the given flag. */
    method Build(isMatchAll: bool) returns (query: FilteredQuery<Q>)
      ensures fresh(query)
      ensures query.filters == filters && query.IsMatchAll() == isMatchAll
      ensures query.GetFilters() == filters.elements
    {
      query := new FilteredQuery(filters, isMatchAll);
    }
  }
}
