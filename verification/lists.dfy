/** The mutable list that the builders append to and hand out without copying. */
module Lists {

  /** A java.util.ArrayList: its contents are `elements`, changed in place by `Add`. */
  class ArrayList<T> {
    var elements: seq<T>

    constructor ()
      ensures elements == []
    {
      elements := [];
    }

    /** `List.add`: appends one element at the end. */
    method Add(x: T)
      modifies this
      ensures elements == old(elements) + [x]
    {
      elements := elements + [x];
    }
  }

  /** A java.util.HashSet: its contents are `elements`, changed in place by `AddAll`. */
  class HashSet<T(==)> {
    var elements: set<T>

    constructor ()
      ensures elements == {}
    {
      elements := {};
    }

    /** `Set.isEmpty`. */
    function IsEmpty(): (empty: bool)
      reads this
      ensures empty <==> |elements| == 0
    {
      elements == {}
    }

    /** `Set.addAll`: adds every element of `other`. */
    method AddAll(other: set<T>)
      modifies this
      ensures elements == old(elements) + other
    {
      elements := elements + other;
    }
  }
}
