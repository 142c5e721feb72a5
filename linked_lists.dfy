/** java.util.LinkedList, as far as the resolver uses it: appending,
    removing the last element, and membership. */
module LinkedLists {

  class LinkedList<T(==)> {
    /** The list's elements, first to last. */
    var elems: seq<T>

    constructor ()
      ensures elems == []
    {
      elems := [];
    }

    method Add(x: T)
      modifies this
      ensures elems == old(elems) + [x]
    {
      elems := elems + [x];
    }

    /** removeLast(); never called on an empty list here. */
    method RemoveLast() returns (x: T)
      requires elems != []
      modifies this
      ensures elems == old(elems)[..|old(elems)| - 1] && x == old(elems)[|old(elems)| - 1]
    {
      x := elems[|elems| - 1];
      elems := elems[..|elems| - 1];
    }

    method Contains(x: T) returns (b: bool)
      ensures b <==> x in elems
    {
      b := x in elems;
    }
  }
}
