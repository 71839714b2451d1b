/** The mutable LIFO stack of evaluated values (`Stack` in main.go).
    The source's `Item` is a float64; here the item type is a parameter,
    so nothing below depends on floating-point behaviour. */
module PostfixStack {
  import opened Wrappers

  class Stack<T> {
    /** The slice of items, bottom first; the top is the last element. */
    var items: seq<T>

    /** The zero value `Stack{}`: no items. */
    constructor ()
      ensures items == []
    {
      items := [];
    }

    /** Number of items on the stack. */
    function Size(): (n: nat)
      reads this
      ensures n == |All()|
    {
      |items|
    }

    /** The items, bottom first. */
    function All(): (r: seq<T>)
      reads this
      ensures |r| == |items| && forall i :: 0 <= i < |r| ==> r[i] == items[i]
    {
      items
    }

    /** True exactly when the stack holds no item. */
    function IsEmpty(): (b: bool)
      reads this
      ensures b <==> Size() == 0
    {
      |items| == 0
    }

    /** Appends `t` on top; every earlier item stays where it was. */
    method Push(t: T)
      modifies this
      ensures items == old(items) + [t]
      ensures Size() == old(Size()) + 1 && items[|items| - 1] == t
      ensures forall i :: 0 <= i < old(Size()) ==> items[i] == old(items)[i]
    {
      items := items + [t];
    }

    /** Removes and returns the top item; on an empty stack returns `None`
        and changes nothing. */
    method Pop() returns (r: Option<T>)
      modifies this
      ensures old(items) == [] ==> r == None && items == old(items)
      ensures old(items) != [] ==>
        r == Some(old(items)[|old(items)| - 1]) && items == old(items)[..|old(items)| - 1]
    {
      if |items| == 0 {
        return None;
      }
      var item := items[|items| - 1];
      items := items[0..|items| - 1];
      return Some(item);
    }
  }

  /** A push followed by a pop hands back the pushed item and restores the
      stack to what it held before. */
  method PushThenPop<T>(s: Stack<T>, x: T) returns (r: Option<T>)
    modifies s
    ensures r == Some(x)
    ensures s.items == old(s.items)
  {
    s.Push(x);
    r := s.Pop();
  }
}
