/** The instruction queue of the autopilot plugin is a JavaScript array used as
    a stack: the route is stored reversed and `pop` takes from the end. This
    module holds the sequence operations that storage relies on and proves that
    popping a reversed route hands out the route from the front. */
module RouteQueue {

  /** The element `pop` removes. */
  function Last<T>(q: seq<T>): (r: T)
    requires |q| > 0
  {
    q[|q| - 1]
  }

  /** What `pop` leaves behind. */
  function DropLast<T>(q: seq<T>): (r: seq<T>)
    requires |q| > 0
    ensures |r| == |q| - 1
  {
    q[..|q| - 1]
  }

  /** `Array.prototype.reverse`, as a value. */
  function Reversed<T>(s: seq<T>): (r: seq<T>)
    ensures |r| == |s|
    ensures forall i :: 0 <= i < |s| ==> r[i] == s[|s| - 1 - i]
  {
    if s == [] then [] else Reversed(s[1..]) + [s[0]]
  }

  /** Reversing twice gives the route back. */
  lemma ReversedInvolution<T>(s: seq<T>)
    ensures Reversed(Reversed(s)) == s
  {
    var r := Reversed(Reversed(s));
    assert |r| == |s|;
    forall i | 0 <= i < |s|
      ensures r[i] == s[i]
    {
      assert r[i] == Reversed(s)[|s| - 1 - i];
    }
  }

  /** Popping a reversed route yields its first element and leaves the
      reversed rest: the stack behaves as a queue in client order. */
  lemma PopReversed<T>(s: seq<T>)
    requires |s| > 0
    ensures Last(Reversed(s)) == s[0]
    ensures DropLast(Reversed(s)) == Reversed(s[1..])
  {
    var d, t := DropLast(Reversed(s)), Reversed(s[1..]);
    assert |d| == |t|;
    forall i | 0 <= i < |d|
      ensures d[i] == t[i]
    {
      assert d[i] == Reversed(s)[i] == s[|s| - 1 - i];
    }
  }

  /** The queue in the order its elements will be popped. */
  function PopOrder<T>(q: seq<T>): (r: seq<T>)
    ensures |r| == |q|
    decreases |q|
  {
    if q == [] then [] else [Last(q)] + PopOrder(DropLast(q))
  }

  /** Storing a route reversed and popping until empty visits the route in
      exactly the client's order. */
  lemma {:induction false} PopOrderOfReversed<T>(s: seq<T>)
    ensures PopOrder(Reversed(s)) == s
    decreases |s|
  {
    if s != [] {
      PopReversed(s);
      PopOrderOfReversed(s[1..]);
      assert PopOrder(Reversed(s)) == [s[0]] + s[1..];
    }
  }
}
