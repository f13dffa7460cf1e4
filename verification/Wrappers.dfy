/** The optional value used wherever the Python code uses `None`, and the positions a filter keeps. */
module Wrappers {
  datatype Option<+T> = None | Some(value: T)

  /** The positions of the elements with a property, in order. */
  function Where<T>(xs: seq<T>, f: T -> bool): seq<nat> {
    if xs == [] then []
    else
      var n := |xs| - 1;
      if f(xs[n]) then Where(xs[..n], f) + [n] else Where(xs[..n], f)
  }

  lemma {:induction false} WhereIs<T>(xs: seq<T>, f: T -> bool)
    ensures forall k :: 0 <= k < |Where(xs, f)| ==> Where(xs, f)[k] < |xs| && f(xs[Where(xs, f)[k]])
    ensures forall j, k :: 0 <= j < k < |Where(xs, f)| ==> Where(xs, f)[j] < Where(xs, f)[k]
    ensures forall i :: 0 <= i < |xs| && f(xs[i]) ==> i in Where(xs, f)
  {
    if xs != [] {
      WhereIs(xs[..|xs| - 1], f);
    }
  }
}
