/** Machine widths and the option type shared by every module. */
module Basics {

  datatype Option<+T> = None | Some(value: T)

  const U64: int := 0x1_0000_0000_0000_0000
  const U32: int := 0x1_0000_0000

  type uint64 = x: int | 0 <= x < U64
  type uint32 = x: int | 0 <= x < U32
  type byte = x: int | 0 <= x < 256

  /** A Go byte slice. */
  type Bytes = seq<byte>

  /** Go list of pointers: the entries that are not nil, in order. */
  function Present<T>(xs: seq<Option<T>>): (r: seq<T>)
  {
    if xs == [] then []
    else if xs[|xs| - 1].None? then Present(xs[..|xs| - 1])
    else Present(xs[..|xs| - 1]) + [xs[|xs| - 1].value]
  }

  function Pointers<T>(xs: seq<T>): (r: seq<Option<T>>)
    ensures |r| == |xs| && forall i :: 0 <= i < |xs| ==> r[i] == Some(xs[i])
  {
    seq(|xs|, i requires 0 <= i < |xs| => Some(xs[i]))
  }

  lemma {:induction false} PresentPointers<T>(xs: seq<T>)
    ensures Present(Pointers(xs)) == xs
  {
    if xs != [] {
      var init := xs[..|xs| - 1];
      PresentPointers(init);
      assert Pointers(xs)[..|xs| - 1] == Pointers(init);
      assert xs == init + [xs[|xs| - 1]];
    }
  }

  lemma {:induction false} PresentIn<T>(xs: seq<Option<T>>)
    ensures forall x :: x in Present(xs) <==> Some(x) in xs
  {
    if xs != [] {
      var init := xs[..|xs| - 1];
      PresentIn(init);
      assert xs == init + [xs[|xs| - 1]];
    }
  }

  lemma {:induction false} SubsetSize<T>(a: set<T>, b: set<T>)
    requires a <= b
    ensures |a| <= |b|
  {
    if a != {} {
      var x :| x in a;
      SubsetSize(a - {x}, b - {x});
    }
  }

  /** A subset with as many elements is the whole set. */
  lemma SameSize<T>(a: set<T>, b: set<T>)
    requires a <= b && |a| == |b|
    ensures a == b
  {
    if x :| x in b && x !in a {
      assert a <= b - {x};
      SubsetSize(a, b - {x});
    }
  }
}
