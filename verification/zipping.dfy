/** Python's built-in `zip`: pairs elements positionally and stops at the shortest input. */
module Zipping {

  /** The shorter of two lengths. */
  function Min(a: nat, b: nat): nat {
    if a < b then a else b
  }

  /** `zip(a, b)`: one pair per position up to the shorter list, in order. */
  function Zip<A, B>(a: seq<A>, b: seq<B>): (z: seq<(A, B)>)
    ensures |z| == Min(|a|, |b|)
    ensures forall i :: 0 <= i < |z| ==> z[i] == (a[i], b[i])
    decreases |a|
  {
    if |a| == 0 || |b| == 0 then []
    else [(a[0], b[0])] + Zip(a[1..], b[1..])
  }

  /** `zip(a, b, c)`: one triple per position up to the shortest list, in order. */
  function Zip3<A, B, C>(a: seq<A>, b: seq<B>, c: seq<C>): (z: seq<(A, B, C)>)
    ensures |z| == Min(Min(|a|, |b|), |c|)
    ensures forall i :: 0 <= i < |z| ==> z[i] == (a[i], b[i], c[i])
    decreases |a|
  {
    if |a| == 0 || |b| == 0 || |c| == 0 then []
    else [(a[0], b[0], c[0])] + Zip3(a[1..], b[1..], c[1..])
  }
}
