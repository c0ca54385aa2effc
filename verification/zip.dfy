/** The two Python sequence primitives the transform call is built from:
    the built-in `zip`, which pairs positions and stops at the shorter
    argument, and a list comprehension over a sequence. */
module PyList {

  function Min(a: nat, b: nat): nat {
    if a <= b then a else b
  }

  /** Python's `zip(xs, ys)`: pairs position by position; whatever lies
      beyond the shorter argument is dropped without an error. */
  function Zip<A, B>(xs: seq<A>, ys: seq<B>): (r: seq<(A, B)>)
    ensures |r| == Min(|xs|, |ys|)
    ensures forall i :: 0 <= i < |r| ==> r[i] == (xs[i], ys[i])
  {
    if |xs| == 0 || |ys| == 0 then []
    else [(xs[0], ys[0])] + Zip(xs[1..], ys[1..])
  }

  /** A list comprehension `[f(x) for x in xs]`: one result per element,
      in order. */
  function MapSeq<A, B>(f: A -> B, xs: seq<A>): (r: seq<B>)
    ensures |r| == |xs|
    ensures forall i :: 0 <= i < |xs| ==> r[i] == f(xs[i])
  {
    if |xs| == 0 then [] else [f(xs[0])] + MapSeq(f, xs[1..])
  }

  /** Zipping only ever looks at the common prefix: cutting both arguments
      down to the shorter length first gives the same pairs. */
  lemma ZipCommonPrefix<A, B>(xs: seq<A>, ys: seq<B>)
    ensures var m := Min(|xs|, |ys|); Zip(xs, ys) == Zip(xs[..m], ys[..m])
  {
    var m := Min(|xs|, |ys|);
    var l, r := Zip(xs, ys), Zip(xs[..m], ys[..m]);
    assert |l| == |r|;
    forall i | 0 <= i < |l| ensures l[i] == r[i] {
      assert r[i] == (xs[..m][i], ys[..m][i]);
    }
  }
}
