/** The finite representation space `rn` a discretization wraps, seen through the
    operations the discretizations use: its dimension (`n`, `dimension`), whether it is a
    Hilbert space and an algebra, and on its vectors the inner product, the squared norm
    and the sum of the components. */
module RnSpaces {

  /** An `rn` implementation; `dimension` is both its `n` and its `dimension`. */
  datatype RnSpace = RnSpace(dimension: nat, isHilbertSpace: bool, isAlgebra: bool)

  /** `rn.innerImpl(u, v)`: the dot product. */
  function Dot(u: seq<real>, v: seq<real>): real
    requires |u| == |v|
  {
    if |u| == 0 then 0.0 else Dot(u[..|u| - 1], v[..|v| - 1]) + u[|u| - 1] * v[|v| - 1]
  }

  /** `rn.normSqImpl(v)` */
  function NormSq(v: seq<real>): (r: real)
    ensures r == Dot(v, v)
    ensures r >= 0.0
  {
    DotSelfNonnegative(v);
    Dot(v, v)
  }

  /** `rn.sum(v)` */
  function Sum(v: seq<real>): real {
    if |v| == 0 then 0.0 else Sum(v[..|v| - 1]) + v[|v| - 1]
  }

  /** The vector of `n` ones. */
  function Ones(n: nat): (v: seq<real>)
    ensures |v| == n && forall i :: 0 <= i < n ==> v[i] == 1.0
  {
    seq(n, i => 1.0)
  }

  /** Componentwise sum of two vectors. */
  function Add(u: seq<real>, v: seq<real>): (w: seq<real>)
    requires |u| == |v|
    ensures |w| == |u| && forall i :: 0 <= i < |w| ==> w[i] == u[i] + v[i]
  {
    seq(|u|, i requires 0 <= i < |u| => u[i] + v[i])
  }

  lemma {:induction false} DotSelfNonnegative(v: seq<real>)
    ensures Dot(v, v) >= 0.0
  {
    if |v| > 0 {
      DotSelfNonnegative(v[..|v| - 1]);
    }
  }

  lemma {:induction false} DotSymmetric(u: seq<real>, v: seq<real>)
    requires |u| == |v|
    ensures Dot(u, v) == Dot(v, u)
  {
    if |u| > 0 {
      DotSymmetric(u[..|u| - 1], v[..|v| - 1]);
    }
  }

  /** The dot product is additive in its first argument. */
  lemma {:induction false} DotAdditive(u: seq<real>, v: seq<real>, w: seq<real>)
    requires |u| == |v| == |w|
    ensures Dot(Add(u, v), w) == Dot(u, w) + Dot(v, w)
  {
    if |u| > 0 {
      var n := |u| - 1;
      assert Add(u, v)[..n] == Add(u[..n], v[..n]);
      DotAdditive(u[..n], v[..n], w[..n]);
    }
  }

  /** The sum is additive. */
  lemma {:induction false} SumAdditive(u: seq<real>, v: seq<real>)
    requires |u| == |v|
    ensures Sum(Add(u, v)) == Sum(u) + Sum(v)
  {
    if |u| > 0 {
      var n := |u| - 1;
      assert Add(u, v)[..n] == Add(u[..n], v[..n]);
      SumAdditive(u[..n], v[..n]);
    }
  }

  /** The sum of a vector is its dot product with the ones. */
  lemma {:induction false} DotOnesIsSum(v: seq<real>)
    ensures Dot(v, Ones(|v|)) == Sum(v)
  {
    if |v| > 0 {
      var n := |v| - 1;
      assert Ones(|v|)[..n] == Ones(n);
      DotOnesIsSum(v[..n]);
    }
  }

  /** The ones of length `n` sum to `n`. */
  lemma {:induction false} SumOnes(n: nat)
    ensures Sum(Ones(n)) == n as real
  {
    if n > 0 {
      assert Ones(n)[..n - 1] == Ones(n - 1);
      SumOnes(n - 1);
    }
  }
}
