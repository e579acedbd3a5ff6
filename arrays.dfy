/** Dense three-dimensional arrays of reals (the `fvals` of a grid function) and numpy's
    `swapaxes` on them. */
module Arrays3 {

  datatype Shape3 = Shape3(n0: nat, n1: nat, n2: nat)

  /** `v` is a regular n0 x n1 x n2 box of nested sequences */
  predicate IsBox(v: seq<seq<seq<real>>>, s: Shape3) {
    && |v| == s.n0
    && (forall i :: 0 <= i < |v| ==> |v[i]| == s.n1)
    && (forall i, j :: 0 <= i < |v| && 0 <= j < |v[i]| ==> |v[i][j]| == s.n2)
  }

  datatype Tensor3 = Tensor3(shape: Shape3, vals: seq<seq<seq<real>>>)

  /** A 3-D array: values together with the shape they have. */
  type Array3 = a: Tensor3 | IsBox(a.vals, a.shape) witness Tensor3(Shape3(0, 0, 0), [])

  predicate InBounds(s: Shape3, i: int, j: int, k: int) {
    0 <= i < s.n0 && 0 <= j < s.n1 && 0 <= k < s.n2
  }

  function At(a: Array3, i: int, j: int, k: int): real
    requires InBounds(a.shape, i, j, k)
  {
    a.vals[i][j][k]
  }

  /** The array of shape `s` whose entry (i, j, k) is `f(i, j, k)` (see `TabulateAt`). */
  function Tabulate(s: Shape3, f: (nat, nat, nat) -> real): (a: Array3)
    ensures a.shape == s
  {
    Tensor3(s, Planes(s, f, s.n0))
  }

  /** The first `n` planes of `Tabulate(s, f)`. */
  function Planes(s: Shape3, f: (nat, nat, nat) -> real, n: nat): (v: seq<seq<seq<real>>>)
    ensures |v| == n
    ensures forall i :: 0 <= i < n ==> |v[i]| == s.n1
    ensures forall i, j :: 0 <= i < n && 0 <= j < s.n1 ==> |v[i][j]| == s.n2
  {
    if n == 0 then [] else Planes(s, f, n - 1) + [Lines(s, f, n - 1, s.n1)]
  }

  /** The first `n` lines of plane `i` of `Tabulate(s, f)`. */
  function Lines(s: Shape3, f: (nat, nat, nat) -> real, i: nat, n: nat): (v: seq<seq<real>>)
    ensures |v| == n
    ensures forall j :: 0 <= j < n ==> |v[j]| == s.n2
  {
    if n == 0 then [] else Lines(s, f, i, n - 1) + [Cells(f, i, n - 1, s.n2)]
  }

  /** The first `n` cells of line `j` of plane `i` of `Tabulate(s, f)`. */
  function Cells(f: (nat, nat, nat) -> real, i: nat, j: nat, n: nat): (v: seq<real>)
    ensures |v| == n
  {
    if n == 0 then [] else Cells(f, i, j, n - 1) + [f(i, j, n - 1)]
  }

  lemma {:induction false} CellsAt(f: (nat, nat, nat) -> real, i: nat, j: nat, n: nat, k: nat)
    requires k < n
    ensures Cells(f, i, j, n)[k] == f(i, j, k)
  {
    if k < n - 1 {
      CellsAt(f, i, j, n - 1, k);
    }
  }

  lemma {:induction false} LinesAt(s: Shape3, f: (nat, nat, nat) -> real, i: nat, n: nat, j: nat, k: nat)
    requires j < n && k < s.n2
    ensures Lines(s, f, i, n)[j][k] == f(i, j, k)
  {
    if j < n - 1 {
      LinesAt(s, f, i, n - 1, j, k);
    } else {
      CellsAt(f, i, j, s.n2, k);
    }
  }

  lemma {:induction false} PlanesAt(s: Shape3, f: (nat, nat, nat) -> real, n: nat, i: nat, j: nat, k: nat)
    requires i < n && j < s.n1 && k < s.n2
    ensures Planes(s, f, n)[i][j][k] == f(i, j, k)
  {
    if i < n - 1 {
      PlanesAt(s, f, n - 1, i, j, k);
    } else {
      LinesAt(s, f, i, s.n1, j, k);
    }
  }

  /** Entry (i, j, k) of `Tabulate(s, f)` is `f(i, j, k)`. */
  lemma TabulateAt(s: Shape3, f: (nat, nat, nat) -> real)
    ensures forall i, j, k :: InBounds(s, i, j, k) ==> At(Tabulate(s, f), i, j, k) == f(i, j, k)
  {
    forall i, j, k | InBounds(s, i, j, k)
      ensures At(Tabulate(s, f), i, j, k) == f(i, j, k)
    {
      PlanesAt(s, f, s.n0, i, j, k);
    }
  }

  function Zeros(s: Shape3): (a: Array3)
    ensures a.shape == s
    ensures forall i, j, k :: InBounds(s, i, j, k) ==> At(a, i, j, k) == 0.0
  {
    var zero := (i: nat, j: nat, k: nat) => 0.0;
    TabulateAt(s, zero);
    Tabulate(s, zero)
  }

  /** Two arrays with the same shape and the same entries are the same array. */
  lemma {:induction false} Extensionality(a: Array3, b: Array3)
    requires a.shape == b.shape
    requires forall i, j, k :: InBounds(a.shape, i, j, k) ==> At(a, i, j, k) == At(b, i, j, k)
    ensures a == b
  {
    var s := a.shape;
    forall i | 0 <= i < s.n0
      ensures a.vals[i] == b.vals[i]
    {
      forall j | 0 <= j < s.n1
        ensures a.vals[i][j] == b.vals[i][j]
      {
        forall k | 0 <= k < s.n2
          ensures a.vals[i][j][k] == b.vals[i][j][k]
        {
          assert At(a, i, j, k) == At(b, i, j, k);
        }
      }
    }
  }

  /** numpy's `a.swapaxes(0, 1)` */
  function SwapAxes01(a: Array3): (b: Array3)
    ensures b.shape == Shape3(a.shape.n1, a.shape.n0, a.shape.n2)
    ensures forall i, j, k :: InBounds(a.shape, i, j, k) ==> At(b, j, i, k) == At(a, i, j, k)
  {
    var entry := (j: nat, i: nat, k: nat) => if InBounds(a.shape, i, j, k) then At(a, i, j, k) else 0.0;
    TabulateAt(Shape3(a.shape.n1, a.shape.n0, a.shape.n2), entry);
    Tabulate(Shape3(a.shape.n1, a.shape.n0, a.shape.n2), entry)
  }

  /** numpy's `a.swapaxes(0, 2)` */
  function SwapAxes02(a: Array3): (b: Array3)
    ensures b.shape == Shape3(a.shape.n2, a.shape.n1, a.shape.n0)
    ensures forall i, j, k :: InBounds(a.shape, i, j, k) ==> At(b, k, j, i) == At(a, i, j, k)
  {
    var entry := (k: nat, j: nat, i: nat) => if InBounds(a.shape, i, j, k) then At(a, i, j, k) else 0.0;
    TabulateAt(Shape3(a.shape.n2, a.shape.n1, a.shape.n0), entry);
    Tabulate(Shape3(a.shape.n2, a.shape.n1, a.shape.n0), entry)
  }

  /** numpy's `a.swapaxes(1, 2)` */
  function SwapAxes12(a: Array3): (b: Array3)
    ensures b.shape == Shape3(a.shape.n0, a.shape.n2, a.shape.n1)
    ensures forall i, j, k :: InBounds(a.shape, i, j, k) ==> At(b, i, k, j) == At(a, i, j, k)
  {
    var entry := (i: nat, k: nat, j: nat) => if InBounds(a.shape, i, j, k) then At(a, i, j, k) else 0.0;
    TabulateAt(Shape3(a.shape.n0, a.shape.n2, a.shape.n1), entry);
    Tabulate(Shape3(a.shape.n0, a.shape.n2, a.shape.n1), entry)
  }
}
