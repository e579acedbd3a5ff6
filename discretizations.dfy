/** The quadrature-weighted discretizations of src/space/defaultDiscretizations.py: a
    uniform discretization of an interval and a pixel discretization of a square, each
    wrapping a representation space `rn` and weighting its inner product, squared norm
    and sum with a scale factor fixed at construction. */
module Discretizations {
  import opened Results
  import opened RnSpaces
  import opened Decimal

  /** The domain of the parent function space: an interval from `begin` to `end`, a
      square from its lower corner `begin` to its upper corner `end` (components `[0]`
      and `[1]`), or any other set. */
  datatype Domain =
    | Interval(begin: real, end: real)
    | Square(lower: (real, real), upper: (real, real))
    | OtherSet

  /** The parent function space; `parent.equals` compares it by value. */
  datatype FunctionSpace = FunctionSpace(domain: Domain)

  /** A constructed discretization: its fields `parent`, `_rn`, (`cols`, `rows`) and
      `scale`. */
  datatype Discretization =
    | Uniform(parent: FunctionSpace, rn: RnSpace, scale: real)
    | Pixel(parent: FunctionSpace, rn: RnSpace, cols: nat, rows: nat, scale: real)

  const NotInterval := "Can only discretize intervals"
  const NotSquare := "Can only discretize Squares"
  const NotHilbertSpace := "RN has to be a hilbert space"
  const NotAlgebra := "RN has to be an algebra"

  /** The message of a pixel discretization whose `rn` has the wrong dimension. */
  function DimensionMessage(cols: nat, rows: nat, dimension: nat): string {
    "Dimensions do not match, expected " + NatToString(cols) + "x" + NatToString(rows)
      + " = " + NatToString(cols * rows) + ", got " + NatToString(dimension)
  }

  /** `makeUniformDiscretization(parent, rn)`: the capability checks in order, then the
      trapezoid step `(end - begin) / (n - 1)`, which divides by zero when n is 1. */
  function MakeUniform(parent: FunctionSpace, rn: RnSpace): (r: Result<Discretization>)
    ensures !parent.domain.Interval? ==> r == Err(NotImplementedError(NotInterval))
    ensures parent.domain.Interval? && !rn.isHilbertSpace ==>
              r == Err(NotImplementedError(NotHilbertSpace))
    ensures parent.domain.Interval? && rn.isHilbertSpace && !rn.isAlgebra ==>
              r == Err(NotImplementedError(NotAlgebra))
    ensures parent.domain.Interval? && rn.isHilbertSpace && rn.isAlgebra && rn.dimension == 1 ==>
              r == Err(ZeroDivisionError)
    ensures r.Ok? <==> parent.domain.Interval? && rn.isHilbertSpace && rn.isAlgebra && rn.dimension != 1
    ensures r.Ok? ==> r.value.Uniform? && r.value.parent == parent && r.value.rn == rn
    ensures r.Ok? ==>
              r.value.scale * (rn.dimension as real - 1.0) == parent.domain.end - parent.domain.begin
  {
    if !parent.domain.Interval? then Err(NotImplementedError(NotInterval))
    else if !rn.isHilbertSpace then Err(NotImplementedError(NotHilbertSpace))
    else if !rn.isAlgebra then Err(NotImplementedError(NotAlgebra))
    else if rn.dimension == 1 then Err(ZeroDivisionError)
    else
      var scale := (parent.domain.end - parent.domain.begin) / (rn.dimension as real - 1.0);
      Ok(Uniform(parent, rn, scale))
  }

  /** `makePixelDiscretization(parent, rn, cols, rows)`: the capability checks in order,
      the dimension check, then `dx * dy` with `dx = (end[1] - begin[0]) / (cols - 1)` and
      `dy = (end[1] - begin[1]) / (rows - 1)`, each of which divides by zero on a count
      of 1. */
  function MakePixel(parent: FunctionSpace, rn: RnSpace, cols: nat, rows: nat): (r: Result<Discretization>)
    ensures !parent.domain.Square? ==> r == Err(NotImplementedError(NotSquare))
    ensures parent.domain.Square? && !rn.isHilbertSpace ==>
              r == Err(NotImplementedError(NotHilbertSpace))
    ensures parent.domain.Square? && rn.isHilbertSpace && !rn.isAlgebra ==>
              r == Err(NotImplementedError(NotAlgebra))
    ensures parent.domain.Square? && rn.isHilbertSpace && rn.isAlgebra && rn.dimension != cols * rows ==>
              r == Err(NotImplementedError(DimensionMessage(cols, rows, rn.dimension)))
    ensures (&& parent.domain.Square? && rn.isHilbertSpace && rn.isAlgebra
             && rn.dimension == cols * rows && (cols == 1 || rows == 1)) ==> r == Err(ZeroDivisionError)
    ensures r.Ok? <==> && parent.domain.Square? && rn.isHilbertSpace && rn.isAlgebra
                       && rn.dimension == cols * rows && cols != 1 && rows != 1
    ensures r.Ok? ==> r.value.Pixel? && r.value.parent == parent && r.value.rn == rn
                      && r.value.cols == cols && r.value.rows == rows
    ensures r.Ok? ==>
              var b, e := parent.domain.lower, parent.domain.upper;
              r.value.scale * ((cols as real - 1.0) * (rows as real - 1.0)) == (e.1 - b.0) * (e.1 - b.1)
  {
    if !parent.domain.Square? then Err(NotImplementedError(NotSquare))
    else if !rn.isHilbertSpace then Err(NotImplementedError(NotHilbertSpace))
    else if !rn.isAlgebra then Err(NotImplementedError(NotAlgebra))
    else if rn.dimension != cols * rows then Err(NotImplementedError(DimensionMessage(cols, rows, rn.dimension)))
    else if cols == 1 || rows == 1 then Err(ZeroDivisionError)
    else
      var b, e := parent.domain.lower, parent.domain.upper;
      var dx := (e.1 - b.0) / (cols as real - 1.0);
      var dy := (e.1 - b.1) / (rows as real - 1.0);
      StepProduct(e.1 - b.0, cols as real - 1.0, e.1 - b.1, rows as real - 1.0);
      Ok(Pixel(parent, rn, cols, rows, dx * dy))
  }

  lemma StepProduct(a: real, m: real, c: real, n: real)
    requires m != 0.0 && n != 0.0
    ensures (a / m) * (c / n) * (m * n) == a * c
  {

  }

  /** A discretization as its constructor builds it. */
  predicate WellFormed(d: Discretization) {
    match d
    case Uniform(parent, rn, _) => MakeUniform(parent, rn) == Ok(d)
    case Pixel(parent, rn, cols, rows, _) => MakePixel(parent, rn, cols, rows) == Ok(d)
  }

  /** `innerImpl`: the `rn` inner product weighted by the scale. It is symmetric, and
      positive semi-definite when the scale is nonnegative. */
  function Inner(d: Discretization, u: seq<real>, v: seq<real>): (r: real)
    requires |u| == |v|
    ensures r == d.scale * Dot(v, u)
    ensures u == v && d.scale >= 0.0 ==> r >= 0.0
  {
    DotSymmetric(u, v);
    DotSelfNonnegative(u);
    Dot(u, v) * d.scale
  }

  /** `normSqImpl`: the `rn` squared norm weighted by the scale. */
  function NormSquared(d: Discretization, v: seq<real>): (r: real)
    ensures r == Inner(d, v, v)
    ensures d.scale >= 0.0 ==> r >= 0.0
  {
    NormSq(v) * d.scale
  }

  /** `integrate`: the `rn` sum weighted by the scale, which is the inner product with
      the vector of ones. */
  function Integrate(d: Discretization, v: seq<real>): (r: real)
    ensures r == Inner(d, v, Ones(|v|))
  {
    DotOnesIsSum(v);
    Sum(v) * d.scale
  }

  /** The weighted inner product is additive in its first argument. */
  lemma InnerAdditive(d: Discretization, u: seq<real>, v: seq<real>, w: seq<real>)
    requires |u| == |v| == |w|
    ensures Inner(d, Add(u, v), w) == Inner(d, u, w) + Inner(d, v, w)
  {
    DotAdditive(u, v, w);
  }

  /** The integral is additive. */
  lemma IntegrateAdditive(d: Discretization, u: seq<real>, v: seq<real>)
    requires |u| == |v|
    ensures Integrate(d, Add(u, v)) == Integrate(d, u) + Integrate(d, v)
  {
    SumAdditive(u, v);
  }

  /** The uniform weights are a plain sum with the trapezoid step and no halved end
      points: the constant one integrates to the interval's length plus one step. */
  lemma UniformIntegrateOnes(parent: FunctionSpace, rn: RnSpace)
    requires MakeUniform(parent, rn).Ok?
    ensures var d := MakeUniform(parent, rn).value;
      Integrate(d, Ones(rn.dimension)) == (parent.domain.end - parent.domain.begin) + d.scale
  {
    var d := MakeUniform(parent, rn).value;
    SumOnes(rn.dimension);
    assert Integrate(d, Ones(rn.dimension)) == rn.dimension as real * d.scale;
  }

  /** numpy's `linspace(start, stop, num)`: `num` evenly spaced values from `start` to
      `stop`, both included. */
  function Linspace(start: real, stop: real, num: nat): (xs: seq<real>)
    ensures |xs| == num
    ensures num >= 1 ==> xs[0] == start
    ensures num >= 2 ==> xs[num - 1] == stop
  {
    if num == 1 then [start]
    else
      var step := (stop - start) / (num as real - 1.0);
      var xs := seq(num, i => start + (i as real) * step);
      assert num >= 2 ==> xs[num - 1] == start + (num as real - 1.0) * step;
      xs
  }

  /** Consecutive values of a linspace differ by one step. */
  lemma LinspaceStep(start: real, stop: real, num: nat, i: nat)
    requires i + 1 < num
    ensures Linspace(start, stop, num)[i + 1] - Linspace(start, stop, num)[i]
              == (stop - start) / (num as real - 1.0)
  {

  }

  /** Uniform `points()`: the linspace of n points over the interval. */
  function UniformPoints(d: Discretization): (xs: seq<real>)
    requires d.Uniform? && d.parent.domain.Interval?
    ensures |xs| == d.rn.dimension
  {
    Linspace(d.parent.domain.begin, d.parent.domain.end, d.rn.dimension)
  }

  /** The points of a uniform discretization start at the interval's start, end at its
      end, and are one scale apart. */
  lemma UniformPointsSpacing(d: Discretization, i: nat)
    requires d.Uniform? && WellFormed(d) && d.rn.dimension >= 2
    ensures UniformPoints(d)[0] == d.parent.domain.begin
    ensures UniformPoints(d)[d.rn.dimension - 1] == d.parent.domain.end
    ensures i + 1 < d.rn.dimension ==> UniformPoints(d)[i + 1] - UniformPoints(d)[i] == d.scale
  {

  }

  /** The arguments of `makeVector`: a single function-space element `f`, to be sampled
      at the points, or anything else, handed to the vector constructor. */
  datatype VectorArgs<F> = Evaluate(f: F) | Coefficients(data: seq<real>)

  /** An element of a discretization's vector type. */
  datatype DiscreteVector = DiscreteVector(space: Discretization, data: seq<real>)

  /** Uniform `makeVector`. */
  function UniformMakeVector(d: Discretization, args: VectorArgs<real -> real>): (v: DiscreteVector)
    requires d.Uniform? && d.parent.domain.Interval?
    ensures v.space == d
    ensures args.Coefficients? ==> v.data == args.data
    ensures args.Evaluate? ==>
              && |v.data| == d.rn.dimension
              && forall i :: 0 <= i < |v.data| ==> v.data[i] == args.f(UniformPoints(d)[i])
    decreases args.Evaluate?
  {
    match args
    case Evaluate(f) =>
      var points := UniformPoints(d);
      UniformMakeVector(d, Coefficients(seq(|points|, i requires 0 <= i < |points| => f(points[i]))))
    case Coefficients(data) => DiscreteVector(d, data)
  }

  /** numpy's `meshgrid(xs, ys)`: two arrays of |ys| rows and |xs| columns, the first
      repeating `xs` along each row and the second `ys` down each column. */
  function Meshgrid(xs: seq<real>, ys: seq<real>): (m: (seq<seq<real>>, seq<seq<real>>))
    ensures |m.0| == |ys| && |m.1| == |ys|
    ensures forall r :: 0 <= r < |ys| ==> |m.0[r]| == |xs| && |m.1[r]| == |xs|
    ensures forall r, c :: 0 <= r < |ys| && 0 <= c < |xs| ==> m.0[r][c] == xs[c] && m.1[r][c] == ys[r]
  {
    (seq(|ys|, r => xs), seq(|ys|, r requires 0 <= r < |ys| => seq(|xs|, c => ys[r])))
  }

  /** Pixel `points()`: the mesh of the `cols` abscissae along axis 0 and the `rows`
      ordinates along axis 1. */
  function PixelPoints(d: Discretization): (m: (seq<seq<real>>, seq<seq<real>>))
    requires d.Pixel? && d.parent.domain.Square?
    ensures |m.0| == d.rows && |m.1| == d.rows
    ensures forall r :: 0 <= r < d.rows ==> |m.0[r]| == d.cols && |m.1[r]| == d.cols
    ensures var xs := Linspace(d.parent.domain.lower.0, d.parent.domain.upper.0, d.cols);
      forall r, c :: 0 <= r < d.rows && 0 <= c < d.cols ==> m.0[r][c] == xs[c]
    ensures var ys := Linspace(d.parent.domain.lower.1, d.parent.domain.upper.1, d.rows);
      forall r, c :: 0 <= r < d.rows && 0 <= c < d.cols ==> m.1[r][c] == ys[r]
  {
    var b, e := d.parent.domain.lower, d.parent.domain.upper;
    Meshgrid(Linspace(b.0, e.0, d.cols), Linspace(b.1, e.1, d.rows))
  }

  /** With two or more points along an axis, the pixel mesh runs from the square's lower
      corner to its upper corner along that axis. */
  lemma PixelPointsCorners(d: Discretization)
    requires d.Pixel? && d.parent.domain.Square?
    ensures var m, b, e := PixelPoints(d), d.parent.domain.lower, d.parent.domain.upper;
      && (forall r :: 0 <= r < d.rows && d.cols >= 2 ==> m.0[r][0] == b.0 && m.0[r][d.cols - 1] == e.0)
      && (forall c :: 0 <= c < d.cols && d.rows >= 2 ==> m.1[0][c] == b.1 && m.1[d.rows - 1][c] == e.1)
  {
  }

  /** numpy's `.flat` on a two-dimensional array: the rows one after another. */
  function Flat(m: seq<seq<real>>): seq<real> {
    if |m| == 0 then [] else Flat(m[..|m| - 1]) + m[|m| - 1]
  }

  lemma {:induction false} FlatLength(m: seq<seq<real>>, width: nat)
    requires forall r :: 0 <= r < |m| ==> |m[r]| == width
    ensures |Flat(m)| == |m| * width
  {
    if |m| > 0 {
      FlatLength(m[..|m| - 1], width);
    }
  }

  /** Entry (r, c) of a rectangular array is entry r * width + c of its flattening. */
  lemma {:induction false} FlatAt(m: seq<seq<real>>, width: nat, r: nat, c: nat)
    requires forall i :: 0 <= i < |m| ==> |m[i]| == width
    requires r < |m| && c < width
    ensures r * width + c < |Flat(m)| && Flat(m)[r * width + c] == m[r][c]
  {
    var last := |m| - 1;
    var init := m[..last];
    FlatLength(init, width);
    assert Flat(m) == Flat(init) + m[last];
    assert |Flat(init)| == last * width;
    if r < last {
      FlatAt(init, width, r, c);
    } else {
      assert r * width + c == |Flat(init)| + c;
    }
  }

  /** The sample values of `f` at the mesh points, flattened row by row. */
  function PixelSamples(d: Discretization, f: (real, real) -> real): (data: seq<real>)
    requires d.Pixel? && d.parent.domain.Square?
    ensures |data| == d.rows * d.cols
  {
    var m := PixelPoints(d);
    var xm, ym := m.0, m.1;
    FlatLength(xm, d.cols);
    FlatLength(ym, d.cols);
    var xf, yf := Flat(xm), Flat(ym);
    seq(|xf|, k requires 0 <= k < |xf| => f(xf[k], yf[k]))
  }

  /** Pixel `makeVector`. */
  function PixelMakeVector(d: Discretization, args: VectorArgs<(real, real) -> real>): (v: DiscreteVector)
    requires d.Pixel? && d.parent.domain.Square?
    ensures v.space == d
    ensures args.Coefficients? ==> v.data == args.data
    ensures args.Evaluate? ==> v.data == PixelSamples(d, args.f)
    decreases args.Evaluate?
  {
    match args
    case Evaluate(f) => PixelMakeVector(d, Coefficients(PixelSamples(d, f)))
    case Coefficients(data) => DiscreteVector(d, data)
  }

  /** Component `r * cols + c` of the vector sampled from `f` is `f` at abscissa c and
      ordinate r. */
  lemma PixelMakeVectorAt(d: Discretization, f: (real, real) -> real, r: nat, c: nat)
    requires d.Pixel? && d.parent.domain.Square?
    requires r < d.rows && c < d.cols
    ensures var rows, cols, b, e := d.rows, d.cols, d.parent.domain.lower, d.parent.domain.upper;
      var v := PixelMakeVector(d, Evaluate(f)).data;
      && |v| == rows * cols
      && r * cols + c < |v|
      && v[r * cols + c] == f(Linspace(b.0, e.0, cols)[c], Linspace(b.1, e.1, rows)[r])
  {
    var m := PixelPoints(d);
    var xm, ym := m.0, m.1;
    FlatAt(xm, d.cols, r, c);
    FlatAt(ym, d.cols, r, c);
  }

  /** The pixel scale is the area of a mesh cell exactly when the square's two upper
      corner components agree or its height is zero: `dx` is taken from `end[1]`, not
      `end[0]`. */
  lemma PixelScaleIsCellArea(d: Discretization)
    requires d.Pixel? && WellFormed(d)
    ensures var b, e := d.parent.domain.lower, d.parent.domain.upper;
      var cellWidth := (e.0 - b.0) / (d.cols as real - 1.0);
      var cellHeight := (e.1 - b.1) / (d.rows as real - 1.0);
      d.scale == cellWidth * cellHeight <==> e.1 == e.0 || e.1 == b.1
  {
    var b, e := d.parent.domain.lower, d.parent.domain.upper;
    var m, n := d.cols as real - 1.0, d.rows as real - 1.0;
    StepProduct(e.1 - b.0, m, e.1 - b.1, n);
    StepProduct(e.0 - b.0, m, e.1 - b.1, n);
    var cellWidth := (e.0 - b.0) / m;
    var cellHeight := (e.1 - b.1) / n;
    assert d.scale * (m * n) == (e.1 - b.0) * (e.1 - b.1);
    assert cellWidth * cellHeight * (m * n) == (e.0 - b.0) * (e.1 - b.1);
    Cancel(d.scale, cellWidth * cellHeight, m * n);
    assert (e.1 - b.0) * (e.1 - b.1) - (e.0 - b.0) * (e.1 - b.1) == (e.1 - e.0) * (e.1 - b.1);
    ZeroProduct(e.1 - e.0, e.1 - b.1);
  }

  lemma Cancel(x: real, y: real, k: real)
    requires k != 0.0
    ensures x * k == y * k <==> x == y
  {

  }

  lemma ZeroProduct(a: real, b: real)
    ensures a * b == 0.0 <==> a == 0.0 || b == 0.0
  {

  }

  /** `UniformDiscretization.__eq__`: another uniform discretization with an equal parent
      and an equal `rn`. Between constructed discretizations it is value equality. */
  function UniformEq(d: Discretization, other: Discretization): (b: bool)
    requires d.Uniform?
    ensures WellFormed(d) && WellFormed(other) ==> (b <==> d == other)
  {
    other.Uniform? && d.parent == other.parent && d.rn == other.rn
  }

  /** `PixelDiscretization.equals`: another pixel discretization with the same columns,
      rows and `rn`; the parents are not compared, so between constructed
      discretizations it is value equality only together with equal parents. */
  function PixelEquals(d: Discretization, other: Discretization): (b: bool)
    requires d.Pixel?
    ensures WellFormed(d) && WellFormed(other) ==> (b && d.parent == other.parent <==> d == other)
  {
    other.Pixel? && d.cols == other.cols && d.rows == other.rows && d.rn == other.rn
  }

  /** Two constructed pixel discretizations can be `equals` yet weight the inner
      product differently, because their parents differ. */
  lemma PixelEqualsIgnoresParent()
    ensures exists d: Discretization, other: Discretization :: && d.Pixel? && WellFormed(d) && WellFormed(other) && PixelEquals(d, other)
                               && Inner(d, Ones(4), Ones(4)) != Inner(other, Ones(4), Ones(4))
  {
    var rn := RnSpace(4, true, true);
    var d := MakePixel(FunctionSpace(Square((0.0, 0.0), (1.0, 1.0))), rn, 2, 2).value;
    var other := MakePixel(FunctionSpace(Square((0.0, 0.0), (2.0, 2.0))), rn, 2, 2).value;
    assert d.scale == 1.0 && other.scale == 4.0;
    assert Dot(Ones(4), Ones(4)) == 4.0 by {
      DotOnesIsSum(Ones(4));
      SumOnes(4);
    }
    assert Inner(d, Ones(4), Ones(4)) != Inner(other, Ones(4), Ones(4));
  }
}
